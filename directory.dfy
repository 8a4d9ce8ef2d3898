/**
 * What the provider sees of the LDAP directory: search results made of a name
 * and attributes, the queries it sends, and the answers, which may end in a
 * naming exception after some entries have been delivered.
 */
module Directory {
  import opened Wrappers
  import opened Strings

  /** One attribute of an entry: its id and its values, in order. */
  datatype Attr = Attr(id: String, values: seq<String>)

  /** A SearchResult: the entry's relative name and its attributes. */
  datatype Entry = Entry(name: String, attrs: seq<Attr>)

  /** A search request: the base name (null when `search.name` is not
      configured), the filter, the attributes asked for (null for all of them)
      and the count limit of the SearchControls in use. */
  datatype Query = Query(base: Option<String>, filter: String, returning: Option<seq<String>>, countLimit: int)

  /** The naming exceptions a search can raise while its results are read. */
  datatype Failure = SizeLimitExceeded | NamingError

  datatype End = Complete | Fails(failure: Failure)

  /** The entries a search delivered before it ended, and how it ended. */
  datatype Response = Response(entries: seq<Entry>, end: End)

  /** The directory: the answer it gives to each query. */
  type Server = Query -> Response

  /** The javax.naming.directory.SearchControls of a search: only the fields
      the provider reads or changes. */
  class SearchControls {
    var returning: Option<seq<String>>
    var countLimit: int

    constructor (returning: Option<seq<String>>, countLimit: int)
      ensures this.returning == returning && this.countLimit == countLimit
    {
      this.returning := returning;
      this.countLimit := countLimit;
    }
  }

  /** Attributes.get: the attribute with this id, if any. */
  function Find(attrs: seq<Attr>, id: String): (r: Option<Attr>)
    ensures r.Some? ==> r.value in attrs && r.value.id == id
    ensures r.None? ==> forall a :: a in attrs ==> a.id != id
  {
    if |attrs| == 0 then None
    else if attrs[0].id == id then Some(attrs[0])
    else Find(attrs[1..], id)
  }

  /** `attrs.get(id).get()`: the first value of the attribute; None where Java
      throws (no such attribute, or an attribute without values). */
  function FirstValue(attrs: seq<Attr>, id: String): (r: Option<String>)
    ensures r.Some? <==> Find(attrs, id).Some? && |Find(attrs, id).value.values| > 0
  {
    match Find(attrs, id)
    case None => None
    case Some(a) => if |a.values| == 0 then None else Some(a.values[0])
  }

  function Without(attrs: seq<Attr>, id: String): (r: seq<Attr>)
    ensures forall a :: a in r <==> a in attrs && a.id != id
  {
    if |attrs| == 0 then []
    else (if attrs[0].id == id then [] else [attrs[0]]) + Without(attrs[1..], id)
  }

  /** Attributes.put: replaces the attribute with the same id, or adds it. */
  function Put(attrs: seq<Attr>, a: Attr): seq<Attr> {
    Without(attrs, a.id) + [a]
  }

  lemma {:induction false} FindWithout(attrs: seq<Attr>, id: String, other: String)
    requires other != id
    ensures Find(Without(attrs, id), other) == Find(attrs, other)
    decreases |attrs|
  {
    if |attrs| > 0 {
      FindWithout(attrs[1..], id, other);
      var rest := Without(attrs[1..], id);
      if attrs[0].id == id {
        assert Without(attrs, id) == rest;
      } else {
        assert Without(attrs, id) == [attrs[0]] + rest;
        assert ([attrs[0]] + rest)[1..] == rest;
      }
    }
  }

  lemma FindAppendAbsent(xs: seq<Attr>, a: Attr, id: String)
    requires Find(xs, id).None?
    ensures Find(xs + [a], id) == if a.id == id then Some(a) else None
    decreases |xs|
  {
    if |xs| == 0 {
      assert xs + [a] == [a];
    } else {
      assert (xs + [a])[1..] == xs[1..] + [a];
      FindAppendAbsent(xs[1..], a, id);
    }
  }

  lemma FindAppendPresent(xs: seq<Attr>, a: Attr, id: String)
    requires Find(xs, id).Some?
    ensures Find(xs + [a], id) == Find(xs, id)
    decreases |xs|
  {
    if xs[0].id != id {
      assert (xs + [a])[1..] == xs[1..] + [a];
      FindAppendPresent(xs[1..], a, id);
    }
  }

  /** After put, the attribute is found under its id, and every other
      attribute is found as before. */
  lemma {:induction false} PutThenFind(attrs: seq<Attr>, a: Attr, id: String)
    ensures Find(Put(attrs, a), id) == if id == a.id then Some(a) else Find(attrs, id)
  {
    var w := Without(attrs, a.id);
    if id == a.id {
      FindAppendAbsent(w, a, id);
    } else {
      FindWithout(attrs, a.id, id);
      if Find(w, id).Some? {
        FindAppendPresent(w, a, id);
      } else {
        FindAppendAbsent(w, a, id);
      }
    }
  }

  // -------------------------------------------------------- range detection

  /** Some attribute id, lower-cased, starts with `membersAttribute;range=`. */
  predicate HasMembersRange(attrs: seq<Attr>, membersAttribute: String) {
    exists i :: 0 <= i < |attrs| && StartsWith(Lower(attrs[i].id), membersAttribute + ";range=")
  }

  /** containsMembersRange: scans the attribute ids until one announces a range. */
  method ContainsMembersRange(attrs: seq<Attr>, membersAttribute: String) returns (present: bool)
    ensures present == HasMembersRange(attrs, membersAttribute)
  {
    present := false;
    var rangeAttribute := membersAttribute + ";range=";
    var i := 0;
    while i < |attrs| && !present
      invariant 0 <= i <= |attrs|
      invariant present <==> exists j :: 0 <= j < i && StartsWith(Lower(attrs[j].id), rangeAttribute)
    {
      present := StartsWith(Lower(attrs[i].id), rangeAttribute);
      i := i + 1;
    }
  }

  predicate HasUpper(s: String) {
    exists i :: 0 <= i < |s| && 'A' <= s[i] <= 'Z'
  }

  /** The ids are lower-cased but the configured attribute name is not, so a
      members attribute spelt with a capital letter is never seen as ranged. */
  lemma UpperCaseAttributeNeverRanged(attrs: seq<Attr>, membersAttribute: String)
    requires HasUpper(membersAttribute)
    ensures !HasMembersRange(attrs, membersAttribute)
  {
    var k :| 0 <= k < |membersAttribute| && 'A' <= membersAttribute[k] <= 'Z';
    var p := membersAttribute + ";range=";
    assert p[k] == membersAttribute[k];
    forall i | 0 <= i < |attrs|
      ensures !StartsWith(Lower(attrs[i].id), p)
    {
      var l := Lower(attrs[i].id);
      if |p| <= |l| {
        assert l[k] == LowerChar(attrs[i].id[k]);
        assert l[..|p|][k] != p[k];
      }
    }
  }

  /** `attr;range=low-high`, the id of one page of an Active Directory ranged
      attribute. */
  function RangeAttributeName(membersAttribute: String, low: int, high: int): String {
    membersAttribute + ";range=" + IntToString(low) + "-" + IntToString(high)
  }
}
