/**
 * From a directory entry to a group: ldapToJahiaGroup, the copying of
 * configured attributes to group properties (mapLDAPToJahiaProperties) and
 * the resolution of members through the user provider (getGroupMembers).
 */
module Translate {
  import opened Wrappers
  import opened Strings
  import opened Directory
  import opened Search

  /** A user of the user provider, as groups see it. */
  datatype User = User(key: String, dn: String)

  /** The calls into the LDAP user provider. searchUsers gives its users in
      the order their set is iterated. */
  datatype UserProvider = UserProvider(
    searchUsers: map<String, String> -> seq<User>,
    lookupUserByKey: (String, String) -> Option<User>,
    lookupUserFromDN: String -> Option<User>)

  /** A JahiaLDAPGroup: the provider it comes from, its name and key, its
      site, its members (null when they were not loaded), its properties,
      whether it is a dynamic group, and whether its members were preloaded. */
  datatype Group = Group(providerKey: String, name: String, groupKey: String, siteID: int,
                         members: Option<map<String, User>>, props: map<String, String>,
                         dynamic: bool, preloaded: bool)

  // ------------------------------------------------------- attribute values

  /** Every value followed by a newline, as the StringBuilder holds them. */
  function Terminated(vs: seq<String>): String {
    if |vs| == 0 then [] else Terminated(vs[..|vs| - 1]) + vs[|vs| - 1] + "\n"
  }

  lemma {:induction false} TerminatedJoin(vs: seq<String>)
    requires |vs| > 0
    ensures Terminated(vs) == Join(vs, '\n') + "\n"
    decreases |vs|
  {
    var n := |vs|;
    if n > 1 {
      TerminatedJoin(vs[..n - 1]);
      JoinSnoc(vs[..n - 1], vs[n - 1], '\n');
      assert vs[..n - 1] + [vs[n - 1]] == vs;
    } else {
      assert vs[..0] == [];
    }
  }

  lemma {:induction false} JoinSnoc(vs: seq<String>, v: String, d: char)
    requires |vs| > 0
    ensures Join(vs + [v], d) == Join(vs, d) + [d] + v
    decreases |vs|
  {
    if |vs| == 1 {
      assert (vs + [v])[1..] == [v];
    } else {
      assert (vs + [v])[1..] == vs[1..] + [v];
      JoinSnoc(vs[1..], v, d);
    }
  }

  /** The value of one attribute: each value followed by a newline, then the
      last newline dropped. That is the values joined by newlines, with no
      trailing newline; when no value holds a newline, splitting the result
      gives the values back (Strings.SplitJoin). */
  method JoinValues(values: seq<String>) returns (s: String)
    ensures s == Join(values, '\n')
  {
    var buf: String := [];
    for i := 0 to |values|
      invariant buf == Terminated(values[..i])
    {
      assert values[..i + 1][..i] == values[..i];
      buf := buf + values[i] + "\n";
    }
    assert values[..|values|] == values;
    s := buf;
    if |values| > 0 {
      TerminatedJoin(values);
    }
    if EndsWith(s, "\n") {
      s := s[..|s| - 1];
    }
  }

  // ------------------------------------------------------ group properties

  /** The properties read from the attributes, in enumeration order: each
      attribute under its id, and an attribute whose id is `objectClass` in
      any case also under `objectClass`. */
  function AttrProps(attrs: seq<Attr>): map<String, String> {
    if |attrs| == 0 then map[]
    else
      var a := attrs[|attrs| - 1];
      var v := Join(a.values, '\n');
      var p := AttrProps(attrs[..|attrs| - 1])[a.id := v];
      if EqualsIgnoreCase(a.id, "objectClass") then p["objectClass" := v] else p
  }

  /** The group key: the value of the first attribute named by the search
      attribute; none when that attribute is absent or not configured. */
  function GroupKey(attrs: seq<Attr>, searchAttribute: Option<String>): Option<String> {
    if searchAttribute.None? then None
    else match Find(attrs, searchAttribute.value)
      case None => None
      case Some(a) => Some(Join(a.values, '\n'))
  }

  /** A property is present exactly when some attribute has that id, or, for
      `objectClass`, when some attribute has that id in another case. */
  lemma {:induction false} AttrPropsKeys(attrs: seq<Attr>, id: String)
    ensures id in AttrProps(attrs) <==>
      (exists i :: 0 <= i < |attrs| && attrs[i].id == id) ||
      (id == "objectClass" && exists i :: 0 <= i < |attrs| && EqualsIgnoreCase(attrs[i].id, "objectClass"))
    decreases |attrs|
  {
    if |attrs| > 0 {
      var n := |attrs|;
      var front := attrs[..n - 1];
      AttrPropsKeys(front, id);
      if (exists i :: 0 <= i < n - 1 && front[i].id == id) {
        var i :| 0 <= i < n - 1 && front[i].id == id;
        assert attrs[i].id == id;
      }
      if (exists i :: 0 <= i < n - 1 && EqualsIgnoreCase(front[i].id, "objectClass")) {
        var i :| 0 <= i < n - 1 && EqualsIgnoreCase(front[i].id, "objectClass");
        assert EqualsIgnoreCase(attrs[i].id, "objectClass");
      }
      if (exists i :: 0 <= i < n && attrs[i].id == id) {
        var i :| 0 <= i < n && attrs[i].id == id;
        if i < n - 1 {
          assert front[i].id == id;
        }
      }
      if (exists i :: 0 <= i < n && EqualsIgnoreCase(attrs[i].id, "objectClass")) {
        var i :| 0 <= i < n && EqualsIgnoreCase(attrs[i].id, "objectClass");
        if i < n - 1 {
          assert EqualsIgnoreCase(front[i].id, "objectClass");
        }
      }
    }
  }

  /** The loop of ldapToJahiaGroup over the attributes: the properties, and
      the key taken from the first attribute named by the search attribute. */
  method ReadAttributes(attrs: seq<Attr>, searchAttribute: Option<String>)
    returns (groupProps: map<String, String>, usingGroupKey: Option<String>)
    ensures groupProps == AttrProps(attrs)
    ensures usingGroupKey == GroupKey(attrs, searchAttribute)
  {
    groupProps := map[];
    usingGroupKey := None;
    for i := 0 to |attrs|
      invariant groupProps == AttrProps(attrs[..i])
      invariant usingGroupKey == GroupKey(attrs[..i], searchAttribute)
    {
      var a := attrs[i];
      assert attrs[..i + 1] == attrs[..i] + [a];
      assert attrs[..i + 1][..i] == attrs[..i];
      var attrValue := JoinValues(a.values);
      if usingGroupKey.None? && searchAttribute.Some? {
        FindAppendAbsent(attrs[..i], a, searchAttribute.value);
        if a.id == searchAttribute.value {
          usingGroupKey := Some(attrValue);
        }
      } else if searchAttribute.Some? {
        FindAppendPresent(attrs[..i], a, searchAttribute.value);
      }
      groupProps := groupProps[a.id := attrValue];
      if EqualsIgnoreCase(a.id, "objectClass") {
        groupProps := groupProps["objectClass" := attrValue];
      }
    }
    assert attrs[..|attrs|] == attrs;
  }

  // ------------------------------------------------------ property mapping

  /** mapLDAPToJahiaProperties with the mapping visited in `order`: each
      entry `k -> v` copies the property `v`, when present, to `k`. A copy
      reads the properties as earlier copies left them. */
  function CopyMapped(p: map<String, String>, mapping: map<String, String>, order: seq<String>): map<String, String>
  {
    if |order| == 0 then p
    else
      var q := CopyMapped(p, mapping, order[..|order| - 1]);
      var k := order[|order| - 1];
      if k in mapping && mapping[k] in q then q[k := q[mapping[k]]] else q
  }

  /** mapLDAPToJahiaProperties, iterating the mapping in an unspecified
      order, which is returned. */
  method MapLDAPToJahiaProperties(groupProps: map<String, String>, mapping: map<String, String>)
    returns (r: map<String, String>, order: seq<String>)
    ensures IsEnumeration(order, mapping.Keys)
    ensures r == CopyMapped(groupProps, mapping, order)
  {
    r := groupProps;
    order := [];
    var rest := mapping.Keys;
    while rest != {}
      invariant rest <= mapping.Keys
      invariant forall x :: x in order <==> x in mapping.Keys - rest
      invariant forall i, j :: 0 <= i < j < |order| ==> order[i] != order[j]
      invariant r == CopyMapped(groupProps, mapping, order)
      decreases |rest|
    {
      var k :| k in rest;
      assert k !in order;
      if mapping[k] in r {
        r := r[k := r[mapping[k]]];
      }
      assert (order + [k])[..|order|] == order;
      order := order + [k];
      rest := rest - {k};
    }
  }

  /** When no mapped attribute is itself a mapping key, the copies do not
      interfere and the order does not matter: every visited key `k` holds
      the value of its attribute when that is present and is left alone
      otherwise, and every property that is not a mapping key is kept. */
  lemma {:induction false} CopyMappedValues(p: map<String, String>, mapping: map<String, String>,
                                            order: seq<String>, x: String)
    requires forall k :: k in mapping ==> mapping[k] !in mapping
    requires forall i :: 0 <= i < |order| ==> order[i] in mapping
    ensures var r := CopyMapped(p, mapping, order);
            if x in mapping && x in order && mapping[x] in p then x in r && r[x] == p[mapping[x]]
            else (x in r <==> x in p) && (x in p ==> r[x] == p[x])
    decreases |order|
  {
    if |order| > 0 {
      var n := |order|;
      var front := order[..n - 1];
      var k := order[n - 1];
      CopyMappedValues(p, mapping, front, x);
      CopyMappedValues(p, mapping, front, mapping[k]);
      if x in order && x != k {
        var i :| 0 <= i < n && order[i] == x;
        assert front[i] == x;
      }
    }
  }

  // ------------------------------------------------------------- members

  /** The attribute listing the members: the dynamic members attribute
      (default `memberurl`) or the static one, which may be unset. */
  function MembersAttributeName(props: Props, dynamic: bool): Option<String> {
    if dynamic then Some(Get(props, "dynamic.members.attribute").GetOr("memberurl"))
    else Get(props, "members.attribute")
  }

  /** The member values of the entry; none when the attribute is unset or
      absent (the NullPointerException getGroupMembers catches). */
  function MemberValues(props: Props, attrs: seq<Attr>, dynamic: bool): seq<String> {
    match MembersAttributeName(props, dynamic)
    case None => []
    case Some(id) =>
      match Find(attrs, id)
      case None => []
      case Some(a) => a.values
  }

  /** The user attribute static members name, when one is configured. */
  function UserAttribute(props: Props): Option<String> {
    var o := Get(props, "members.user.attibute.map");
    if o.Some? && |o.value| > 0 then o else None
  }

  /** The user a static member value stands for. */
  function LookupMember(users: UserProvider, value: String, userAttribute: Option<String>): Option<User> {
    if userAttribute.Some? then users.lookupUserByKey(value, userAttribute.value)
    else users.lookupUserFromDN(value)
  }

  /** Static members in value order; a later user with the same key wins. */
  function StaticMembers(users: UserProvider, values: seq<String>, userAttribute: Option<String>): map<String, User> {
    if |values| == 0 then map[]
    else
      var m := StaticMembers(users, values[..|values| - 1], userAttribute);
      match LookupMember(users, values[|values| - 1], userAttribute)
      case None => m
      case Some(u) => m[u.key := u]
  }

  /** The search for the users of one member URL. */
  function UrlQuery(url: String): map<String, String> {
    map["ldap.url" := url]
  }

  function PutUsers(m: map<String, User>, us: seq<User>): map<String, User> {
    if |us| == 0 then m else PutUsers(m, us[..|us| - 1])[us[|us| - 1].key := us[|us| - 1]]
  }

  /** Dynamic members: every user of every member URL, in order. */
  function DynamicMembers(users: UserProvider, urls: seq<String>): map<String, User> {
    if |urls| == 0 then map[]
    else PutUsers(DynamicMembers(users, urls[..|urls| - 1]), users.searchUsers(UrlQuery(urls[|urls| - 1])))
  }

  /** getGroupMembers without the exception handling. */
  function Members(props: Props, users: UserProvider, attrs: seq<Attr>, dynamic: bool): map<String, User> {
    var values := MemberValues(props, attrs, dynamic);
    if dynamic then DynamicMembers(users, values) else StaticMembers(users, values, UserAttribute(props))
  }

  method AddUsers(m: map<String, User>, us: seq<User>) returns (r: map<String, User>)
    ensures r == PutUsers(m, us)
  {
    r := m;
    for i := 0 to |us|
      invariant r == PutUsers(m, us[..i])
    {
      assert us[..i + 1][..i] == us[..i];
      r := r[us[i].key := us[i]];
    }
    assert us[..|us|] == us;
  }

  /** getGroupMembers(sr, dynamic). */
  method GetGroupMembers(props: Props, users: UserProvider, attrs: seq<Attr>, dynamic: bool)
    returns (members: map<String, User>)
    ensures members == Members(props, users, attrs, dynamic)
  {
    members := map[];
    var answer := MemberValues(props, attrs, dynamic);
    var userAttribute := UserAttribute(props);
    for i := 0 to |answer|
      invariant dynamic ==> members == DynamicMembers(users, answer[..i])
      invariant !dynamic ==> members == StaticMembers(users, answer[..i], userAttribute)
    {
      var userKey := answer[i];
      assert answer[..i + 1][..i] == answer[..i];
      if dynamic {
        var t := users.searchUsers(UrlQuery(userKey));
        members := AddUsers(members, t);
      } else {
        var user := LookupMember(users, userKey, userAttribute);
        if user.Some? {
          members := members[user.value.key := user.value];
        }
      }
    }
    assert answer[..|answer|] == answer;
  }

  /** Members are keyed by user key. */
  lemma {:induction false} PutUsersKeyed(m: map<String, User>, us: seq<User>)
    requires forall k :: k in m ==> m[k].key == k
    ensures forall k :: k in PutUsers(m, us) ==> PutUsers(m, us)[k].key == k
    ensures forall k :: k in PutUsers(m, us) <==> k in m || exists i :: 0 <= i < |us| && us[i].key == k
    decreases |us|
  {
    if |us| > 0 {
      var n := |us|;
      PutUsersKeyed(m, us[..n - 1]);
      forall k | exists i :: 0 <= i < n && us[i].key == k
        ensures k in PutUsers(m, us)
      {
        var i :| 0 <= i < n && us[i].key == k;
        if i < n - 1 {
          assert us[..n - 1][i].key == k;
        }
      }
      forall k | k in PutUsers(m, us) && k !in m && k != us[n - 1].key
        ensures exists i :: 0 <= i < |us| && us[i].key == k
      {
        var i :| 0 <= i < n - 1 && us[..n - 1][i].key == k;
        assert us[i].key == k;
      }
    }
  }

  /** Static members are keyed by user key, and a key is present exactly
      when some member value resolves to a user with it. */
  lemma {:induction false} StaticMembersKeyed(users: UserProvider, values: seq<String>,
                                              userAttribute: Option<String>, k: String)
    ensures var m := StaticMembers(users, values, userAttribute);
            (k in m ==> m[k].key == k) &&
            (k in m <==> exists i :: 0 <= i < |values| && LookupMember(users, values[i], userAttribute).Some? &&
                                     LookupMember(users, values[i], userAttribute).value.key == k)
    decreases |values|
  {
    if |values| > 0 {
      var n := |values|;
      var front := values[..n - 1];
      StaticMembersKeyed(users, front, userAttribute, k);
      if (exists i :: 0 <= i < n - 1 && LookupMember(users, front[i], userAttribute).Some? &&
                      LookupMember(users, front[i], userAttribute).value.key == k) {
        var i :| 0 <= i < n - 1 && LookupMember(users, front[i], userAttribute).Some? &&
                 LookupMember(users, front[i], userAttribute).value.key == k;
        assert front[i] == values[i];
      }
      if (exists i :: 0 <= i < n && LookupMember(users, values[i], userAttribute).Some? &&
                      LookupMember(users, values[i], userAttribute).value.key == k) {
        var i :| 0 <= i < n && LookupMember(users, values[i], userAttribute).Some? &&
                 LookupMember(users, values[i], userAttribute).value.key == k;
        if i < n - 1 {
          assert front[i] == values[i];
        }
      }
    }
  }

  /** Dynamic members are keyed by user key, and a key is present exactly
      when the search of some member URL returned a user with it. */
  lemma {:induction false} DynamicMembersKeyed(users: UserProvider, urls: seq<String>, k: String)
    ensures var m := DynamicMembers(users, urls);
            (k in m ==> m[k].key == k) &&
            (k in m <==> exists i, j :: 0 <= i < |urls| && 0 <= j < |users.searchUsers(UrlQuery(urls[i]))| &&
                                        users.searchUsers(UrlQuery(urls[i]))[j].key == k)
    decreases |urls|
  {
    if |urls| > 0 {
      var n := |urls|;
      var prior := urls[..n - 1];
      var front := DynamicMembers(users, prior);
      var us := users.searchUsers(UrlQuery(urls[n - 1]));
      forall k' | k' in front
        ensures front[k'].key == k'
      {
        DynamicMembersKeyed(users, prior, k');
      }
      DynamicMembersKeyed(users, prior, k);
      PutUsersKeyed(front, us);
      if (exists i, j :: 0 <= i < n - 1 && 0 <= j < |users.searchUsers(UrlQuery(prior[i]))| &&
                         users.searchUsers(UrlQuery(prior[i]))[j].key == k) {
        var i, j :| 0 <= i < n - 1 && 0 <= j < |users.searchUsers(UrlQuery(prior[i]))| &&
                    users.searchUsers(UrlQuery(prior[i]))[j].key == k;
        assert prior[i] == urls[i];
      }
      if (exists i, j :: 0 <= i < n && 0 <= j < |users.searchUsers(UrlQuery(urls[i]))| &&
                         users.searchUsers(UrlQuery(urls[i]))[j].key == k) {
        var i, j :| 0 <= i < n && 0 <= j < |users.searchUsers(UrlQuery(urls[i]))| &&
                    users.searchUsers(UrlQuery(urls[i]))[j].key == k;
        if i < n - 1 {
          assert prior[i] == urls[i];
        } else {
          assert us[j].key == k;
        }
      }
    }
  }

  // ------------------------------------------------------- ldapToJahiaGroup

  /** `preload`, "true" when absent, compared with "true" ignoring case. */
  predicate PreloadOn(props: Props) {
    EqualsIgnoreCase(Get(props, "preload").GetOr("true"), "true")
  }

  /** ldapToJahiaGroup with the mapping visited in `order`: no group without
      a key; a NullPointerException when the mapped properties hold no
      `objectClass`; otherwise a group named by its key, in site 0, dynamic
      exactly when its object classes contain the dynamic class, and with its
      members only when they are preloaded. */
  function Translated(props: Props, mapping: map<String, String>, users: UserProvider, providerKey: String,
                      sr: Entry, order: seq<String>): (r: Outcome<Option<Group>>)
    ensures r == Done(None) <==> GroupKey(sr.attrs, Get(props, "search.attribute")).None?
    ensures r.Crashed? <==> (GroupKey(sr.attrs, Get(props, "search.attribute")).Some? &&
                             "objectClass" !in CopyMapped(AttrProps(sr.attrs), mapping, order))
    ensures !r.OutOfFuel?
    ensures r.Done? && r.value.Some? ==>
              var g := r.value.value;
              var p := CopyMapped(AttrProps(sr.attrs), mapping, order);
              Some(g.name) == GroupKey(sr.attrs, Get(props, "search.attribute")) &&
              g.groupKey == g.name && g.siteID == 0 && g.providerKey == providerKey && g.props == p &&
              (g.dynamic <==> Contains(p["objectClass"], DynamicClass(props))) &&
              (g.preloaded <==> PreloadOn(props)) &&
              (g.members.Some? <==> g.preloaded) &&
              (g.members.Some? ==> g.members.value == Members(props, users, sr.attrs, g.dynamic))
  {
    match GroupKey(sr.attrs, Get(props, "search.attribute"))
    case None => Done(None)
    case Some(key) =>
      var p := CopyMapped(AttrProps(sr.attrs), mapping, order);
      if "objectClass" !in p then Crashed
      else
        var dynamic := Contains(p["objectClass"], DynamicClass(props));
        var preload := PreloadOn(props);
        var members := if preload then Some(Members(props, users, sr.attrs, dynamic)) else None;
        Done(Some(Group(providerKey, key, key, 0, members, p, dynamic, preload)))
  }

  /** ldapToJahiaGroup(sr), for the provider `providerKey`; the order the
      mapping was visited in is returned (none when there is no key). */
  method LdapToJahiaGroup(props: Props, mapping: map<String, String>, users: UserProvider, providerKey: String,
                          sr: Entry)
    returns (r: Outcome<Option<Group>>, order: seq<String>)
    ensures r != Done(None) ==> IsEnumeration(order, mapping.Keys)
    ensures r == Translated(props, mapping, users, providerKey, sr, order)
  {
    var groupProps, usingGroupKey := ReadAttributes(sr.attrs, Get(props, "search.attribute"));
    if usingGroupKey.None? {
      return Done(None), [];
    }
    groupProps, order := MapLDAPToJahiaProperties(groupProps, mapping);
    if "objectClass" !in groupProps {
      return Crashed, order;
    }
    var dynamic := Contains(groupProps["objectClass"], Get(props, "dynamic.search.objectclass").GetOr("groupOfURLs"));
    var group;
    if EqualsIgnoreCase(Get(props, "preload").GetOr("true"), "true") {
      var members := GetGroupMembers(props, users, sr.attrs, dynamic);
      group := Group(providerKey, usingGroupKey.value, usingGroupKey.value, 0, Some(members), groupProps, dynamic, true);
    } else {
      group := Group(providerKey, usingGroupKey.value, usingGroupKey.value, 0, None, groupProps, dynamic, false);
    }
    r := Done(Some(group));
  }
}
