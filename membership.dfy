/**
 * getUserMembership: the keys of the groups an LDAP user belongs to. They are
 * the static groups that list the user's DN, the dynamic groups one of whose
 * URLs selects the user, and the groups of the content repository that
 * contain those, followed through nested membership.
 */
module Membership {
  import opened Wrappers
  import opened Strings
  import opened Directory
  import opened Search
  import opened Translate
  import opened Provider

  /** A JahiaLDAPUser: its DN, its key, and the group keys cached on it
      (null until they are computed). */
  class LdapUser {
    const dn: String
    const userKey: String
    var groups: Option<seq<String>>

    constructor (dn: String, userKey: String)
      ensures this.dn == dn && this.userKey == userKey && groups == None
    {
      this.dn := dn;
      this.userKey := userKey;
      groups := None;
    }
  }

  /** The failure of one step carried over to a result of another type. */
  function Fail<T, U>(o: Outcome<T>): (r: Outcome<U>)
    requires !o.Done?
    ensures r.Crashed? <==> o.Crashed?
    ensures !r.Done?
  {
    if o.Crashed? then Crashed else OutOfFuel
  }

  // ---------------------------------------------------------- static groups

  /** The filter for the static groups listing a DN: the DN goes in as it is,
      without escaping. */
  function StaticMembershipFilter(props: Props, dn: String): String
    requires Configured(props)
  {
    "(&(objectclass=" + StaticClass(props) + ")(" + props["members.attribute"] + "=" + dn + "))"
  }

  /** The DN stands verbatim just before the two closing parentheses, so a
      DN holding `*` or `(` changes the meaning of the filter. */
  lemma StaticFilterEmbedsDn(props: Props, dn: String)
    requires Configured(props)
    ensures var f := StaticMembershipFilter(props, dn);
            |f| >= |dn| + 2 && OccursAt(f, dn, |f| - |dn| - 2) && EndsWith(f, "))")
  {
    var f := StaticMembershipFilter(props, dn);
    var head := "(&(objectclass=" + StaticClass(props) + ")(" + props["members.attribute"] + "=";
    assert f == head + dn + "))";
    assert f[|head|..|head| + |dn|] == dn;
  }

  /** The key of every static group found, with the provider prefix; an entry
      without the naming attribute stops it with a NullPointerException. */
  function DirectKeys(prefix: String, entries: seq<Entry>, attribute: String): (r: Outcome<seq<String>>)
    ensures !r.OutOfFuel?
    ensures r.Done? <==> forall i :: 0 <= i < |entries| ==> FirstValue(entries[i].attrs, attribute).Some?
    ensures r.Done? ==>
              (|r.value| == |entries| &&
               forall i :: 0 <= i < |entries| ==> r.value[i] == prefix + FirstValue(entries[i].attrs, attribute).value)
  {
    if |entries| == 0 then Done([])
    else
      var rest := DirectKeys(prefix, entries[..|entries| - 1], attribute);
      var key := FirstValue(entries[|entries| - 1].attrs, attribute);
      if rest.Crashed? || key.None? then Crashed
      else Done(rest.value + [prefix + key.value])
  }

  /** The first loop of getUserMembership. */
  method StaticGroupKeys(prefix: String, entries: seq<Entry>, attribute: String) returns (r: Outcome<seq<String>>)
    ensures r == DirectKeys(prefix, entries, attribute)
  {
    var keys := [];
    for i := 0 to |entries|
      invariant DirectKeys(prefix, entries[..i], attribute) == Done(keys)
    {
      assert entries[..i + 1][..i] == entries[..i];
      var key := FirstValue(entries[i].attrs, attribute);
      if key.None? {
        assert DirectKeys(prefix, entries[..i + 1], attribute) == Crashed;
        assert !FirstValue(entries[..i + 1][i].attrs, attribute).Some?;
        assert entries[..i + 1][i] == entries[i];
        return Crashed;
      }
      keys := keys + [prefix + key.value];
    }
    assert entries[..|entries|] == entries;
    return Done(keys);
  }

  // --------------------------------------------------------- dynamic groups

  function DynamicMembershipFilter(props: Props): String {
    "(objectclass=" + DynamicClass(props) + ")"
  }

  /** The attribute holding the URLs of a dynamic group. */
  function UrlAttribute(props: Props): String {
    Get(props, "dynamic.members.attribute").GetOr("memberurl")
  }

  /** The properties handed to searchUsers for one URL. */
  function UserQuery(url: String, userKey: String): map<String, String> {
    map["ldap.url" := url, "user.key" := userKey]
  }

  /** Some URL of the group finds users when asked for the user's key. */
  predicate Selects(users: UserProvider, urls: seq<String>, userKey: String) {
    exists i :: 0 <= i < |urls| && |users.searchUsers(UserQuery(urls[i], userKey))| > 0
  }

  /** The URLs of a dynamic group entry; none when it lacks the attribute. */
  function Urls(e: Entry, urlAttribute: String): seq<String> {
    match Find(e.attrs, urlAttribute)
    case None => []
    case Some(a) => a.values
  }

  /** `k` is the key of group entry `e`, and the group selects the user. */
  predicate KeyOfSelecting(prefix: String, users: UserProvider, userKey: String, e: Entry,
                           attribute: String, urlAttribute: String, k: String) {
    FirstValue(e.attrs, attribute).Some? && k == prefix + FirstValue(e.attrs, attribute).value &&
    Selects(users, Urls(e, urlAttribute), userKey)
  }

  /** The keys of the dynamic groups that select the user, each once. */
  function DynamicKeys(prefix: String, users: UserProvider, userKey: String, entries: seq<Entry>,
                       attribute: String, urlAttribute: String): (r: Outcome<seq<String>>)
    ensures !r.OutOfFuel?
    ensures r.Done? <==> forall i :: 0 <= i < |entries| ==> FirstValue(entries[i].attrs, attribute).Some?
    ensures r.Done? ==> |r.value| <= |entries|
    ensures r.Done? ==> forall k :: k in r.value ==>
              exists e :: e in entries && KeyOfSelecting(prefix, users, userKey, e, attribute, urlAttribute, k)
  {
    if |entries| == 0 then Done([])
    else
      var front := entries[..|entries| - 1];
      var last := entries[|entries| - 1];
      var rest := DynamicKeys(prefix, users, userKey, front, attribute, urlAttribute);
      var key := FirstValue(last.attrs, attribute);
      if rest.Crashed? || key.None? then Crashed
      else if Selects(users, Urls(last, urlAttribute), userKey) then
        assert KeyOfSelecting(prefix, users, userKey, last, attribute, urlAttribute, prefix + key.value);
        Done(rest.value + [prefix + key.value])
      else rest
  }

  /** A dynamic group listed in the directory whose URLs select the user is
      among the keys found. */
  lemma {:induction false} SelectingGroupListed(prefix: String, users: UserProvider, userKey: String,
                                                entries: seq<Entry>, attribute: String, urlAttribute: String,
                                                i: int)
    requires 0 <= i < |entries|
    requires DynamicKeys(prefix, users, userKey, entries, attribute, urlAttribute).Done?
    requires Selects(users, Urls(entries[i], urlAttribute), userKey)
    ensures prefix + FirstValue(entries[i].attrs, attribute).value
            in DynamicKeys(prefix, users, userKey, entries, attribute, urlAttribute).value
    decreases |entries|
  {
    var front := entries[..|entries| - 1];
    if i < |entries| - 1 {
      assert front[i] == entries[i];
      SelectingGroupListed(prefix, users, userKey, front, attribute, urlAttribute, i);
    }
  }

  /** The loop over the URLs of one dynamic group: it stops at the first URL
      that finds users. */
  method SelectsUser(users: UserProvider, urls: seq<String>, userKey: String) returns (found: bool)
    ensures found == Selects(users, urls, userKey)
  {
    found := false;
    var j := 0;
    while j < |urls|
      invariant 0 <= j <= |urls|
      invariant forall k :: 0 <= k < j ==> |users.searchUsers(UserQuery(urls[k], userKey))| == 0
    {
      var t := users.searchUsers(UserQuery(urls[j], userKey));
      if |t| > 0 {
        found := true;
        break;
      }
      j := j + 1;
    }
  }

  /** The second loop of getUserMembership. */
  method DynamicGroupKeys(prefix: String, users: UserProvider, userKey: String, entries: seq<Entry>,
                          attribute: String, urlAttribute: String)
    returns (r: Outcome<seq<String>>)
    ensures r == DynamicKeys(prefix, users, userKey, entries, attribute, urlAttribute)
  {
    var keys := [];
    for i := 0 to |entries|
      invariant DynamicKeys(prefix, users, userKey, entries[..i], attribute, urlAttribute) == Done(keys)
    {
      assert entries[..i + 1][..i] == entries[..i];
      assert entries[..i + 1][i] == entries[i];
      var key := FirstValue(entries[i].attrs, attribute);
      if key.None? {
        assert DynamicKeys(prefix, users, userKey, entries[..i + 1], attribute, urlAttribute) == Crashed;
        assert !FirstValue(entries[..i + 1][i].attrs, attribute).Some?;
        return Crashed;
      }
      var selected := SelectsUser(users, Urls(entries[i], urlAttribute), userKey);
      if selected {
        keys := keys + [prefix + key.value];
      }
    }
    assert entries[..|entries|] == entries;
    return Done(keys);
  }

  // ------------------------------------------- groups of the content repository

  /** The node three levels above a weak reference: a group, or some other
      node, with the key of the site it sits under ("" for none). */
  datatype Holder = Holder(name: String, identifier: String, isGroup: bool, siteKey: String)

  /** A weak reference to a node: its path, and the node holding it (None
      when that cannot be reached, an ItemNotFoundException). */
  datatype Reference = Reference(path: String, holder: Option<Holder>)

  /** The content repository as the provider sees it. */
  datatype Jcr = Jcr(
    /** lookupExternalGroup: the identifier of the repository's copy of an
        external group; None for none, and for a JahiaException. */
    lookupExternalGroup: String -> Option<String>,
    /** getNodeByUUID then getWeakReferences; None when no node has the
        identifier. */
    weakReferences: String -> Option<seq<Reference>>,
    /** getSiteByKey(..).getID(); None when there is no such site. */
    siteID: String -> Option<int>)

  /** A walk through nested groups: the labels collected, a node that could
      not be found, or a walk cut short by the depth bound. */
  datatype Walked = Walked(groups: seq<String>) | NodeMissing | WalkOutOfFuel

  /** The site of a group: 0 without a site key, and 0 when the site is
      unknown (the NullPointerException caught). */
  function SiteOf(jcr: Jcr, g: Holder): int {
    if |g.siteKey| == 0 then 0 else jcr.siteID(g.siteKey).GetOr(0)
  }

  /** How a group is recorded: its name, a colon and its site. */
  function Label(jcr: Jcr, g: Holder): String {
    g.name + ":" + IntToString(SiteOf(jcr, g))
  }

  /** A reference that records a membership: it sits under `j:members` and
      its holder is a group. */
  predicate IsMembership(r: Reference) {
    Contains(r.path, "j:members") && r.holder.Some? && r.holder.value.isGroup
  }

  /** One walk followed by another, stopping at the first that fails. */
  function Then(h: Walked, rest: Walked): Walked {
    match h
    case Walked(a) => (match rest case Walked(b) => Walked(a + b) case _ => rest)
    case _ => h
  }

  lemma ThenAssoc(a: seq<String>, h: seq<String>, rest: Walked)
    ensures Then(Walked(a), Then(Walked(h), rest)) == Then(Walked(a + h), rest)
  {
    if rest.Walked? {
      assert a + (h + rest.groups) == a + h + rest.groups;
    }
  }

  /** recurseOnGroups: the groups holding a membership of the node, each
      followed by the groups that hold it, depth first. `fuel` bounds the
      depth; Java has no bound and overflows its stack on a cycle. */
  function Recurse(jcr: Jcr, id: String, fuel: nat): Walked
    decreases fuel, 0
  {
    if fuel == 0 then WalkOutOfFuel
    else match jcr.weakReferences(id)
      case None => NodeMissing
      case Some(refs) => RecurseRefs(jcr, refs, fuel - 1)
  }

  /** The loop over the weak references of one node. A nested walk that
      finds no node is caught by the loop, after the group was recorded. */
  function RecurseRefs(jcr: Jcr, refs: seq<Reference>, fuel: nat): Walked
    decreases fuel, |refs| + 1
  {
    if |refs| == 0 then Walked([])
    else Then(Visit(jcr, refs[0], fuel), RecurseRefs(jcr, refs[1..], fuel))
  }

  function Visit(jcr: Jcr, r: Reference, fuel: nat): Walked
    decreases fuel, 1
  {
    if !IsMembership(r) then Walked([])
    else
      var g := r.holder.value;
      match Recurse(jcr, g.identifier, fuel)
      case Walked(gs) => Walked([Label(jcr, g)] + gs)
      case NodeMissing => Walked([Label(jcr, g)])
      case WalkOutOfFuel => WalkOutOfFuel
  }

  /** recurseOnGroups with the list it appends to. */
  method RecurseOnGroups(jcr: Jcr, groups: seq<String>, id: String, fuel: nat) returns (w: Walked)
    ensures w == Then(Walked(groups), Recurse(jcr, id, fuel))
    decreases fuel
  {
    if fuel == 0 {
      return WalkOutOfFuel;
    }
    var refs := jcr.weakReferences(id);
    if refs.None? {
      return NodeMissing;
    }
    var acc := groups;
    var rs := refs.value;
    for i := 0 to |rs|
      invariant Then(Walked(acc), RecurseRefs(jcr, rs[i..], fuel - 1)) == Then(Walked(groups), RecurseRefs(jcr, rs, fuel - 1))
    {
      var rest := RecurseRefs(jcr, rs[i + 1..], fuel - 1);
      RefsUnfold(jcr, rs, i, fuel - 1);
      if IsMembership(rs[i]) {
        var g := rs[i].holder.value;
        var tag := Label(jcr, g);
        var sub := RecurseOnGroups(jcr, acc + [tag], g.identifier, fuel - 1);
        match sub {
          case Walked(gs) =>
            VisitFound(jcr, acc, rs[i], fuel - 1, rest);
            acc := gs;
          case NodeMissing =>
            VisitMissing(jcr, acc, rs[i], fuel - 1, rest);
            acc := acc + [tag];
          case WalkOutOfFuel =>
            return WalkOutOfFuel;
        }
      } else {
        ThenAssoc(acc, [], rest);
        assert acc + [] == acc;
      }
    }
    w := Walked(acc);
  }

  lemma RefsUnfold(jcr: Jcr, rs: seq<Reference>, i: int, fuel: nat)
    requires 0 <= i < |rs|
    ensures RecurseRefs(jcr, rs[i..], fuel) == Then(Visit(jcr, rs[i], fuel), RecurseRefs(jcr, rs[i + 1..], fuel))
  {
    assert rs[i..][1..] == rs[i + 1..];
  }

  /** A membership whose holder's walk finished: the holder and its walk are
      appended. */
  lemma VisitFound(jcr: Jcr, acc: seq<String>, r: Reference, fuel: nat, rest: Walked)
    requires IsMembership(r)
    requires Recurse(jcr, r.holder.value.identifier, fuel).Walked?
    ensures Then(Walked(acc), Then(Visit(jcr, r, fuel), rest))
            == Then(Then(Walked(acc + [Label(jcr, r.holder.value)]), Recurse(jcr, r.holder.value.identifier, fuel)), rest)
  {
    var x := Recurse(jcr, r.holder.value.identifier, fuel).groups;
    var tag := Label(jcr, r.holder.value);
    ThenAssoc(acc, [tag] + x, rest);
    assert acc + ([tag] + x) == acc + [tag] + x;
  }

  /** A membership whose holder's node is missing: the holder alone is
      appended. */
  lemma VisitMissing(jcr: Jcr, acc: seq<String>, r: Reference, fuel: nat, rest: Walked)
    requires IsMembership(r)
    requires Recurse(jcr, r.holder.value.identifier, fuel) == NodeMissing
    ensures Then(Walked(acc), Then(Visit(jcr, r, fuel), rest))
            == Then(Walked(acc + [Label(jcr, r.holder.value)]), rest)
  {
    ThenAssoc(acc, [Label(jcr, r.holder.value)], rest);
  }

  /** doInJCR: the walk from each group key found in the directory, without
      its provider prefix. A key the repository does not know is skipped; a
      walk that finds no node at its start ends the whole. */
  function ExternalGroups(jcr: Jcr, prefix: String, keys: seq<String>, fuel: nat): Walked {
    if |keys| == 0 then Walked([])
    else
      var head := match jcr.lookupExternalGroup(SubstringAfter(keys[0], prefix))
        case None => Walked([])
        case Some(id) => Recurse(jcr, id, fuel);
      Then(head, ExternalGroups(jcr, prefix, keys[1..], fuel))
  }

  method ExternalMembership(jcr: Jcr, prefix: String, keys: seq<String>, fuel: nat) returns (w: Walked)
    ensures w == ExternalGroups(jcr, prefix, keys, fuel)
  {
    var groups := [];
    for i := 0 to |keys|
      invariant Then(Walked(groups), ExternalGroups(jcr, prefix, keys[i..], fuel)) == ExternalGroups(jcr, prefix, keys, fuel)
    {
      var rest := ExternalGroups(jcr, prefix, keys[i + 1..], fuel);
      assert keys[i..][1..] == keys[i + 1..];
      var found := jcr.lookupExternalGroup(SubstringAfter(keys[i], prefix));
      if found.Some? {
        w := RecurseOnGroups(jcr, groups, found.value, fuel);
        match w {
          case Walked(gs) =>
            ThenAssoc(groups, Recurse(jcr, found.value, fuel).groups, rest);
            groups := gs;
          case _ =>
            return;
        }
      } else {
        ThenAssoc(groups, [], rest);
        assert groups + [] == groups;
      }
    }
    w := Walked(groups);
  }

  /** A group holding a membership of the node is among the groups walked. */
  lemma {:induction false} HolderListed(jcr: Jcr, refs: seq<Reference>, fuel: nat, i: int)
    requires 0 <= i < |refs| && IsMembership(refs[i])
    requires RecurseRefs(jcr, refs, fuel).Walked?
    ensures Label(jcr, refs[i].holder.value) in RecurseRefs(jcr, refs, fuel).groups
    decreases |refs|
  {
    var v := Visit(jcr, refs[0], fuel);
    var rest := RecurseRefs(jcr, refs[1..], fuel);
    assert v.Walked? && rest.Walked?;
    if i == 0 {
      assert v.groups[0] == Label(jcr, refs[0].holder.value);
      assert RecurseRefs(jcr, refs, fuel).groups[0] == v.groups[0];
    } else {
      assert refs[1..][i - 1] == refs[i];
      HolderListed(jcr, refs[1..], fuel, i - 1);
      var k :| 0 <= k < |rest.groups| && rest.groups[k] == Label(jcr, refs[i].holder.value);
      assert RecurseRefs(jcr, refs, fuel).groups[|v.groups| + k] == rest.groups[k];
    }
  }

  /** A group that holds its own membership is walked without end: the
      recursion has no record of the groups already visited. */
  lemma {:induction false} SelfMemberNeverEnds(jcr: Jcr, id: String, path: String, g: Holder, fuel: nat)
    requires g.identifier == id && IsMembership(Reference(path, Some(g)))
    requires jcr.weakReferences(id) == Some([Reference(path, Some(g))])
    ensures Recurse(jcr, id, fuel) == WalkOutOfFuel
    decreases fuel
  {
    if fuel > 0 {
      var refs := [Reference(path, Some(g))];
      SelfMemberNeverEnds(jcr, id, path, g, fuel - 1);
      assert Visit(jcr, refs[0], fuel - 1) == WalkOutOfFuel;
      assert RecurseRefs(jcr, refs, fuel - 1) == Then(WalkOutOfFuel, RecurseRefs(jcr, refs[1..], fuel - 1));
    }
  }

  /** More depth changes nothing once a walk has finished. */
  lemma {:induction false} RecurseMoreFuel(jcr: Jcr, id: String, fuel: nat)
    requires Recurse(jcr, id, fuel) != WalkOutOfFuel
    ensures Recurse(jcr, id, fuel + 1) == Recurse(jcr, id, fuel)
    decreases fuel, 0
  {
    if jcr.weakReferences(id).Some? {
      RecurseRefsMoreFuel(jcr, jcr.weakReferences(id).value, fuel - 1);
    }
  }

  lemma {:induction false} RecurseRefsMoreFuel(jcr: Jcr, refs: seq<Reference>, fuel: nat)
    requires RecurseRefs(jcr, refs, fuel) != WalkOutOfFuel
    ensures RecurseRefs(jcr, refs, fuel + 1) == RecurseRefs(jcr, refs, fuel)
    decreases fuel, |refs| + 1
  {
    if |refs| > 0 {
      var v := Visit(jcr, refs[0], fuel);
      assert v != WalkOutOfFuel;
      if IsMembership(refs[0]) {
        RecurseMoreFuel(jcr, refs[0].holder.value.identifier, fuel);
      }
      assert Visit(jcr, refs[0], fuel + 1) == v;
      RecurseRefsMoreFuel(jcr, refs[1..], fuel);
    }
  }

  // -------------------------------------------------------- the whole walk

  /** The first part of getUserMembership: the keys of the static groups
      listing the user's DN, then of the dynamic groups selecting the user. */
  function DirectoryKeysOf(props: Props, prefix: String, server: Server, users: UserProvider,
                           dn: String, userKey: String, fuel: nat): Outcome<seq<String>>
    requires Configured(props)
  {
    var a := props["search.attribute"];
    var statics := Swallowed(GroupSearch(server, props, Some([a]), 0, StaticMembershipFilter(props, dn), fuel));
    if !statics.Done? then Fail(statics)
    else
      var direct := DirectKeys(prefix, statics.value, a);
      if !direct.Done? then direct
      else
        var dynamics := Swallowed(GroupSearch(server, props, Some([a, UrlAttribute(props)]), 0,
                                              DynamicMembershipFilter(props), fuel));
        if dynamics.Crashed? then Crashed
        else if dynamics.OutOfFuel? then OutOfFuel
        else
          var dyn := DynamicKeys(prefix, users, RemoveKeyPrefix(prefix, userKey), dynamics.value, a,
                                 UrlAttribute(props));
          if !dyn.Done? then dyn
          else Done(direct.value + dyn.value)
  }

  /** getUserMembership for an LDAP user with no cached groups: the group
      keys found in the directory, and the repository groups walked from
      them, before duplicates are dropped. */
  function MembershipOf(props: Props, prefix: String, server: Server, users: UserProvider, jcr: Jcr,
                        dn: String, userKey: String, fuel: nat): Outcome<(seq<String>, seq<String>)>
    requires Configured(props)
  {
    var keys := DirectoryKeysOf(props, prefix, server, users, dn, userKey, fuel);
    if !keys.Done? then Fail(keys)
    else match ExternalGroups(jcr, prefix, keys.value, fuel)
      case Walked(gs) => Done((keys.value, gs))
      case NodeMissing => Crashed
      case WalkOutOfFuel => OutOfFuel
  }

  /** Every key found in the directory carries the provider prefix, and the
      repository is asked about the key without it. */
  lemma {:induction false} DirectoryKeysPrefixed(props: Props, prefix: String, server: Server, users: UserProvider,
                                                 dn: String, userKey: String, fuel: nat)
    requires Configured(props)
    ensures var keys := DirectoryKeysOf(props, prefix, server, users, dn, userKey, fuel);
            keys.Done? ==> forall k :: k in keys.value ==>
              StartsWith(k, prefix) && prefix + SubstringAfter(k, prefix) == k
  {
    var keys := DirectoryKeysOf(props, prefix, server, users, dn, userKey, fuel);
    if keys.Done? {
      forall k | k in keys.value
        ensures StartsWith(k, prefix) && prefix + SubstringAfter(k, prefix) == k
      {
        var s :| k == prefix + s;
        assert k[..|prefix|] == prefix;
        AfterPrefix(prefix, s);
      }
    }
  }

  /** The text after a prefix is what followed it. */
  lemma AfterPrefix(prefix: String, s: String)
    ensures SubstringAfter(prefix + s, prefix) == s
  {
    var k := prefix + s;
    if |k| > 0 {
      assert OccursAt(k, prefix, 0);
      assert k[|prefix|..] == s;
    }
  }

  /** The first part of getUserMembership, the two directory searches and
      their loops. */
  method FindDirectoryKeys(props: Props, prefix: String, server: Server, users: UserProvider,
                           dn: String, userKey: String, fuel: nat)
    returns (r: Outcome<seq<String>>)
    requires Configured(props)
    ensures r == DirectoryKeysOf(props, prefix, server, users, dn, userKey, fuel)
  {
    var a := props["search.attribute"];
    var ctl := new SearchControls(Some([a]), 0);
    var statics := GetGroups(server, props, ctl, StaticMembershipFilter(props, dn), fuel);
    if !statics.Done? {
      return Fail(statics);
    }
    var direct := StaticGroupKeys(prefix, statics.value, a);
    if !direct.Done? {
      return direct;
    }
    ctl := new SearchControls(Some([a, UrlAttribute(props)]), 0);
    var dynamics := GetGroups(server, props, ctl, DynamicMembershipFilter(props), fuel);
    // Both searches ask for given attributes, so once the first has
    // succeeded the second cannot fail.
    assert dynamics.Done?;
    var dyn := DynamicGroupKeys(prefix, users, RemoveKeyPrefix(prefix, userKey), dynamics.value, a,
                                UrlAttribute(props));
    if !dyn.Done? {
      return dyn;
    }
    return Done(direct.value + dyn.value);
  }

  /** getUserMembership. A user of another provider (null here) belongs to
      no group of this one; cached groups are returned as they are;
      otherwise the directory keys and then the repository groups walked,
      each once in the order the HashSet gives them, are cached on the user
      and returned. A failure caches nothing. */
  method GetUserMembership(m: GroupManager, server: Server, users: UserProvider, jcr: Jcr, user: LdapUser?,
                           fuel: nat)
    returns (r: Outcome<seq<String>>, order: seq<String>)
    requires Configured(m.ldapProperties)
    modifies user
    ensures user == null ==> r == Done([])
    ensures user != null && old(user.groups).Some? ==> r == Done(old(user.groups).value) && user.groups == old(user.groups)
    ensures user != null && old(user.groups).None? ==>
              var found := MembershipOf(m.ldapProperties, m.providerKeyPrefix, server, users, jcr,
                                        user.dn, user.userKey, fuel);
              (found.Done? ==> IsEnumeration(order, set g | g in found.value.1) &&
                               r == Done(found.value.0 + order) && user.groups == Some(r.value)) &&
              (!found.Done? ==> r == Fail(found) && user.groups == None)
  {
    order := [];
    if user == null {
      return Done([]), order;
    }
    if user.groups.Some? {
      return Done(user.groups.value), order;
    }
    var prefix := m.providerKeyPrefix;
    var keys := FindDirectoryKeys(m.ldapProperties, prefix, server, users, user.dn, user.userKey, fuel);
    if !keys.Done? {
      return Fail(keys), order;
    }
    var recursed := ExternalMembership(jcr, prefix, keys.value, fuel);
    match recursed {
      case Walked(gs) =>
        order := Enumerate(set g | g in gs);
        var result := keys.value + order;
        user.groups := Some(result);
        r := Done(result);
      case NodeMissing =>
        r := Crashed;
      case WalkOutOfFuel =>
        r := OutOfFuel;
    }
  }
}
