/**
 * JahiaLDAPConfig: the provider key derived from an OSGi configuration, and
 * the split of the configuration's properties between the user and the
 * group provider.
 */
module Config {
  import opened Wrappers
  import opened Strings

  /** The configuration dictionary; its values are taken to be strings. */
  type Dictionary = map<String, String>

  const ServicePid: String := "service.pid"
  const FactoryPid: String := "service.factoryPid"
  const FileName: String := "felix.fileinstall.filename"

  function Lookup(dict: Dictionary, k: String): (r: Option<String>)
    ensures r.Some? <==> k in dict
    ensures r.Some? ==> r.value == dict[k]
  {
    if k in dict then Some(dict[k]) else None
  }

  // ------------------------------------------------------ computeProviderKey

  /** The configuration id: from the file-install file name when there is
      one, `<factoryPid>-<id>.cfg`; otherwise the service PID with a leading
      `<factoryPid>.` removed. A missing factory PID reads as "null", as
      string concatenation writes it. */
  function ConfId(dict: Dictionary): Option<String> {
    var filename := Lookup(dict, FileName);
    var factoryPid := Str(Lookup(dict, FactoryPid));
    if IsBlank(filename) then
      var pid := Lookup(dict, ServicePid);
      if NullSafeStartsWith(pid, Some(factoryPid + ".")) then Some(SubstringAfter(pid.value, factoryPid + "."))
      else pid
    else Some(RemoveEnd(SubstringAfter(filename.value, factoryPid + "-"), ".cfg"))
  }

  /** computeProviderKey: "ldap" for a blank id or the id "config", and
      "ldap." followed by the id otherwise. */
  function ComputeProviderKey(dict: Dictionary): (key: String)
    ensures key == "ldap" <==> IsBlank(ConfId(dict)) || ConfId(dict) == Some("config")
    ensures key != "ldap" ==> ConfId(dict).Some? && key == "ldap." + ConfId(dict).value
  {
    var confId := ConfId(dict);
    if IsBlank(confId) || confId == Some("config") then "ldap"
    else
      assert |"ldap." + confId.value| > 4;
      "ldap." + confId.value
  }

  /** A file name `<anything>` `<factoryPid>-<id>.cfg`, the separator first
      occurring after the leading part, gives the id. */
  lemma IdFromFileName(dict: Dictionary, head: String, id: String)
    requires FactoryPid in dict
    requires FileName in dict && dict[FileName] == head + dict[FactoryPid] + "-" + id + ".cfg"
    requires forall i :: 0 <= i < |head| ==> !OccursAt(dict[FileName], dict[FactoryPid] + "-", i)
    ensures ConfId(dict) == Some(id)
  {
    var f := dict[FileName];
    var sep := dict[FactoryPid] + "-";
    assert f == head + sep + (id + ".cfg");
    assert OccursAt(f, sep, |head|) by {
      assert f[|head|..|head| + |sep|] == sep;
    }
    assert !IsBlank(Some(f)) by {
      assert f[|f| - 1] == 'g';
    }
    assert SubstringAfter(f, sep) == id + ".cfg" by {
      assert f[|head| + |sep|..] == id + ".cfg";
    }
    assert EndsWith(id + ".cfg", ".cfg") by {
      var s := id + ".cfg";
      assert s[|s| - 4..] == ".cfg";
    }
    assert (id + ".cfg")[..|id|] == id;
  }

  /** A file name without `<factoryPid>-` gives the empty id, hence "ldap". */
  lemma FileNameWithoutFactoryPid(dict: Dictionary)
    requires FileName in dict && !IsBlank(Some(dict[FileName]))
    requires forall i :: !OccursAt(dict[FileName], Str(Lookup(dict, FactoryPid)) + "-", i)
    ensures ConfId(dict) == Some([])
    ensures ComputeProviderKey(dict) == "ldap"
  {
    assert |dict[FileName]| > 0;
  }

  /** Without a file name, a service PID `<factoryPid>.<id>` gives the id. */
  lemma IdFromPid(dict: Dictionary, id: String)
    requires IsBlank(Lookup(dict, FileName))
    requires ServicePid in dict && dict[ServicePid] == Str(Lookup(dict, FactoryPid)) + "." + id
    ensures ConfId(dict) == Some(id)
  {
    var pid := dict[ServicePid];
    var sep := Str(Lookup(dict, FactoryPid)) + ".";
    assert pid == sep + id;
    assert StartsWith(pid, sep) by {
      assert pid[..|sep|] == sep;
    }
    AfterSeparator(sep, id);
  }

  /** Without a file name, a service PID not starting with `<factoryPid>.`
      is the id itself. */
  lemma PidAsId(dict: Dictionary)
    requires IsBlank(Lookup(dict, FileName))
    requires ServicePid in dict && !StartsWith(dict[ServicePid], Str(Lookup(dict, FactoryPid)) + ".")
    ensures ConfId(dict) == Some(dict[ServicePid])
  {
  }

  lemma AfterSeparator(sep: String, s: String)
    ensures SubstringAfter(sep + s, sep) == s
  {
    var k := sep + s;
    if |k| > 0 {
      assert OccursAt(k, sep, 0);
      assert k[|sep|..] == s;
    }
  }

  /** Nothing to go by gives the default key. */
  lemma EmptyConfigurationKey()
    ensures ComputeProviderKey(map[]) == "ldap"
  {
  }

  // ------------------------------------------------------------ startContext

  /** What the loop of startContext does with one key. */
  datatype Routing = Skipped | UserOnly(name: String) | GroupOnly(name: String) | Both

  /** The three bookkeeping keys are skipped; any other key starting with
      `user.` goes to the user map alone and one starting with `group.` to
      the group map alone, without that prefix; every other key goes to
      both maps unchanged. */
  function Route(k: String): (r: Routing)
    ensures r.Skipped? <==> k in {ServicePid, FactoryPid, FileName}
    ensures !r.Skipped? && StartsWith(k, "user.") ==> r.UserOnly? && "user." + r.name == k
    ensures !r.Skipped? && StartsWith(k, "group.") ==> r.GroupOnly? && "group." + r.name == k
    ensures !r.Skipped? && !StartsWith(k, "user.") && !StartsWith(k, "group.") ==> r.Both?
    ensures r.UserOnly? ==> "user." + r.name == k
    ensures r.GroupOnly? ==> "group." + r.name == k
  {
    if k == ServicePid || k == FactoryPid || k == FileName then Skipped
    else if StartsWith(k, "user.") then UserNotGroup(k); UserOnly(k[5..])
    else if StartsWith(k, "group.") then GroupOnly(k[6..])
    else Both
  }

  /** No key starts with both `user.` and `group.`. */
  lemma UserNotGroup(k: String)
    requires StartsWith(k, "user.")
    ensures !StartsWith(k, "group.")
  {
    assert k[0] == k[..5][0] == 'u';
  }

  /** The name a key has in the user map, if it goes there. */
  function UserName(k: String): Option<String> {
    match Route(k)
    case UserOnly(n) => Some(n)
    case Both => Some(k)
    case _ => None
  }

  /** The name a key has in the group map, if it goes there. */
  function GroupName(k: String): Option<String> {
    match Route(k)
    case GroupOnly(n) => Some(n)
    case Both => Some(k)
    case _ => None
  }

  /** One of the two maps after visiting the keys in `order`, `name` saying
      under which name a key goes there, if at all. A later key overwrites
      an earlier one that lands on the same name. */
  function Assigned(dict: Dictionary, order: seq<String>, name: String -> Option<String>): Dictionary
    requires forall i :: 0 <= i < |order| ==> order[i] in dict
  {
    if |order| == 0 then map[]
    else
      var m := Assigned(dict, order[..|order| - 1], name);
      var k := order[|order| - 1];
      if name(k).Some? then m[name(k).value := dict[k]] else m
  }

  lemma AssignedSnoc(dict: Dictionary, order: seq<String>, name: String -> Option<String>, k: String)
    requires forall i :: 0 <= i < |order| ==> order[i] in dict
    requires k in dict
    ensures var m := Assigned(dict, order, name);
            Assigned(dict, order + [k], name) == if name(k).Some? then m[name(k).value := dict[k]] else m
  {
    assert (order + [k])[..|order|] == order;
  }

  /** The user and group maps after visiting the keys in `order`. */
  function Partitioned(dict: Dictionary, order: seq<String>): (Dictionary, Dictionary)
    requires forall i :: 0 <= i < |order| ==> order[i] in dict
  {
    (Assigned(dict, order, UserName), Assigned(dict, order, GroupName))
  }

  /** A map holds exactly the names of the keys routed to it, each with the
      value of one of those keys. */
  lemma {:induction false} AssignedFrom(dict: Dictionary, order: seq<String>, name: String -> Option<String>)
    requires forall i :: 0 <= i < |order| ==> order[i] in dict
    ensures forall n :: n in Assigned(dict, order, name) <==> exists i :: 0 <= i < |order| && name(order[i]) == Some(n)
    ensures forall n :: n in Assigned(dict, order, name) ==>
              exists i :: 0 <= i < |order| && name(order[i]) == Some(n) && Assigned(dict, order, name)[n] == dict[order[i]]
    decreases |order|
  {
    if |order| > 0 {
      var front := order[..|order| - 1];
      var last := order[|order| - 1];
      AssignedFrom(dict, front, name);
      var m := Assigned(dict, front, name);
      var m' := Assigned(dict, order, name);
      forall n
        ensures n in m' <==> exists i :: 0 <= i < |order| && name(order[i]) == Some(n)
      {
        if i :| 0 <= i < |front| && name(front[i]) == Some(n) {
          assert order[i] == front[i];
        }
        if i :| 0 <= i < |order| && name(order[i]) == Some(n) {
          if i < |front| {
            assert front[i] == order[i];
          }
        }
      }
      forall n | n in m'
        ensures exists i :: 0 <= i < |order| && name(order[i]) == Some(n) && m'[n] == dict[order[i]]
      {
        if name(last) == Some(n) {
          assert m'[n] == dict[order[|order| - 1]];
        } else {
          var i :| 0 <= i < |front| && name(front[i]) == Some(n) && m[n] == dict[front[i]];
          assert order[i] == front[i];
        }
      }
    }
  }

  /** The user map holds exactly the names of the keys routed to it by
      UserName, each with the value of one of those keys. */
  lemma UserMapFrom(dict: Dictionary, order: seq<String>, n: String)
    requires forall i :: 0 <= i < |order| ==> order[i] in dict
    ensures n in Partitioned(dict, order).0 <==> exists i :: 0 <= i < |order| && UserName(order[i]) == Some(n)
    ensures n in Partitioned(dict, order).0 ==>
              exists i :: 0 <= i < |order| && UserName(order[i]) == Some(n) && Partitioned(dict, order).0[n] == dict[order[i]]
  {
    AssignedFrom(dict, order, UserName);
  }

  /** The group map holds exactly the names of the keys routed to it by
      GroupName, each with the value of one of those keys. */
  lemma GroupMapFrom(dict: Dictionary, order: seq<String>, n: String)
    requires forall i :: 0 <= i < |order| ==> order[i] in dict
    ensures n in Partitioned(dict, order).1 <==> exists i :: 0 <= i < |order| && GroupName(order[i]) == Some(n)
    ensures n in Partitioned(dict, order).1 ==>
              exists i :: 0 <= i < |order| && GroupName(order[i]) == Some(n) && Partitioned(dict, order).1[n] == dict[order[i]]
  {
    AssignedFrom(dict, order, GroupName);
  }

  /** The three OSGi bookkeeping keys reach neither map under their own
      name unless a `user.` or `group.` key brings them. */
  lemma BookkeepingKeysSkipped(k: String)
    requires k == ServicePid || k == FactoryPid || k == FileName
    ensures UserName(k).None? && GroupName(k).None?
  {
  }

  /** No two keys of the dictionary land on the same name. */
  ghost predicate NamesDistinct(dict: Dictionary, name: String -> Option<String>) {
    forall a, b :: a in dict && b in dict && name(a).Some? && name(a) == name(b) ==> a == b
  }

  /** With distinct names, every visited key routed to a map is there with
      its own value. */
  lemma EntryOfKey(dict: Dictionary, order: seq<String>, name: String -> Option<String>, k: String)
    requires forall i :: 0 <= i < |order| ==> order[i] in dict
    requires NamesDistinct(dict, name)
    requires k in order && name(k).Some?
    ensures name(k).value in Assigned(dict, order, name)
    ensures Assigned(dict, order, name)[name(k).value] == dict[k]
  {
    AssignedFrom(dict, order, name);
    var n := name(k).value;
    var j :| 0 <= j < |order| && order[j] == k;
    assert n in Assigned(dict, order, name);
    var i :| 0 <= i < |order| && name(order[i]) == Some(n) && Assigned(dict, order, name)[n] == dict[order[i]];
    assert order[i] == k;
  }

  /** A name in the map of one walk is in that of another, with the same
      value. */
  lemma NameAgrees(dict: Dictionary, o1: seq<String>, o2: seq<String>, name: String -> Option<String>, n: String)
    requires IsEnumeration(o1, dict.Keys) && IsEnumeration(o2, dict.Keys)
    requires NamesDistinct(dict, name)
    requires n in Assigned(dict, o1, name)
    ensures n in Assigned(dict, o2, name) && Assigned(dict, o2, name)[n] == Assigned(dict, o1, name)[n]
  {
    AssignedFrom(dict, o1, name);
    var i :| 0 <= i < |o1| && name(o1[i]) == Some(n);
    EntryOfKey(dict, o1, name, o1[i]);
    EntryOfKey(dict, o2, name, o1[i]);
  }

  lemma SameMap(u1: Dictionary, u2: Dictionary)
    requires forall n :: n in u1 ==> n in u2 && u2[n] == u1[n]
    requires forall n :: n in u2 ==> n in u1
    ensures u1 == u2
  {
  }

  /** With distinct names, a map does not depend on the walk order. */
  lemma AssignedDeterminate(dict: Dictionary, o1: seq<String>, o2: seq<String>, name: String -> Option<String>)
    requires IsEnumeration(o1, dict.Keys) && IsEnumeration(o2, dict.Keys)
    requires NamesDistinct(dict, name)
    ensures Assigned(dict, o1, name) == Assigned(dict, o2, name)
  {
    var m1 := Assigned(dict, o1, name);
    var m2 := Assigned(dict, o2, name);
    forall n | n in m1
      ensures n in m2 && m2[n] == m1[n]
    {
      NameAgrees(dict, o1, o2, name, n);
    }
    forall n | n in m2
      ensures n in m1
    {
      NameAgrees(dict, o2, o1, name, n);
    }
    SameMap(m1, m2);
  }

  /** When no two keys land on the same name, the maps do not depend on the
      order the dictionary was walked in. */
  lemma PartitionDeterminate(dict: Dictionary, o1: seq<String>, o2: seq<String>)
    requires IsEnumeration(o1, dict.Keys) && IsEnumeration(o2, dict.Keys)
    requires NamesDistinct(dict, UserName) && NamesDistinct(dict, GroupName)
    ensures Partitioned(dict, o1) == Partitioned(dict, o2)
  {
    AssignedDeterminate(dict, o1, o2, UserName);
    AssignedDeterminate(dict, o1, o2, GroupName);
  }

  /** The provider configured by startContext: only what it is told. */
  class LdapUserGroupProvider {
    var key: String
    var userProperties: Dictionary
    var groupProperties: Dictionary
    var registered: bool

    constructor ()
      ensures key == [] && userProperties == map[] && groupProperties == map[] && registered
    {
      key := [];
      userProperties := map[];
      groupProperties := map[];
      registered := true;
    }

    method Configure(k: String, user: Dictionary, group: Dictionary)
      modifies this`key, this`userProperties, this`groupProperties
      ensures key == k && userProperties == user && groupProperties == group
    {
      key := k;
      userProperties := user;
      groupProperties := group;
    }

    method Unregister()
      modifies this`registered
      ensures !registered
    {
      registered := false;
    }
  }

  class LdapConfig {
    var providerKey: String
    var userLdapProperties: Dictionary
    var groupLdapProperties: Dictionary
    var provider: LdapUserGroupProvider?
    /** The order in which the last startContext walked the dictionary. */
    ghost var startOrder: seq<String>

    /** The constructor: the key, then startContext. `bean` is the provider
        the application context hands out. */
    constructor (bean: LdapUserGroupProvider, dict: Dictionary)
      modifies bean`key, bean`userProperties, bean`groupProperties
      ensures providerKey == ComputeProviderKey(dict)
      ensures |userLdapProperties| > 0 ==>
                (provider == bean && bean.key == providerKey &&
                 bean.userProperties == userLdapProperties && bean.groupProperties == groupLdapProperties)
      ensures |userLdapProperties| == 0 ==> provider == null && unchanged(bean)
      ensures bean.registered == old(bean.registered)
      ensures IsEnumeration(startOrder, dict.Keys)
      ensures (userLdapProperties, groupLdapProperties) == Partitioned(dict, startOrder)
    {
      providerKey := ComputeProviderKey(dict);
      provider := null;
      userLdapProperties := map[];
      groupLdapProperties := map[];
      startOrder := [];
      new;
      startOrder := StartContext(bean, dict);
    }

    /** startContext: the properties split between the two maps; a provider
        configured with them when the user map is not empty, and the current
        provider unregistered otherwise. A provider replaced by `bean` is left
        as it was, still registered if it was. */
    method StartContext(bean: LdapUserGroupProvider, dict: Dictionary) returns (order: seq<String>)
      modifies this, bean`key, bean`userProperties, bean`groupProperties, Current()`registered
      ensures providerKey == old(providerKey)
      ensures IsEnumeration(order, dict.Keys)
      ensures (userLdapProperties, groupLdapProperties) == Partitioned(dict, order)
      ensures |userLdapProperties| > 0 ==>
                (provider == bean && bean.key == providerKey &&
                 bean.userProperties == userLdapProperties && bean.groupProperties == groupLdapProperties)
      ensures |userLdapProperties| == 0 ==>
                (provider == null && (old(provider) != null ==> !old(provider).registered))
      ensures |userLdapProperties| == 0 && bean != old(provider) ==> unchanged(bean)
      ensures |userLdapProperties| > 0 ==> bean.registered == old(bean.registered)
      ensures |userLdapProperties| > 0 && old(provider) != null && old(provider) != bean ==>
                unchanged(old(provider))
    {
      var user, group;
      user, group, order := Partition(dict);
      userLdapProperties := user;
      groupLdapProperties := group;
      if |user| > 0 {
        provider := bean;
        bean.Configure(providerKey, user, group);
      } else {
        Unregister();
      }
    }

    /** The current provider, as a set: empty when there is none. */
    function Current(): set<LdapUserGroupProvider>
      reads this
    {
      if provider == null then {} else {provider}
    }

    /** unregister: nothing without a provider; otherwise the provider is
        unregistered and dropped. */
    method Unregister()
      modifies this`provider, Current()`registered
      ensures provider == null
      ensures old(provider) != null ==> !old(provider).registered
    {
      if provider != null {
        provider.Unregister();
        provider := null;
      }
    }
  }

  /** One round of the loop of startContext: the key goes to the user map,
      the group map or both, under its name there. */
  method RouteKey(dict: Dictionary, order: seq<String>, user: Dictionary, group: Dictionary, k: String)
    returns (user': Dictionary, group': Dictionary)
    requires forall i :: 0 <= i < |order| ==> order[i] in dict
    requires k in dict
    requires user == Assigned(dict, order, UserName) && group == Assigned(dict, order, GroupName)
    ensures user' == Assigned(dict, order + [k], UserName)
    ensures group' == Assigned(dict, order + [k], GroupName)
  {
    AssignedSnoc(dict, order, UserName, k);
    AssignedSnoc(dict, order, GroupName, k);
    user', group' := user, group;
    match Route(k) {
      case Skipped =>
      case UserOnly(n) =>
        user' := user[n := dict[k]];
      case GroupOnly(n) =>
        group' := group[n := dict[k]];
      case Both =>
        user' := user[k := dict[k]];
        group' := group[k := dict[k]];
    }
  }

  /** The loop of startContext over the dictionary's key enumeration. */
  method Partition(dict: Dictionary) returns (user: Dictionary, group: Dictionary, order: seq<String>)
    ensures IsEnumeration(order, dict.Keys)
    ensures (user, group) == Partitioned(dict, order)
  {
    order := Enumerate(dict.Keys);
    user, group := map[], map[];
    for i := 0 to |order|
      invariant forall j :: 0 <= j < i ==> order[..i][j] in dict
      invariant user == Assigned(dict, order[..i], UserName)
      invariant group == Assigned(dict, order[..i], GroupName)
    {
      assert order[..i + 1] == order[..i] + [order[i]];
      user, group := RouteKey(dict, order[..i], user, group, order[i]);
    }
    assert order[..|order|] == order;
  }
}
