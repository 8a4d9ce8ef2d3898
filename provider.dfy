/**
 * JahiaGroupManagerLDAPProvider as an object: its key and configuration, the
 * two group caches (found groups and keys known not to exist), and the
 * lookups that go through them to the directory.
 */
module Provider {
  import opened Wrappers
  import opened Strings
  import opened Directory
  import opened Search
  import opened Translate

  // -------------------------------------------------------------- cache keys

  /** The cache key of a group looked up by its key. */
  function ByKey(key: String, groupKey: String): String {
    key + "k" + groupKey
  }

  /** The cache key of a group looked up by site and name. */
  function ByName(key: String, siteID: int, name: String): String {
    key + "n" + IntToString(siteID) + "_" + name
  }

  /** The two kinds of cache key never meet. */
  lemma KeyKindsDisjoint(key: String, groupKey: String, siteID: int, name: String)
    ensures ByKey(key, groupKey) != ByName(key, siteID, name)
  {
    assert ByKey(key, groupKey)[|key|] == 'k';
    assert ByName(key, siteID, name)[|key|] == 'n';
  }

  lemma ByKeyInjective(key: String, a: String, b: String)
    requires ByKey(key, a) == ByKey(key, b)
    ensures a == b
  {
    assert a == ByKey(key, a)[|key| + 1..];
    assert b == ByKey(key, b)[|key| + 1..];
  }

  /** Site and name can be read back from a by-name key: the site is written
      in digits and a sign only, so the first underscore ends it. */
  lemma ByNameInjective(key: String, s1: int, n1: String, s2: int, n2: String)
    requires MinInt32 <= s1 <= MaxInt32 && MinInt32 <= s2 <= MaxInt32
    requires ByName(key, s1, n1) == ByName(key, s2, n2)
    ensures s1 == s2 && n1 == n2
  {
    var t1 := IntToString(s1) + "_" + n1;
    var t2 := IntToString(s2) + "_" + n2;
    assert t1 == ByName(key, s1, n1)[|key| + 1..];
    assert t2 == ByName(key, s2, n2)[|key| + 1..];
    IntToStringChars(s1, '_');
    IntToStringChars(s2, '_');
    SeparatedUnique(IntToString(s1), n1, IntToString(s2), n2, '_');
    ParseIntToString(s1);
    ParseIntToString(s2);
  }

  // ------------------------------------------------------------ key prefix

  /** The prefix setKey derives from the provider key. */
  function KeyPrefix(key: String): String {
    "{" + key + "}"
  }

  /** removeKeyPrefix: the group key without the provider's prefix, when it
      carries it. */
  function RemoveKeyPrefix(prefix: String, groupKey: String): (r: String)
    ensures StartsWith(groupKey, prefix) ==> prefix + r == groupKey
    ensures !StartsWith(groupKey, prefix) ==> r == groupKey
  {
    if StartsWith(groupKey, prefix) then groupKey[|prefix|..] else groupKey
  }

  /** Prefixing a key and removing the prefix gives the key back. */
  lemma RemovePrefixed(prefix: String, groupKey: String)
    ensures RemoveKeyPrefix(prefix, prefix + groupKey) == groupKey
  {
    assert (prefix + groupKey)[..|prefix|] == prefix;
  }

  // -------------------------------------------------------- reserved names

  /** The names of the built-in groups the directory is never asked about. */
  const BuiltInGroups: seq<String> := ["administrators", "guest", "users"]

  /** A key mentions one of `names` followed by a colon. */
  predicate Reserved(groupKey: String, names: seq<String>) {
    exists i :: 0 <= i < |names| && Contains(groupKey, names[i] + ":")
  }

  /** The keys of the built-in groups on a site are reserved. */
  lemma BuiltInReserved(siteID: String)
    ensures Reserved("administrators:" + siteID, BuiltInGroups)
    ensures Reserved("guest:" + siteID, BuiltInGroups)
    ensures Reserved("users:" + siteID, BuiltInGroups)
  {
    var names := BuiltInGroups;
    forall i | 0 <= i < 3
      ensures Contains(names[i] + ":" + siteID, names[i] + ":")
    {
      OccursSelf(names[i] + ":");
      OccursAppend(names[i] + ":", siteID, names[i] + ":", 0);
    }
    assert Contains(names[0] + ":" + siteID, names[0] + ":");
    assert Contains(names[1] + ":" + siteID, names[1] + ":");
    assert Contains(names[2] + ":" + siteID, names[2] + ":");
  }

  // ----------------------------------------------------------------- defaults

  /** iniDefaultProperties. */
  function DefaultProperties(): Props {
    map[
      "context.factory" := "com.sun.jndi.ldap.LdapCtxFactory",
      "authentification.mode" := "simple",
      "ldap.connect.pool" := "true",
      "ldap.connect.timeout" := "5000",
      "preload" := "false",
      "search.countlimit" := "100",
      "refferal" := "ignore",
      "ad.range.step" := "0",
      "search.attribute" := "cn",
      "search.objectclass" := "groupOfUniqueNames",
      "members.attribute" := "uniqueMember",
      "dynamic.search.objectclass" := "groupOfURLs",
      "dynamic.members.attribute" := "memberurl",
      "search.wildcards.attributes" := "cn,description,uniqueMember",
      "groupname.attribute.map" := "cn",
      "description.attribute.map" := "description"
    ]
  }

  /** The built-in properties name the group attribute and the member
      attribute. */
  lemma DefaultsConfigured()
    ensures Configured(DefaultProperties())
    ensures DefaultProperties()["search.attribute"] == "cn"
    ensures DefaultProperties()["members.attribute"] == "uniqueMember"
  {
  }

  /** The built-in object classes of static and dynamic groups. */
  lemma DefaultClasses()
    ensures StaticClass(DefaultProperties()) == "groupOfUniqueNames"
    ensures DynamicClass(DefaultProperties()) == "groupOfURLs"
  {
  }

  /** By default attribute values are not fetched in ranges. */
  lemma DefaultNoPaging()
    ensures RangeStep(DefaultProperties()) == Some(0)
  {
    var p := DefaultProperties();
    assert p["ad.range.step"] == IntToString(0);
    ParseIntToString(0);
  }

  /** By default a search returns 100 groups at most. */
  lemma DefaultCountLimit()
    ensures ParseInt(Get(DefaultProperties(), "search.countlimit")) == Some(100)
  {
    var p := DefaultProperties();
    assert p["search.countlimit"] == IntToString(100);
    ParseIntToString(100);
  }

  /** By default the members of a group are not loaded with it. */
  lemma DefaultNoPreload()
    ensures !PreloadOn(DefaultProperties())
  {
    var p := DefaultProperties();
    assert p["preload"] == "false";
    assert Lower("false")[1] == 'a';
  }

  // -------------------------------------------------------- initProperties

  const AttributeMapSuffix: String := ".attribute.map"

  /** The wildcard attribute list: the tokens between commas and spaces,
      each trimmed. */
  function TrimAll(ts: seq<String>): (r: seq<String>)
    ensures |r| == |ts|
    ensures forall i :: 0 <= i < |ts| ==> r[i] == Trim(ts[i])
  {
    if |ts| == 0 then [] else TrimAll(ts[..|ts| - 1]) + [Trim(ts[|ts| - 1])]
  }

  /** A comma-separated list of names without blanks or control characters
      reads back as that list. */
  lemma WildcardsOfJoin(ts: seq<String>)
    requires forall i :: 0 <= i < |ts| ==> IsPlainToken(ts[i])
    requires forall i, j :: 0 <= i < |ts| && 0 <= j < |ts[i]| ==> ts[i][j] > ' '
    ensures TrimAll(Tokens(Join(ts, ','))) == ts
  {
    TokensOfJoin(ts);
    forall i | 0 <= i < |ts|
      ensures TrimAll(ts)[i] == ts[i]
    {
      assert forall j :: 0 <= j < |ts[i]| ==> ts[i][j] > ' ';
    }
  }

  /** The built-in wildcard attributes. */
  lemma DefaultWildcards()
    ensures TrimAll(Tokens(DefaultProperties()["search.wildcards.attributes"]))
            == ["cn", "description", "uniqueMember"]
  {
    var ts := ["cn", "description", "uniqueMember"];
    DefaultWildcardsJoined(ts);
    PlainNames(ts);
    WildcardsOfJoin(ts);
  }

  lemma DefaultWildcardsJoined(ts: seq<String>)
    requires ts == ["cn", "description", "uniqueMember"]
    ensures DefaultProperties()["search.wildcards.attributes"] == Join(ts, ',')
  {
    JoinedNames(ts);
  }

  lemma JoinedNames(ts: seq<String>)
    requires ts == ["cn", "description", "uniqueMember"]
    ensures Join(ts, ',') == "cn,description,uniqueMember"
  {
    assert Join(ts[2..], ',') == "uniqueMember";
    assert Join(ts[1..], ',') == "description" + [','] + "uniqueMember";
  }

  lemma PlainNames(ts: seq<String>)
    requires ts == ["cn", "description", "uniqueMember"]
    ensures forall i :: 0 <= i < |ts| ==> IsPlainToken(ts[i])
    ensures forall i, j :: 0 <= i < |ts| && 0 <= j < |ts[i]| ==> ts[i][j] > ' '
  {
  }

  /** A name is mapped exactly when `name.attribute.map` is a property. */
  lemma SuffixedName(k: String, name: String)
    requires EndsWith(k, AttributeMapSuffix)
    ensures name + AttributeMapSuffix == k <==> name == k[..|k| - |AttributeMapSuffix|]
  {
    var n := |k| - |AttributeMapSuffix|;
    assert k == k[..n] + k[n..];
    if name + AttributeMapSuffix == k {
      assert name == k[..n];
    }
  }

  lemma SuffixEnds(name: String)
    ensures EndsWith(name + AttributeMapSuffix, AttributeMapSuffix)
  {
    var s := name + AttributeMapSuffix;
    assert s[|s| - |AttributeMapSuffix|..] == AttributeMapSuffix;
  }

  /** The attribute-map table: `name := value` for every property
      `name.attribute.map := value`. */
  ghost predicate AttributeMaps(p: Props, keys: set<String>, mapped: Props) {
    (forall name :: name in mapped <==> name + AttributeMapSuffix in keys) &&
    (forall name :: name in mapped ==> name + AttributeMapSuffix in p && mapped[name] == p[name + AttributeMapSuffix])
  }

  /** Two tables built from the same properties are the same: the order the
      map was walked in does not matter. */
  lemma AttributeMapsUnique(p: Props, a: Props, b: Props)
    requires AttributeMaps(p, p.Keys, a) && AttributeMaps(p, p.Keys, b)
    ensures a == b
  {
    assert a.Keys == b.Keys;
  }

  /** A property `name.attribute.map` puts `name` in the table. */
  lemma MappedFrom(p: Props, mapped: Props, name: String)
    requires AttributeMaps(p, p.Keys, mapped)
    requires name + AttributeMapSuffix in p
    ensures name in mapped && mapped[name] == p[name + AttributeMapSuffix]
  {
  }

  lemma MapKeyLiterals()
    ensures "groupname" + AttributeMapSuffix == "groupname.attribute.map"
    ensures "description" + AttributeMapSuffix == "description.attribute.map"
  {
  }

  /** The built-in properties map group names to `cn`. */
  lemma DefaultGroupNameMap(mapped: Props)
    requires AttributeMaps(DefaultProperties(), DefaultProperties().Keys, mapped)
    ensures "groupname" in mapped && mapped["groupname"] == "cn"
  {
    MapKeyLiterals();
    assert DefaultProperties()["groupname.attribute.map"] == "cn";
    MappedFrom(DefaultProperties(), mapped, "groupname");
  }

  /** The built-in properties map descriptions to `description`. */
  lemma DefaultDescriptionMap(mapped: Props)
    requires AttributeMaps(DefaultProperties(), DefaultProperties().Keys, mapped)
    ensures "description" in mapped && mapped["description"] == "description"
  {
    MapKeyLiterals();
    assert DefaultProperties()["description.attribute.map"] == "description";
    MappedFrom(DefaultProperties(), mapped, "description");
  }

  /** Overrides only add or replace properties: the required ones stay. */
  lemma MergeKeepsConfigured(defaults: Props, overrides: Props)
    requires Configured(defaults)
    ensures Configured(defaults + overrides)
  {
  }

  // --------------------------------------------------------- lookup results

  /** What the search for a group turned into: the first entry translated, no
      group, or the failure. */
  function GroupFound(props: Props, mapping: Props, users: UserProvider, providerKey: String,
                      first: Outcome<Option<Entry>>, order: seq<String>): (r: Outcome<Option<Group>>)
    ensures first == Done(None) ==> r == Done(None)
    ensures first.Crashed? ==> r.Crashed?
    ensures r.Done? && r.value.Some? ==>
              (first.Done? && first.value.Some? &&
               r.value.value.providerKey == providerKey && r.value.value.siteID == 0 &&
               r.value.value.groupKey == r.value.value.name)
  {
    match first
    case Done(None) => Done(None)
    case Done(Some(sr)) => Translated(props, mapping, users, providerKey, sr, order)
    case Crashed => Crashed
    case OutOfFuel => OutOfFuel
  }

  /** lookupGroupInLDAP(int, String): the group found is placed on the site. */
  function AtSite(r: Outcome<Option<Group>>, siteID: int): (s: Outcome<Option<Group>>)
    ensures s.Done? <==> r.Done?
    ensures s.Done? ==> (s.value.None? <==> r.value.None?)
    ensures r.Done? && r.value.Some? ==> s.value.value == r.value.value.(siteID := siteID)
  {
    match r
    case Done(Some(g)) => Done(Some(g.(siteID := siteID)))
    case _ => r
  }

  /** The caches after a by-key lookup that missed: a group is stored under
      the key asked for and under its site and name; no group leaves a
      negative marker; a failure leaves both as they were. */
  function StoredByKey(gc: map<String, Group>, nc: set<String>, key: String, groupKey: String,
                       r: Outcome<Option<Group>>): (c: (map<String, Group>, set<String>))
    ensures r.Done? && r.value.None? ==> c.0 == gc && c.1 == nc + {ByKey(key, groupKey)}
    ensures !r.Done? ==> c == (gc, nc)
    ensures r.Done? && r.value.Some? ==> c.1 == nc && c.0.Keys == gc.Keys + {ByKey(key, groupKey), ByName(key, r.value.value.siteID, r.value.value.name)}
  {
    match r
    case Done(Some(g)) => (gc[ByKey(key, groupKey) := g][ByName(key, g.siteID, g.name) := g], nc)
    case Done(None) => (gc, nc + {ByKey(key, groupKey)})
    case _ => (gc, nc)
  }

  /** The caches after a by-name lookup that missed: a group is stored under
      its own key and under its site and name. */
  function StoredByName(gc: map<String, Group>, nc: set<String>, key: String, siteID: int, name: String,
                        r: Outcome<Option<Group>>): (c: (map<String, Group>, set<String>))
    ensures r.Done? && r.value.None? ==> c.0 == gc && c.1 == nc + {ByName(key, siteID, name)}
    ensures !r.Done? ==> c == (gc, nc)
    ensures r.Done? && r.value.Some? ==> c.1 == nc && c.0.Keys == gc.Keys + {ByKey(key, r.value.value.groupKey), ByName(key, r.value.value.siteID, r.value.value.name)}
  {
    match r
    case Done(Some(g)) => (gc[ByKey(key, g.groupKey) := g][ByName(key, g.siteID, g.name) := g], nc)
    case Done(None) => (gc, nc + {ByName(key, siteID, name)})
    case _ => (gc, nc)
  }

  /** A group found by key is found in the cache by the same key next time. */
  lemma StoredByKeyHits(gc: map<String, Group>, nc: set<String>, key: String, groupKey: String, g: Group)
    ensures var c := StoredByKey(gc, nc, key, groupKey, Done(Some(g)));
            ByKey(key, groupKey) in c.0 && c.0[ByKey(key, groupKey)] == g
  {
    KeyKindsDisjoint(key, groupKey, g.siteID, g.name);
  }

  /** A group found by name is found in the cache by the same site and name
      next time when the directory spelled its name the way it was asked. */
  lemma StoredByNameHits(gc: map<String, Group>, nc: set<String>, key: String, siteID: int, name: String, g: Group)
    requires g.siteID == siteID && g.name == name
    ensures var c := StoredByName(gc, nc, key, siteID, name, Done(Some(g)));
            ByName(key, siteID, name) in c.0 && c.0[ByName(key, siteID, name)] == g &&
            ByKey(key, g.groupKey) in c.0 && c.0[ByKey(key, g.groupKey)] == g
  {
    KeyKindsDisjoint(key, g.groupKey, g.siteID, g.name);
  }

  /** updateCache: the group under both its keys, and neither key marked
      missing any more. */
  function Updated(gc: map<String, Group>, nc: set<String>, key: String, g: Group): (c: (map<String, Group>, set<String>))
    ensures ByKey(key, g.groupKey) in c.0 && c.0[ByKey(key, g.groupKey)] == g
    ensures ByName(key, g.siteID, g.name) in c.0 && c.0[ByName(key, g.siteID, g.name)] == g
    ensures ByKey(key, g.groupKey) !in c.1 && ByName(key, g.siteID, g.name) !in c.1
    ensures c.0.Keys == gc.Keys + {ByKey(key, g.groupKey), ByName(key, g.siteID, g.name)}
    ensures c.1 == nc - {ByKey(key, g.groupKey), ByName(key, g.siteID, g.name)}
    ensures forall k :: k in gc && k != ByKey(key, g.groupKey) && k != ByName(key, g.siteID, g.name) ==> c.0[k] == gc[k]
  {
    KeyKindsDisjoint(key, g.groupKey, g.siteID, g.name);
    (gc[ByKey(key, g.groupKey) := g][ByName(key, g.siteID, g.name) := g],
     nc - {ByKey(key, g.groupKey), ByName(key, g.siteID, g.name)})
  }

  // ------------------------------------------------------------ the provider

  class GroupManager {
    var key: String
    var providerKeyPrefix: String
    var priority: int
    var readOnly: bool
    /** Whether the provider is registered with the group manager service. */
    var registered: bool
    var defaultLdapProperties: Option<Props>
    var overridenLdapProperties: Option<Props>
    var ldapProperties: Props
    var mappedProperties: Props
    var searchWildCardAttributeList: Option<seq<String>>
    var groupCache: map<String, Group>
    var nonExistantGroupCache: set<String>
    const nonExistentGroups: seq<String>
    /** The filters of the group searches sent to the directory, in order. */
    ghost var queries: seq<String>

    /** The constructor and initializeDefaults. */
    constructor ()
      ensures key == "ldap" && providerKeyPrefix == KeyPrefix("ldap")
      ensures priority == 2 && readOnly && !registered
      ensures defaultLdapProperties == Some(DefaultProperties()) && overridenLdapProperties == None
      ensures ldapProperties == map[] && mappedProperties == map[] && searchWildCardAttributeList == None
      ensures groupCache == map[] && nonExistantGroupCache == {}
      ensures nonExistentGroups == BuiltInGroups
      ensures queries == []
    {
      nonExistentGroups := BuiltInGroups;
      key := "ldap";
      providerKeyPrefix := KeyPrefix("ldap");
      priority := 2;
      readOnly := true;
      registered := false;
      defaultLdapProperties := Some(DefaultProperties());
      overridenLdapProperties := None;
      ldapProperties := map[];
      mappedProperties := map[];
      searchWildCardAttributeList := None;
      groupCache := map[];
      nonExistantGroupCache := {};
      queries := [];
    }

    /** setKey: the key and the prefix of the group keys this provider
        hands out. */
    method SetKey(k: String)
      modifies this`key, this`providerKeyPrefix
      ensures key == k && providerKeyPrefix == KeyPrefix(k)
    {
      key := k;
      providerKeyPrefix := KeyPrefix(k);
    }

    method SetLdapProperties(p: Option<Props>)
      modifies this`overridenLdapProperties
      ensures overridenLdapProperties == p
    {
      overridenLdapProperties := p;
    }

    method SetDefaultLdapProperties(p: Option<Props>)
      modifies this`defaultLdapProperties
      ensures defaultLdapProperties == p
    {
      defaultLdapProperties := p;
    }

    /** unregister: the provider leaves the group manager service. */
    method Unregister()
      modifies this`registered
      ensures !registered
    {
      registered := false;
    }

    /** initProperties: the defaults overridden by the configured properties,
        the priority, the registration, the attribute-map table and the
        wildcard attribute list. An unparsable priority stops it after the
        properties are merged. The order the properties were walked in is
        returned. */
    method InitProperties() returns (crashed: bool, order: seq<String>)
      modifies this`defaultLdapProperties, this`ldapProperties, this`priority, this`registered,
               this`mappedProperties, this`searchWildCardAttributeList
      ensures defaultLdapProperties == Some(old(defaultLdapProperties).GetOr(map[]))
      ensures ldapProperties == old(defaultLdapProperties).GetOr(map[]) + overridenLdapProperties.GetOr(map[])
      ensures Configured(old(defaultLdapProperties).GetOr(map[])) ==> Configured(ldapProperties)
      ensures crashed <==> "priority" in ldapProperties && ParseInt(Get(ldapProperties, "priority")).None?
      ensures crashed ==> priority == old(priority) && registered == old(registered) &&
                          mappedProperties == old(mappedProperties) &&
                          searchWildCardAttributeList == old(searchWildCardAttributeList)
      ensures !crashed ==> registered
      ensures !crashed ==> priority == ParseInt(Get(ldapProperties, "priority")).GetOr(old(priority))
      ensures !crashed ==> IsEnumeration(order, ldapProperties.Keys) &&
                           AttributeMaps(ldapProperties, ldapProperties.Keys, mappedProperties)
      ensures !crashed ==> searchWildCardAttributeList ==
                             if "search.wildcards.attributes" in ldapProperties
                             then Some(TrimAll(Tokens(ldapProperties["search.wildcards.attributes"])))
                             else old(searchWildCardAttributeList)
    {
      MergeProperties();
      order := [];
      if "priority" in ldapProperties {
        var parsed := ParseInt(Some(ldapProperties["priority"]));
        if parsed.None? {
          return true, order;
        }
        priority := parsed.value;
      }
      registered := true;
      order := LoadTables();
      return false, order;
    }

    /** The start of initProperties: the defaults, then the overrides on
        top of them. */
    method MergeProperties()
      modifies this`defaultLdapProperties, this`ldapProperties
      ensures defaultLdapProperties == Some(old(defaultLdapProperties).GetOr(map[]))
      ensures ldapProperties == old(defaultLdapProperties).GetOr(map[]) + overridenLdapProperties.GetOr(map[])
      ensures Configured(old(defaultLdapProperties).GetOr(map[])) ==> Configured(ldapProperties)
    {
      if defaultLdapProperties.None? {
        defaultLdapProperties := Some(map[]);
      }
      ldapProperties := defaultLdapProperties.value + overridenLdapProperties.GetOr(map[]);
      if Configured(defaultLdapProperties.value) {
        MergeKeepsConfigured(defaultLdapProperties.value, overridenLdapProperties.GetOr(map[]));
      }
    }

    /** The end of initProperties: the attribute-map table and, when the
        property is set, the wildcard attribute list. */
    method LoadTables() returns (order: seq<String>)
      modifies this`mappedProperties, this`searchWildCardAttributeList
      ensures IsEnumeration(order, ldapProperties.Keys)
      ensures AttributeMaps(ldapProperties, ldapProperties.Keys, mappedProperties)
      ensures searchWildCardAttributeList ==
                if "search.wildcards.attributes" in ldapProperties
                then Some(TrimAll(Tokens(ldapProperties["search.wildcards.attributes"])))
                else old(searchWildCardAttributeList)
    {
      mappedProperties, order := AttributeMapTable(ldapProperties);
      var wildcards := Get(ldapProperties, "search.wildcards.attributes");
      if wildcards.Some? {
        var list := WildcardList(wildcards.value);
        searchWildCardAttributeList := Some(list);
      }
    }

    /** lookupGroupInLDAP(String): no query for a reserved key; otherwise the
        first group whose naming attribute is the key, translated. The filter
        sent is returned, empty when none was. */
    method LookupGroupInLDAP(server: Server, users: UserProvider, groupKey: String, fuel: nat)
      returns (r: Outcome<Option<Group>>, filter: String, order: seq<String>)
      requires Configured(ldapProperties)
      modifies this`queries
      ensures Reserved(groupKey, nonExistentGroups) ==> r == Done(None) && filter == [] && queries == old(queries)
      ensures !Reserved(groupKey, nonExistentGroups) ==> queries == old(queries) + [filter]
      ensures !Reserved(groupKey, nonExistentGroups) ==>
                r == GroupFound(ldapProperties, mappedProperties, users, key,
                                First(CriteriaSearch(server, ldapProperties, filter, fuel)), order)
      ensures !Reserved(groupKey, nonExistentGroups) ==>
                SearchesFor(ldapProperties, mappedProperties, searchWildCardAttributeList, groupKey, filter)
      ensures !Reserved(groupKey, nonExistentGroups) && PlainSearchAttribute(ldapProperties, mappedProperties) ==>
                filter == PublicGroupFilter(ldapProperties, groupKey)
    {
      var reserved := IsReserved(groupKey);
      if reserved {
        return Done(None), [], [];
      }
      var first;
      first, filter := GetPublicGroup(server, ldapProperties, mappedProperties, searchWildCardAttributeList,
                                      groupKey, fuel);
      queries := queries + [filter];
      order := [];
      match first {
        case Done(None) =>
          r := Done(None);
        case Done(Some(sr)) =>
          r, order := LdapToJahiaGroup(ldapProperties, mappedProperties, users, key, sr);
        case Crashed =>
          r := Crashed;
        case OutOfFuel =>
          r := OutOfFuel;
      }
    }

    /** lookupGroupInLDAP(int, String): the same, with the group placed on
        the site. */
    method LookupGroupInLDAPAtSite(server: Server, users: UserProvider, siteID: int, name: String, fuel: nat)
      returns (r: Outcome<Option<Group>>, filter: String, order: seq<String>)
      requires Configured(ldapProperties)
      modifies this`queries
      ensures Reserved(name, nonExistentGroups) ==> r == Done(None) && filter == [] && queries == old(queries)
      ensures !Reserved(name, nonExistentGroups) ==> queries == old(queries) + [filter]
      ensures !Reserved(name, nonExistentGroups) ==>
                r == AtSite(GroupFound(ldapProperties, mappedProperties, users, key,
                                       First(CriteriaSearch(server, ldapProperties, filter, fuel)), order), siteID)
      ensures !Reserved(name, nonExistentGroups) ==>
                SearchesFor(ldapProperties, mappedProperties, searchWildCardAttributeList, name, filter)
      ensures !Reserved(name, nonExistentGroups) && PlainSearchAttribute(ldapProperties, mappedProperties) ==>
                filter == PublicGroupFilter(ldapProperties, name)
    {
      var found;
      found, filter, order := LookupGroupInLDAP(server, users, name, fuel);
      r := AtSite(found, siteID);
    }

    /** lookupGroup(String): a cached group first, then a negative marker,
        then the directory, with the key's provider prefix removed; what the
        directory says is cached. A failure goes through and caches nothing. */
    method LookupGroupByKey(server: Server, users: UserProvider, groupKey: String, fuel: nat)
      returns (r: Outcome<Option<Group>>, filter: String, order: seq<String>)
      requires Configured(ldapProperties)
      modifies this`groupCache, this`nonExistantGroupCache, this`queries
      ensures var k := ByKey(key, groupKey);
              if k in old(groupCache) then
                r == Done(Some(old(groupCache)[k])) && filter == [] && queries == old(queries) &&
                groupCache == old(groupCache) && nonExistantGroupCache == old(nonExistantGroupCache)
              else if k in old(nonExistantGroupCache) then
                r == Done(None) && filter == [] && queries == old(queries) &&
                groupCache == old(groupCache) && nonExistantGroupCache == old(nonExistantGroupCache)
              else
                var query := RemoveKeyPrefix(providerKeyPrefix, groupKey);
                (Reserved(query, nonExistentGroups) ==> r == Done(None) && filter == [] && queries == old(queries)) &&
                (!Reserved(query, nonExistentGroups) ==>
                   (queries == old(queries) + [filter] &&
                    r == GroupFound(ldapProperties, mappedProperties, users, key,
                                    First(CriteriaSearch(server, ldapProperties, filter, fuel)), order) &&
                    SearchesFor(ldapProperties, mappedProperties, searchWildCardAttributeList, query, filter) &&
                    (PlainSearchAttribute(ldapProperties, mappedProperties) ==>
                       filter == PublicGroupFilter(ldapProperties, query)))) &&
                (groupCache, nonExistantGroupCache) ==
                  StoredByKey(old(groupCache), old(nonExistantGroupCache), key, groupKey, r)
    {
      var k := ByKey(key, groupKey);
      if k in groupCache {
        return Done(Some(groupCache[k])), [], [];
      }
      if k in nonExistantGroupCache {
        return Done(None), [], [];
      }
      r, filter, order := FetchByKey(server, users, groupKey, fuel);
    }

    /** The miss branch of lookupGroup(String): ask the directory, then
        store what it answered. */
    method FetchByKey(server: Server, users: UserProvider, groupKey: String, fuel: nat)
      returns (r: Outcome<Option<Group>>, filter: String, order: seq<String>)
      requires Configured(ldapProperties)
      modifies this`groupCache, this`nonExistantGroupCache, this`queries
      ensures var query := RemoveKeyPrefix(providerKeyPrefix, groupKey);
              (Reserved(query, nonExistentGroups) ==> r == Done(None) && filter == [] && queries == old(queries)) &&
              (!Reserved(query, nonExistentGroups) ==>
                 (queries == old(queries) + [filter] &&
                  r == GroupFound(ldapProperties, mappedProperties, users, key,
                                  First(CriteriaSearch(server, ldapProperties, filter, fuel)), order) &&
                  SearchesFor(ldapProperties, mappedProperties, searchWildCardAttributeList, query, filter) &&
                  (PlainSearchAttribute(ldapProperties, mappedProperties) ==>
                     filter == PublicGroupFilter(ldapProperties, query)))) &&
              (groupCache, nonExistantGroupCache) ==
                StoredByKey(old(groupCache), old(nonExistantGroupCache), key, groupKey, r)
    {
      r, filter, order := LookupGroupInLDAP(server, users, RemoveKeyPrefix(providerKeyPrefix, groupKey), fuel);
      StoreByKey(groupKey, r);
    }

    /** What lookupGroup(String) caches after asking the directory. */
    method StoreByKey(groupKey: String, r: Outcome<Option<Group>>)
      modifies this`groupCache, this`nonExistantGroupCache
      ensures (groupCache, nonExistantGroupCache) ==
                StoredByKey(old(groupCache), old(nonExistantGroupCache), key, groupKey, r)
    {
      var stored := StoredByKey(groupCache, nonExistantGroupCache, key, groupKey, r);
      groupCache, nonExistantGroupCache := stored.0, stored.1;
    }

    /** lookupGroup(int, String): no name, no group; otherwise the cache by
        site and name, a negative marker, then the directory. */
    method LookupGroupByName(server: Server, users: UserProvider, siteID: int, name: Option<String>, fuel: nat)
      returns (r: Outcome<Option<Group>>, filter: String, order: seq<String>)
      requires Configured(ldapProperties)
      modifies this`groupCache, this`nonExistantGroupCache, this`queries
      ensures name.None? ==>
                (r == Done(None) && filter == [] && queries == old(queries) &&
                 groupCache == old(groupCache) && nonExistantGroupCache == old(nonExistantGroupCache))
      ensures name.Some? ==>
              var k := ByName(key, siteID, name.value);
              if k in old(groupCache) then
                r == Done(Some(old(groupCache)[k])) && filter == [] && queries == old(queries) &&
                groupCache == old(groupCache) && nonExistantGroupCache == old(nonExistantGroupCache)
              else if k in old(nonExistantGroupCache) then
                r == Done(None) && filter == [] && queries == old(queries) &&
                groupCache == old(groupCache) && nonExistantGroupCache == old(nonExistantGroupCache)
              else
                (Reserved(name.value, nonExistentGroups) ==> r == Done(None) && filter == [] && queries == old(queries)) &&
                (!Reserved(name.value, nonExistentGroups) ==>
                   (queries == old(queries) + [filter] &&
                    r == AtSite(GroupFound(ldapProperties, mappedProperties, users, key,
                                           First(CriteriaSearch(server, ldapProperties, filter, fuel)), order), siteID) &&
                    SearchesFor(ldapProperties, mappedProperties, searchWildCardAttributeList, name.value, filter) &&
                    (PlainSearchAttribute(ldapProperties, mappedProperties) ==>
                       filter == PublicGroupFilter(ldapProperties, name.value)))) &&
                (groupCache, nonExistantGroupCache) ==
                  StoredByName(old(groupCache), old(nonExistantGroupCache), key, siteID, name.value, r)
    {
      if name.None? {
        return Done(None), [], [];
      }
      var k := ByName(key, siteID, name.value);
      if k in groupCache {
        return Done(Some(groupCache[k])), [], [];
      }
      if k in nonExistantGroupCache {
        return Done(None), [], [];
      }
      r, filter, order := LookupGroupInLDAPAtSite(server, users, siteID, name.value, fuel);
      StoreByName(siteID, name.value, r);
    }

    /** What lookupGroup(int, String) caches after asking the directory: a
        group found under its key and its site and name, a marker for a
        group not found. */
    method StoreByName(siteID: int, name: String, r: Outcome<Option<Group>>)
      modifies this`groupCache, this`nonExistantGroupCache
      ensures (groupCache, nonExistantGroupCache) ==
                StoredByName(old(groupCache), old(nonExistantGroupCache), key, siteID, name, r)
    {
      match r {
        case Done(Some(g)) =>
          groupCache := groupCache[ByKey(key, g.groupKey) := g][ByName(key, g.siteID, g.name) := g];
        case Done(None) =>
          nonExistantGroupCache := nonExistantGroupCache + {ByName(key, siteID, name)};
        case _ =>
      }
    }

    /** updateCache. */
    method UpdateCache(g: Group)
      modifies this`groupCache, this`nonExistantGroupCache
      ensures (groupCache, nonExistantGroupCache) == Updated(old(groupCache), old(nonExistantGroupCache), key, g)
    {
      var byKey := ByKey(key, g.groupKey);
      var byName := ByName(key, g.siteID, g.name);
      groupCache := groupCache[byKey := g][byName := g];
      nonExistantGroupCache := nonExistantGroupCache - {byKey, byName};
    }

    /** The loop over nonExistentGroups in lookupGroupInLDAP. */
    method IsReserved(groupKey: String) returns (b: bool)
      ensures b == Reserved(groupKey, nonExistentGroups)
    {
      for i := 0 to |nonExistentGroups|
        invariant forall j :: 0 <= j < i ==> !Contains(groupKey, nonExistentGroups[j] + ":")
      {
        if IndexOf(groupKey, nonExistentGroups[i] + ":") != -1 {
          return true;
        }
      }
      return false;
    }
  }

  /** One property of the loop of initProperties added to the table. */
  function TableAdd(mapped: Props, k: String, v: String): Props {
    if EndsWith(k, AttributeMapSuffix) then mapped[SubstringBeforeLast(k, AttributeMapSuffix) := v] else mapped
  }

  lemma TableStep(p: Props, visited: set<String>, mapped: Props, k: String)
    requires k in p && AttributeMaps(p, visited, mapped)
    ensures AttributeMaps(p, visited + {k}, TableAdd(mapped, k, p[k]))
  {
    if EndsWith(k, AttributeMapSuffix) {
      var name := SubstringBeforeLast(k, AttributeMapSuffix);
      BeforeLastOfSuffix(k, AttributeMapSuffix);
      forall n
        ensures n + AttributeMapSuffix == k <==> n == name
      {
        SuffixedName(k, n);
      }
    } else {
      forall n
        ensures n + AttributeMapSuffix != k
      {
        SuffixEnds(n);
      }
    }
  }

  /** The loop of initProperties over the merged properties that fills the
      attribute-map table. */
  method AttributeMapTable(p: Props) returns (mapped: Props, order: seq<String>)
    ensures IsEnumeration(order, p.Keys)
    ensures AttributeMaps(p, p.Keys, mapped)
  {
    mapped := map[];
    order := [];
    var visited: set<String> := {};
    while visited != p.Keys
      invariant visited <= p.Keys
      invariant IsEnumeration(order, visited)
      invariant AttributeMaps(p, visited, mapped)
      decreases |p.Keys - visited|
    {
      var k :| k in p.Keys - visited;
      TableStep(p, visited, mapped, k);
      EnumerationSnoc(order, visited, k);
      if EndsWith(k, AttributeMapSuffix) {
        mapped := mapped[SubstringBeforeLast(k, AttributeMapSuffix) := p[k]];
      }
      order := order + [k];
      visited := visited + {k};
    }
  }

  /** The StringTokenizer loop of initProperties. */
  method WildcardList(s: String) returns (list: seq<String>)
    ensures list == TrimAll(Tokens(s))
  {
    var tokens := Tokens(s);
    list := [];
    for i := 0 to |tokens|
      invariant list == TrimAll(tokens[..i])
    {
      assert tokens[..i + 1][..i] == tokens[..i];
      list := list + [Trim(tokens[i])];
    }
    assert tokens[..|tokens|] == tokens;
  }
}
