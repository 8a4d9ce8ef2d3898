# LDAP group provider of Jahia, modelled in Dafny

This project models the group side of Jahia's LDAP connector. That is the
class `JahiaGroupManagerLDAPProvider`, which makes groups stored in an LDAP
directory look like Jahia groups. It also models `JahiaLDAPConfig`, which
turns an OSGi configuration into a provider key and into user and group
property maps. The model covers:

- escaping of filter values (section 3 of RFC 4515, formerly section 4 of
  RFC 2254) and building of the group search filter;
- the renaming of search criteria through the `.attribute.map` table;
- Active Directory range retrieval of large member attributes ("Range
  Retrieval of Attribute Values" in [MS-ADTS]);
- the group search, which pages only when asked to and keeps partial
  results on a size limit;
- the translation of a directory entry into a Jahia group, with its
  properties, its key, its dynamic flag and its members;
- the two caches, one of found groups and one of keys known to be missing,
  and the lookups by key and by site and name;
- the membership of a user: static groups, dynamic groups and groups reached
  through the content repository;
- `initProperties`, `setKey` and the built-in defaults;
- `computeProviderKey`, the key-partitioning loop of `startContext`, and
  `unregister`.

The directory is a function from a query (base, filter, returned
attributes, count limit) to a response (entries and how the search ended).
The user provider is three functions, one each for `searchUsers`,
`lookupUserByKey` and `lookupUserFromDN`. The content repository is three
functions: external-group lookup, weak references of a node, and site ids.

Java's unspecified iteration orders (HashMap, Properties, Dictionary) are not
fixed. Each loop over such a collection returns the order it used, and the
specification functions take that order as a parameter. Where the order
cannot matter, a lemma shows that it does not.

Java exceptions that end an operation become outcomes:

- a NullPointerException becomes `Crashed`;
- a swallowed JNDI failure becomes an empty result;
- loops that need not end carry fuel, and running out of fuel is its own
  outcome, `OutOfFuel` or `WalkOutOfFuel`.

Three behaviours of the source look unintended. The model keeps them as
written, and a lemma states each one:

- `Directory.UpperCaseAttributeNeverRanged`: `containsMembersRange`
  lower-cases the attribute id but not the configured members attribute.
  So the built-in `uniqueMember` never detects a ranged answer.
- `Membership.StaticFilterEmbedsDn`: `getUserMembership` puts the user's DN
  into the static-group filter without escaping it.
- `Membership.SelfMemberNeverEnds`: `recurseOnGroups` keeps no visited
  set. So a group that contains itself recurses until the stack overflows.

Modules: `Wrappers` (Option, Outcome), `Strings` (the commons-lang and
JDK string operations used), `Filters`, `Directory`, `Paging`,
`Search`, `Translate`, `Provider` (the `GroupManager` class and its
caches), `Membership` and `Config`.

## Model

| member | source | states |
|---|---|---|
| Filters.EscapeIsPerCharacter | src/main/java/org/jahia/services/usermanager/ldap/JahiaGroupManagerLDAPProvider.java:183-189 | Replacing `\` first, then `(`, then `)` equals escaping each character on its own, so later replacements never touch an escape already written. |
| Filters.UnescapeEscape | src/main/java/org/jahia/services/usermanager/ldap/JahiaGroupManagerLDAPProvider.java:183-189 | Decoding `\5c`, `\28` and `\29` gives back the original value. |
| Filters.EscapeIsWellEscaped | src/main/java/org/jahia/services/usermanager/ldap/JahiaGroupManagerLDAPProvider.java:183-189 | The escaped value has no raw `(` or `)`, and every `\` in it starts `\5c`, `\28` or `\29`. |
| Filters.EscapeKeepsPlainValue | src/main/java/org/jahia/services/usermanager/ldap/JahiaGroupManagerLDAPProvider.java:183-189 | A value free of the three special characters is unchanged; this includes `*`, which is deliberately not escaped. |
| Filters.BuildGroupFilter | src/main/java/org/jahia/services/usermanager/ldap/JahiaGroupManagerLDAPProvider.java:514-571 | The filter built is the group filter over the criteria in the order they were walked. With no criteria it is exactly `(\|(objectClass=S)(objectClass=D))`. |
| Filters.AppendCriteria | src/main/java/org/jahia/services/usermanager/ldap/JahiaGroupManagerLDAPProvider.java:528-565 | The loop over the criteria appends each criterion's clause in the order walked, and that order enumerates the criteria. |
| Filters.CriterionText | src/main/java/org/jahia/services/usermanager/ldap/JahiaGroupManagerLDAPProvider.java:531-564 | One criterion: its value escaped, then either `(name=value)` or the wildcard expansion for `*`. |
| Filters.WildcardPart | src/main/java/org/jahia/services/usermanager/ldap/JahiaGroupManagerLDAPProvider.java:538-556 | `*` gives one `(attr=value)` per wildcard attribute in list order. It is wrapped in `(\|...)` only when the list has more than one entry, and it is empty when there is no list. |
| Filters.FilterBalanced | src/main/java/org/jahia/services/usermanager/ldap/JahiaGroupManagerLDAPProvider.java:514-571 | With attribute names free of parentheses, the parentheses of the whole filter balance. |
| Filters.CriterionInFilter | src/main/java/org/jahia/services/usermanager/ldap/JahiaGroupManagerLDAPProvider.java:538-564 | Every non-wildcard criterion's clause, and for `*` every wildcard attribute's clause, occurs in the filter. |
| Filters.GroupFilterOpening | src/main/java/org/jahia/services/usermanager/ldap/JahiaGroupManagerLDAPProvider.java:528-567 | With criteria, the filter is an opening, the criterion parts in order and a closing `)`. |
| Filters.WildcardOccurs | src/main/java/org/jahia/services/usermanager/ldap/JahiaGroupManagerLDAPProvider.java:538-556 | Each wildcard attribute's clause occurs in the wildcard expansion. |
| Filters.MapJahiaPropertiesToLDAP | src/main/java/org/jahia/services/usermanager/ldap/JahiaGroupManagerLDAPProvider.java:587-597 | The criteria are renamed through the attribute-map table in the order walked, and then `members` is renamed to the members attribute. |
| Filters.RenameKeepsValues | src/main/java/org/jahia/services/usermanager/ldap/JahiaGroupManagerLDAPProvider.java:587-597 | Renaming invents no value and never makes the criteria map larger. |
| Filters.RenameLeavesOthers | src/main/java/org/jahia/services/usermanager/ldap/JahiaGroupManagerLDAPProvider.java:587-597 | A name untouched by the table and by `members` keeps its presence and its value. |
| Filters.RenameMovesCriterion | src/main/java/org/jahia/services/usermanager/ldap/JahiaGroupManagerLDAPProvider.java:588-597 | For any table walked in any order, a criterion named by a table key moves to its directory name with its value. Its old name disappears unless the table maps it to itself. This holds when no other entry renames to either name, the directory name is not itself renamed, and neither name is `members` or the members attribute. |
| Directory.ContainsMembersRange | src/main/java/org/jahia/services/usermanager/ldap/JahiaGroupManagerLDAPProvider.java:169-181 | True exactly when some attribute id, lower-cased, starts with the members attribute followed by `;range=`. |
| Directory.UpperCaseAttributeNeverRanged | src/main/java/org/jahia/services/usermanager/ldap/JahiaGroupManagerLDAPProvider.java:169-181 | As written, only the id is lower-cased. A members attribute name holding an upper-case letter therefore never detects a range. |
| Directory.PutThenFind | src/main/java/org/jahia/services/usermanager/ldap/JahiaGroupManagerLDAPProvider.java:269-270 | Putting the merged attribute back replaces any attribute with the same id and leaves the rest alone. |
| Paging.AddValuesContents | src/main/java/org/jahia/services/usermanager/ldap/JahiaGroupManagerLDAPProvider.java:232-234 | Adding values keeps the earlier ones first, in order, drops duplicates, and holds exactly the old and the new values. |
| Paging.AddValuesFresh | src/main/java/org/jahia/services/usermanager/ldap/JahiaGroupManagerLDAPProvider.java:232-234 | Values not seen before are appended in order. |
| Paging.ReadAttributes | src/main/java/org/jahia/services/usermanager/ldap/JahiaGroupManagerLDAPProvider.java:225-248 | The loop over a returned entry's ids adds the values of every id starting with the members attribute. It records whether one was present and whether an id ended with `*`. |
| Paging.ReadPage | src/main/java/org/jahia/services/usermanager/ldap/JahiaGroupManagerLDAPProvider.java:219-258 | A page's entries are absorbed in order. The same-named entry finishes when it has no members attribute or its id ends with `*`. Entries with another name are skipped. |
| Paging.PagingFrom | src/main/java/org/jahia/services/usermanager/ldap/JahiaGroupManagerLDAPProvider.java:206-267 | The number of page requests is between the requests already made and those plus the fuel. |
| Paging.LoadMembersUsingRange | src/main/java/org/jahia/services/usermanager/ldap/JahiaGroupManagerLDAPProvider.java:191-276 | The loop equals the paging run on the original count limit. The merged attribute is put back only when all pages came. The original returning attributes are restored at the end. |
| Paging.RequestPages | src/main/java/org/jahia/services/usermanager/ldap/JahiaGroupManagerLDAPProvider.java:206-267 | The request loop equals the paging run from range 0 and leaves the last range's returning attribute set. |
| Paging.RequestPage | src/main/java/org/jahia/services/usermanager/ldap/JahiaGroupManagerLDAPProvider.java:207-262 | One request sets the returning attribute to `attr;range=low-high`, and the run from the next range continues this one. |
| Paging.PageRanges | src/main/java/org/jahia/services/usermanager/ldap/JahiaGroupManagerLDAPProvider.java:201-264 | The pages asked for are at most fuel many and contiguous: the k-th starts at k*(step+1) and spans step+1 values. |
| Paging.Int32 | src/main/java/org/jahia/services/usermanager/ldap/JahiaGroupManagerLDAPProvider.java:202-203 | A Java `int` sum is the exact sum brought into the 32-bit range modulo 2^32, and equals the exact sum when that fits. |
| Paging.JavaRangeAgrees | src/main/java/org/jahia/services/usermanager/ldap/JahiaGroupManagerLDAPProvider.java:201-264 | While page k's high bound fits a Java `int`, the source's `lowRange` and `highRange` in round k are exactly `PageLow(k, step)` and `PageLow(k, step) + step`, the bounds the model requests. |
| Paging.JavaRangeWraps | src/main/java/org/jahia/services/usermanager/ldap/JahiaGroupManagerLDAPProvider.java:263-264 | Past that point the bounds wrap: with the largest `int` as step, the second request is for `range=-2147483648--1`, while the model asks for the page starting at 2^31. |
| Paging.NeverFinishesWithoutOwnEntry | src/main/java/org/jahia/services/usermanager/ldap/JahiaGroupManagerLDAPProvider.java:219-258 | A server that never returns the group's own entry never lets the loop finish. Only fuel stops it. |
| Paging.PagingRetrievesAll | src/main/java/org/jahia/services/usermanager/ldap/JahiaGroupManagerLDAPProvider.java:191-276 | Given a server that serves the member list in ranges, with `*` on the last one, and enough fuel, all members are retrieved in order and put back under the plain attribute name. |
| Paging.PagingPageCount | src/main/java/org/jahia/services/usermanager/ldap/JahiaGroupManagerLDAPProvider.java:202-264 | Against the same server, exactly `n` pages are requested, contiguous from 0. `n` is the least count, at least one, whose pages reach past the last member: for example 3 requests for 1500 members served 500 at a time. |
| Paging.PagingFromEnds | src/main/java/org/jahia/services/usermanager/ldap/JahiaGroupManagerLDAPProvider.java:206-267 | Against any server, a run that reads every page keeps the pages already requested. It ends on a page whose answer finishes paging, and no earlier page of the run finished. |
| Paging.ServedPageFinishes | src/main/java/org/jahia/services/usermanager/ldap/JahiaGroupManagerLDAPProvider.java:228-258 | A page of the ranged server finishes paging exactly when the next page would start past the last member. |
| Paging.PageCount | src/main/java/org/jahia/services/usermanager/ldap/JahiaGroupManagerLDAPProvider.java:202-264 | Contiguous pages of which only the last reaches past the end number exactly the least count that reaches past it. |
| Paging.AbsentAttributeEndsPaging | src/main/java/org/jahia/services/usermanager/ldap/JahiaGroupManagerLDAPProvider.java:228-258 | When the group's own entry comes back without the members attribute, paging ends at once, complete, with the values gathered so far and no further request. |
| Paging.AbsorbWithoutMembers | src/main/java/org/jahia/services/usermanager/ldap/JahiaGroupManagerLDAPProvider.java:219-258 | An answer whose entries for the group carry no members attribute adds no member, and finishes paging exactly when it holds the group's entry. |
| Search.Collected | src/main/java/org/jahia/services/usermanager/ldap/JahiaGroupManagerLDAPProvider.java:1128-1140 | A size limit keeps the entries already read. Any other naming failure ends the search as failed. |
| Search.DoGroupSearch | src/main/java/org/jahia/services/usermanager/ldap/JahiaGroupManagerLDAPProvider.java:1108-1170 | doGroupSearch equals the group search on its inputs: no paging when the step is 0 or returning attributes are set, and otherwise paging of every entry with a members range. The count limit is kept. The returning attributes stay as they were on the plain branch; on the range branch they are left as GroupSearchReturning says. |
| Search.RangeBranch | src/main/java/org/jahia/services/usermanager/ldap/JahiaGroupManagerLDAPProvider.java:1141-1167 | The paging branch keeps each entry, ranged ones with members loaded, and keeps the prefix on a size limit. The controls get back no returning attributes while every paging completes, and keep the range of the paging that stopped the search otherwise. |
| Search.RangeEntry | src/main/java/org/jahia/services/usermanager/ldap/JahiaGroupManagerLDAPProvider.java:1149-1156 | One entry: an unranged entry or a completed paging goes on, with the members loaded and no returning attributes; a paging that stops gives what ends the search and leaves its last range in the controls. |
| Search.RangeReturningAfter | src/main/java/org/jahia/services/usermanager/ldap/JahiaGroupManagerLDAPProvider.java:1141-1167 | What the range branch leaves in the controls is either the original returning attributes or one page range of the members attribute. |
| Search.ReturningAfterStep | src/main/java/org/jahia/services/usermanager/ldap/JahiaGroupManagerLDAPProvider.java:1149-1156 | An entry decides what the controls are left with only when it is ranged and its paging stops; otherwise the entries after it decide. |
| Search.CompletedPagingRestores | src/main/java/org/jahia/services/usermanager/ldap/JahiaGroupManagerLDAPProvider.java:274-275 | When every ranged entry is paged completely, the range branch leaves the original returning attributes. |
| Search.RangeSearchWithoutRanges | src/main/java/org/jahia/services/usermanager/ldap/JahiaGroupManagerLDAPProvider.java:1147-1157 | Without ranged attributes, the paging branch returns the server's entries unchanged. |
| Search.RangeSearchShape | src/main/java/org/jahia/services/usermanager/ldap/JahiaGroupManagerLDAPProvider.java:1141-1167 | The result is a prefix of the entries by name. Unranged entries are unchanged. A shorter result means a page hit the size limit. |
| Search.Swallowed | src/main/java/org/jahia/services/usermanager/ldap/JahiaGroupManagerLDAPProvider.java:1072-1105 | getGroups turns every naming failure into an empty list and passes crashes on. |
| Search.GetGroups | src/main/java/org/jahia/services/usermanager/ldap/JahiaGroupManagerLDAPProvider.java:1072-1105 | getGroups equals the swallowed group search. The controls are left with the returning attributes doGroupSearch leaves, so a paging that stopped leaves its last range. |
| Search.SearchWithReturningNeverPages | src/main/java/org/jahia/services/usermanager/ldap/JahiaGroupManagerLDAPProvider.java:1125-1127 | With returning attributes set, the result is the server's answer as it stands, or empty on a naming failure. |
| Search.GetGroupsByCriteria | src/main/java/org/jahia/services/usermanager/ldap/JahiaGroupManagerLDAPProvider.java:508-578 | The criteria are renamed and the filter is built from them. The search uses the configured count limit, and an unparsable count limit crashes. |
| Search.First | src/main/java/org/jahia/services/usermanager/ldap/JahiaGroupManagerLDAPProvider.java:1422-1436 | The first entry of the answer, or none for an empty answer. |
| Search.GetPublicGroup | src/main/java/org/jahia/services/usermanager/ldap/JahiaGroupManagerLDAPProvider.java:1416-1437 | The first entry found for the one criterion search-attribute = cn. The filter sent is SearchesFor cn: the group filter over that criterion after renaming, for some walk of the mapping and of the criteria. When the attribute is not renamed, it is exactly the public group filter. |
| Search.SingleCriterionFilter | src/main/java/org/jahia/services/usermanager/ldap/JahiaGroupManagerLDAPProvider.java:1418-1422 | The filter of a lookup by name is `(&(\|(objectClass=S)(objectClass=D))(attr=escaped cn))`. |
| Search.SearchesForPlain | src/main/java/org/jahia/services/usermanager/ldap/JahiaGroupManagerLDAPProvider.java:1416-1422 | A filter that searches for cn by an attribute the mapping leaves alone is exactly `(&(\|(objectClass=S)(objectClass=D))(attr=escaped cn))`, whatever the walk orders. |
| Search.SearchesForRenamed | src/main/java/org/jahia/services/usermanager/ldap/JahiaGroupManagerLDAPProvider.java:1416-1422 | A filter that searches for cn by an attribute the mapping renames, with no other entry renaming to either name, is exactly the clause on the directory name: `groupname` is sent as `(cn=escaped cn)`. |
| Search.SingleClauseFilter | src/main/java/org/jahia/services/usermanager/ldap/JahiaGroupManagerLDAPProvider.java:1416-1422 | The group filter over one criterion other than `*` is the object-class disjunction and that one clause inside `(&…)`. |
| Translate.TerminatedJoin | src/main/java/org/jahia/services/usermanager/ldap/JahiaGroupManagerLDAPProvider.java:687-705 | Appending `\n` after each value and then dropping one trailing `\n` joins the values with `\n`. |
| Translate.JoinValues | src/main/java/org/jahia/services/usermanager/ldap/JahiaGroupManagerLDAPProvider.java:685-705 | An attribute's values become one string joined by `\n` with no trailing `\n`. |
| Translate.ReadAttributes | src/main/java/org/jahia/services/usermanager/ldap/JahiaGroupManagerLDAPProvider.java:681-718 | The loop over the attributes gives the properties, one per id. The key is the value of the first attribute named after the search attribute. |
| Translate.AttrPropsKeys | src/main/java/org/jahia/services/usermanager/ldap/JahiaGroupManagerLDAPProvider.java:706-717 | A property exists exactly for each attribute id, plus `objectClass` when an id equals it ignoring case. |
| Translate.MapLDAPToJahiaProperties | src/main/java/org/jahia/services/usermanager/ldap/JahiaGroupManagerLDAPProvider.java:767-775 | Each Jahia property listed in the table is copied from its directory attribute when that attribute is present. |
| Translate.CopyMappedValues | src/main/java/org/jahia/services/usermanager/ldap/JahiaGroupManagerLDAPProvider.java:767-775 | After the copy, a mapped property holds its source attribute's value, and every other property is unchanged. |
| Translate.AddUsers | src/main/java/org/jahia/services/usermanager/ldap/JahiaGroupManagerLDAPProvider.java:826-831 | The users found for one URL are added under their user keys. |
| Translate.GetGroupMembers | src/main/java/org/jahia/services/usermanager/ldap/JahiaGroupManagerLDAPProvider.java:790-855 | The member loop equals the members function. Dynamic groups search users by URL. Static groups look each value up by key or DN and skip users not found. |
| Translate.PutUsersKeyed | src/main/java/org/jahia/services/usermanager/ldap/JahiaGroupManagerLDAPProvider.java:826-831 | Every member map is keyed by the user's key, and it holds exactly the old keys plus the found users' keys. |
| Translate.StaticMembersKeyed | src/main/java/org/jahia/services/usermanager/ldap/JahiaGroupManagerLDAPProvider.java:832-849 | A static member is present exactly when some member value resolves to a user with that key. |
| Translate.DynamicMembersKeyed | src/main/java/org/jahia/services/usermanager/ldap/JahiaGroupManagerLDAPProvider.java:823-831 | A dynamic member is present exactly when some URL's search returns a user with that key. |
| Translate.Translated | src/main/java/org/jahia/services/usermanager/ldap/JahiaGroupManagerLDAPProvider.java:675-752 | No key means no group. A present key with no `objectClass` property crashes. Otherwise the group is named and keyed by the key and placed on site 0. It is dynamic exactly when `objectClass` contains the dynamic class, and its members are preloaded exactly when `preload` is "true" ignoring case. |
| Translate.LdapToJahiaGroup | src/main/java/org/jahia/services/usermanager/ldap/JahiaGroupManagerLDAPProvider.java:675-752 | ldapToJahiaGroup equals the translation. The order of the table walk enumerates the table. |
| Provider.KeyKindsDisjoint | src/main/java/org/jahia/services/usermanager/ldap/JahiaGroupManagerLDAPProvider.java:1440-1441 | A by-key cache key never equals a by-name cache key. |
| Provider.ByKeyInjective | src/main/java/org/jahia/services/usermanager/ldap/JahiaGroupManagerLDAPProvider.java:1348 | Under one provider key, distinct group keys have distinct by-key cache keys. |
| Provider.ByNameInjective | src/main/java/org/jahia/services/usermanager/ldap/JahiaGroupManagerLDAPProvider.java:1227 | Under one provider key and 32-bit site ids, distinct (site, name) pairs have distinct by-name cache keys. |
| Provider.RemoveKeyPrefix | src/main/java/org/jahia/services/usermanager/ldap/JahiaGroupManagerLDAPProvider.java:1172-1178 | The prefix is removed exactly when the key starts with it; otherwise the key is unchanged. |
| Provider.RemovePrefixed | src/main/java/org/jahia/services/usermanager/ldap/JahiaGroupManagerLDAPProvider.java:1172-1178 | Removing the prefix from a prefixed key gives the key back. |
| Provider.BuiltInReserved | src/main/java/org/jahia/services/usermanager/ldap/JahiaGroupManagerLDAPProvider.java:284-289 | `administrators:`, `guest:` and `users:` keys are reserved. |
| Provider.DefaultsConfigured | src/main/java/org/jahia/services/usermanager/ldap/JahiaGroupManagerLDAPProvider.java:1542-1568 | The built-in properties name the group attribute `cn` and the members attribute `uniqueMember`. |
| Provider.DefaultClasses | src/main/java/org/jahia/services/usermanager/ldap/JahiaGroupManagerLDAPProvider.java:1542-1568 | The built-in object classes are `groupOfUniqueNames` and `groupOfURLs`. |
| Provider.DefaultNoPaging | src/main/java/org/jahia/services/usermanager/ldap/JahiaGroupManagerLDAPProvider.java:1555 | The built-in range step is 0, so range paging is off. |
| Provider.DefaultCountLimit | src/main/java/org/jahia/services/usermanager/ldap/JahiaGroupManagerLDAPProvider.java:1553 | The built-in count limit parses to 100. |
| Provider.DefaultNoPreload | src/main/java/org/jahia/services/usermanager/ldap/JahiaGroupManagerLDAPProvider.java:1552 | The built-in properties do not preload members. |
| Provider.TrimAll | src/main/java/org/jahia/services/usermanager/ldap/JahiaGroupManagerLDAPProvider.java:1512-1519 | Each token is trimmed, and the list keeps its length and order. |
| Provider.WildcardsOfJoin | src/main/java/org/jahia/services/usermanager/ldap/JahiaGroupManagerLDAPProvider.java:1512-1519 | Tokenising a comma-joined list of plain names gives the names back. |
| Provider.DefaultWildcards | src/main/java/org/jahia/services/usermanager/ldap/JahiaGroupManagerLDAPProvider.java:1561 | The built-in wildcard list is `cn`, `description`, `uniqueMember`. |
| Provider.AttributeMapsUnique | src/main/java/org/jahia/services/usermanager/ldap/JahiaGroupManagerLDAPProvider.java:1482-1487 | The attribute-map table does not depend on the order the properties were walked in. |
| Provider.MappedFrom | src/main/java/org/jahia/services/usermanager/ldap/JahiaGroupManagerLDAPProvider.java:1482-1487 | Every `name.attribute.map` property gives the table entry name with that value. |
| Provider.DefaultGroupNameMap | src/main/java/org/jahia/services/usermanager/ldap/JahiaGroupManagerLDAPProvider.java:1564 | The built-in table maps `groupname` to `cn`. |
| Provider.DefaultDescriptionMap | src/main/java/org/jahia/services/usermanager/ldap/JahiaGroupManagerLDAPProvider.java:1565 | The built-in table maps `description` to `description`. |
| Provider.GroupFound | src/main/java/org/jahia/services/usermanager/ldap/JahiaGroupManagerLDAPProvider.java:1386-1390 | An empty answer gives no group and a crash stays a crash. A found group carries the provider key, site 0, and a key equal to its name. |
| Provider.AtSite | src/main/java/org/jahia/services/usermanager/ldap/JahiaGroupManagerLDAPProvider.java:1250-1257 | A found group is placed on the site, and no group stays no group. |
| Provider.StoredByKey | src/main/java/org/jahia/services/usermanager/ldap/JahiaGroupManagerLDAPProvider.java:1345-1367 | After a by-key miss, a found group is cached under the key asked for and under its site and name. No group leaves a negative marker under the key asked for. A failure caches nothing. |
| Provider.StoredByName | src/main/java/org/jahia/services/usermanager/ldap/JahiaGroupManagerLDAPProvider.java:1219-1248 | After a by-name miss, a found group is cached under its own key and its site and name. No group leaves a negative marker under the site and name asked for. |
| Provider.StoredByKeyHits | src/main/java/org/jahia/services/usermanager/ldap/JahiaGroupManagerLDAPProvider.java:1354-1361 | A group found by key is a cache hit for the same key afterwards. |
| Provider.StoredByNameHits | src/main/java/org/jahia/services/usermanager/ldap/JahiaGroupManagerLDAPProvider.java:1232-1241 | A group found by name is a hit for the same site and name afterwards, and for its own key. |
| Provider.Updated | src/main/java/org/jahia/services/usermanager/ldap/JahiaGroupManagerLDAPProvider.java:1439-1446 | updateCache stores the group under both keys and clears both negative markers. No other entry changes. |
| Provider.GroupManager.constructor | src/main/java/org/jahia/services/usermanager/ldap/JahiaGroupManagerLDAPProvider.java:284-291 | Key `ldap`, prefix `{ldap}`, priority 2, read-only, the built-in properties, the three reserved names, empty caches and no query sent. |
| Provider.GroupManager.SetKey | src/main/java/org/jahia/services/usermanager/ldap/JahiaGroupManagerLDAPProvider.java:1571-1574 | The key is set and the prefix becomes `{key}`. |
| Provider.GroupManager.SetLdapProperties | src/main/java/org/jahia/services/usermanager/ldap/JahiaGroupManagerLDAPProvider.java:301-303 | The override properties are set. |
| Provider.GroupManager.SetDefaultLdapProperties | src/main/java/org/jahia/services/usermanager/ldap/JahiaGroupManagerLDAPProvider.java:1452-1454 | The default properties are set. |
| Provider.GroupManager.Unregister | src/main/java/org/jahia/services/usermanager/ldap/JahiaGroupManagerLDAPProvider.java:1529-1533 | The provider leaves the group manager service. |
| Provider.GroupManager.MergeProperties | src/main/java/org/jahia/services/usermanager/ldap/JahiaGroupManagerLDAPProvider.java:1468-1476 | Missing defaults become an empty map, and the effective properties are the defaults overridden by the overrides. Defaults that name the two required attributes still name them after the merge. |
| Provider.GroupManager.InitProperties | src/main/java/org/jahia/services/usermanager/ldap/JahiaGroupManagerLDAPProvider.java:1467-1527 | The defaults are overridden by the overrides, and defaults naming the two required attributes keep them named. An unparsable priority crashes and changes nothing else. Otherwise it sets the priority, registers, builds the full attribute-map table and tokenises the wildcard list when one is set. |
| Provider.GroupManager.LoadTables | src/main/java/org/jahia/services/usermanager/ldap/JahiaGroupManagerLDAPProvider.java:1482-1519 | The table holds exactly the `.attribute.map` properties. The wildcard list is replaced only when the property is present. |
| Provider.AttributeMapTable | src/main/java/org/jahia/services/usermanager/ldap/JahiaGroupManagerLDAPProvider.java:1481-1487 | The loop over the properties builds the attribute-map table, and its order enumerates them. |
| Provider.WildcardList | src/main/java/org/jahia/services/usermanager/ldap/JahiaGroupManagerLDAPProvider.java:1512-1519 | The tokenizer loop gives the trimmed tokens in order. |
| Provider.GroupManager.LookupGroupInLDAP | src/main/java/org/jahia/services/usermanager/ldap/JahiaGroupManagerLDAPProvider.java:1369-1405 | A reserved key gives no group and sends no query. Otherwise exactly one query is logged; it searches for the key (the public group filter of the key when the search attribute is not renamed), and the result is the first matching entry, translated. |
| Provider.GroupManager.LookupGroupInLDAPAtSite | src/main/java/org/jahia/services/usermanager/ldap/JahiaGroupManagerLDAPProvider.java:1250-1257 | The same for the name, with the group placed on the site: the one query searches for the name, and is the public group filter of the name when the search attribute is not renamed. |
| Provider.GroupManager.FetchByKey | src/main/java/org/jahia/services/usermanager/ldap/JahiaGroupManagerLDAPProvider.java:1354-1364 | A reserved name answers no group, sends no query and is recorded as missing. Any other name sends one filter, which searches for the key without its prefix (the public group filter of it when the search attribute is not renamed), and the answer is the group found by that filter. The answer is stored as StoredByKey says. |
| Provider.GroupManager.StoreByKey | src/main/java/org/jahia/services/usermanager/ldap/JahiaGroupManagerLDAPProvider.java:1356-1364 | The caches become StoredByKey of the old ones: a found group under the key asked for and under its site and name, a missing one marked under the key. |
| Provider.GroupManager.LookupGroupByKey | src/main/java/org/jahia/services/usermanager/ldap/JahiaGroupManagerLDAPProvider.java:1345-1367 | A cache hit returns the cached group and a negative hit returns none, both with no query and no cache change. On a miss the one filter sent searches for the key without its prefix, and is the public group filter of it when the search attribute is not renamed; the answer is stored as StoredByKey says. |
| Provider.GroupManager.LookupGroupByName | src/main/java/org/jahia/services/usermanager/ldap/JahiaGroupManagerLDAPProvider.java:1219-1248 | No name gives no group. Hits work as for the by-key lookup. On a miss the one filter sent searches for the name, and is the public group filter of the name when the search attribute is not renamed; the answer is stored as StoredByName says. |
| Provider.GroupManager.StoreByName | src/main/java/org/jahia/services/usermanager/ldap/JahiaGroupManagerLDAPProvider.java:1233-1244 | The caches become StoredByName of the old ones: a found group under its key and its site and name, a missing one marked under the site and name asked for. |
| Provider.GroupManager.UpdateCache | src/main/java/org/jahia/services/usermanager/ldap/JahiaGroupManagerLDAPProvider.java:1439-1446 | The caches become what Updated says. |
| Provider.GroupManager.IsReserved | src/main/java/org/jahia/services/usermanager/ldap/JahiaGroupManagerLDAPProvider.java:1371-1381 | The loop over the reserved names answers whether the key contains one of them followed by `:`. |
| Membership.StaticFilterEmbedsDn | src/main/java/org/jahia/services/usermanager/ldap/JahiaGroupManagerLDAPProvider.java:931-938 | The static filter ends with the user's DN, unescaped, followed by `))`. |
| Membership.DirectKeys | src/main/java/org/jahia/services/usermanager/ldap/JahiaGroupManagerLDAPProvider.java:950-957 | Static groups succeed exactly when every entry has the search attribute. The keys are then the prefixed values, one per entry, in order. |
| Membership.StaticGroupKeys | src/main/java/org/jahia/services/usermanager/ldap/JahiaGroupManagerLDAPProvider.java:950-957 | The static loop equals DirectKeys. |
| Membership.DynamicKeys | src/main/java/org/jahia/services/usermanager/ldap/JahiaGroupManagerLDAPProvider.java:979-1007 | Dynamic groups succeed exactly when every entry has the search attribute. There is at most one key per entry, and every key belongs to an entry with a URL that selects the user. |
| Membership.SelectingGroupListed | src/main/java/org/jahia/services/usermanager/ldap/JahiaGroupManagerLDAPProvider.java:979-1007 | Every dynamic group with a URL that selects the user is listed. |
| Membership.SelectsUser | src/main/java/org/jahia/services/usermanager/ldap/JahiaGroupManagerLDAPProvider.java:990-1005 | The URL loop stops at the first URL whose user search is non-empty, and answers whether there is one. |
| Membership.DynamicGroupKeys | src/main/java/org/jahia/services/usermanager/ldap/JahiaGroupManagerLDAPProvider.java:979-1007 | The dynamic loop equals DynamicKeys. |
| Membership.RecurseOnGroups | src/main/java/org/jahia/services/usermanager/ldap/JahiaGroupManagerLDAPProvider.java:1035-1061 | The walk appends the label `name:siteID` of every containing group reached through a `j:members` reference, depth first in reference order. |
| Membership.ExternalMembership | src/main/java/org/jahia/services/usermanager/ldap/JahiaGroupManagerLDAPProvider.java:1021-1032 | Each directory group known to the repository is walked, and an unknown group is skipped. |
| Membership.HolderListed | src/main/java/org/jahia/services/usermanager/ldap/JahiaGroupManagerLDAPProvider.java:1038-1054 | Every group that directly contains the node is in the walk's result. |
| Membership.SelfMemberNeverEnds | src/main/java/org/jahia/services/usermanager/ldap/JahiaGroupManagerLDAPProvider.java:1035-1061 | A group that contains itself makes the walk run out of fuel, because the walk keeps no visited set. |
| Membership.RecurseMoreFuel | src/main/java/org/jahia/services/usermanager/ldap/JahiaGroupManagerLDAPProvider.java:1035-1061 | A walk that ended with some fuel gives the same result with more. |
| Membership.RecurseRefsMoreFuel | src/main/java/org/jahia/services/usermanager/ldap/JahiaGroupManagerLDAPProvider.java:1038-1060 | The same over a list of references. |
| Membership.DirectoryKeysPrefixed | src/main/java/org/jahia/services/usermanager/ldap/JahiaGroupManagerLDAPProvider.java:956-1024 | Every key found in the directory starts with the provider prefix, and removing it again gives the group name looked up in the repository. |
| Membership.FindDirectoryKeys | src/main/java/org/jahia/services/usermanager/ldap/JahiaGroupManagerLDAPProvider.java:931-1012 | The two directory loops equal DirectoryKeysOf. |
| Membership.GetUserMembership | src/main/java/org/jahia/services/usermanager/ldap/JahiaGroupManagerLDAPProvider.java:919-1069 | No LDAP user gives the empty list. Cached groups are returned unchanged. Otherwise the result is the static groups, then the dynamic groups, then the distinct groups reached in the repository, and it is stored on the user. A failure stores nothing. |
| Config.ComputeProviderKey | src/main/java/org/jahia/services/usermanager/ldap/JahiaLDAPConfig.java:169-187 | The key is `ldap` exactly when the derived id is blank or `config`, and `ldap.` followed by the id otherwise. |
| Config.IdFromFileName | src/main/java/org/jahia/services/usermanager/ldap/JahiaLDAPConfig.java:178-180 | A file name `...<factoryPid>-<id>.cfg`, with the separator first occurring there, gives the id. |
| Config.FileNameWithoutFactoryPid | src/main/java/org/jahia/services/usermanager/ldap/JahiaLDAPConfig.java:178-183 | A file name without `<factoryPid>-` gives the empty id and so the key `ldap`. |
| Config.IdFromPid | src/main/java/org/jahia/services/usermanager/ldap/JahiaLDAPConfig.java:173-177 | Without a file name, a PID `<factoryPid>.<id>` gives the id. |
| Config.PidAsId | src/main/java/org/jahia/services/usermanager/ldap/JahiaLDAPConfig.java:173-177 | Without a file name, a PID not starting with `<factoryPid>.` is the id itself. |
| Config.EmptyConfigurationKey | src/main/java/org/jahia/services/usermanager/ldap/JahiaLDAPConfig.java:169-187 | An empty dictionary gives the key `ldap`. |
| Config.Route | src/main/java/org/jahia/services/usermanager/ldap/JahiaLDAPConfig.java:115-128 | A key is skipped exactly when it is `service.pid`, `service.factoryPid` or `felix.fileinstall.filename`. Any other key starting with `user.` goes only to the user map, without those 5 characters. One starting with `group.` goes only to the group map, without those 6. Every other key goes unchanged to both. |
| Config.AssignedFrom | src/main/java/org/jahia/services/usermanager/ldap/JahiaLDAPConfig.java:112-129 | A map holds exactly the names of the keys routed to it, each with the value of one such key. |
| Config.UserMapFrom | src/main/java/org/jahia/services/usermanager/ldap/JahiaLDAPConfig.java:120-128 | The user map holds exactly the names of `user.` keys and of plain keys. |
| Config.GroupMapFrom | src/main/java/org/jahia/services/usermanager/ldap/JahiaLDAPConfig.java:120-128 | The group map holds exactly the names of `group.` keys and of plain keys. |
| Config.BookkeepingKeysSkipped | src/main/java/org/jahia/services/usermanager/ldap/JahiaLDAPConfig.java:115-119 | `service.pid`, `service.factoryPid` and `felix.fileinstall.filename` are routed to neither map. |
| Config.EntryOfKey | src/main/java/org/jahia/services/usermanager/ldap/JahiaLDAPConfig.java:112-129 | With distinct names, each routed key's value is in its map under its name. |
| Config.AssignedDeterminate | src/main/java/org/jahia/services/usermanager/ldap/JahiaLDAPConfig.java:112-129 | With distinct names, a map does not depend on the dictionary's order. |
| Config.PartitionDeterminate | src/main/java/org/jahia/services/usermanager/ldap/JahiaLDAPConfig.java:112-129 | With distinct names, neither map depends on the dictionary's order. |
| Config.RouteKey | src/main/java/org/jahia/services/usermanager/ldap/JahiaLDAPConfig.java:114-128 | One round of the loop extends the maps as routing says. |
| Config.Partition | src/main/java/org/jahia/services/usermanager/ldap/JahiaLDAPConfig.java:112-129 | The key loop gives the partition over the dictionary's key enumeration. |
| Config.LdapUserGroupProvider.Configure | src/main/java/org/jahia/services/usermanager/ldap/JahiaLDAPConfig.java:146-151 | The provider gets the key and the two property maps. |
| Config.LdapUserGroupProvider.Unregister | src/main/java/org/jahia/services/usermanager/ldap/JahiaLDAPConfig.java:165 | The provider is unregistered. |
| Config.LdapConfig.constructor | src/main/java/org/jahia/services/usermanager/ldap/JahiaLDAPConfig.java:104-107 | The key is computed, and then startContext runs. The two maps are the partition of the dictionary over the order of its keys that startContext walked. A provider is configured with them when the user map is not empty; otherwise the bean is left untouched. The bean keeps its registration either way. |
| Config.LdapConfig.StartContext | src/main/java/org/jahia/services/usermanager/ldap/JahiaLDAPConfig.java:109-155 | Both maps come from the key partition. A non-empty user map configures the bean with the key and both maps, keeps its registration, and leaves a replaced provider untouched, still registered if it was; otherwise unregister runs and the bean is untouched unless it was the current provider. |
| Config.LdapConfig.Unregister | src/main/java/org/jahia/services/usermanager/ldap/JahiaLDAPConfig.java:157-167 | With a provider, it is unregistered and dropped; without one nothing happens. Nothing of the provider but its registration changes. |

## Left out

- JNDI connections, including `getPublicContext`, `connectToPublicDir` and `invalidateCtx`, and the `LdapContextSource`/`LdapTemplate` set-up in `startContext`: these are network plumbing. The directory is a parameter.
- The LDAP user/group provider configured by `startContext`, which is not part of this model. Its stand-in records the key, the two maps and registration only.
- NamingExceptions thrown by the JNDI enumerations themselves, other than the search outcomes modelled: these are I/O.
- The five exception kinds caught in `getGroups(ctx, searchCtl, filter)`, which are modelled as one naming-failure outcome that yields an empty list.
- The JCR session and nodes, the sites service and `JCRGroupManagerProvider`: these are replaced by the three repository functions. Only the `RepositoryException` that a missing node raises is modelled, as NodeMissing, which in the source leads to a NullPointerException.
- Stack overflow on a membership cycle: a recursion depth bound (fuel) stands in for it, and running out of fuel is reported as `WalkOutOfFuel`.
- Loops that need not end, such as range paging against a server that never returns the group's own entry: they carry fuel, and the model does not claim unconditional termination.
- Ehcache, cache entry wrappers, eviction and concurrent access: the caches are plain fields of one provider object. In the source the two caches are shared by name across provider instances, which this model leaves aside.
- The lazy, double-checked lookup of the user provider: the user provider is given as functions.
- JNDI attribute lookups, which are case-insensitive on most servers: `Find` matches ids exactly.
- Lower-casing and case-insensitive comparison, which are ASCII only.
- `toString` of attribute values that are not strings: all values are strings.
- Non-string values in the OSGi configuration dictionary: `Config.Dictionary` maps strings to strings. In the source, `startContext` casts each value to `String`, so a non-string value throws a ClassCastException out of the constructor. The model has no such value.
- Translate.Translated, Provider.GroupFound and Provider.Updated: they take `JahiaLDAPGroup.getGroupKey()` to return the key given to the constructor unchanged. `JahiaLDAPGroup` is not part of this model. This assumption makes a translated group's key equal its name, and it gives the by-key cache entry written on a lookup by name. If `getGroupKey()` decorated the key, for example with the `{key}` prefix that `getUserMembership` puts on group keys and `lookupGroup(String)` strips, then those entries would sit under the decorated key.
- `getAdminGrantedSites`, `createGroup`, `deleteGroup`, `mapDBToJahiaProperties` (its body is commented out) and logging.
- Registration with the group manager service: it is the `registered` flag.
- Caches and query log before `initProperties`: they start empty, where the source has no caches until `initProperties` creates them.
- Provider.GroupManager.LookupGroupInLDAP, Provider.GroupManager.LookupGroupInLDAPAtSite, Provider.GroupManager.LookupGroupByKey, Provider.GroupManager.LookupGroupByName, Search.DoGroupSearch, Search.GetGroups, Search.GetGroupsByCriteria, Search.GetPublicGroup and Membership.GetUserMembership: they require that `search.attribute` and `members.attribute` are set. Without `search.attribute`, the source puts a null key into a Properties object and fails. Without `members.attribute`, it builds filters that name `null`. Provider.GroupManager.InitProperties shows that the built-in defaults provide both, and overrides cannot remove them.
- Provider.DefaultGroupNameMap and Provider.DefaultDescriptionMap: they state the two entries of the built-in table one at a time, not the table as a whole.
- Membership.DynamicKeys: its contract states that every key comes from a selecting entry. The converse is stated separately by Membership.SelectingGroupListed.
- Paging.PagingRetrievesAll: it assumes a server that serves pages exactly as described, with distinct values. Other servers are covered only by the step and range lemmas.
- Paging.PagingFrom: page bounds are unbounded integers, while Java's `int` bounds wrap once a high bound passes 2^31 - 1. Paging.JavaRangeAgrees shows the two agree up to that point, and Paging.JavaRangeWraps shows where they part.
- Paging.RequestPage: the range attribute it sets spells the unbounded bounds; past 2^31 - 1 the source would spell wrapped, negative ones instead.
- Paging.PageRanges: the k-th page starting at k*(step+1) holds for the source's own arithmetic only while that page's high bound fits a Java `int` (Paging.JavaRangeAgrees).
- Paging.PagingPageCount: it assumes the same server, serving every page as described. Against other servers, only Paging.PagingFromEnds and Paging.PageRanges describe the requests.
- The application context of `startContext`: the bean it hands out is a parameter of Config.LdapConfig.StartContext.
