/**
 * doGroupSearch and the two getGroups wrappers around it, and getPublicGroup:
 * one directory search, with Active Directory range retrieval for the entries
 * whose members attribute comes back ranged, and the exception handling that
 * turns a failed search into an empty list.
 */
module Search {
  import opened Wrappers
  import opened Strings
  import opened Directory
  import opened Filters
  import opened Paging

  /** The provider's ldapProperties: an absent key reads as null. */
  type Props = map<String, String>

  function Get(props: Props, k: String): (r: Option<String>)
    ensures r.Some? <==> k in props
    ensures r.Some? ==> r.value == props[k]
  {
    if k in props then Some(props[k]) else None
  }

  /** The keys the provider dereferences without a null check on the search
      path: the naming attribute of groups and their members attribute. */
  predicate Configured(props: Props) {
    "search.attribute" in props && "members.attribute" in props
  }

  /** The object classes of static and dynamic groups, with their defaults. */
  function StaticClass(props: Props): String {
    Get(props, "search.objectclass").GetOr("groupOfNames")
  }

  function DynamicClass(props: Props): String {
    Get(props, "dynamic.search.objectclass").GetOr("groupOfURLs")
  }

  /** `ad.range.step`, "0" when absent; None stands for the
      NumberFormatException that Integer.parseInt throws. */
  function RangeStep(props: Props): Option<int> {
    ParseInt(Some(Get(props, "ad.range.step").GetOr("0")))
  }

  /** How doGroupSearch ends: with the entries collected, with a naming
      exception that propagates, with a runtime exception, or with the fuel of
      the paging model spent. */
  datatype Searched = Found(entries: seq<Entry>) | SearchFailed | SearchCrashed | SearchOutOfFuel

  /** The entries read before the enumeration ended: a size limit keeps them,
      any other naming exception propagates. */
  function Collected(entries: seq<Entry>, end: End): (r: Searched)
    ensures r.Found? <==> end != Fails(NamingError)
    ensures r.Found? ==> r.entries == entries
    ensures !r.Found? ==> r == SearchFailed
  {
    if end == Fails(NamingError) then SearchFailed else Found(entries)
  }

  /** `xs` in front of the entries still to come, when they come. */
  function PrependAll(xs: seq<Entry>, r: Searched): Searched {
    if r.Found? then Found(xs + r.entries) else r
  }

  /** The range branch of doGroupSearch over the entries still to be read. */
  function RangeSearch(server: Server, base: Option<String>, filter: String, countLimit: int,
                       groupNameAttribute: String, membersAttribute: String, step: int, fuel: nat,
                       entries: seq<Entry>, end: End): Searched
    decreases |entries|
  {
    if |entries| == 0 then Collected([], end)
    else
      EntryStep(server, base, filter, countLimit, groupNameAttribute, membersAttribute, step, fuel, entries[0],
                RangeSearch(server, base, filter, countLimit, groupNameAttribute, membersAttribute, step, fuel,
                            entries[1..], end))
  }

  /** One entry of the range branch, in front of what the rest gives: an
      entry whose members attribute is ranged is paged in first; a size limit
      hit while paging ends the search with the entries before it. */
  function EntryStep(server: Server, base: Option<String>, filter: String, countLimit: int,
                     groupNameAttribute: String, membersAttribute: String, step: int, fuel: nat,
                     sr: Entry, rest: Searched): Searched
  {
    if !HasMembersRange(sr.attrs, membersAttribute) then PrependAll([sr], rest)
    else
      var run := Paging.Paging(server, sr, base, filter, countLimit, groupNameAttribute, membersAttribute, step, fuel);
      match run.end
      case AllPages => PrependAll([Loaded(sr, membersAttribute, run)], rest)
      case PageFailed(f) => if f == SizeLimitExceeded then Found([]) else SearchFailed
      case PageCrashed => SearchCrashed
      case PageOutOfFuel => SearchOutOfFuel
  }

  /** doGroupSearch with search controls asking for `returning` and at most
      `countLimit` entries. Range retrieval applies only when a step is
      configured and the controls ask for all attributes. */
  function GroupSearch(server: Server, props: Props, returning: Option<seq<String>>, countLimit: int,
                       filter: String, fuel: nat): Searched
    requires Configured(props)
  {
    var base := Get(props, "search.name");
    match RangeStep(props)
    case None => SearchCrashed
    case Some(step) =>
      var resp := server(Query(base, filter, returning, countLimit));
      if step == 0 || returning.Some? then Collected(resp.entries, resp.end)
      else RangeSearch(server, base, filter, countLimit, props["search.attribute"], props["members.attribute"],
                       step, fuel, resp.entries, resp.end)
  }

  /** The returning attributes a paging run leaves behind when it does not
      read every page: the range of its last request, the first range when
      the group's name could not be read, and `original` when no page was
      asked for. */
  function LeftReturning(membersAttribute: String, step: int, run: PageRun,
                         original: Option<seq<String>>): Option<seq<String>>
  {
    if run.end == PageCrashed then RangeReturning(membersAttribute, 0, step)
    else if |run.lows| > 0 then RangeReturning(membersAttribute, run.lows[|run.lows| - 1], step)
    else original
  }

  /** The returning attributes after the range branch over `entries`: still
      `original` while each paging completes; what the first paging that
      stops early leaves behind otherwise. */
  function RangeReturningAfter(server: Server, base: Option<String>, filter: String, countLimit: int,
                               groupNameAttribute: String, membersAttribute: String, step: int, fuel: nat,
                               entries: seq<Entry>, original: Option<seq<String>>): (r: Option<seq<String>>)
    ensures r == original || exists low :: r == RangeReturning(membersAttribute, low, step)
    decreases |entries|
  {
    if |entries| == 0 then original
    else
      var rest := RangeReturningAfter(server, base, filter, countLimit, groupNameAttribute, membersAttribute,
                                      step, fuel, entries[1..], original);
      if !HasMembersRange(entries[0].attrs, membersAttribute) then rest
      else
        var run := Paging.Paging(server, entries[0], base, filter, countLimit, groupNameAttribute,
                                 membersAttribute, step, fuel);
        if run.end == AllPages then rest else LeftReturning(membersAttribute, step, run, original)
  }

  /** One entry of the range branch: its paging decides what the controls
      are left with, or the entries after it do. */
  lemma ReturningAfterStep(server: Server, base: Option<String>, filter: String, countLimit: int,
                           groupNameAttribute: String, membersAttribute: String, step: int, fuel: nat,
                           entries: seq<Entry>, i: nat)
    requires i < |entries|
    ensures var run := Paging.Paging(server, entries[i], base, filter, countLimit, groupNameAttribute,
                                     membersAttribute, step, fuel);
      RangeReturningAfter(server, base, filter, countLimit, groupNameAttribute, membersAttribute, step, fuel,
                          entries[i..], None)
      == if !HasMembersRange(entries[i].attrs, membersAttribute) || run.end == AllPages
         then RangeReturningAfter(server, base, filter, countLimit, groupNameAttribute, membersAttribute, step,
                                  fuel, entries[i + 1..], None)
         else LeftReturning(membersAttribute, step, run, None)
  {
    assert entries[i..][0] == entries[i] && entries[i..][1..] == entries[i + 1..];
  }

  /** When every ranged entry's paging completes, the range branch gives the
      controls back their original returning attributes. */
  lemma {:induction false} CompletedPagingRestores(server: Server, base: Option<String>, filter: String,
                                                   countLimit: int, groupNameAttribute: String,
                                                   membersAttribute: String, step: int, fuel: nat,
                                                   entries: seq<Entry>, original: Option<seq<String>>)
    requires forall i :: 0 <= i < |entries| && HasMembersRange(entries[i].attrs, membersAttribute) ==>
               Paging.Paging(server, entries[i], base, filter, countLimit, groupNameAttribute, membersAttribute,
                             step, fuel).end == AllPages
    ensures RangeReturningAfter(server, base, filter, countLimit, groupNameAttribute, membersAttribute, step,
                                fuel, entries, original) == original
    decreases |entries|
  {
    if |entries| > 0 {
      assert forall i :: 0 <= i < |entries[1..]| ==> entries[1..][i] == entries[i + 1];
      CompletedPagingRestores(server, base, filter, countLimit, groupNameAttribute, membersAttribute, step, fuel,
                              entries[1..], original);
    }
  }

  /** The returning attributes doGroupSearch leaves in its controls. */
  function GroupSearchReturning(server: Server, props: Props, returning: Option<seq<String>>, countLimit: int,
                                filter: String, fuel: nat): Option<seq<String>>
    requires Configured(props)
  {
    var base := Get(props, "search.name");
    match RangeStep(props)
    case None => returning
    case Some(step) =>
      if step == 0 || returning.Some? then returning
      else
        var resp := server(Query(base, filter, returning, countLimit));
        RangeReturningAfter(server, base, filter, countLimit, props["search.attribute"], props["members.attribute"],
                            step, fuel, resp.entries, returning)
  }

  /** doGroupSearch. The range branch changes the controls' returning
      attributes while it pages and restores them after each entry whose
      paging completes. */
  method DoGroupSearch(server: Server, props: Props, ctl: SearchControls, filter: String, fuel: nat)
    returns (r: Searched)
    requires Configured(props)
    modifies ctl
    ensures r == GroupSearch(server, props, old(ctl.returning), old(ctl.countLimit), filter, fuel)
    ensures ctl.countLimit == old(ctl.countLimit)
    ensures ctl.returning == GroupSearchReturning(server, props, old(ctl.returning), old(ctl.countLimit), filter, fuel)
  {
    var base := Get(props, "search.name");
    var groupSearchAttribute := props["search.attribute"];
    var step := RangeStep(props);
    if step.None? {
      return SearchCrashed;
    }
    var rangeStep := step.value;
    var resp := server(Query(base, filter, ctl.returning, ctl.countLimit));
    if rangeStep == 0 || ctl.returning.Some? {
      var answer: seq<Entry> := [];
      for i := 0 to |resp.entries|
        invariant answer == resp.entries[..i]
      {
        answer := answer + [resp.entries[i]];
      }
      assert resp.entries[..|resp.entries|] == resp.entries;
      return Collected(answer, resp.end);
    }
    var membersAttribute := props["members.attribute"];
    r := RangeBranch(server, ctl, base, filter, groupSearchAttribute, membersAttribute, rangeStep, fuel,
                     resp.entries, resp.end);
  }

  /** The range branch's loop over the entries, with controls that ask for
      all attributes. */
  method RangeBranch(server: Server, ctl: SearchControls, base: Option<String>, filter: String,
                     groupNameAttribute: String, membersAttribute: String, step: int, fuel: nat,
                     entries: seq<Entry>, end: End)
    returns (r: Searched)
    requires ctl.returning == None
    modifies ctl
    ensures r == RangeSearch(server, base, filter, old(ctl.countLimit), groupNameAttribute, membersAttribute,
                             step, fuel, entries, end)
    ensures ctl.countLimit == old(ctl.countLimit)
    ensures ctl.returning == RangeReturningAfter(server, base, filter, old(ctl.countLimit), groupNameAttribute,
                                                 membersAttribute, step, fuel, entries, None)
  {
    ghost var countLimit := ctl.countLimit;
    ghost var whole := RangeSearch(server, base, filter, countLimit, groupNameAttribute, membersAttribute,
                                   step, fuel, entries, end);
    ghost var left := RangeReturningAfter(server, base, filter, countLimit, groupNameAttribute, membersAttribute,
                                          step, fuel, entries, None);
    var answer: seq<Entry> := [];
    var i := 0;
    while i < |entries|
      invariant 0 <= i <= |entries|
      invariant ctl.returning == None && ctl.countLimit == countLimit
      invariant PrependAll(answer, RangeSearch(server, base, filter, countLimit, groupNameAttribute,
                                               membersAttribute, step, fuel, entries[i..], end)) == whole
      invariant RangeReturningAfter(server, base, filter, countLimit, groupNameAttribute, membersAttribute,
                                    step, fuel, entries[i..], None) == left
    {
      var sr := entries[i];
      ghost var rest := RangeSearch(server, base, filter, countLimit, groupNameAttribute, membersAttribute,
                                    step, fuel, entries[i + 1..], end);
      assert entries[i..][0] == sr && entries[i..][1..] == entries[i + 1..];
      assert RangeSearch(server, base, filter, countLimit, groupNameAttribute, membersAttribute, step, fuel,
                         entries[i..], end)
          == EntryStep(server, base, filter, countLimit, groupNameAttribute, membersAttribute, step, fuel, sr, rest);
      ReturningAfterStep(server, base, filter, countLimit, groupNameAttribute, membersAttribute, step, fuel,
                         entries, i);
      var stop, entry := RangeEntry(server, ctl, base, filter, groupNameAttribute, membersAttribute, step, fuel,
                                    sr);
      if stop.Some? {
        assert answer + [] == answer;
        return PrependAll(answer, stop.value);
      }
      sr := entry;
      PrependAllSnoc(answer, sr, rest);
      answer := answer + [sr];
      i := i + 1;
    }
    assert answer + [] == answer;
    return Collected(answer, end);
  }

  /** One entry of the range branch: a ranged entry is paged in; `stop` is
      what ends the search when its paging does not complete. */
  method RangeEntry(server: Server, ctl: SearchControls, base: Option<String>, filter: String,
                    groupNameAttribute: String, membersAttribute: String, step: int, fuel: nat, sr: Entry)
    returns (stop: Option<Searched>, entry: Entry)
    requires ctl.returning == None
    modifies ctl
    ensures ctl.countLimit == old(ctl.countLimit)
    ensures var run := Paging.Paging(server, sr, base, filter, old(ctl.countLimit), groupNameAttribute,
                                     membersAttribute, step, fuel);
      var ranged := HasMembersRange(sr.attrs, membersAttribute);
      (stop.None? <==> !ranged || run.end == AllPages) &&
      (stop.None? ==> ctl.returning == None && entry == if ranged then Loaded(sr, membersAttribute, run) else sr) &&
      (stop.Some? ==> ctl.returning == LeftReturning(membersAttribute, step, run, None) &&
                      stop.value == EntryStep(server, base, filter, old(ctl.countLimit), groupNameAttribute,
                                              membersAttribute, step, fuel, sr, Found([])))
  {
    entry := sr;
    stop := None;
    var present := ContainsMembersRange(sr.attrs, membersAttribute);
    if present {
      var run;
      run, entry := LoadMembersUsingRange(sr, server, ctl, filter, base, groupNameAttribute,
                                          membersAttribute, step, fuel);
      match run.end
      case AllPages =>
      case PageFailed(f) =>
        stop := Some(if f == SizeLimitExceeded then Found([]) else SearchFailed);
      case PageCrashed =>
        stop := Some(SearchCrashed);
      case PageOutOfFuel =>
        stop := Some(SearchOutOfFuel);
    }
  }

  lemma PrependAllSnoc(xs: seq<Entry>, x: Entry, r: Searched)
    ensures PrependAll(xs, PrependAll([x], r)) == PrependAll(xs + [x], r)
  {
    if r.Found? {
      assert xs + ([x] + r.entries) == (xs + [x]) + r.entries;
    }
  }

  // -------------------------------------------------------- range branch facts

  /** With no ranged entry, the range branch delivers exactly what the plain
      branch delivers: paging only ever touches ranged entries. */
  lemma {:induction false} RangeSearchWithoutRanges(server: Server, base: Option<String>, filter: String,
                                                    countLimit: int, groupNameAttribute: String,
                                                    membersAttribute: String, step: int, fuel: nat,
                                                    entries: seq<Entry>, end: End)
    requires forall i :: 0 <= i < |entries| ==> !HasMembersRange(entries[i].attrs, membersAttribute)
    ensures RangeSearch(server, base, filter, countLimit, groupNameAttribute, membersAttribute, step, fuel,
                        entries, end) == Collected(entries, end)
    decreases |entries|
  {
    if |entries| > 0 {
      RangeSearchWithoutRanges(server, base, filter, countLimit, groupNameAttribute, membersAttribute, step,
                               fuel, entries[1..], end);
      assert [entries[0]] + entries[1..] == entries;
    }
  }

  /** The entries found are the first entries of the search, in order, each
      with its own name; only a ranged entry can differ from what the search
      returned, and the list falls short only where paging the next entry hit
      the size limit. */
  lemma {:induction false} RangeSearchShape(server: Server, base: Option<String>, filter: String,
                                            countLimit: int, groupNameAttribute: String,
                                            membersAttribute: String, step: int, fuel: nat,
                                            entries: seq<Entry>, end: End)
    ensures var r := RangeSearch(server, base, filter, countLimit, groupNameAttribute, membersAttribute, step,
                                 fuel, entries, end);
            r.Found? ==>
              |r.entries| <= |entries| &&
              (forall i :: 0 <= i < |r.entries| ==> r.entries[i].name == entries[i].name) &&
              (forall i :: 0 <= i < |r.entries| && !HasMembersRange(entries[i].attrs, membersAttribute) ==>
                 r.entries[i] == entries[i]) &&
              (|r.entries| < |entries| ==>
                 Paging.Paging(server, entries[|r.entries|], base, filter, countLimit, groupNameAttribute,
                        membersAttribute, step, fuel).end == PageFailed(SizeLimitExceeded))
    decreases |entries|
  {
    if |entries| > 0 {
      var x := entries[0];
      var rest := RangeSearch(server, base, filter, countLimit, groupNameAttribute, membersAttribute, step, fuel,
                              entries[1..], end);
      RangeSearchShape(server, base, filter, countLimit, groupNameAttribute, membersAttribute, step, fuel,
                       entries[1..], end);
      if HasMembersRange(x.attrs, membersAttribute) {
        var run := Paging.Paging(server, x, base, filter, countLimit, groupNameAttribute, membersAttribute, step, fuel);
        if run.end == AllPages {
          ShapeCons(Loaded(x, membersAttribute, run), entries, rest);
        }
      } else {
        ShapeCons(x, entries, rest);
      }
    }
  }

  lemma ShapeCons(x: Entry, entries: seq<Entry>, rest: Searched)
    requires |entries| > 0 && x.name == entries[0].name
    requires rest.Found? ==> (|rest.entries| <= |entries| - 1 &&
               forall i :: 0 <= i < |rest.entries| ==> rest.entries[i].name == entries[1..][i].name)
    ensures var r := PrependAll([x], rest);
            r.Found? ==> (|r.entries| <= |entries| &&
              (forall i :: 0 <= i < |r.entries| ==> r.entries[i].name == entries[i].name) &&
              (forall i :: 1 <= i < |r.entries| ==> r.entries[i] == rest.entries[i - 1]))
  {
  }

  // --------------------------------------------------------------- getGroups

  /** getGroups(ctx, searchCtl, filter): every naming exception, a size limit
      included, ends in the empty list; runtime exceptions go through. */
  function Swallowed(r: Searched): (o: Outcome<seq<Entry>>)
    ensures o.Done? <==> r.Found? || r == SearchFailed
    ensures r.Found? ==> o == Done(r.entries)
    ensures r == SearchFailed ==> o == Done([])
  {
    match r
    case Found(es) => Done(es)
    case SearchFailed => Done([])
    case SearchCrashed => Crashed
    case SearchOutOfFuel => OutOfFuel
  }

  method GetGroups(server: Server, props: Props, ctl: SearchControls, filter: String, fuel: nat)
    returns (r: Outcome<seq<Entry>>)
    requires Configured(props)
    modifies ctl
    ensures r == Swallowed(GroupSearch(server, props, old(ctl.returning), old(ctl.countLimit), filter, fuel))
    ensures ctl.countLimit == old(ctl.countLimit)
    ensures ctl.returning == GroupSearchReturning(server, props, old(ctl.returning), old(ctl.countLimit), filter, fuel)
  {
    var s := DoGroupSearch(server, props, ctl, filter, fuel);
    r := match s
      case Found(es) => Done(es)
      case SearchFailed => Done([])
      case SearchCrashed => Crashed
      case SearchOutOfFuel => OutOfFuel;
  }

  /** A search asking for given attributes never pages: it delivers the
      entries the directory returned before any naming exception, or nothing. */
  lemma SearchWithReturningNeverPages(server: Server, props: Props, returning: seq<String>, countLimit: int,
                                      filter: String, fuel: nat)
    requires Configured(props)
    requires RangeStep(props).Some?
    ensures var resp := server(Query(Get(props, "search.name"), filter, Some(returning), countLimit));
            Swallowed(GroupSearch(server, props, Some(returning), countLimit, filter, fuel))
              == Done(if resp.end == Fails(NamingError) then [] else resp.entries)
  {
  }

  /** getGroups(ctx, Properties) once the filter is built: Integer.parseInt of
      the count limit, which has no default, then the search with fresh
      controls asking for all attributes. */
  function CriteriaSearch(server: Server, props: Props, filter: String, fuel: nat): Outcome<seq<Entry>>
    requires Configured(props)
  {
    match ParseInt(Get(props, "search.countlimit"))
    case None => Crashed
    case Some(countLimit) => Swallowed(GroupSearch(server, props, None, countLimit, filter, fuel))
  }

  /** getGroups(ctx, Properties): the criteria are renamed to directory
      attributes, the filter is built from them, and the search runs. The
      orders the two hash maps were visited in are returned. */
  method GetGroupsByCriteria(server: Server, props: Props, mapped: Props, wildcards: Option<seq<String>>,
                             criteria: Props, fuel: nat)
    returns (r: Outcome<seq<Entry>>, filter: String, renameOrder: seq<String>, order: seq<String>)
    requires Configured(props)
    ensures IsEnumeration(renameOrder, mapped.Keys)
    ensures var filters := RenameCriteria(criteria, mapped, renameOrder, props["members.attribute"]);
            IsEnumeration(order, filters.Keys) &&
            filter == GroupFilter(StaticClass(props), DynamicClass(props), filters, order, wildcards)
    ensures r == CriteriaSearch(server, props, filter, fuel)
    ensures ParseInt(Get(props, "search.countlimit")).None? ==> r == Crashed
  {
    var staticClass := Get(props, "search.objectclass").GetOr("groupOfNames");
    var dynamicClass := Get(props, "dynamic.search.objectclass").GetOr("groupOfURLs");
    var filters;
    filters, renameOrder := MapJahiaPropertiesToLDAP(criteria, mapped, props["members.attribute"]);
    filter, order := BuildGroupFilter(staticClass, dynamicClass, filters, wildcards);
    var countLimit := ParseInt(Get(props, "search.countlimit"));
    if countLimit.None? {
      return Crashed, filter, renameOrder, order;
    }
    var ctl := new SearchControls(None, countLimit.value);
    r := GetGroups(server, props, ctl, filter, fuel);
  }

  // ---------------------------------------------------------- getPublicGroup

  /** The first entry of a list, null for an empty one. */
  function First(r: Outcome<seq<Entry>>): (o: Outcome<Option<Entry>>)
    ensures o.Done? <==> r.Done?
    ensures r.Done? && |r.value| > 0 ==> o == Done(Some(r.value[0]))
    ensures r.Done? && |r.value| == 0 ==> o == Done(None)
  {
    match r
    case Done(es) => Done(if |es| == 0 then None else Some(es[0]))
    case Crashed => Crashed
    case OutOfFuel => OutOfFuel
  }

  /** The filter that finds a group by its naming attribute when that
      attribute is not renamed: `(&(|(objectClass=S)(objectClass=D))(attr=escaped cn))`. */
  function PublicGroupFilter(props: Props, cn: String): String
    requires Configured(props)
  {
    ClauseFilter(props, props["search.attribute"], cn)
  }

  /** `(&(|(objectClass=S)(objectClass=D))(attr=value))`, the value escaped. */
  function ClauseFilter(props: Props, attr: String, value: String): String {
    "(&" + ObjectClassFilter(StaticClass(props), DynamicClass(props))
      + Clause(attr, EscapeFilterValue(value)) + ")"
  }

  /** The search attribute goes into the filter under its own name: the
      mapping does not rename it and it is neither `members` nor `*`. */
  predicate PlainSearchAttribute(props: Props, mapped: Props)
    requires Configured(props)
  {
    var a := props["search.attribute"];
    a !in mapped && a != "members" && a != "*"
  }

  /** `filter` is a filter getPublicGroup builds for `cn`: the group filter
      over the one criterion `search.attribute = cn` after the mapping and the
      `members` step have renamed it, for some order of the mapping's entries
      and of the renamed criteria. */
  ghost predicate SearchesFor(props: Props, mapped: Props, wildcards: Option<seq<String>>, cn: String,
                              filter: String)
    requires Configured(props)
  {
    exists renameOrder: seq<String>, order: seq<String> ::
      IsEnumeration(renameOrder, mapped.Keys) &&
      IsEnumeration(order, RenameCriteria(map[props["search.attribute"] := cn], mapped, renameOrder,
                                          props["members.attribute"]).Keys) &&
      filter == GroupFilter(StaticClass(props), DynamicClass(props),
                            RenameCriteria(map[props["search.attribute"] := cn], mapped, renameOrder,
                                           props["members.attribute"]),
                            order, wildcards)
  }

  /** With the search attribute left as it is, the filter is exactly the
      public group filter. */
  lemma SearchesForPlain(props: Props, mapped: Props, wildcards: Option<seq<String>>, cn: String, filter: String)
    requires Configured(props) && PlainSearchAttribute(props, mapped)
    requires SearchesFor(props, mapped, wildcards, cn, filter)
    ensures filter == PublicGroupFilter(props, cn)
  {
    var renameOrder: seq<String>, order: seq<String> :|
      IsEnumeration(renameOrder, mapped.Keys) &&
      IsEnumeration(order, RenameCriteria(map[props["search.attribute"] := cn], mapped, renameOrder,
                                          props["members.attribute"]).Keys) &&
      filter == GroupFilter(StaticClass(props), DynamicClass(props),
                            RenameCriteria(map[props["search.attribute"] := cn], mapped, renameOrder,
                                           props["members.attribute"]),
                            order, wildcards);
    SingleCriterionFilter(props, mapped, wildcards, cn, renameOrder, order);
  }

  /** With the search attribute renamed by the mapping, and no other entry
      renaming to it or to its directory name, the filter asks for `cn` under
      the directory name: with the built-in `groupname -> cn`, a search
      attribute `groupname` is sent as `(cn=…)`. */
  lemma SearchesForRenamed(props: Props, mapped: Props, wildcards: Option<seq<String>>, cn: String, filter: String)
    requires Configured(props)
    requires var a := props["search.attribute"];
      a in mapped &&
      (forall j :: j in mapped && j != a ==> mapped[j] != a && mapped[j] != mapped[a]) &&
      (mapped[a] == a || mapped[a] !in mapped) &&
      mapped[a] != "members" && mapped[a] != "*" &&
      mapped[a] != props["members.attribute"] && a != props["members.attribute"]
    requires SearchesFor(props, mapped, wildcards, cn, filter)
    ensures filter == ClauseFilter(props, mapped[props["search.attribute"]], cn)
  {
    var a := props["search.attribute"];
    var m := props["members.attribute"];
    var c := map[a := cn];
    var renameOrder: seq<String>, order: seq<String> :|
      IsEnumeration(renameOrder, mapped.Keys) &&
      IsEnumeration(order, RenameCriteria(c, mapped, renameOrder, m).Keys) &&
      filter == GroupFilter(StaticClass(props), DynamicClass(props), RenameCriteria(c, mapped, renameOrder, m),
                            order, wildcards);
    var r := RenameCriteria(c, mapped, renameOrder, m);
    assert r == map[mapped[a] := cn] by {
      RenameMovesCriterion(c, mapped, renameOrder, m, a);
      RenameKeepsValues(c, mapped, renameOrder, m);
      OnlyKey(r, mapped[a]);
    }
    SingleClauseFilter(props, r, mapped[a], cn, order, wildcards);
  }

  /** A map of at most one entry holding `b` holds nothing else. */
  lemma OnlyKey(r: Props, b: String)
    requires b in r && |r| <= 1
    ensures r == map[b := r[b]]
  {
    forall x | x in r
      ensures x == b
    {
      if x != b {
        SubsetCard({b, x}, r.Keys);
      }
    }
  }

  /** The group filter over one criterion that is not `*`. */
  lemma SingleClauseFilter(props: Props, c: Props, b: String, v: String, order: seq<String>,
                           wildcards: Option<seq<String>>)
    requires c == map[b := v] && b != "*"
    requires IsEnumeration(order, c.Keys)
    ensures GroupFilter(StaticClass(props), DynamicClass(props), c, order, wildcards) == ClauseFilter(props, b, v)
  {
    assert b in order;
    EnumerationSize(order, c.Keys);
    assert order[0] in order;
    assert order == [b];
    assert order[..0] == [];
    assert |c| == 1;
    var part := Clause(b, EscapeFilterValue(v));
    assert CriterionPart(c, b, wildcards) == part;
    assert CriteriaFilter(c, order, wildcards) == [] + part;
    assert [] + part == part;
  }

  /** getPublicGroup: the first group whose naming attribute is `cn`. */
  method GetPublicGroup(server: Server, props: Props, mapped: Props, wildcards: Option<seq<String>>,
                        cn: String, fuel: nat)
    returns (r: Outcome<Option<Entry>>, filter: String)
    requires Configured(props)
    ensures r == First(CriteriaSearch(server, props, filter, fuel))
    ensures SearchesFor(props, mapped, wildcards, cn, filter)
    ensures PlainSearchAttribute(props, mapped) ==> filter == PublicGroupFilter(props, cn)
  {
    var a := props["search.attribute"];
    var criteria := map[a := cn];
    var answer, renameOrder, order;
    answer, filter, renameOrder, order := GetGroupsByCriteria(server, props, mapped, wildcards, criteria, fuel);
    if PlainSearchAttribute(props, mapped) {
      SingleCriterionFilter(props, mapped, wildcards, cn, renameOrder, order);
    }
    r := match answer
      case Done(es) => Done(if |es| == 0 then None else Some(es[0]))
      case Crashed => Crashed
      case OutOfFuel => OutOfFuel;
  }

  lemma SingleCriterionFilter(props: Props, mapped: Props, wildcards: Option<seq<String>>, cn: String,
                              renameOrder: seq<String>, order: seq<String>)
    requires Configured(props)
    requires var a := props["search.attribute"]; a !in mapped && a != "members" && a != "*"
    requires IsEnumeration(renameOrder, mapped.Keys)
    requires IsEnumeration(order, RenameCriteria(map[props["search.attribute"] := cn], mapped, renameOrder,
                                                 props["members.attribute"]).Keys)
    ensures GroupFilter(StaticClass(props), DynamicClass(props),
                        RenameCriteria(map[props["search.attribute"] := cn], mapped, renameOrder,
                                       props["members.attribute"]),
                        order, wildcards) == PublicGroupFilter(props, cn)
  {
    var a := props["search.attribute"];
    var c := map[a := cn];
    RenameAllUntouched(c, mapped, renameOrder, a);
    assert RenameCriteria(c, mapped, renameOrder, props["members.attribute"]) == c;
    SingleClauseFilter(props, c, a, cn, order, wildcards);
  }

  /** Renaming leaves alone a criterion the mapping does not name. */
  lemma {:induction false} RenameAllUntouched(c: Props, mapped: Props, order: seq<String>, a: String)
    requires c.Keys == {a} && a !in mapped
    requires forall i :: 0 <= i < |order| ==> order[i] in mapped
    ensures RenameAll(c, mapped, order) == c
    decreases |order|
  {
    if |order| > 0 {
      RenameAllUntouched(c, mapped, order[..|order| - 1], a);
    }
  }
}
