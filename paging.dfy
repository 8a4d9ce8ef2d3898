/**
 * Active Directory range retrieval of a group's members (loadMembersUsingRange):
 * the provider asks again and again for `member;range=low-high`, gathers the
 * values of each page and stops when a page's id ends in `*` or when the
 * group's own entry comes back without the attribute.
 */
module Paging {
  import opened Wrappers
  import opened Strings
  import opened Filters
  import opened Directory

  // ------------------------------------------------------- gathering values

  /** BasicAttribute.add on an unordered attribute: a value already held is not
      added again. */
  function AddValue(vals: seq<String>, v: String): seq<String> {
    if v in vals then vals else vals + [v]
  }

  /** Adding the values `vs` one after the other. */
  function AddValues(vals: seq<String>, vs: seq<String>): seq<String> {
    if |vs| == 0 then vals else AddValue(AddValues(vals, vs[..|vs| - 1]), vs[|vs| - 1])
  }

  predicate Distinct(xs: seq<String>) {
    forall i, j :: 0 <= i < j < |xs| ==> xs[i] != xs[j]
  }

  /** Adding keeps what was held, in order, holds exactly the old and the new
      values, and never holds a value twice. */
  lemma {:induction false} AddValuesContents(vals: seq<String>, vs: seq<String>)
    requires Distinct(vals)
    ensures var r := AddValues(vals, vs);
      Distinct(r) && |vals| <= |r| && r[..|vals|] == vals &&
      forall v :: v in r <==> v in vals || v in vs
    decreases |vs|
  {
    if |vs| > 0 {
      var front := vs[..|vs| - 1];
      AddValuesContents(vals, front);
      var r0 := AddValues(vals, front);
      var v := vs[|vs| - 1];
      assert vs == front + [v];
      if v !in r0 {
        assert (r0 + [v])[..|vals|] == r0[..|vals|];
      }
    } else {
      assert vals[..|vals|] == vals;
    }
  }

  /** Fresh distinct values are appended in order. */
  lemma {:induction false} AddValuesFresh(vals: seq<String>, vs: seq<String>)
    requires Distinct(vals + vs)
    ensures AddValues(vals, vs) == vals + vs
    decreases |vs|
  {
    if |vs| > 0 {
      var front := vs[..|vs| - 1];
      var v := vs[|vs| - 1];
      assert vals + vs == (vals + front) + [v];
      assert Distinct(vals + front) by {
        forall i, j | 0 <= i < j < |vals + front|
          ensures (vals + front)[i] != (vals + front)[j]
        {
          assert (vals + front)[i] == (vals + vs)[i] && (vals + front)[j] == (vals + vs)[j];
        }
      }
      AddValuesFresh(vals, front);
      assert v !in vals + front by {
        forall i | 0 <= i < |vals + front| ensures (vals + front)[i] != v {
          assert (vals + front)[i] == (vals + vs)[i];
          assert v == (vals + vs)[|vals + vs| - 1];
        }
      }
    }
  }

  /** Adding two runs of values is adding their concatenation. */
  lemma {:induction false} AddValuesAppend(vals: seq<String>, a: seq<String>, b: seq<String>)
    ensures AddValues(AddValues(vals, a), b) == AddValues(vals, a + b)
    decreases |b|
  {
    if |b| == 0 {
      assert a + b == a;
    } else {
      var front := b[..|b| - 1];
      AddValuesAppend(vals, a, front);
      assert (a + b)[..|a + b| - 1] == a + front;
      assert (a + b)[|a + b| - 1] == b[|b| - 1];
    }
  }

  /** The state of one page being read: the members gathered so far, whether
      the entry carried the members attribute, and whether paging is over. */
  datatype Progress = Progress(members: seq<String>, present: bool, finished: bool)

  /** One attribute of the group's own entry: a page of members when its id
      starts with the members attribute, the last page when it ends in `*`. */
  function AbsorbAttr(p: Progress, a: Attr, membersAttribute: String): Progress {
    if StartsWith(a.id, membersAttribute) then
      Progress(AddValues(p.members, a.values), true, p.finished || EndsWith(a.id, "*"))
    else p
  }

  function AbsorbAttrs(p: Progress, attrs: seq<Attr>, membersAttribute: String): Progress {
    if |attrs| == 0 then p
    else AbsorbAttr(AbsorbAttrs(p, attrs[..|attrs| - 1], membersAttribute), attrs[|attrs| - 1], membersAttribute)
  }

  /** One entry of a page's answer: another entry is skipped; the group's own
      entry is read and ends paging when it lacks the members attribute. */
  function AbsorbEntry(p: Progress, e: Entry, name: String, membersAttribute: String): Progress {
    if e.name == name then
      var q := AbsorbAttrs(p.(present := false), e.attrs, membersAttribute);
      if q.present then q else q.(finished := true)
    else p
  }

  function AbsorbEntries(p: Progress, entries: seq<Entry>, name: String, membersAttribute: String): Progress {
    if |entries| == 0 then p
    else AbsorbEntry(AbsorbEntries(p, entries[..|entries| - 1], name, membersAttribute),
                     entries[|entries| - 1], name, membersAttribute)
  }

  method AddAll(vals: seq<String>, vs: seq<String>) returns (r: seq<String>)
    ensures r == AddValues(vals, vs)
  {
    r := vals;
    for i := 0 to |vs|
      invariant r == AddValues(vals, vs[..i])
    {
      assert vs[..i + 1][..i] == vs[..i];
      if vs[i] !in r {
        r := r + [vs[i]];
      }
    }
    assert vs[..|vs|] == vs;
  }

  method ReadAttributes(p: Progress, attrs: seq<Attr>, membersAttribute: String) returns (q: Progress)
    ensures q == AbsorbAttrs(p, attrs, membersAttribute)
  {
    q := p;
    for i := 0 to |attrs|
      invariant q == AbsorbAttrs(p, attrs[..i], membersAttribute)
    {
      assert attrs[..i + 1][..i] == attrs[..i];
      var attrId := attrs[i].id;
      if StartsWith(attrId, membersAttribute) {
        var members := AddAll(q.members, attrs[i].values);
        q := q.(members := members, present := true);
        if EndsWith(attrId, "*") {
          q := q.(finished := true);
        }
      }
    }
    assert attrs[..|attrs|] == attrs;
  }

  /** The inner loop of loadMembersUsingRange over the entries of one answer. */
  method ReadPage(p: Progress, entries: seq<Entry>, name: String, membersAttribute: String) returns (q: Progress)
    ensures q == AbsorbEntries(p, entries, name, membersAttribute)
  {
    q := p;
    for i := 0 to |entries|
      invariant q == AbsorbEntries(p, entries[..i], name, membersAttribute)
    {
      assert entries[..i + 1][..i] == entries[..i];
      if entries[i].name == name {
        q := ReadAttributes(q.(present := false), entries[i].attrs, membersAttribute);
        if !q.present {
          q := q.(finished := true);
        }
      }
    }
    assert entries[..|entries|] == entries;
  }

  // ------------------------------------------------------------------ paging

  /** How paging ended: every page read, a naming exception while reading a
      page, a runtime exception, or the fuel of the model spent. */
  datatype PageEnd = AllPages | PageFailed(failure: Failure) | PageCrashed | PageOutOfFuel

  /** The end, the members gathered, and the low bound of every page
      requested, in order. */
  datatype PageRun = PageRun(end: PageEnd, members: seq<String>, lows: seq<int>)

  /** `(&<filter>(<groupNameAttribute>=<escaped name>))`: the group's own entry. */
  function PageFilter(filterString: String, groupNameAttribute: String, groupName: String): String {
    "(&" + filterString + "(" + groupNameAttribute + "=" + EscapeFilterValue(groupName) + "))"
  }

  /** The request for the page starting at `low`. */
  function PageQuery(base: Option<String>, filter: String, countLimit: int, membersAttribute: String,
                     low: int, step: int): Query
  {
    Query(base, filter, Some([RangeAttributeName(membersAttribute, low, low + step)]), countLimit)
  }

  /** The requests of one paging run, by the low bound of the page. */
  function PageAsk(base: Option<String>, filter: String, countLimit: int, membersAttribute: String,
                   step: int): int -> Query
  {
    low => PageQuery(base, filter, countLimit, membersAttribute, low, step)
  }

  /** Paging from the page starting at `low`, with `members` gathered and the
      pages `done` requested so far, for at most `fuel` more pages; `ask`
      gives the request for each page. */
  function PagingFrom(server: Server, ask: int -> Query, name: String, membersAttribute: String, step: int,
                      low: int, members: seq<String>, done: seq<int>, fuel: nat): (r: PageRun)
    ensures r.end != PageCrashed
    ensures |done| <= |r.lows| <= |done| + fuel
    decreases fuel
  {
    if fuel == 0 then PageRun(PageOutOfFuel, members, done)
    else
      var resp := server(ask(low));
      var p := AbsorbEntries(Progress(members, false, false), resp.entries, name, membersAttribute);
      if resp.end.Fails? then PageRun(PageFailed(resp.end.failure), p.members, done + [low])
      else if p.finished then PageRun(AllPages, p.members, done + [low])
      else PagingFrom(server, ask, name, membersAttribute, step, low + step + 1, p.members, done + [low], fuel - 1)
  }

  /** loadMembersUsingRange for the entry `sr`, at most `fuel` pages. Reading
      the group's name throws when `sr` lacks it. */
  function Paging(server: Server, sr: Entry, base: Option<String>, filterString: String, countLimit: int,
                  groupNameAttribute: String, membersAttribute: String, step: int, fuel: nat): PageRun
  {
    if fuel == 0 then PageRun(PageOutOfFuel, [], [])
    else match FirstValue(sr.attrs, groupNameAttribute)
      case None => PageRun(PageCrashed, [], [])
      case Some(v) =>
        PagingFrom(server, PageAsk(base, PageFilter(filterString, groupNameAttribute, v), countLimit, membersAttribute, step),
                   sr.name, membersAttribute, step, 0, [], [], fuel)
  }

  /** The entry after paging: when every page was read, the gathered values
      replace the members attribute; otherwise the entry is left as it was. */
  function Loaded(sr: Entry, membersAttribute: String, run: PageRun): Entry {
    if run.end == AllPages then sr.(attrs := Put(sr.attrs, Attr(membersAttribute, run.members))) else sr
  }

  /** The returning attributes that ask for the page starting at `low`. */
  function RangeReturning(membersAttribute: String, low: int, step: int): Option<seq<String>> {
    Some([RangeAttributeName(membersAttribute, low, low + step)])
  }

  /** loadMembersUsingRange. The search controls ask for each page in turn and
      get their original returning attributes back only when paging completes;
      otherwise they keep asking for the last page requested. */
  method LoadMembersUsingRange(sr: Entry, server: Server, ctl: SearchControls, filterString: String,
                               base: Option<String>, groupNameAttribute: String, membersAttribute: String,
                               step: int, fuel: nat)
    returns (run: PageRun, entry: Entry)
    modifies ctl
    ensures run == Paging(server, sr, base, filterString, old(ctl.countLimit), groupNameAttribute,
                          membersAttribute, step, fuel)
    ensures entry == Loaded(sr, membersAttribute, run)
    ensures ctl.countLimit == old(ctl.countLimit)
    ensures run.end == AllPages || fuel == 0 ==> ctl.returning == old(ctl.returning)
    ensures run.end == PageCrashed ==> ctl.returning == RangeReturning(membersAttribute, 0, step)
    ensures run.end != AllPages && |run.lows| > 0 ==>
              ctl.returning == RangeReturning(membersAttribute, run.lows[|run.lows| - 1], step)
  {
    var original := ctl.returning;
    entry := sr;
    if fuel == 0 {
      run := PageRun(PageOutOfFuel, [], []);
      return;
    }
    ctl.returning := Some([RangeAttributeName(membersAttribute, 0, step)]);
    var groupName := FirstValue(sr.attrs, groupNameAttribute);
    if groupName.None? {
      run := PageRun(PageCrashed, [], []);
      return;
    }
    run, entry := PageGroup(sr, server, ctl, PageFilter(filterString, groupNameAttribute, groupName.value), base,
                            membersAttribute, step, fuel, original);
  }

  /** Paging for an entry whose name is known, then putting back what was
      gathered and the original returning attributes when every page was read. */
  method PageGroup(sr: Entry, server: Server, ctl: SearchControls, filter: String, base: Option<String>,
                   membersAttribute: String, step: int, fuel: nat, original: Option<seq<String>>)
    returns (run: PageRun, entry: Entry)
    requires fuel > 0
    modifies ctl
    ensures run == PagingFrom(server, PageAsk(base, filter, old(ctl.countLimit), membersAttribute, step),
                              sr.name, membersAttribute, step, 0, [], [], fuel)
    ensures entry == Loaded(sr, membersAttribute, run)
    ensures ctl.countLimit == old(ctl.countLimit)
    ensures run.end == AllPages ==> ctl.returning == original
    ensures run.end != AllPages ==>
              |run.lows| > 0 && ctl.returning == RangeReturning(membersAttribute, run.lows[|run.lows| - 1], step)
  {
    entry := sr;
    ghost var ask := PageAsk(base, filter, ctl.countLimit, membersAttribute, step);
    run := RequestPages(server, ctl, base, filter, sr.name, membersAttribute, step, fuel, ask);
    if run.end == AllPages {
      entry := sr.(attrs := Put(sr.attrs, Attr(membersAttribute, run.members)));
      ctl.returning := original;
    }
  }

  /** The paging loop proper, from the first page on: each round sets the
      returning attributes to the page's range and sends the request, which
      `ask` gives for each low bound. */
  method RequestPages(server: Server, ctl: SearchControls, base: Option<String>, filter: String, name: String,
                      membersAttribute: String, step: int, fuel: nat, ghost ask: int -> Query)
    returns (run: PageRun)
    requires fuel > 0
    requires forall low {:trigger PageQuery(base, filter, ctl.countLimit, membersAttribute, low, step)} ::
               ask(low) == PageQuery(base, filter, ctl.countLimit, membersAttribute, low, step)
    modifies ctl
    ensures run == PagingFrom(server, ask, name, membersAttribute, step, 0, [], [], fuel)
    ensures ctl.countLimit == old(ctl.countLimit)
    ensures |run.lows| > 0 && ctl.returning == ask(run.lows[|run.lows| - 1]).returning
  {
    ghost var target := PagingFrom(server, ask, name, membersAttribute, step, 0, [], [], fuel);
    var low := 0;
    var members: seq<String> := [];
    var lows: seq<int> := [];
    var rounds: nat := fuel;
    while rounds > 0
      invariant rounds <= fuel
      invariant ctl.countLimit == old(ctl.countLimit)
      invariant rounds < fuel ==> |lows| > 0 && ctl.returning == ask(lows[|lows| - 1]).returning
      invariant PagingFrom(server, ask, name, membersAttribute, step, low, members, lows, rounds) == target
      decreases rounds
    {
      var last, end, members', lows' := RequestPage(server, ctl, base, filter, name, membersAttribute, step,
                                                    low, members, lows, rounds, ask);
      members, lows := members', lows';
      if last {
        run := PageRun(end, members, lows);
        return;
      }
      low := low + step + 1;
      rounds := rounds - 1;
    }
    run := PageRun(PageOutOfFuel, members, lows);
  }

  /** One round: the returning attributes ask for the page's range, then the
      request is sent and its answer read. Either the run ends with this page
      or it goes on from the next one. */
  method RequestPage(server: Server, ctl: SearchControls, base: Option<String>, filter: String, name: String,
                     membersAttribute: String, step: int, low: int, members: seq<String>, lows: seq<int>,
                     ghost rounds: nat, ghost ask: int -> Query)
    returns (last: bool, end: PageEnd, members': seq<String>, lows': seq<int>)
    requires rounds > 0
    requires ask(low) == PageQuery(base, filter, ctl.countLimit, membersAttribute, low, step)
    modifies ctl
    ensures ctl.returning == ask(low).returning && ctl.countLimit == old(ctl.countLimit)
    ensures lows' == lows + [low]
    ensures last ==> PageRun(end, members', lows')
                     == PagingFrom(server, ask, name, membersAttribute, step, low, members, lows, rounds)
    ensures !last ==> PagingFrom(server, ask, name, membersAttribute, step, low + step + 1, members', lows', rounds - 1)
                      == PagingFrom(server, ask, name, membersAttribute, step, low, members, lows, rounds)
  {
    ctl.returning := Some([RangeAttributeName(membersAttribute, low, low + step)]);
    var q := Query(base, filter, ctl.returning, ctl.countLimit);
    var resp := server(q);
    var p := ReadPage(Progress(members, false, false), resp.entries, name, membersAttribute);
    PagingFromStep(server, ask, name, membersAttribute, step, low, members, lows, rounds);
    members' := p.members;
    lows' := lows + [low];
    last := true;
    end := AllPages;
    if resp.end.Fails? {
      end := PageFailed(resp.end.failure);
    } else if !p.finished {
      last := false;
    }
  }

  /** One round of paging. */
  lemma PagingFromStep(server: Server, ask: int -> Query, name: String, membersAttribute: String, step: int,
                       low: int, members: seq<String>, done: seq<int>, fuel: nat)
    requires fuel > 0
    ensures var resp := server(ask(low));
      var p := AbsorbEntries(Progress(members, false, false), resp.entries, name, membersAttribute);
      PagingFrom(server, ask, name, membersAttribute, step, low, members, done, fuel)
      == if resp.end.Fails? then PageRun(PageFailed(resp.end.failure), p.members, done + [low])
         else if p.finished then PageRun(AllPages, p.members, done + [low])
         else PagingFrom(server, ask, name, membersAttribute, step, low + step + 1, p.members, done + [low], fuel - 1)
  {
  }

  // ---------------------------------------------------------- what paging does

  /** Where page `k` starts: `k` pages of `step + 1` values lie before it. */
  function PageLow(k: nat, step: int): (low: int)
    ensures step >= 0 ==> low >= 0
  {
    k * (step + 1)
  }

  /** Each page starts one past the previous page's high bound, `low + step`. */
  lemma PageLowNext(k: nat, step: int)
    ensures PageLow(k + 1, step) == PageLow(k, step) + step + 1
  {
    NextPageLow(k, step);
  }

  lemma NextPageLow(n: int, step: int)
    ensures (n + 1) * (step + 1) == n * (step + 1) + step + 1
  {
  }

  /** Page `j` requested starts at `PageLow(j, step)`. */
  predicate ContiguousPages(lows: seq<int>, step: int) {
    forall j :: 0 <= j < |lows| ==> lows[j] == PageLow(j, step)
  }

  lemma {:induction false} PagingFromContiguous(server: Server, ask: int -> Query, name: String,
                                                membersAttribute: String, step: int, low: int,
                                                members: seq<String>, done: seq<int>, fuel: nat)
    requires ContiguousPages(done, step)
    requires low == PageLow(|done|, step)
    ensures ContiguousPages(PagingFrom(server, ask, name, membersAttribute, step, low, members, done, fuel).lows, step)
    decreases fuel
  {
    if fuel > 0 {
      var p := AbsorbEntries(Progress(members, false, false), server(ask(low)).entries, name, membersAttribute);
      var done' := done + [low];
      PageLowNext(|done|, step);
      assert ContiguousPages(done', step) by {
        forall j | 0 <= j < |done'| ensures done'[j] == PageLow(j, step) {
          if j < |done| {
            assert done'[j] == done[j];
          }
        }
      }
      var r := PagingFrom(server, ask, name, membersAttribute, step, low, members, done, fuel);
      var rest := PagingFrom(server, ask, name, membersAttribute, step, low + step + 1, p.members, done', fuel - 1);
      assert r.lows == done' || r == rest by {
        PagingFromStep(server, ask, name, membersAttribute, step, low, members, done, fuel);
      }
      if r.lows != done' {
        PagingFromContiguous(server, ask, name, membersAttribute, step, low + step + 1, p.members, done', fuel - 1);
      }
    }
  }

  /** loadMembersUsingRange sends at most `fuel` page requests; request `j`
      asks the group's own entry for the values from `j * (step + 1)` to
      `j * (step + 1) + step`: the first for `0-step`, each next one starting
      right after the previous high bound. */
  lemma PageRanges(server: Server, sr: Entry, base: Option<String>, filterString: String, countLimit: int,
                   groupNameAttribute: String, membersAttribute: String, step: int, fuel: nat)
    ensures var run := Paging(server, sr, base, filterString, countLimit, groupNameAttribute, membersAttribute, step, fuel);
      |run.lows| <= fuel && ContiguousPages(run.lows, step)
  {
    if fuel > 0 && FirstValue(sr.attrs, groupNameAttribute).Some? {
      var filter := PageFilter(filterString, groupNameAttribute, FirstValue(sr.attrs, groupNameAttribute).value);
      PagingFromContiguous(server, PageAsk(base, filter, countLimit, membersAttribute, step), sr.name,
                           membersAttribute, step, 0, [], [], fuel);
    }
  }

  // ------------------------------------------------ Java's 32-bit page bounds

  /** The largest Java `int`. */
  const MaxInt: int := 0x7fff_ffff

  /** A Java `int` sum: the exact value brought back into `int` range modulo 2^32. */
  function Int32(x: int): (r: int)
    ensures -MaxInt - 1 <= r <= MaxInt
    ensures -MaxInt - 1 <= x <= MaxInt ==> r == x
  {
    var m := x % 0x1_0000_0000;
    if m > MaxInt then m - 0x1_0000_0000 else m
  }

  /** `lowRange` and `highRange` of loadMembersUsingRange in round `k`,
      computed as Java does on `int`s. */
  function JavaRange(k: nat, step: int): (int, int) {
    if k == 0 then (0, Int32(step))
    else
      var low := Int32(JavaRange(k - 1, step).1 + 1);
      (low, Int32(low + step))
  }

  /** As long as the high bound of page `k` fits an `int`, Java's bounds are
      those of the model: page `k` spans `PageLow(k, step)` to
      `PageLow(k, step) + step`. */
  lemma {:induction false} JavaRangeAgrees(k: nat, step: int)
    requires 0 <= step && PageLow(k, step) + step <= MaxInt
    ensures JavaRange(k, step) == (PageLow(k, step), PageLow(k, step) + step)
  {
    if k > 0 {
      PageLowNext(k - 1, step);
      JavaRangeAgrees(k - 1, step);
    }
  }

  /** Past that point Java's bounds wrap: with `step` the largest `int`, the
      second request asks for `range=-2147483648--1`, not for the values
      from 2^31. */
  lemma JavaRangeWraps()
    ensures JavaRange(1, MaxInt) == (-MaxInt - 1, -1)
    ensures PageLow(1, MaxInt) == MaxInt + 1
  {
  }

  lemma {:induction false} AbsorbOthers(p: Progress, entries: seq<Entry>, name: String, membersAttribute: String)
    requires forall e :: e in entries ==> e.name != name
    ensures AbsorbEntries(p, entries, name, membersAttribute) == p
    decreases |entries|
  {
    if |entries| > 0 {
      var front := entries[..|entries| - 1];
      assert forall e :: e in front ==> e in entries;
      AbsorbOthers(p, front, name, membersAttribute);
      assert entries[|entries| - 1] in entries;
    }
  }

  lemma {:induction false} PagingFromNeverFinishes(server: Server, ask: int -> Query, name: String,
                                                   membersAttribute: String, step: int, low: int,
                                                   members: seq<String>, done: seq<int>, fuel: nat)
    requires forall q, e :: e in server(q).entries ==> e.name != name
    ensures PagingFrom(server, ask, name, membersAttribute, step, low, members, done, fuel).end != AllPages
    decreases fuel
  {
    if fuel > 0 {
      AbsorbOthers(Progress(members, false, false), server(ask(low)).entries, name, membersAttribute);
      PagingFromNeverFinishes(server, ask, name, membersAttribute, step, low + step + 1, members, done + [low], fuel - 1);
    }
  }

  /** Only the group's own entry can end paging: when no answer holds it (an
      empty answer, say) the loop never finishes, and it is the fuel of the
      model, not the code, that stops it. */
  lemma NeverFinishesWithoutOwnEntry(server: Server, sr: Entry, base: Option<String>, filterString: String,
                                     countLimit: int, groupNameAttribute: String, membersAttribute: String,
                                     step: int, fuel: nat)
    requires forall q, e :: e in server(q).entries ==> e.name != sr.name
    ensures Paging(server, sr, base, filterString, countLimit, groupNameAttribute, membersAttribute, step, fuel).end
            != AllPages
  {
    if fuel > 0 && FirstValue(sr.attrs, groupNameAttribute).Some? {
      var filter := PageFilter(filterString, groupNameAttribute, FirstValue(sr.attrs, groupNameAttribute).value);
      PagingFromNeverFinishes(server, PageAsk(base, filter, countLimit, membersAttribute, step), sr.name,
                              membersAttribute, step, 0, [], [], fuel);
    }
  }

  /** Attributes none of which names the members attribute change nothing. */
  lemma {:induction false} AbsorbAttrsWithoutMembers(p: Progress, attrs: seq<Attr>, membersAttribute: String)
    requires forall a :: a in attrs ==> !StartsWith(a.id, membersAttribute)
    ensures AbsorbAttrs(p, attrs, membersAttribute) == p
    decreases |attrs|
  {
    if |attrs| > 0 {
      var front := attrs[..|attrs| - 1];
      assert forall a :: a in front ==> a in attrs;
      AbsorbAttrsWithoutMembers(p, front, membersAttribute);
      assert attrs[|attrs| - 1] in attrs;
    }
  }

  /** An answer whose entries for the group carry no members attribute adds
      no member, and finishes paging exactly when it holds the group's entry. */
  lemma {:induction false} AbsorbWithoutMembers(p: Progress, entries: seq<Entry>, name: String, membersAttribute: String)
    requires forall e, a :: e in entries && e.name == name && a in e.attrs ==> !StartsWith(a.id, membersAttribute)
    ensures var q := AbsorbEntries(p, entries, name, membersAttribute);
      q.members == p.members && (q.finished <==> p.finished || exists e :: e in entries && e.name == name)
    decreases |entries|
  {
    if |entries| > 0 {
      var front := entries[..|entries| - 1];
      var e := entries[|entries| - 1];
      assert forall x :: x in front ==> x in entries;
      AbsorbWithoutMembers(p, front, name, membersAttribute);
      assert e in entries;
      if e.name == name {
        var q := AbsorbEntries(p, front, name, membersAttribute);
        AbsorbAttrsWithoutMembers(q.(present := false), e.attrs, membersAttribute);
      } else {
        forall x | x in entries && x.name == name ensures x in front {
          var i :| 0 <= i < |entries| && entries[i] == x;
          assert i < |entries| - 1;
          assert front[i] == x;
        }
      }
    }
  }

  /** When the group's own entry comes back without the members attribute,
      paging ends there, complete, with the values gathered so far. */
  lemma AbsentAttributeEndsPaging(server: Server, ask: int -> Query, name: String, membersAttribute: String,
                                  step: int, low: int, members: seq<String>, done: seq<int>, fuel: nat)
    requires fuel > 0
    requires !server(ask(low)).end.Fails?
    requires exists e :: e in server(ask(low)).entries && e.name == name
    requires forall e, a :: e in server(ask(low)).entries && e.name == name && a in e.attrs ==>
               !StartsWith(a.id, membersAttribute)
    ensures PagingFrom(server, ask, name, membersAttribute, step, low, members, done, fuel)
            == PageRun(AllPages, members, done + [low])
  {
    AbsorbWithoutMembers(Progress(members, false, false), server(ask(low)).entries, name, membersAttribute);
  }

  function Min(a: int, b: int): int {
    if a <= b then a else b
  }

  /** The id of the attribute a ranged server returns for the values from
      `low` to `high`: `*` as upper bound on the last page. */
  function PageId(membersAttribute: String, low: int, high: int, size: int): String {
    if high + 1 >= size then membersAttribute + ";range=" + IntToString(low) + "-*"
    else RangeAttributeName(membersAttribute, low, high)
  }

  /** How an Active Directory server answers page `k` of an attribute holding
      `all`: the entry itself, with one attribute whose id gives the range
      served. */
  function ServerPage(name: String, membersAttribute: String, all: seq<String>, step: int, k: nat): Response
    requires step >= 0
  {
    var low := PageLow(k, step);
    var high := low + step;
    Response([Entry(name, [Attr(PageId(membersAttribute, low, high, |all|), all[Min(low, |all|)..Min(high + 1, |all|)])])],
             Complete)
  }

  lemma EndsWithStar(x: String)
    ensures EndsWith(x + "-*", "*")
  {
    var s := x + "-*";
    assert s[|s| - 1..] == "*";
  }

  lemma EndsWithDigits(x: String, n: int)
    requires n >= 0
    ensures !EndsWith(x + IntToString(n), "*")
  {
    var d := NatToString(n);
    DigitsOfNat(n);
    var s := x + d;
    assert s[|s| - 1] == d[|d| - 1];
    assert s[|s| - 1..][0] == s[|s| - 1];
  }

  lemma StartsWithExtend(s: String, x: String, p: String)
    requires StartsWith(s, p)
    ensures StartsWith(s + x, p)
  {
    assert (s + x)[..|p|] == s[..|p|];
  }

  lemma StartsWithSelf(p: String)
    ensures StartsWith(p, p)
  {
    assert p[..|p|] == p;
  }

  /** A page id names the members attribute and ends in `*` only on the last page. */
  lemma PageIdShape(membersAttribute: String, low: int, high: int, size: int)
    requires high >= 0
    ensures StartsWith(PageId(membersAttribute, low, high, size), membersAttribute)
    ensures EndsWith(PageId(membersAttribute, low, high, size), "*") <==> high + 1 >= size
  {
    var head := membersAttribute + ";range=" + IntToString(low);
    StartsWithSelf(membersAttribute);
    StartsWithExtend(membersAttribute, ";range=", membersAttribute);
    StartsWithExtend(membersAttribute + ";range=", IntToString(low), membersAttribute);
    if high + 1 >= size {
      EndsWithStar(head);
      StartsWithExtend(head, "-*", membersAttribute);
    } else {
      EndsWithDigits(head + "-", high);
      StartsWithExtend(head, "-", membersAttribute);
      StartsWithExtend(head + "-", IntToString(high), membersAttribute);
    }
  }

  /** An answer made of the group's own entry with one members attribute. */
  lemma ReadSingleAttribute(members: seq<String>, name: String, membersAttribute: String, a: Attr)
    requires StartsWith(a.id, membersAttribute)
    ensures AbsorbEntries(Progress(members, false, false), [Entry(name, [a])], name, membersAttribute)
            == Progress(AddValues(members, a.values), true, EndsWith(a.id, "*"))
  {
    var p := Progress(members, false, false);
    var es := [Entry(name, [a])];
    assert es[..0] == [] && [a][..0] == [];
    assert AbsorbAttrs(p, [a], membersAttribute) == AbsorbAttr(p, a, membersAttribute);
    assert AbsorbEntries(p, es, name, membersAttribute) == AbsorbEntry(p, es[0], name, membersAttribute);
  }

  /** Reading one answer of the ranged server. */
  lemma ReadServerPage(members: seq<String>, name: String, membersAttribute: String, all: seq<String>,
                       step: int, k: nat)
    requires step >= 0
    ensures var low := PageLow(k, step);
      var p := AbsorbEntries(Progress(members, false, false), ServerPage(name, membersAttribute, all, step, k).entries,
                             name, membersAttribute);
      p.members == AddValues(members, all[Min(low, |all|)..Min(low + step + 1, |all|)]) &&
      p.finished == (low + step + 1 >= |all|)
  {
    var low := PageLow(k, step);
    var high := low + step;
    PageIdShape(membersAttribute, low, high, |all|);
    var a := Attr(PageId(membersAttribute, low, high, |all|), all[Min(low, |all|)..Min(high + 1, |all|)]);
    assert ServerPage(name, membersAttribute, all, step, k).entries == [Entry(name, [a])];
    ReadSingleAttribute(members, name, membersAttribute, a);
  }

  /** The server answers pages `from` to `to - 1` as an Active Directory
      server holding `all` would. */
  ghost predicate ServesPages(server: Server, ask: int -> Query, name: String, membersAttribute: String,
                              all: seq<String>, step: int, from: nat, to: nat)
  {
    step >= 0 &&
    forall j: nat {:trigger ServerPage(name, membersAttribute, all, step, j)} :: from <= j < to ==>
      server(ask(PageLow(j, step))) == ServerPage(name, membersAttribute, all, step, j)
  }

  lemma ServesLater(server: Server, ask: int -> Query, name: String, membersAttribute: String,
                    all: seq<String>, step: int, from: nat, to: nat)
    requires ServesPages(server, ask, name, membersAttribute, all, step, from, to)
    ensures ServesPages(server, ask, name, membersAttribute, all, step, from + 1, to)
  {
  }

  lemma MorePagesLeft(k: nat, last: nat, step: int, size: int, fuel: nat)
    requires fuel >= 1 && last == k + fuel
    requires PageLow(k + 1, step) < size <= PageLow(last, step)
    ensures fuel > 1
  {
  }

  lemma SliceJoin(all: seq<String>, a: int, b: int)
    requires 0 <= a <= b <= |all|
    ensures all[..a] + all[a..b] == all[..b]
  {
  }

  /** Page `k` read from the ranged server: either the last one, or paging
      goes on from the next page with every value so far. */
  lemma RetrievePage(server: Server, ask: int -> Query, name: String, membersAttribute: String, step: int,
                     all: seq<String>, k: nat, done: seq<int>, fuel: nat)
    requires step >= 0 && fuel > 0
    requires PageLow(k, step) <= |all|
    requires server(ask(PageLow(k, step))) == ServerPage(name, membersAttribute, all, step, k)
    ensures var low := PageLow(k, step);
      var run := PagingFrom(server, ask, name, membersAttribute, step, low, AddValues([], all[..low]), done, fuel);
      var next := PageLow(k + 1, step);
      (next >= |all| ==> run == PageRun(AllPages, AddValues([], all), done + [low])) &&
      (next < |all| ==>
         run == PagingFrom(server, ask, name, membersAttribute, step, next, AddValues([], all[..next]),
                           done + [low], fuel - 1))
  {
    var low := PageLow(k, step);
    PageLowNext(k, step);
    var members := AddValues([], all[..low]);
    var resp := server(ask(low));
    var p := AbsorbEntries(Progress(members, false, false), resp.entries, name, membersAttribute);
    PageAbsorbed(name, membersAttribute, all, step, k, resp, p);
    PagingFromStep(server, ask, name, membersAttribute, step, low, members, done, fuel);
    if PageLow(k + 1, step) >= |all| {
      assert all[..|all|] == all;
    }
  }

  /** Reading the k-th page served adds the page's values to those of the
      pages before it; the page is the last one when it reaches the end. */
  lemma PageAbsorbed(name: String, membersAttribute: String, all: seq<String>, step: int, k: nat,
                     resp: Response, p: Progress)
    requires step >= 0 && PageLow(k, step) <= |all|
    requires resp == ServerPage(name, membersAttribute, all, step, k)
    requires p == AbsorbEntries(Progress(AddValues([], all[..PageLow(k, step)]), false, false), resp.entries,
                                name, membersAttribute)
    ensures var next := PageLow(k + 1, step);
      !resp.end.Fails? && p.finished == (next >= |all|) && p.members == AddValues([], all[..Min(next, |all|)])
  {
    var low := PageLow(k, step);
    PageLowNext(k, step);
    var members := AddValues([], all[..low]);
    var high1 := Min(low + step + 1, |all|);
    assert p.finished == (low + step + 1 >= |all|) && p.members == AddValues(members, all[low..high1]) by {
      ReadServerPage(members, name, membersAttribute, all, step, k);
      assert Min(low, |all|) == low;
    }
    assert AddValues(members, all[low..high1]) == AddValues([], all[..high1]) by {
      AddValuesAppend([], all[..low], all[low..high1]);
      SliceJoin(all, low, high1);
    }
  }


  lemma {:induction false} PagingFromRetrievesAll(server: Server, ask: int -> Query, name: String,
                                                  membersAttribute: String, step: int, all: seq<String>,
                                                  k: nat, last: nat, done: seq<int>, fuel: nat)
    requires ServesPages(server, ask, name, membersAttribute, all, step, k, last)
    requires PageLow(k, step) <= |all|
    requires fuel >= 1 && last == k + fuel && PageLow(last, step) >= |all|
    ensures var run := PagingFrom(server, ask, name, membersAttribute, step, PageLow(k, step),
                                  AddValues([], all[..PageLow(k, step)]), done, fuel);
      run.end == AllPages && run.members == AddValues([], all)
    decreases fuel
  {
    var low := PageLow(k, step);
    var next := PageLow(k + 1, step);
    RetrievePage(server, ask, name, membersAttribute, step, all, k, done, fuel);
    if next < |all| {
      var rest := PagingFrom(server, ask, name, membersAttribute, step, next, AddValues([], all[..next]),
                             done + [low], fuel - 1);
      assert rest.end == AllPages && rest.members == AddValues([], all) by {
        MorePagesLeft(k, last, step, |all|, fuel);
        ServesLater(server, ask, name, membersAttribute, all, step, k, last);
        PagingFromRetrievesAll(server, ask, name, membersAttribute, step, all, k + 1, last, done + [low], fuel - 1);
      }
    }
  }

  /** The pages asked for of the ranged server: `n` of them, `n` the least
      count (at least one) whose pages reach past the last value. */
  lemma PageCount(lows: seq<int>, step: int, size: int)
    requires ContiguousPages(lows, step) && |lows| >= 1
    requires lows[|lows| - 1] + step + 1 >= size
    requires forall j :: 0 <= j < |lows| - 1 ==> lows[j] + step + 1 < size
    ensures var n := |lows|; PageLow(n, step) >= size && (n == 1 || PageLow(n - 1, step) < size)
  {
    var n := |lows|;
    PageLowNext(n - 1, step);
    if n > 1 {
      PageLowNext(n - 2, step);
    }
  }

  /** Against a server that serves the attribute's values page by page, paging
      with enough fuel reads every page and puts back exactly the values the
      server holds, in order, when they are distinct. */
  lemma PagingRetrievesAll(server: Server, sr: Entry, base: Option<String>, filterString: String, countLimit: int,
                           groupNameAttribute: String, membersAttribute: String, step: int, fuel: nat,
                           all: seq<String>)
    requires step >= 0
    requires FirstValue(sr.attrs, groupNameAttribute).Some?
    requires forall j: nat :: j < fuel ==>
      server(PageQuery(base, PageFilter(filterString, groupNameAttribute, FirstValue(sr.attrs, groupNameAttribute).value),
                       countLimit, membersAttribute, PageLow(j, step), step))
      == ServerPage(sr.name, membersAttribute, all, step, j)
    requires fuel >= 1 && PageLow(fuel, step) >= |all|
    requires Distinct(all)
    ensures var run := Paging(server, sr, base, filterString, countLimit, groupNameAttribute, membersAttribute, step, fuel);
      run.end == AllPages && run.members == all &&
      Find(Loaded(sr, membersAttribute, run).attrs, membersAttribute) == Some(Attr(membersAttribute, all))
  {
    var filter := PageFilter(filterString, groupNameAttribute, FirstValue(sr.attrs, groupNameAttribute).value);
    var ask := PageAsk(base, filter, countLimit, membersAttribute, step);
    AskedPagesServed(server, base, filter, countLimit, sr.name, membersAttribute, step, fuel, all);
    RunRetrievesAll(server, ask, sr.name, membersAttribute, step, fuel, all);
    var run := Paging(server, sr, base, filterString, countLimit, groupNameAttribute, membersAttribute, step, fuel);
    PutThenFind(sr.attrs, Attr(membersAttribute, run.members), membersAttribute);
  }

  /** Against the same server, paging asks for exactly `n` pages, contiguous
      from 0, `n` being the least count (at least one) whose pages reach past
      the last value: three pages for 1500 values served 500 at a time. */
  lemma PagingPageCount(server: Server, sr: Entry, base: Option<String>, filterString: String, countLimit: int,
                        groupNameAttribute: String, membersAttribute: String, step: int, fuel: nat,
                        all: seq<String>)
    requires step >= 0
    requires FirstValue(sr.attrs, groupNameAttribute).Some?
    requires forall j: nat :: j < fuel ==>
      server(PageQuery(base, PageFilter(filterString, groupNameAttribute, FirstValue(sr.attrs, groupNameAttribute).value),
                       countLimit, membersAttribute, PageLow(j, step), step))
      == ServerPage(sr.name, membersAttribute, all, step, j)
    requires fuel >= 1 && PageLow(fuel, step) >= |all|
    ensures var lows := Paging(server, sr, base, filterString, countLimit, groupNameAttribute, membersAttribute, step, fuel).lows;
      var n := |lows|;
      ContiguousPages(lows, step) && n >= 1 && PageLow(n, step) >= |all| && (n == 1 || PageLow(n - 1, step) < |all|)
  {
    var filter := PageFilter(filterString, groupNameAttribute, FirstValue(sr.attrs, groupNameAttribute).value);
    var ask := PageAsk(base, filter, countLimit, membersAttribute, step);
    AskedPagesServed(server, base, filter, countLimit, sr.name, membersAttribute, step, fuel, all);
    RunPageCount(server, ask, sr.name, membersAttribute, step, fuel, all);
    assert Paging(server, sr, base, filterString, countLimit, groupNameAttribute, membersAttribute, step, fuel)
        == PagingFrom(server, ask, sr.name, membersAttribute, step, 0, [], [], fuel);
  }

  lemma AskedPagesServed(server: Server, base: Option<String>, filter: String, countLimit: int, name: String,
                         membersAttribute: String, step: int, fuel: nat, all: seq<String>)
    requires step >= 0
    requires forall j: nat :: j < fuel ==>
      server(PageQuery(base, filter, countLimit, membersAttribute, PageLow(j, step), step))
      == ServerPage(name, membersAttribute, all, step, j)
    ensures ServesPages(server, PageAsk(base, filter, countLimit, membersAttribute, step), name, membersAttribute,
                        all, step, 0, fuel)
  {
    var ask := PageAsk(base, filter, countLimit, membersAttribute, step);
    forall j: nat | j < fuel
      ensures server(ask(PageLow(j, step))) == ServerPage(name, membersAttribute, all, step, j)
    {
      assert ask(PageLow(j, step)) == PageQuery(base, filter, countLimit, membersAttribute, PageLow(j, step), step);
    }
  }

  /** Whether the answer to the page starting at `low` ends paging. */
  ghost predicate Finishes(server: Server, ask: int -> Query, name: String, membersAttribute: String, low: int) {
    AbsorbEntries(Progress([], false, false), server(ask(low)).entries, name, membersAttribute).finished
  }

  /** Whether an answer ends paging does not depend on the values gathered. */
  lemma {:induction false} AbsorbAttrsFlags(p: Progress, q: Progress, attrs: seq<Attr>, membersAttribute: String)
    requires p.present == q.present && p.finished == q.finished
    ensures AbsorbAttrs(p, attrs, membersAttribute).present == AbsorbAttrs(q, attrs, membersAttribute).present
    ensures AbsorbAttrs(p, attrs, membersAttribute).finished == AbsorbAttrs(q, attrs, membersAttribute).finished
    decreases |attrs|
  {
    if |attrs| > 0 {
      AbsorbAttrsFlags(p, q, attrs[..|attrs| - 1], membersAttribute);
    }
  }

  lemma {:induction false} AbsorbEntriesFlags(p: Progress, q: Progress, entries: seq<Entry>, name: String,
                                             membersAttribute: String)
    requires p.present == q.present && p.finished == q.finished
    ensures AbsorbEntries(p, entries, name, membersAttribute).present == AbsorbEntries(q, entries, name, membersAttribute).present
    ensures AbsorbEntries(p, entries, name, membersAttribute).finished == AbsorbEntries(q, entries, name, membersAttribute).finished
    decreases |entries|
  {
    if |entries| > 0 {
      var front := entries[..|entries| - 1];
      var e := entries[|entries| - 1];
      AbsorbEntriesFlags(p, q, front, name, membersAttribute);
      var p' := AbsorbEntries(p, front, name, membersAttribute);
      var q' := AbsorbEntries(q, front, name, membersAttribute);
      AbsorbAttrsFlags(p'.(present := false), q'.(present := false), e.attrs, membersAttribute);
    }
  }

  /** A run that reads every page keeps the pages already asked for, ends on
      a page whose answer finishes paging, and no page before it in this run
      finished. This holds against any server. */
  lemma {:induction false} PagingFromEnds(server: Server, ask: int -> Query, name: String, membersAttribute: String,
                                          step: int, low: int, members: seq<String>, done: seq<int>, fuel: nat)
    ensures var lows := PagingFrom(server, ask, name, membersAttribute, step, low, members, done, fuel).lows;
      PagingFrom(server, ask, name, membersAttribute, step, low, members, done, fuel).end == AllPages ==>
        |lows| > |done| && lows[..|done|] == done && Finishes(server, ask, name, membersAttribute, lows[|lows| - 1]) &&
        forall j :: |done| <= j < |lows| - 1 ==> !Finishes(server, ask, name, membersAttribute, lows[j])
    decreases fuel
  {
    if fuel > 0 {
      var run := PagingFrom(server, ask, name, membersAttribute, step, low, members, done, fuel);
      var resp := server(ask(low));
      var p := AbsorbEntries(Progress(members, false, false), resp.entries, name, membersAttribute);
      FinishesAt(server, ask, name, membersAttribute, low, members);
      var done' := done + [low];
      PagingFromStep(server, ask, name, membersAttribute, step, low, members, done, fuel);
      if !resp.end.Fails? && !p.finished {
        var rest := PagingFrom(server, ask, name, membersAttribute, step, low + step + 1, p.members, done', fuel - 1);
        PagingFromEnds(server, ask, name, membersAttribute, step, low + step + 1, p.members, done', fuel - 1);
        if run.end == AllPages {
          EndsExtend(server, ask, name, membersAttribute, rest.lows, done, low);
        }
      } else {
        assert done'[..|done|] == done;
      }
    }
  }

  lemma FinishesAt(server: Server, ask: int -> Query, name: String, membersAttribute: String, low: int,
                   members: seq<String>)
    ensures AbsorbEntries(Progress(members, false, false), server(ask(low)).entries, name, membersAttribute).finished
            == Finishes(server, ask, name, membersAttribute, low)
  {
    AbsorbEntriesFlags(Progress(members, false, false), Progress([], false, false), server(ask(low)).entries,
                       name, membersAttribute);
  }

  lemma EndsExtend(server: Server, ask: int -> Query, name: String, membersAttribute: String,
                   lows: seq<int>, done: seq<int>, low: int)
    requires |lows| > |done| + 1 && lows[..|done| + 1] == done + [low]
    requires !Finishes(server, ask, name, membersAttribute, low)
    requires forall j :: |done| + 1 <= j < |lows| - 1 ==> !Finishes(server, ask, name, membersAttribute, lows[j])
    ensures lows[..|done|] == done
    ensures forall j :: |done| <= j < |lows| - 1 ==> !Finishes(server, ask, name, membersAttribute, lows[j])
  {
    assert lows[..|done|] == lows[..|done| + 1][..|done|];
    assert lows[|done|] == lows[..|done| + 1][|done|];
  }

  /** The ranged server's page `j` finishes paging exactly when the next page
      would start past the last value. */
  lemma ServedPageFinishes(server: Server, ask: int -> Query, name: String, membersAttribute: String,
                           all: seq<String>, step: int, j: nat, to: nat)
    requires ServesPages(server, ask, name, membersAttribute, all, step, 0, to)
    requires j < to
    ensures Finishes(server, ask, name, membersAttribute, PageLow(j, step)) <==> PageLow(j + 1, step) >= |all|
  {
    ReadServerPage([], name, membersAttribute, all, step, j);
    PageLowNext(j, step);
  }

  /** Paging from the first page asks for the least number of contiguous
      pages that reaches past the last value. */
  lemma RunPageCount(server: Server, ask: int -> Query, name: String, membersAttribute: String, step: int,
                     fuel: nat, all: seq<String>)
    requires ServesPages(server, ask, name, membersAttribute, all, step, 0, fuel)
    requires fuel >= 1 && PageLow(fuel, step) >= |all|
    ensures var lows := PagingFrom(server, ask, name, membersAttribute, step, 0, [], [], fuel).lows;
      var n := |lows|;
      ContiguousPages(lows, step) && n >= 1 && PageLow(n, step) >= |all| && (n == 1 || PageLow(n - 1, step) < |all|)
  {
    var lows := PagingFrom(server, ask, name, membersAttribute, step, 0, [], [], fuel).lows;
    RunEndsAllPages(server, ask, name, membersAttribute, step, fuel, all);
    PagingFromEnds(server, ask, name, membersAttribute, step, 0, [], [], fuel);
    PagingFromContiguous(server, ask, name, membersAttribute, step, 0, [], [], fuel);
    ServedLows(server, ask, name, membersAttribute, all, step, fuel, lows);
    PageCount(lows, step, |all|);
  }

  lemma RunEndsAllPages(server: Server, ask: int -> Query, name: String, membersAttribute: String, step: int,
                        fuel: nat, all: seq<String>)
    requires ServesPages(server, ask, name, membersAttribute, all, step, 0, fuel)
    requires fuel >= 1 && PageLow(fuel, step) >= |all|
    ensures PagingFrom(server, ask, name, membersAttribute, step, 0, [], [], fuel).end == AllPages
  {
    assert all[..PageLow(0, step)] == [] && AddValues([], []) == [];
    PagingFromRetrievesAll(server, ask, name, membersAttribute, step, all, 0, fuel, [], fuel);
  }

  /** Contiguous pages of the ranged server, of which only the last finishes
      paging: only the last reaches past the last value. */
  lemma ServedLows(server: Server, ask: int -> Query, name: String, membersAttribute: String, all: seq<String>,
                   step: int, fuel: nat, lows: seq<int>)
    requires ServesPages(server, ask, name, membersAttribute, all, step, 0, fuel)
    requires ContiguousPages(lows, step) && 1 <= |lows| <= fuel
    requires Finishes(server, ask, name, membersAttribute, lows[|lows| - 1])
    requires forall j :: 0 <= j < |lows| - 1 ==> !Finishes(server, ask, name, membersAttribute, lows[j])
    ensures lows[|lows| - 1] + step + 1 >= |all|
    ensures forall j :: 0 <= j < |lows| - 1 ==> lows[j] + step + 1 < |all|
  {
    var n := |lows|;
    ServedPageFinishes(server, ask, name, membersAttribute, all, step, n - 1, fuel);
    PageLowNext(n - 1, step);
    forall j | 0 <= j < n - 1 ensures lows[j] + step + 1 < |all| {
      ServedPageFinishes(server, ask, name, membersAttribute, all, step, j, fuel);
      PageLowNext(j, step);
    }
  }

  /** Paging from the first page reads all of `all` when the directory serves
      its pages and there is fuel for every one of them. */
  lemma RunRetrievesAll(server: Server, ask: int -> Query, name: String, membersAttribute: String, step: int,
                        fuel: nat, all: seq<String>)
    requires ServesPages(server, ask, name, membersAttribute, all, step, 0, fuel)
    requires fuel >= 1 && PageLow(fuel, step) >= |all|
    requires Distinct(all)
    ensures var run := PagingFrom(server, ask, name, membersAttribute, step, 0, [], [], fuel);
      run.end == AllPages && run.members == all
  {
    assert all[..0] == [];
    assert PageLow(0, step) == 0;
    PagingFromRetrievesAll(server, ask, name, membersAttribute, step, all, 0, fuel, [], fuel);
    assert [] + all == all;
    AddValuesFresh([], all);
  }

}
