/**
 * Search filters for groups: the escaping of filter values (section 4 of
 * RFC 2254, section 3 of RFC 4515, for the backslash and the parentheses
 * only), the filter that getGroups(ctx, Properties) builds from search
 * criteria, and the renaming of criteria keys to directory attribute names.
 */
module Filters {
  import opened Wrappers
  import opened Strings

  // ---------------------------------------------------------------- escaping

  /** escapeFilterValue: three successive replace-all passes, backslash first.
      The asterisk is left alone, since callers use it as a wildcard. */
  function EscapeFilterValue(v: String): String {
    ReplaceChar(ReplaceChar(ReplaceChar(v, '\\', "\\5c"), '(', "\\28"), ')', "\\29")
  }

  /** The escape of one character, as RFC 4515 section 3 defines it. */
  function EscapeChar(c: char): String {
    if c == '\\' then "\\5c"
    else if c == '(' then "\\28"
    else if c == ')' then "\\29"
    else [c]
  }

  /** Escaping character by character: the reference definition. */
  function EscapeEach(v: String): String {
    if |v| == 0 then [] else EscapeChar(v[0]) + EscapeEach(v[1..])
  }

  /** Because the backslash is replaced first, the three passes escape every
      character exactly once: the sequential passes equal the per-character
      escape. */
  lemma {:induction false} EscapeIsPerCharacter(v: String)
    ensures EscapeFilterValue(v) == EscapeEach(v)
    decreases |v|
  {
    if |v| > 0 {
      var c, rest := v[0], v[1..];
      assert v == [c] + rest;
      ReplaceCharAppend([c], rest, '\\', "\\5c");
      var a1, b1 := ReplaceChar([c], '\\', "\\5c"), ReplaceChar(rest, '\\', "\\5c");
      ReplaceCharAppend(a1, b1, '(', "\\28");
      var a2, b2 := ReplaceChar(a1, '(', "\\28"), ReplaceChar(b1, '(', "\\28");
      ReplaceCharAppend(a2, b2, ')', "\\29");
      EscapeIsPerCharacter(rest);
      EscapeCharBySteps(c);
    }
  }

  lemma EscapeCharBySteps(c: char)
    ensures ReplaceChar(ReplaceChar(ReplaceChar([c], '\\', "\\5c"), '(', "\\28"), ')', "\\29") == EscapeChar(c)
  {
    assert [c][1..] == [];
    if c == '\\' {
      assert ReplaceChar([c], '\\', "\\5c") == "\\5c";
      ReplaceCharOfFree("\\5c", '(', "\\28");
      ReplaceCharOfFree("\\5c", ')', "\\29");
    } else if c == '(' {
      assert ReplaceChar([c], '\\', "\\5c") == [c];
      assert ReplaceChar([c], '(', "\\28") == "\\28";
      ReplaceCharOfFree("\\28", ')', "\\29");
    } else {
      assert ReplaceChar([c], '\\', "\\5c") == [c];
      assert ReplaceChar([c], '(', "\\28") == [c];
    }
  }

  lemma {:induction false} ReplaceCharOfFree(s: String, c: char, r: String)
    requires c !in s
    ensures ReplaceChar(s, c, r) == s
    decreases |s|
  {
    if |s| > 0 {
      assert s[0] != c && c !in s[1..];
      ReplaceCharOfFree(s[1..], c, r);
      assert [s[0]] + s[1..] == s;
    }
  }

  /** Undoes the three escape sequences; every other character is kept. */
  function Unescape(s: String): String
    decreases |s|
  {
    if |s| == 0 then []
    else if StartsWith(s, "\\5c") then "\\" + Unescape(s[3..])
    else if StartsWith(s, "\\28") then "(" + Unescape(s[3..])
    else if StartsWith(s, "\\29") then ")" + Unescape(s[3..])
    else [s[0]] + Unescape(s[1..])
  }

  /** Decoding the escaped value returns the original value. */
  lemma {:induction false} UnescapeEscape(v: String)
    ensures Unescape(EscapeFilterValue(v)) == v
  {
    EscapeIsPerCharacter(v);
    UnescapeEach(v);
  }

  lemma {:induction false} UnescapeEach(v: String)
    ensures Unescape(EscapeEach(v)) == v
    decreases |v|
  {
    if |v| > 0 {
      var e, rest := EscapeChar(v[0]), EscapeEach(v[1..]);
      var s := e + rest;
      assert EscapeEach(v) == s;
      if v[0] == '\\' || v[0] == '(' || v[0] == ')' {
        assert s[..3] == e && s[3..] == rest;
      } else {
        assert s[0] == v[0] && s[1..] == rest;
        assert !StartsWith(s, "\\5c") && !StartsWith(s, "\\28") && !StartsWith(s, "\\29");
      }
      UnescapeEach(v[1..]);
      assert [v[0]] + v[1..] == v;
    }
  }

  /** No raw parenthesis, and every backslash starts `\5c`, `\28` or `\29`. */
  ghost predicate WellEscaped(s: String) {
    forall i :: 0 <= i < |s| ==>
      s[i] != '(' && s[i] != ')' &&
      (s[i] == '\\' ==> i + 3 <= |s| && s[i..i + 3] in {"\\5c", "\\28", "\\29"})
  }

  lemma WellEscapedAppend(a: String, b: String)
    requires WellEscaped(a) && WellEscaped(b)
    ensures WellEscaped(a + b)
  {
    var s := a + b;
    forall i | 0 <= i < |s| && s[i] == '\\'
      ensures i + 3 <= |s| && s[i..i + 3] in {"\\5c", "\\28", "\\29"}
    {
      if i < |a| {
        assert a[i] == '\\';
        assert s[i..i + 3] == a[i..i + 3];
      } else {
        assert b[i - |a|] == '\\';
        assert s[i..i + 3] == b[i - |a|..i - |a| + 3];
      }
    }
  }

  /** The output of escapeFilterValue is well escaped, whatever the input. */
  lemma {:induction false} EscapeIsWellEscaped(v: String)
    ensures WellEscaped(EscapeFilterValue(v))
  {
    EscapeIsPerCharacter(v);
    EachIsWellEscaped(v);
  }

  lemma {:induction false} EachIsWellEscaped(v: String)
    ensures WellEscaped(EscapeEach(v))
    decreases |v|
  {
    if |v| > 0 {
      var e := EscapeChar(v[0]);
      assert |e| == 3 ==> e[0..3] == e;
      assert WellEscaped(e);
      EachIsWellEscaped(v[1..]);
      WellEscapedAppend(e, EscapeEach(v[1..]));
    }
  }

  /** A value without backslash or parenthesis, the asterisk included, is
      passed through unchanged. */
  lemma {:induction false} EscapeKeepsPlainValue(v: String)
    requires '\\' !in v && '(' !in v && ')' !in v
    ensures EscapeFilterValue(v) == v
  {
    ReplaceCharOfFree(v, '\\', "\\5c");
    ReplaceCharOfFree(v, '(', "\\28");
    ReplaceCharOfFree(v, ')', "\\29");
  }

  // ---------------------------------------------------------- filter strings

  function Wrap(x: String): String {
    "(" + x + ")"
  }

  /** `(name=value)`. */
  function Clause(name: String, value: String): String {
    Wrap(name + "=" + value)
  }

  /** `(|(objectClass=S)(objectClass=D))`: static and dynamic groups alike. */
  function ObjectClassFilter(staticClass: String, dynamicClass: String): String {
    Wrap("|" + Clause("objectClass", staticClass) + Clause("objectClass", dynamicClass))
  }

  /** One clause per wildcard attribute, in list order. */
  function Clauses(attrs: seq<String>, value: String): String {
    if |attrs| == 0 then [] else Clauses(attrs[..|attrs| - 1], value) + Clause(attrs[|attrs| - 1], value)
  }

  /** The `*` criterion: nothing without a list, an OR only for two or more attributes. */
  function WildcardFilter(wildcards: Option<seq<String>>, value: String): String {
    match wildcards
    case None => []
    case Some(attrs) => if |attrs| > 1 then Wrap("|" + Clauses(attrs, value)) else Clauses(attrs, value)
  }

  /** The part of the filter one criterion contributes. */
  function CriterionFilter(name: String, value: String, wildcards: Option<seq<String>>): String {
    if name == "*" then WildcardFilter(wildcards, EscapeFilterValue(value))
    else Clause(name, EscapeFilterValue(value))
  }

  /** The criteria's contributions, in the order `order` visits their names. */
  function CriteriaFilter(criteria: map<String, String>, order: seq<String>, wildcards: Option<seq<String>>): String
  {
    if |order| == 0 then []
    else
      var k := order[|order| - 1];
      CriteriaFilter(criteria, order[..|order| - 1], wildcards) + CriterionPart(criteria, k, wildcards)
  }

  /** The part of the criterion named `k`; a name that is not a criterion adds nothing. */
  function CriterionPart(criteria: map<String, String>, k: String, wildcards: Option<seq<String>>): String {
    if k in criteria then CriterionFilter(k, criteria[k], wildcards) else []
  }

  /** The whole filter. */
  function GroupFilter(staticClass: String, dynamicClass: String, criteria: map<String, String>,
                       order: seq<String>, wildcards: Option<seq<String>>): String
  {
    var base := ObjectClassFilter(staticClass, dynamicClass);
    if |criteria| == 0 then base
    else "(&" + base + CriteriaFilter(criteria, order, wildcards) + ")"
  }

  /** The filter-building part of getGroups(ctx, Properties): the object-class
      disjunction, then, inside `(&…)`, one part per criterion, visited in an
      unspecified order, which is returned. */
  method BuildGroupFilter(staticClass: String, dynamicClass: String, criteria: map<String, String>,
                          wildcards: Option<seq<String>>)
    returns (filter: String, order: seq<String>)
    ensures IsEnumeration(order, criteria.Keys)
    ensures filter == GroupFilter(staticClass, dynamicClass, criteria, order, wildcards)
    ensures |criteria| == 0 ==> filter == ObjectClassFilter(staticClass, dynamicClass)
  {
    var base := ObjectClassFilter(staticClass, dynamicClass);
    var buf := base;
    order := [];
    if |criteria| > 0 {
      buf := "(&" + buf;
      buf, order := AppendCriteria(buf, criteria, wildcards);
      buf := buf + ")";
    }
    filter := buf;
  }

  /** The loop of getGroups over the criteria: appends each criterion's part
      to `prefix`, in an unspecified order, which is returned. */
  method AppendCriteria(prefix: String, criteria: map<String, String>, wildcards: Option<seq<String>>)
    returns (buf: String, order: seq<String>)
    ensures IsEnumeration(order, criteria.Keys)
    ensures buf == prefix + CriteriaFilter(criteria, order, wildcards)
  {
    order := Enumerate(criteria.Keys);
    buf := prefix;
    for i := 0 to |order|
      invariant buf == prefix + CriteriaFilter(criteria, order[..i], wildcards)
    {
      var name := order[i];
      assert name in order;
      var part := CriterionText(name, criteria[name], wildcards);
      AppendStep(prefix, buf, part, criteria, order, i, wildcards);
      buf := buf + part;
    }
    assert order[..|order|] == order;
  }

  lemma AppendStep(prefix: String, buf: String, part: String, criteria: map<String, String>,
                   order: seq<String>, i: int, wildcards: Option<seq<String>>)
    requires 0 <= i < |order| && order[i] in criteria
    requires buf == prefix + CriteriaFilter(criteria, order[..i], wildcards)
    requires part == CriterionFilter(order[i], criteria[order[i]], wildcards)
    ensures buf + part == prefix + CriteriaFilter(criteria, order[..i + 1], wildcards)
  {
    assert order[..i + 1] == order[..i] + [order[i]];
    CriteriaFilterSnoc(criteria, order[..i], order[i], wildcards);
    ConcatAssoc(prefix, CriteriaFilter(criteria, order[..i], wildcards), part);
  }

  /** CriteriaFilter over one more name. */
  lemma CriteriaFilterSnoc(criteria: map<String, String>, front: seq<String>, k: String,
                           wildcards: Option<seq<String>>)
    ensures CriteriaFilter(criteria, front + [k], wildcards) ==
      CriteriaFilter(criteria, front, wildcards) + CriterionPart(criteria, k, wildcards)
  {
    assert (front + [k])[..|front|] == front;
  }

  lemma ConcatAssoc(a: String, b: String, c: String)
    ensures (a + b) + c == a + (b + c)
  {
  }

  /** The text one criterion appends to the filter: `(name=value)`, or the
      wildcard expansion for `*`. */
  method CriterionText(name: String, rawValue: String, wildcards: Option<seq<String>>) returns (part: String)
    ensures part == CriterionFilter(name, rawValue, wildcards)
  {
    var value := EscapeFilterValue(rawValue);
    if name == "*" {
      part := WildcardPart(wildcards, value);
    } else {
      part := "(" + name + "=" + value + ")";
    }
  }

  /** The inner loop of getGroups for the `*` criterion. */
  method WildcardPart(wildcards: Option<seq<String>>, value: String) returns (part: String)
    ensures part == WildcardFilter(wildcards, value)
  {
    part := [];
    if wildcards.Some? {
      var attrs := wildcards.value;
      if |attrs| > 1 {
        part := "(|";
      }
      var j := 0;
      while j < |attrs|
        invariant 0 <= j <= |attrs|
        invariant part == (if |attrs| > 1 then "(|" else []) + Clauses(attrs[..j], value)
      {
        assert attrs[..j + 1][..j] == attrs[..j];
        part := part + "(" + attrs[j] + "=" + value + ")";
        j := j + 1;
      }
      assert attrs[..j] == attrs;
      if |attrs| > 1 {
        part := part + ")";
      }
    }
  }

  // ------------------------------------------------------------- well-formedness

  function Step(c: char): int {
    if c == '(' then 1 else if c == ')' then -1 else 0
  }

  /** Parenthesis depth after reading `s` from depth `d`. */
  function Final(s: String, d: int): int
    decreases |s|
  {
    if |s| == 0 then d else Final(s[1..], d + Step(s[0]))
  }

  /** Reading `s` from depth `d` never closes a parenthesis that is not open. */
  predicate Safe(s: String, d: int)
    decreases |s|
  {
    d >= 0 && (|s| == 0 || Safe(s[1..], d + Step(s[0])))
  }

  predicate Balanced(s: String) {
    Safe(s, 0) && Final(s, 0) == 0
  }

  /** A piece that, read from any depth, ends where it began and stays above it. */
  ghost predicate Neutral(s: String) {
    forall d :: d >= 0 ==> Safe(s, d) && Final(s, d) == d
  }

  predicate ParenFree(s: String) {
    '(' !in s && ')' !in s
  }

  lemma {:induction false} ConcatDepth(a: String, b: String, d: int)
    ensures Final(a + b, d) == Final(b, Final(a, d))
    ensures Safe(a + b, d) <==> Safe(a, d) && Safe(b, Final(a, d))
    decreases |a|
  {
    if |a| == 0 {
      assert a + b == b;
    } else {
      assert (a + b)[1..] == a[1..] + b;
      ConcatDepth(a[1..], b, d + Step(a[0]));
      if d >= 0 && Safe(a + b, d) {
        assert Safe(a[1..] + b, d + Step(a[0]));
      }
    }
  }

  lemma NeutralConcat(a: String, b: String)
    requires Neutral(a) && Neutral(b)
    ensures Neutral(a + b)
  {
    forall d | d >= 0 ensures Safe(a + b, d) && Final(a + b, d) == d {
      ConcatDepth(a, b, d);
    }
  }

  lemma {:induction false} ParenFreeDepth(s: String, d: int)
    requires ParenFree(s) && d >= 0
    ensures Safe(s, d) && Final(s, d) == d
    decreases |s|
  {
    if |s| > 0 {
      assert s[0] in s;
      assert forall c :: c in s[1..] ==> c in s;
      ParenFreeDepth(s[1..], d);
    }
  }

  lemma ParenFreeNeutral(s: String)
    requires ParenFree(s)
    ensures Neutral(s)
  {
    forall d | d >= 0 ensures Safe(s, d) && Final(s, d) == d {
      ParenFreeDepth(s, d);
    }
  }

  lemma WrapNeutral(x: String)
    requires Neutral(x)
    ensures Neutral(Wrap(x))
  {
    forall d | d >= 0 ensures Safe(Wrap(x), d) && Final(Wrap(x), d) == d {
      ConcatDepth("(" + x, ")", d);
      ConcatDepth("(", x, d);
      assert Safe(x, d + 1) && Final(x, d + 1) == d + 1;
      assert Final(")", d + 1) == d;
    }
  }

  lemma ParenFreeConcat(a: String, b: String)
    requires ParenFree(a) && ParenFree(b)
    ensures ParenFree(a + b)
  {
  }

  lemma WellEscapedParenFree(s: String)
    requires WellEscaped(s)
    ensures ParenFree(s)
  {
    forall i | 0 <= i < |s| ensures s[i] != '(' && s[i] != ')' {
    }
  }

  lemma ClauseNeutral(name: String, value: String)
    requires ParenFree(name) && ParenFree(value)
    ensures Neutral(Clause(name, value))
  {
    ParenFreeConcat(name, "=");
    ParenFreeConcat(name + "=", value);
    ParenFreeNeutral(name + "=" + value);
    WrapNeutral(name + "=" + value);
  }

  lemma {:induction false} ClausesNeutral(attrs: seq<String>, value: String)
    requires forall i :: 0 <= i < |attrs| ==> ParenFree(attrs[i])
    requires ParenFree(value)
    ensures Neutral(Clauses(attrs, value))
    decreases |attrs|
  {
    if |attrs| == 0 {
      ParenFreeNeutral([]);
    } else {
      ClausesNeutral(attrs[..|attrs| - 1], value);
      ClauseNeutral(attrs[|attrs| - 1], value);
      NeutralConcat(Clauses(attrs[..|attrs| - 1], value), Clause(attrs[|attrs| - 1], value));
    }
  }

  ghost predicate NamesParenFree(criteria: map<String, String>, wildcards: Option<seq<String>>) {
    (forall k :: k in criteria ==> ParenFree(k)) &&
    (wildcards.Some? ==> forall i :: 0 <= i < |wildcards.value| ==> ParenFree(wildcards.value[i]))
  }

  lemma CriterionNeutral(name: String, value: String, wildcards: Option<seq<String>>)
    requires ParenFree(name)
    requires wildcards.Some? ==> forall i :: 0 <= i < |wildcards.value| ==> ParenFree(wildcards.value[i])
    ensures Neutral(CriterionFilter(name, value, wildcards))
  {
    var e := EscapeFilterValue(value);
    EscapeIsWellEscaped(value);
    WellEscapedParenFree(e);
    if name == "*" {
      match wildcards
      case None => ParenFreeNeutral([]);
      case Some(attrs) =>
        ClausesNeutral(attrs, e);
        if |attrs| > 1 {
          ParenFreeNeutral("|");
          NeutralConcat("|", Clauses(attrs, e));
          WrapNeutral("|" + Clauses(attrs, e));
        }
    } else {
      ClauseNeutral(name, e);
    }
  }

  lemma {:induction false} CriteriaNeutral(criteria: map<String, String>, order: seq<String>,
                                           wildcards: Option<seq<String>>)
    requires NamesParenFree(criteria, wildcards)
    ensures Neutral(CriteriaFilter(criteria, order, wildcards))
    decreases |order|
  {
    if |order| == 0 {
      ParenFreeNeutral([]);
    } else {
      var k := order[|order| - 1];
      CriteriaNeutral(criteria, order[..|order| - 1], wildcards);
      if k in criteria {
        CriterionNeutral(k, criteria[k], wildcards);
      } else {
        ParenFreeNeutral([]);
      }
      NeutralConcat(CriteriaFilter(criteria, order[..|order| - 1], wildcards), CriterionPart(criteria, k, wildcards));
    }
  }

  /** Whatever the criteria values hold, the filter's parentheses balance, as
      long as the configured names themselves hold none: escaping keeps a value
      from closing or opening a filter component. */
  lemma FilterBalanced(staticClass: String, dynamicClass: String, criteria: map<String, String>,
                       order: seq<String>, wildcards: Option<seq<String>>)
    requires ParenFree(staticClass) && ParenFree(dynamicClass)
    requires NamesParenFree(criteria, wildcards)
    ensures Balanced(GroupFilter(staticClass, dynamicClass, criteria, order, wildcards))
  {
    ClauseNeutral("objectClass", staticClass);
    ClauseNeutral("objectClass", dynamicClass);
    ParenFreeNeutral("|");
    NeutralConcat("|", Clause("objectClass", staticClass));
    NeutralConcat("|" + Clause("objectClass", staticClass), Clause("objectClass", dynamicClass));
    var base := ObjectClassFilter(staticClass, dynamicClass);
    WrapNeutral("|" + Clause("objectClass", staticClass) + Clause("objectClass", dynamicClass));
    CriteriaNeutral(criteria, order, wildcards);
    var f := GroupFilter(staticClass, dynamicClass, criteria, order, wildcards);
    if |criteria| > 0 {
      var cf := CriteriaFilter(criteria, order, wildcards);
      ConcatDepth("(&", base, 0);
      ConcatDepth("(&" + base, cf, 0);
      ConcatDepth("(&" + base + cf, ")", 0);
      assert Final("(&", 0) == 1 && Safe("(&", 0);
      assert Final(")", 1) == 0 && Safe(")", 1);
    }
    assert Safe(f, 0) && Final(f, 0) == 0;
  }

  lemma {:induction false} CriteriaFilterSplit(criteria: map<String, String>, order: seq<String>,
                                               i: nat, wildcards: Option<seq<String>>)
    returns (suffix: String)
    requires i < |order|
    ensures CriteriaFilter(criteria, order, wildcards) ==
      CriteriaFilter(criteria, order[..i], wildcards) + CriterionPart(criteria, order[i], wildcards) + suffix
    decreases |order|
  {
    var n := |order|;
    var front := order[..n - 1];
    if i == n - 1 {
      assert front == order[..i];
      suffix := [];
    } else {
      var s' := CriteriaFilterSplit(criteria, front, i, wildcards);
      assert front[..i] == order[..i] && front[i] == order[i];
      var last := CriterionPart(criteria, order[n - 1], wildcards);
      assert CriteriaFilter(criteria, order, wildcards) == CriteriaFilter(criteria, front, wildcards) + last;
      suffix := s' + last;
      ConcatAssoc(CriteriaFilter(criteria, order[..i], wildcards) + CriterionPart(criteria, order[i], wildcards), s', last);
    }
  }

  /** Every ordinary criterion appears in the filter as `(name=escaped value)`,
      and a wildcard criterion as `(attr=escaped value)` for each wildcard attribute. */
  lemma CriterionInFilter(staticClass: String, dynamicClass: String, criteria: map<String, String>,
                          order: seq<String>, wildcards: Option<seq<String>>, name: String)
    requires name in order && name in criteria
    ensures name != "*" ==>
      Contains(GroupFilter(staticClass, dynamicClass, criteria, order, wildcards), Clause(name, EscapeFilterValue(criteria[name])))
    ensures name == "*" && wildcards.Some? ==> forall a :: a in wildcards.value ==>
      Contains(GroupFilter(staticClass, dynamicClass, criteria, order, wildcards), Clause(a, EscapeFilterValue(criteria[name])))
  {
    var i :| 0 <= i < |order| && order[i] == name;
    var suffix := CriteriaFilterSplit(criteria, order, i, wildcards);
    var pre := CriteriaFilter(criteria, order[..i], wildcards);
    var part := CriterionFilter(name, criteria[name], wildcards);
    var e := EscapeFilterValue(criteria[name]);
    var f := GroupFilter(staticClass, dynamicClass, criteria, order, wildcards);
    assert |criteria| > 0;
    var opening := GroupFilterOpening(staticClass, dynamicClass, criteria, order, wildcards);
    assert f == opening + (pre + part + suffix) + ")";
    if name != "*" {
      OccursSelf(part);
      ContainsNested(f, opening, pre, part, suffix, ")", Clause(name, e), 0);
    } else if wildcards.Some? {
      forall a | a in wildcards.value
        ensures Contains(f, Clause(a, e))
      {
        var j := WildcardOccurs(wildcards.value, e, a);
        ContainsNested(f, opening, pre, part, suffix, ")", Clause(a, e), j);
      }
    }
  }

  /** With criteria, the filter is the criteria filter between an opening and `)`. */
  lemma GroupFilterOpening(staticClass: String, dynamicClass: String, criteria: map<String, String>,
                           order: seq<String>, wildcards: Option<seq<String>>) returns (opening: String)
    requires |criteria| > 0
    ensures GroupFilter(staticClass, dynamicClass, criteria, order, wildcards)
            == opening + CriteriaFilter(criteria, order, wildcards) + ")"
  {
    opening := "(&" + ObjectClassFilter(staticClass, dynamicClass);
  }

  lemma WildcardOccurs(attrs: seq<String>, e: String, a: String) returns (j: int)
    requires a in attrs
    ensures OccursAt(WildcardFilter(Some(attrs), e), Clause(a, e), j)
  {
    var k :| 0 <= k < |attrs| && attrs[k] == a;
    var x, y := ClausesAround(attrs, e, k);
    OccursSelf(Clause(a, e));
    OccursPrepend(x, Clause(a, e), Clause(a, e), 0);
    OccursAppend(x + Clause(a, e), y, Clause(a, e), |x|);
    if |attrs| > 1 {
      OccursPrepend("|", Clauses(attrs, e), Clause(a, e), |x|);
      OccursPrepend("(", "|" + Clauses(attrs, e), Clause(a, e), 1 + |x|);
      OccursAppend("(" + ("|" + Clauses(attrs, e)), ")", Clause(a, e), 2 + |x|);
      assert WildcardFilter(Some(attrs), e) == "(" + ("|" + Clauses(attrs, e)) + ")";
      j := 2 + |x|;
    } else {
      j := |x|;
    }
  }

  lemma {:induction false} ClausesAround(attrs: seq<String>, value: String, k: nat) returns (x: String, y: String)
    requires k < |attrs|
    ensures Clauses(attrs, value) == x + Clause(attrs[k], value) + y
    decreases |attrs|
  {
    var n := |attrs|;
    if k == n - 1 {
      x, y := Clauses(attrs[..n - 1], value), [];
    } else {
      var x', y' := ClausesAround(attrs[..n - 1], value, k);
      x, y := x', y' + Clause(attrs[n - 1], value);
    }
  }

  // ------------------------------------------------------- criteria renaming

  /** mapJahiaPropertiesToLDAP's first loop: each mapping entry `k -> v`
      visited (in `order`) moves the criterion `k`, when present, to `v`. */
  function RenameAll(p: map<String, String>, mapping: map<String, String>, order: seq<String>): map<String, String>
  {
    if |order| == 0 then p
    else
      var q := RenameAll(p, mapping, order[..|order| - 1]);
      var k := order[|order| - 1];
      if k in q && k in mapping then (q - {k})[mapping[k] := q[k]] else q
  }

  /** The whole renaming: mapping entries, then `members` to the configured
      members attribute. */
  function RenameCriteria(p: map<String, String>, mapping: map<String, String>, order: seq<String>,
                          membersAttribute: String): map<String, String>
  {
    var q := RenameAll(p, mapping, order);
    if "members" in q then (q - {"members"})[membersAttribute := q["members"]] else q
  }

  /** mapJahiaPropertiesToLDAP, iterating the mapping in an unspecified order. */
  method MapJahiaPropertiesToLDAP(props: map<String, String>, mapping: map<String, String>, membersAttribute: String)
    returns (r: map<String, String>, order: seq<String>)
    ensures IsEnumeration(order, mapping.Keys)
    ensures r == RenameCriteria(props, mapping, order, membersAttribute)
  {
    r := props;
    order := [];
    var rest := mapping.Keys;
    while rest != {}
      invariant rest <= mapping.Keys
      invariant forall x :: x in order <==> x in mapping.Keys - rest
      invariant forall i, j :: 0 <= i < j < |order| ==> order[i] != order[j]
      invariant r == RenameAll(props, mapping, order)
      decreases |rest|
    {
      var k :| k in rest;
      assert k !in order;
      if k in r {
        var value := r[k];
        r := r - {k};
        r := r[mapping[k] := value];
      }
      assert (order + [k])[..|order|] == order;
      order := order + [k];
      rest := rest - {k};
    }
    if "members" in r {
      var value := r["members"];
      r := r - {"members"};
      r := r[membersAttribute := value];
    }
  }

  /** Renaming moves values and may drop them, but never invents one, and never
      grows the criteria. */
  lemma {:induction false} RenameKeepsValues(p: map<String, String>, mapping: map<String, String>,
                                             order: seq<String>, membersAttribute: String)
    ensures RenameCriteria(p, mapping, order, membersAttribute).Values <= p.Values
    ensures |RenameCriteria(p, mapping, order, membersAttribute)| <= |p|
  {
    RenameAllKeepsValues(p, mapping, order);
    var q := RenameAll(p, mapping, order);
    if "members" in q {
      MoveKeepsValues(q, "members", membersAttribute);
    }
  }

  lemma MoveKeepsValues(q: map<String, String>, k: String, v: String)
    requires k in q
    ensures (q - {k})[v := q[k]].Values <= q.Values
    ensures |(q - {k})[v := q[k]]| <= |q|
  {
    var r := (q - {k})[v := q[k]];
    forall x | x in r.Values ensures x in q.Values {
      var y :| y in r && r[y] == x;
    }
    assert r.Keys <= (q.Keys - {k}) + {v};
    assert |(q.Keys - {k}) + {v}| <= |q.Keys|;
    assert |r.Keys| <= |(q.Keys - {k}) + {v}| by { SubsetCard(r.Keys, (q.Keys - {k}) + {v}); }
  }

  lemma SubsetCard<T>(a: set<T>, b: set<T>)
    requires a <= b
    ensures |a| <= |b|
  {
    assert b == a + (b - a);
  }

  lemma {:induction false} RenameAllKeepsValues(p: map<String, String>, mapping: map<String, String>, order: seq<String>)
    ensures RenameAll(p, mapping, order).Values <= p.Values
    ensures |RenameAll(p, mapping, order)| <= |p|
    decreases |order|
  {
    if |order| > 0 {
      RenameAllKeepsValues(p, mapping, order[..|order| - 1]);
      var q := RenameAll(p, mapping, order[..|order| - 1]);
      var k := order[|order| - 1];
      if k in q && k in mapping {
        MoveKeepsValues(q, k, mapping[k]);
      }
    }
  }

  /** A criterion whose name takes no part in any renaming keeps its value. */
  lemma {:induction false} RenameLeavesOthers(p: map<String, String>, mapping: map<String, String>,
                                              order: seq<String>, membersAttribute: String, x: String)
    requires x !in mapping.Keys && x !in mapping.Values && x != "members" && x != membersAttribute
    ensures x in RenameCriteria(p, mapping, order, membersAttribute) <==> x in p
    ensures x in p ==> RenameCriteria(p, mapping, order, membersAttribute)[x] == p[x]
  {
    RenameAllLeavesOthers(p, mapping, order, x);
  }

  lemma {:induction false} RenameAllLeavesOthers(p: map<String, String>, mapping: map<String, String>,
                                                 order: seq<String>, x: String)
    requires x !in mapping.Keys && x !in mapping.Values
    ensures x in RenameAll(p, mapping, order) <==> x in p
    ensures x in p ==> RenameAll(p, mapping, order)[x] == p[x]
    decreases |order|
  {
    if |order| > 0 {
      var k := order[|order| - 1];
      if k in mapping {
        assert mapping[k] in mapping.Values;
      }
      RenameAllLeavesOthers(p, mapping, order[..|order| - 1], x);
    }
  }

  /** A criterion named by a mapping key `k` reaches the filter under its
      directory name `mapping[k]` with its value, and its own name is gone
      unless the table maps it to itself. This holds for any table walked in
      any order, provided no other entry renames to `k` or to `mapping[k]`, the
      directory name is not itself renamed later, and the `members` step does
      not touch either name. */
  lemma RenameMovesCriterion(p: map<String, String>, mapping: map<String, String>, order: seq<String>,
                             membersAttribute: String, k: String)
    requires IsEnumeration(order, mapping.Keys)
    requires k in p && k in mapping
    requires forall j :: j in mapping && j != k ==> mapping[j] != k && mapping[j] != mapping[k]
    requires mapping[k] == k || mapping[k] !in mapping
    requires mapping[k] != "members" && mapping[k] != membersAttribute && k != membersAttribute
    ensures var r := RenameCriteria(p, mapping, order, membersAttribute);
      mapping[k] in r && r[mapping[k]] == p[k] && (k in r <==> mapping[k] == k)
  {
    RenameAllMoves(p, mapping, order, k);
  }

  lemma {:induction false} RenameAllMoves(p: map<String, String>, mapping: map<String, String>,
                                          order: seq<String>, k: String)
    requires forall i, j :: 0 <= i < j < |order| ==> order[i] != order[j]
    requires forall i :: 0 <= i < |order| ==> order[i] in mapping
    requires k in p && k in mapping
    requires forall j :: j in mapping && j != k ==> mapping[j] != k && mapping[j] != mapping[k]
    requires mapping[k] == k || mapping[k] !in mapping
    ensures var q := RenameAll(p, mapping, order);
      if k in order then mapping[k] in q && q[mapping[k]] == p[k] && (k in q <==> mapping[k] == k)
      else k in q && q[k] == p[k]
    decreases |order|
  {
    if |order| > 0 {
      var n := |order|;
      var front := order[..n - 1];
      var last := order[n - 1];
      RenameAllMoves(p, mapping, front, k);
      if k in order && last != k {
        var i :| 0 <= i < n && order[i] == k;
        assert front[i] == k;
      }
      if last == k {
        assert forall i :: 0 <= i < n - 1 ==> front[i] != k;
      }
    }
  }
}
