// Word choices `{Hi|Hello}` in a template (apps/api/src/lib/spintax.ts): the rewriting the code does,
// and the choice each template means.
module Spintax {
  import opened JobIds

  // ----- Braces -----

  function Step(c: char): int {
    if c == '{' then 1 else if c == '}' then -1 else 0
  }

  // Braces opened less braces closed.
  function Height(s: string): int {
    if |s| == 0 then 0 else Height(s[..|s| - 1]) + Step(s[|s| - 1])
  }

  predicate NeverBelow(s: string) {
    forall i :: 0 <= i <= |s| ==> Height(s[..i]) >= 0
  }

  predicate Balanced(s: string) {
    NeverBelow(s) && Height(s) == 0
  }

  predicate BraceFree(s: string) {
    '{' !in s && '}' !in s
  }

  // No brace stands next to another of its kind, as in a merge field `{{firstName}}`.
  predicate NotDoubled(s: string) {
    forall i :: 0 <= i < |s| - 1 ==> !(s[i] == s[i + 1] == '{') && !(s[i] == s[i + 1] == '}')
  }

  lemma {:induction false} HeightSum(a: string, b: string)
    ensures Height(a + b) == Height(a) + Height(b)
    decreases |b|
  {
    if |b| == 0 {
      assert a + b == a;
    } else {
      assert (a + b)[..|a + b| - 1] == a + b[..|b| - 1];
      HeightSum(a, b[..|b| - 1]);
    }
  }

  lemma {:induction false} FreeIsFlat(s: string)
    requires BraceFree(s)
    ensures Height(s) == 0
  {
    if |s| > 0 {
      FreeIsFlat(s[..|s| - 1]);
    }
  }

  lemma HeightOne(c: char)
    ensures Height([c]) == Step(c)
  {
    assert [c][..0] == [];
  }

  // Of `a + b`, a prefix is one of `a`, or all of `a` and one of `b`.
  lemma PrefixHeight(a: string, b: string, i: nat)
    requires i <= |a + b|
    ensures i <= |a| ==> (a + b)[..i] == a[..i]
    ensures i >= |a| ==> Height((a + b)[..i]) == Height(a) + Height(b[..i - |a|])
  {
    if i >= |a| {
      assert (a + b)[..i] == a + b[..i - |a|];
      HeightSum(a, b[..i - |a|]);
    }
  }

  lemma BalancedSum(a: string, b: string)
    requires Balanced(a) && Balanced(b)
    ensures Balanced(a + b)
  {
    HeightSum(a, b);
    forall i | 0 <= i <= |a + b| ensures Height((a + b)[..i]) >= 0 {
      PrefixHeight(a, b, i);
    }
  }

  lemma FreeIsBalanced(s: string)
    requires BraceFree(s)
    ensures Balanced(s)
  {
    forall i | 0 <= i <= |s| ensures Height(s[..i]) >= 0 {
      FreeIsFlat(s[..i]);
    }
    FreeIsFlat(s);
  }

  lemma BalancedGroup(a: string)
    requires Balanced(a)
    ensures Balanced(['{'] + a + ['}'])
  {
    var s := ['{'] + a + ['}'];
    HeightOne('{');
    HeightOne('}');
    HeightSum(['{'], a);
    HeightSum(['{'] + a, ['}']);
    forall i | 0 <= i <= |s| ensures Height(s[..i]) >= 0 {
      if i == 0 {
      } else if i <= |a| + 1 {
        assert s[..i] == ['{'] + a[..i - 1];
        HeightSum(['{'], a[..i - 1]);
      } else {
        assert s[..i] == s;
      }
    }
  }

  // ----- assertBalanced -----

  datatype Result = Ok(text: string) | NotOpened | NotClosed | TooDeep

  method AssertBalanced(template: string) returns (error: Result)
    ensures error.Ok? <==> Balanced(template)
    ensures error.NotOpened? <==> !NeverBelow(template)
    ensures error == NotOpened || error == NotClosed || error == Ok(template)
  {
    var depth := 0;
    for i := 0 to |template|
      invariant depth == Height(template[..i]) && forall k :: 0 <= k <= i ==> Height(template[..k]) >= 0
    {
      assert template[..i + 1][..i] == template[..i];
      if template[i] == '{' {
        depth := depth + 1;
      }
      if template[i] == '}' {
        depth := depth - 1;
      }
      if depth < 0 {
        return NotOpened;
      }
    }
    assert template[..|template|] == template;
    return if depth != 0 then NotClosed else Ok(template);
  }

  // ----- One innermost group -----

  // `s[i..j + 1]` is a pair of braces with none between them.
  predicate Inner(s: string, i: int, j: int) {
    0 <= i < j < |s| && s[i] == '{' && s[j] == '}' && BraceFree(s[i + 1..j])
  }

  // And the group is one the code takes: not doubled on either side.
  predicate Group(s: string, i: int, j: int) {
    Inner(s, i, j) && (i > 0 ==> s[i - 1] != '{') && (j + 1 < |s| ==> s[j + 1] != '}')
  }

  // The leftmost group, as a regular-expression search finds it.
  method FindGroup(s: string) returns (found: bool, i: nat, j: nat)
    ensures found ==> Group(s, i, j) && forall a, b :: 0 <= a < i ==> !Group(s, a, b)
    ensures !found ==> forall a, b :: !Group(s, a, b)
  {
    i := 0;
    while i < |s|
      invariant i <= |s|
      invariant forall a, b :: 0 <= a < i ==> !Group(s, a, b)
    {
      if s[i] == '{' && (i == 0 || s[i - 1] != '{') {
        j := i + 1;
        while j < |s| && s[j] != '{' && s[j] != '}'
          invariant i < j <= |s| && BraceFree(s[i + 1..j])
        {
          assert s[i + 1..j + 1] == s[i + 1..j] + [s[j]];
          j := j + 1;
        }
        if j < |s| && s[j] == '}' && (j + 1 == |s| || s[j + 1] != '}') {
          return true, i, j;
        }
        forall b ensures !Group(s, i, b) {
          OneCloser(s, i, j, b);
        }
      }
      i := i + 1;
    }
    return false, 0, 0;
  }

  // The first brace after an opening one is the only one that can close it with none between.
  lemma OneCloser(s: string, i: nat, j: nat, b: int)
    requires i < j <= |s| && BraceFree(s[i + 1..j])
    requires j < |s| ==> s[j] == '{' || s[j] == '}'
    ensures Inner(s, i, b) ==> b == j && j < |s| && s[j] == '}'
  {
    FreeAt(s, i + 1, j);
    if Inner(s, i, b) {
      FreeAt(s, i + 1, b);
    }
  }

  lemma FreeAt(s: string, lo: nat, hi: nat)
    requires lo <= hi <= |s| && BraceFree(s[lo..hi])
    ensures forall k :: lo <= k < hi ==> s[k] != '{' && s[k] != '}'
  {
    assert forall k :: lo <= k < hi ==> s[k] == s[lo..hi][k - lo];
  }

  // ----- The rewriting keeps its shape -----

  function Replace(s: string, i: nat, j: nat, text: string): string
    requires i <= j < |s|
  {
    s[..i] + text + s[j + 1..]
  }

  lemma InnerHeight(s: string, i: nat, j: nat)
    requires Inner(s, i, j)
    ensures Height(s[i..j + 1]) == 0
    ensures s == s[..i] + s[i..j + 1] + s[j + 1..]
  {
    assert s[i..j + 1] == ['{'] + s[i + 1..j] + ['}'];
    FreeIsBalanced(s[i + 1..j]);
    BalancedGroup(s[i + 1..j]);
  }

  lemma ReplaceBalanced(s: string, i: nat, j: nat, text: string)
    requires Balanced(s) && Inner(s, i, j) && BraceFree(text)
    ensures Balanced(Replace(s, i, j, text))
  {
    InnerHeight(s, i, j);
    SwapFlat(s[..i], s[i..j + 1], text, s[j + 1..]);
  }

  // A part of height 0 can be swapped for a text without braces.
  lemma SwapFlat(a: string, g: string, text: string, b: string)
    requires Balanced(a + g + b) && Height(g) == 0 && BraceFree(text)
    ensures Balanced(a + text + b)
  {
    FreeIsFlat(text);
    HeightSum(a, g);
    HeightSum(a + g, b);
    HeightSum(a, text);
    HeightSum(a + text, b);
    forall k | 0 <= k <= |a + text + b| ensures Height((a + text + b)[..k]) >= 0 {
      SwapPrefix(a, g, text, b, k);
    }
  }

  lemma SwapPrefix(a: string, g: string, text: string, b: string, k: nat)
    requires NeverBelow(a + g + b) && Height(g) == 0 && BraceFree(text) && k <= |a + text + b|
    ensures Height((a + text + b)[..k]) >= 0
  {
    if k <= |a| {
      assert (a + text + b)[..k] == (a + g + b)[..k];
    } else if k <= |a + text| {
      assert (a + text + b)[..k] == a + text[..k - |a|];
      HeightSum(a, text[..k - |a|]);
      FreeIsFlat(text[..k - |a|]);
      assert (a + g + b)[..|a|] == a;
    } else {
      var n := k - |a + text|;
      PrefixHeight(a + text, b, k);
      PrefixHeight(a + g, b, |a + g| + n);
      HeightSum(a, text);
      HeightSum(a, g);
      FreeIsFlat(text);
    }
  }

  // Even an empty option leaves no two braces of a kind side by side.
  lemma ReplaceNotDoubled(s: string, i: nat, j: nat, text: string)
    requires NotDoubled(s) && Group(s, i, j) && BraceFree(text)
    ensures NotDoubled(Replace(s, i, j, text))
  {
    var r := Replace(s, i, j, text);
    forall k | 0 <= k < |r| - 1 ensures !(r[k] == r[k + 1] == '{') && !(r[k] == r[k + 1] == '}') {
      var shift := j + 1 - i - |text|;
      if k + 1 < i {
        assert r[k] == s[k] && r[k + 1] == s[k + 1];
      } else if k >= i + |text| {
        assert r[k] == s[k + shift] && r[k + 1] == s[k + shift + 1];
      } else if k >= i {
        assert r[k] == text[k - i];
      } else if |text| > 0 {
        assert r[k + 1] == text[0];
      } else {
        assert r[k] == s[i - 1] && r[k + 1] == s[j + 1];
      }
    }
  }

  function Opens(s: string): nat {
    if |s| == 0 then 0 else Opens(s[..|s| - 1]) + if s[|s| - 1] == '{' then 1 else 0
  }

  lemma {:induction false} OpensSum(a: string, b: string)
    ensures Opens(a + b) == Opens(a) + Opens(b)
    decreases |b|
  {
    if |b| == 0 {
      assert a + b == a;
    } else {
      assert (a + b)[..|a + b| - 1] == a + b[..|b| - 1];
      OpensSum(a, b[..|b| - 1]);
    }
  }

  lemma {:induction false} OpensBound(s: string)
    ensures Opens(s) <= |s|
    ensures '{' !in s ==> Opens(s) == 0
  {
    if |s| > 0 {
      OpensBound(s[..|s| - 1]);
    }
  }

  // Each rewriting uses up one opening brace.
  lemma ReplaceUsesOne(s: string, i: nat, j: nat, text: string)
    requires Inner(s, i, j) && BraceFree(text)
    ensures Opens(Replace(s, i, j, text)) == Opens(s) - 1
  {
    var a, m, b := s[..i], s[i + 1..j], s[j + 1..];
    assert s == a + (['{'] + (m + (['}'] + b)));
    OpensSum(a, ['{'] + (m + (['}'] + b)));
    OpensSum(['{'], m + (['}'] + b));
    OpensSum(m, ['}'] + b);
    OpensSum(['}'], b);
    assert ['{'][..0] == [] && ['}'][..0] == [];
    assert Opens(['{']) == 1 && Opens(['}']) == 0;
    OpensSum(a + text, b);
    OpensSum(a, text);
    OpensBound(m);
    OpensBound(text);
  }

  // While a balanced, undoubled text has a brace, there is a group to take.
  lemma BraceMeansGroup(s: string) returns (i: nat, j: nat)
    requires Balanced(s) && NotDoubled(s) && !BraceFree(s)
    ensures Group(s, i, j)
  {
    j := FirstClose(s);
    i := LastOpen(s, j);
  }

  lemma FirstClose(s: string) returns (j: nat)
    requires Balanced(s) && !BraceFree(s)
    ensures j < |s| && s[j] == '}' && '}' !in s[..j] && '{' in s[..j]
  {
    j := 0;
    while j < |s| && s[j] != '}'
      invariant j <= |s| && '}' !in s[..j]
    {
      assert s[..j + 1] == s[..j] + [s[j]];
      j := j + 1;
    }
    if j == |s| {
      assert s[..j] == s;
      NoCloseHeight(s);
    } else {
      assert s[..j + 1] == s[..j] + ['}'];
      HeightSum(s[..j], ['}']);
      HeightOne('}');
      NoCloseHeight(s[..j]);
    }
  }

  lemma {:induction false} NoCloseHeight(s: string)
    requires '}' !in s
    ensures Height(s) == Opens(s)
    ensures Opens(s) == 0 <==> '{' !in s
  {
    if |s| > 0 {
      NoCloseHeight(s[..|s| - 1]);
      assert s == s[..|s| - 1] + [s[|s| - 1]];
    }
  }

  lemma LastOpen(s: string, j: nat) returns (i: nat)
    requires j < |s| && s[j] == '}' && '}' !in s[..j] && '{' in s[..j]
    ensures Inner(s, i, j)
  {
    var k := j;
    while s[k - 1] != '{'
      invariant 0 < k <= j && BraceFree(s[k..j]) && '{' in s[..k]
      decreases k
    {
      assert s[k - 1..j] == [s[k - 1]] + s[k..j];
      assert s[..k] == s[..k - 1] + [s[k - 1]];
      assert s[k - 1] == s[..j][k - 1];
      k := k - 1;
    }
    i := k - 1;
  }
}

// What a template means: each group stands for one of its options, chosen on its own, options within
// options included. Rewriting innermost groups first gives exactly one of those texts.
module SpintaxMeaning {
  import opened JobIds
  import opened Spintax

  // A template as the reader sees it: characters and groups of options.
  datatype Tpl = End | Char(c: char, rest: Tpl) | Group_(opts: Opts, rest: Tpl)
  datatype Opts = One(t: Tpl) | More(t: Tpl, others: Opts)

  function Show(t: Tpl): string {
    match t
    case End => []
    case Char(c, rest) => [c] + Show(rest)
    case Group_(opts, rest) => (['{'] + ShowOpts(opts) + ['}']) + Show(rest)
  }

  function ShowOpts(o: Opts): string {
    match o
    case One(t) => Show(t)
    case More(t, others) => Show(t) + ['|'] + ShowOpts(others)
  }

  // Characters are no braces, and inside a group no bars.
  predicate Plain(t: Tpl, inside: bool) {
    match t
    case End => true
    case Char(c, rest) => c != '{' && c != '}' && (inside ==> c != '|') && Plain(rest, inside)
    case Group_(opts, rest) => PlainOpts(opts) && Plain(rest, inside)
  }

  predicate PlainOpts(o: Opts) {
    match o
    case One(t) => Plain(t, true)
    case More(t, others) => Plain(t, true) && PlainOpts(others)
  }

  // `text` is one of the texts the template stands for.
  ghost predicate Yields(t: Tpl, text: string) {
    match t
    case End => text == []
    case Char(c, rest) => |text| > 0 && text[0] == c && Yields(rest, text[1..])
    case Group_(opts, rest) =>
      exists n :: 0 <= n <= |text| && YieldsOpts(opts, text[..n]) && Yields(rest, text[n..])
  }

  ghost predicate YieldsOpts(o: Opts, text: string) {
    match o
    case One(t) => Yields(t, text)
    case More(t, others) => Yields(t, text) || YieldsOpts(others, text)
  }

  // ----- Shown templates are balanced -----

  lemma {:induction false} ShowBalanced(t: Tpl, inside: bool)
    requires Plain(t, inside)
    ensures Balanced(Show(t))
  {
    match t
    case End =>
    case Char(c, rest) =>
      ShowBalanced(rest, inside);
      FreeIsBalanced([c]);
      BalancedSum([c], Show(rest));
    case Group_(opts, rest) =>
      ShowOptsBalanced(opts);
      ShowBalanced(rest, inside);
      BalancedGroup(ShowOpts(opts));
      BalancedSum(['{'] + ShowOpts(opts) + ['}'], Show(rest));
  }

  lemma {:induction false} ShowOptsBalanced(o: Opts)
    requires PlainOpts(o)
    ensures Balanced(ShowOpts(o))
  {
    match o
    case One(t) => ShowBalanced(t, true);
    case More(t, others) =>
      ShowBalanced(t, true);
      ShowOptsBalanced(others);
      FreeIsBalanced(['|']);
      BalancedSum(Show(t), ['|']);
      BalancedSum(Show(t) + ['|'], ShowOpts(others));
  }

  // A balanced text has a brace after each `{`.
  lemma Unclosed(a: string, i: int)
    requires 0 <= i < |a| && a[i] == '{' && forall k :: i < k < |a| ==> a[k] != '{' && a[k] != '}'
    ensures !Balanced(a)
  {
    var tail := a[i + 1..];
    assert a == a[..i] + (['{'] + tail);
    HeightSum(a[..i], ['{'] + tail);
    HeightSum(['{'], tail);
    HeightOne('{');
    FreeIsFlat(tail);
  }

  // A pair of braces with none between that opens in a balanced part closes in it.
  lemma ClosesInside(a: string, b: string, i: int, j: int)
    requires Balanced(a) && Inner(a + b, i, j) && i < |a|
    ensures j < |a| && Inner(a, i, j)
  {
    if j >= |a| {
      FreeAt(a + b, i + 1, j);
      assert forall k :: i < k < |a| ==> a[k] == (a + b)[k];
      Unclosed(a, i);
    }
    assert (a + b)[i + 1..j] == a[i + 1..j];
  }

  lemma GroupHasBrace(o: Opts, rest: Tpl)
    ensures '{' in Show(Group_(o, rest))
  {
    assert Show(Group_(o, rest))[0] == '{';
  }

  // A balanced text opens before it closes: with `}` its first brace after an outer `{`, it has none.
  lemma FirstBraceCloses(x: string, b: string, j: int)
    requires Balanced(x) && Inner(['{'] + x + ['}'] + b, 0, j)
    ensures BraceFree(x) && j == |x| + 1
  {
    var s := ['{'] + x + ['}'] + b;
    FreeAt(s, 1, j);
    if j <= |x| {
      var init := x[..j - 1];
      assert BraceFree(init) by {
        assert forall k :: 0 <= k < |init| ==> init[k] == s[1 + k];
      }
      assert x[..j] == init + ['}'];
      HeightSum(init, ['}']);
      HeightOne('}');
      FreeIsFlat(init);
      assert false;
    }
    assert s[|x| + 1] == '}';
    assert forall k :: 0 <= k < |x| ==> x[k] == s[1 + k];
  }

  // ----- A group without groups inside -----

  function Append(a: Tpl, b: Tpl): Tpl {
    match a
    case End => b
    case Char(c, rest) => Char(c, Append(rest, b))
    case Group_(opts, rest) => Group_(opts, Append(rest, b))
  }

  lemma {:induction false} AppendShows(a: Tpl, b: Tpl, inside: bool)
    requires Plain(a, inside) && Plain(b, inside)
    ensures Show(Append(a, b)) == Show(a) + Show(b) && Plain(Append(a, b), inside)
  {
    match a
    case End => assert Show(a) + Show(b) == Show(b);
    case Char(c, rest) =>
      AppendShows(rest, b, inside);
      assert [c] + (Show(rest) + Show(b)) == [c] + Show(rest) + Show(b);
    case Group_(opts, rest) =>
      AppendShows(rest, b, inside);
      var g := ['{'] + ShowOpts(opts) + ['}'];
      assert g + (Show(rest) + Show(b)) == g + Show(rest) + Show(b);
  }

  // A text without groups stands for itself.
  lemma {:induction false} FreeYieldsItself(t: Tpl, text: string)
    requires BraceFree(Show(t))
    ensures Yields(t, text) <==> text == Show(t)
  {
    match t
    case End =>
    case Char(c, rest) =>
      assert forall x :: x in Show(rest) ==> x in Show(t);
      if |text| > 0 {
        FreeYieldsItself(rest, text[1..]);
        assert text == [text[0]] + text[1..];
      }
    case Group_(opts, rest) => GroupHasBrace(opts, rest);
  }

  lemma {:induction false} FreeAppendYields(a: Tpl, b: Tpl, text: string)
    requires BraceFree(Show(a))
    ensures Yields(Append(a, b), text) <==> |Show(a)| <= |text| && text[..|Show(a)|] == Show(a) && Yields(b, text[|Show(a)|..])
  {
    match a
    case End => assert text[0..] == text;
    case Char(c, rest) =>
      assert forall x :: x in Show(rest) ==> x in Show(a);
      if |text| > 0 {
        FreeAppendYields(rest, b, text[1..]);
        var n := |Show(rest)|;
        if n + 1 <= |text| {
          assert text[1..][..n] == text[..n + 1][1..] && text[1..][n..] == text[n + 1..];
          assert text[..n + 1] == [text[0]] + text[1..][..n];
        }
      }
    case Group_(opts, rest) => GroupHasBrace(opts, rest);
  }

  function OptionCount(o: Opts): nat {
    match o
    case One(_) => 1
    case More(_, others) => 1 + OptionCount(others)
  }

  function Option_(o: Opts, k: nat): Tpl
    requires k < OptionCount(o)
  {
    match o
    case One(t) => t
    case More(t, others) => if k == 0 then t else Option_(others, k - 1)
  }

  lemma {:induction false} PlainHasNoBar(t: Tpl)
    requires Plain(t, true) && BraceFree(Show(t))
    ensures '|' !in Show(t)
  {
    match t
    case End =>
    case Char(c, rest) =>
      assert forall x :: x in Show(rest) ==> x in Show(t);
      PlainHasNoBar(rest);
    case Group_(opts, rest) => GroupHasBrace(opts, rest);
  }

  // Splitting a group's text at its bars gives its options, in order.
  lemma {:induction false} SplitIsOptions(o: Opts)
    requires PlainOpts(o) && BraceFree(ShowOpts(o))
    ensures |Split(ShowOpts(o), '|')| == OptionCount(o)
    ensures forall k :: 0 <= k < OptionCount(o) ==>
      Split(ShowOpts(o), '|')[k] == Show(Option_(o, k)) && Plain(Option_(o, k), true)
  {
    match o
    case One(t) => PlainHasNoBar(t);
    case More(t, others) =>
      hide Split, BraceFree, Show;
      FreeInParts(t, others);
      PlainHasNoBar(t);
      SplitAtSep(Show(t), ShowOpts(others), '|');
      SplitIsOptions(others);
  }

  lemma FreeInParts(t: Tpl, others: Opts)
    requires BraceFree(ShowOpts(More(t, others)))
    ensures BraceFree(Show(t)) && BraceFree(ShowOpts(others))
  {
    assert forall x :: x in Show(t) || x in ShowOpts(others) ==> x in ShowOpts(More(t, others));
  }

  lemma {:induction false} OptionAmong(o: Opts, k: nat, text: string)
    requires k < OptionCount(o) && Yields(Option_(o, k), text)
    ensures YieldsOpts(o, text)
  {
    match o
    case One(t) =>
    case More(t, others) =>
      if k > 0 {
        OptionAmong(others, k - 1, text);
      }
  }

  lemma {:induction false} SomeOption(o: Opts, text: string) returns (k: nat)
    requires YieldsOpts(o, text)
    ensures k < OptionCount(o) && Yields(Option_(o, k), text)
  {
    match o
    case One(t) => k := 0;
    case More(t, others) =>
      if Yields(t, text) {
        k := 0;
      } else {
        var n := SomeOption(others, text);
        k := n + 1;
      }
  }

  // ----- One rewriting -----

  // `narrow` stands for some of the texts `wide` stands for.
  ghost predicate Narrower(narrow: Tpl, wide: Tpl) {
    forall text :: Yields(narrow, text) ==> Yields(wide, text)
  }

  ghost predicate NarrowerOpts(narrow: Opts, wide: Opts) {
    forall text :: YieldsOpts(narrow, text) ==> YieldsOpts(wide, text)
  }

  function Chosen(s: string, i: nat, j: nat, k: nat): string
    requires i < j < |s| && k < |Split(s[i + 1..j], '|')|
  {
    Split(s[i + 1..j], '|')[k]
  }

  // The template with the group at position `i` of its text replaced by its option `k`.
  function Rewritten(t: Tpl, i: int, k: nat): Tpl {
    match t
    case End => End
    case Char(c, rest) => Char(c, Rewritten(rest, i - 1, k))
    case Group_(o, rest) =>
      var n := |ShowOpts(o)| + 2;
      if i == 0 then (if k < OptionCount(o) then Append(Option_(o, k), rest) else t)
      else if i < n then Group_(RewrittenOpts(o, i - 1, k), rest)
      else Group_(o, Rewritten(rest, i - n, k))
  }

  function RewrittenOpts(o: Opts, i: int, k: nat): Opts {
    match o
    case One(t) => One(Rewritten(t, i, k))
    case More(t, others) =>
      if i < |Show(t)| then More(Rewritten(t, i, k), others)
      else More(t, RewrittenOpts(others, i - |Show(t)| - 1, k))
  }

  // How many options the group at position `i` has, when there is one with no group inside.
  function OptionsAt(t: Tpl, i: int): nat {
    match t
    case End => 0
    case Char(c, rest) => OptionsAt(rest, i - 1)
    case Group_(o, rest) =>
      var n := |ShowOpts(o)| + 2;
      if i == 0 then (if BraceFree(ShowOpts(o)) then OptionCount(o) else 0)
      else if i < n then OptionsAtOpts(o, i - 1)
      else OptionsAt(rest, i - n)
  }

  function OptionsAtOpts(o: Opts, i: int): nat {
    match o
    case One(t) => OptionsAt(t, i)
    case More(t, others) =>
      if i < |Show(t)| then OptionsAt(t, i) else OptionsAtOpts(others, i - |Show(t)| - 1)
  }

  // A group in the second part of a text.
  lemma ChosenAfter(a: string, b: string, i: int, j: int, k: nat)
    requires Inner(a + b, i, j) && i >= |a| && k < |Split((a + b)[i + 1..j], '|')|
    ensures Inner(b, i - |a|, j - |a|) && k < |Split(b[i - |a| + 1..j - |a|], '|')|
    ensures b[i - |a| + 1..j - |a|] == (a + b)[i + 1..j]
    ensures Replace(a + b, i, j, Chosen(a + b, i, j, k)) ==
      a + Replace(b, i - |a|, j - |a|, Chosen(b, i - |a|, j - |a|, k))
  {
    hide Split;
    assert b[i - |a| + 1..j - |a|] == (a + b)[i + 1..j];
    assert (a + b)[..i] == a + b[..i - |a|];
    assert (a + b)[j + 1..] == b[j - |a| + 1..];
  }

  // A group in a balanced first part.
  lemma ChosenBefore(a: string, b: string, i: int, j: int, k: nat)
    requires Balanced(a) && Inner(a + b, i, j) && i < |a| && k < |Split((a + b)[i + 1..j], '|')|
    ensures Inner(a, i, j) && k < |Split(a[i + 1..j], '|')|
    ensures a[i + 1..j] == (a + b)[i + 1..j]
    ensures Replace(a + b, i, j, Chosen(a + b, i, j, k)) == Replace(a, i, j, Chosen(a, i, j, k)) + b
  {
    hide Split, Height;
    ClosesInside(a, b, i, j);
    assert a[i + 1..j] == (a + b)[i + 1..j];
    assert (a + b)[..i] == a[..i];
    assert (a + b)[j + 1..] == a[j + 1..] + b;
  }

  // What rewriting the group at `i` with option `k` must come to.
  ghost predicate RewrittenOk(t: Tpl, inside: bool, i: int, j: int, k: nat)
    requires Inner(Show(t), i, j) && k < |Split(Show(t)[i + 1..j], '|')|
  {
    && Plain(Rewritten(t, i, k), inside) && Narrower(Rewritten(t, i, k), t)
    && Show(Rewritten(t, i, k)) == Replace(Show(t), i, j, Chosen(Show(t), i, j, k))
    && OptionsAt(t, i) == |Split(Show(t)[i + 1..j], '|')|
  }

  // The group at the front of a template.
  lemma RewriteHere(o: Opts, rest: Tpl, inside: bool, j: int, k: nat)
    requires Plain(Group_(o, rest), inside) && Inner(Show(Group_(o, rest)), 0, j)
    requires k < |Split(Show(Group_(o, rest))[1..j], '|')|
    ensures RewrittenOk(Group_(o, rest), inside, 0, j, k)
  {
    hide Yields, YieldsOpts, Narrower, Split, Height, Append, Show, ShowOpts, Option_, Replace;
    PlainGroup(o, rest, inside);
    FrontGroup(o, rest, inside, j);
    SplitIsOptions(o);
    var a := Option_(o, k);
    PlainEither(a, inside);
    AppendShows(a, rest, inside);
    ReplaceFront(Show(Group_(o, rest)), j, Show(a), Show(rest));
    NarrowerHere(o, rest, k);
  }

  lemma PlainGroup(o: Opts, rest: Tpl, inside: bool)
    requires Plain(Group_(o, rest), inside)
    ensures PlainOpts(o) && Plain(rest, inside)
  {
  }

  lemma ReplaceFront(s: string, j: nat, text: string, rest: string)
    requires j < |s| && s[j + 1..] == rest
    ensures Replace(s, 0, j, text) == text + rest
  {
    assert s[..0] + text + rest == text + rest;
  }


  lemma FrontGroup(o: Opts, rest: Tpl, inside: bool, j: int)
    requires Plain(Group_(o, rest), inside) && Inner(Show(Group_(o, rest)), 0, j)
    ensures Show(Group_(o, rest))[1..j] == ShowOpts(o) && BraceFree(ShowOpts(o))
    ensures Show(Group_(o, rest))[j + 1..] == Show(rest)
  {
    ShowOptsBalanced(o);
    FirstBraceCloses(ShowOpts(o), Show(rest), j);
  }

  lemma NarrowerHere(o: Opts, rest: Tpl, k: nat)
    requires BraceFree(ShowOpts(o)) && k < OptionCount(o)
    ensures Narrower(Append(Option_(o, k), rest), Group_(o, rest))
  {
    var a := Option_(o, k);
    OptionIsFree(o, k);
    forall text | Yields(Append(a, rest), text) ensures Yields(Group_(o, rest), text) {
      FreeAppendYields(a, rest, text);
      var n := |Show(a)|;
      FreeYieldsItself(a, text[..n]);
      OptionAmong(o, k, text[..n]);
      assert YieldsOpts(o, text[..n]) && Yields(rest, text[n..]);
    }
  }

  lemma {:induction false} PlainEither(t: Tpl, inside: bool)
    requires Plain(t, true)
    ensures Plain(t, inside)
  {
    match t
    case End =>
    case Char(_, rest) => PlainEither(rest, inside);
    case Group_(_, rest) => PlainEither(rest, inside);
  }

  lemma {:induction false} OptionIsFree(o: Opts, k: nat)
    requires BraceFree(ShowOpts(o)) && k < OptionCount(o)
    ensures BraceFree(Show(Option_(o, k)))
  {
    match o
    case One(t) =>
    case More(t, others) =>
      assert forall x :: x in Show(t) || x in ShowOpts(others) ==> x in ShowOpts(o);
      if k > 0 {
        OptionIsFree(others, k - 1);
      }
  }

  lemma NarrowerChar(c: char, narrow: Tpl, wide: Tpl)
    requires Narrower(narrow, wide)
    ensures Narrower(Char(c, narrow), Char(c, wide))
  {
  }

  lemma NarrowerRest(o: Opts, narrow: Tpl, wide: Tpl)
    requires Narrower(narrow, wide)
    ensures Narrower(Group_(o, narrow), Group_(o, wide))
  {
    forall text | Yields(Group_(o, narrow), text) ensures Yields(Group_(o, wide), text) {
      var n :| 0 <= n <= |text| && YieldsOpts(o, text[..n]) && Yields(narrow, text[n..]);
      assert Yields(wide, text[n..]);
    }
  }

  lemma NarrowerGroup(narrow: Opts, wide: Opts, rest: Tpl)
    requires NarrowerOpts(narrow, wide)
    ensures Narrower(Group_(narrow, rest), Group_(wide, rest))
  {
    forall text | Yields(Group_(narrow, rest), text) ensures Yields(Group_(wide, rest), text) {
      var n :| 0 <= n <= |text| && YieldsOpts(narrow, text[..n]) && Yields(rest, text[n..]);
      assert YieldsOpts(wide, text[..n]);
    }
  }

  lemma NarrowerOption(first: Tpl, first': Tpl, others: Opts, others': Opts)
    requires Narrower(first', first) && NarrowerOpts(others', others)
    ensures NarrowerOpts(More(first', others'), More(first, others)) && NarrowerOpts(One(first'), One(first))
  {
  }

  lemma NarrowerSelf(t: Tpl, o: Opts)
    ensures Narrower(t, t) && NarrowerOpts(o, o)
  {
  }

  // A template with one innermost group replaced by one of its options, as the code replaces it.
  lemma {:induction false} Rewrite(t: Tpl, inside: bool, i: int, j: int, k: nat)
    requires Plain(t, inside) && Inner(Show(t), i, j) && k < |Split(Show(t)[i + 1..j], '|')|
    ensures RewrittenOk(t, inside, i, j, k)
    decreases t, 0
  {
    hide Yields, YieldsOpts, Narrower, Split, Replace, Chosen, Height, Plain, RewrittenOk, ShowOpts, BraceFree;
    match t
    case End =>
    case Char(c, rest) => RewriteChar(c, rest, inside, i, j, k);
    case Group_(opts, rest) =>
      if i == 0 {
        RewriteHere(opts, rest, inside, j, k);
      } else if i < |ShowOpts(opts)| + 2 {
        RewriteInside(opts, rest, inside, i, j, k);
      } else {
        RewriteBeyond(opts, rest, inside, i, j, k);
      }
  }

  // After a character at the front, which is no brace.
  lemma {:induction false} RewriteChar(c: char, rest: Tpl, inside: bool, i: int, j: int, k: nat)
    requires Plain(Char(c, rest), inside) && Inner(Show(Char(c, rest)), i, j)
    requires k < |Split(Show(Char(c, rest))[i + 1..j], '|')|
    ensures RewrittenOk(Char(c, rest), inside, i, j, k)
    decreases rest, 1
  {
    hide Yields, YieldsOpts, Narrower, Split, Replace, Chosen, Height;
    ChosenAfter([c], Show(rest), i, j, k);
    Rewrite(rest, inside, i - 1, j - 1, k);
    NarrowerChar(c, Rewritten(rest, i - 1, k), rest);
  }

  // After the group at the front.
  lemma {:induction false} RewriteBeyond(o: Opts, rest: Tpl, inside: bool, i: int, j: int, k: nat)
    requires Plain(Group_(o, rest), inside) && Inner(Show(Group_(o, rest)), i, j)
    requires i >= |ShowOpts(o)| + 2
    requires k < |Split(Show(Group_(o, rest))[i + 1..j], '|')|
    ensures RewrittenOk(Group_(o, rest), inside, i, j, k)
    decreases rest, 1
  {
    hide Yields, YieldsOpts, Narrower, Split, Replace, Chosen, Height;
    var g := ['{'] + ShowOpts(o) + ['}'];
    ChosenAfter(g, Show(rest), i, j, k);
    Rewrite(rest, inside, i - |g|, j - |g|, k);
    NarrowerRest(o, Rewritten(rest, i - |g|, k), rest);
  }

  // Inside the options of the group at the front.
  lemma {:induction false} RewriteInside(o: Opts, rest: Tpl, inside: bool, i: int, j: int, k: nat)
    requires Plain(Group_(o, rest), inside) && Inner(Show(Group_(o, rest)), i, j)
    requires 0 < i < |ShowOpts(o)| + 2
    requires k < |Split(Show(Group_(o, rest))[i + 1..j], '|')|
    ensures RewrittenOk(Group_(o, rest), inside, i, j, k)
    decreases o, 1
  {
    hide Yields, YieldsOpts, Narrower, NarrowerOpts, Split, Replace, Chosen, Show, ShowOpts, Plain, PlainOpts, RewrittenOk;
    var s, x := Show(Group_(o, rest)), ShowOpts(o);
    GroupText(o, rest, inside);
    InsideText(s, x, Show(rest), i, j, k);
    RewriteOpts(o, i - 1, j - 1, k);
    InsideOk(o, rest, inside, s, i, j, k, Replace(x, i - 1, j - 1, Chosen(x, i - 1, j - 1, k)));
  }

  lemma GroupText(o: Opts, rest: Tpl, inside: bool)
    requires Plain(Group_(o, rest), inside)
    ensures Show(Group_(o, rest)) == ['{'] + (ShowOpts(o) + (['}'] + Show(rest)))
    ensures PlainOpts(o) && Balanced(ShowOpts(o))
  {
    ShowOptsBalanced(o);
  }

  // The text of a group, with the text inside its braces rewritten.
  lemma InsideText(s: string, x: string, rest: string, i: int, j: int, k: nat)
    requires s == ['{'] + (x + (['}'] + rest)) && Balanced(x)
    requires Inner(s, i, j) && 0 < i < |x| + 2 && k < |Split(s[i + 1..j], '|')|
    ensures Inner(x, i - 1, j - 1) && x[i..j - 1] == s[i + 1..j]
    ensures Replace(s, i, j, Chosen(s, i, j, k))
      == ['{'] + (Replace(x, i - 1, j - 1, Chosen(x, i - 1, j - 1, k)) + (['}'] + rest))
  {
    hide Split, Replace, Chosen, Height, Balanced, BraceFree;
    var tail := ['}'] + rest;
    assert i <= |x| by {
      assert s[|x| + 1] == '}';
    }
    ChosenAfter(['{'], x + tail, i, j, k);
    ChosenBefore(x, tail, i - 1, j - 1, k);
  }

  lemma InsideOk(o: Opts, rest: Tpl, inside: bool, s: string, i: int, j: int, k: nat, text: string)
    requires Plain(Group_(o, rest), inside) && s == Show(Group_(o, rest))
    requires Inner(s, i, j) && k < |Split(s[i + 1..j], '|')|
    requires 0 < i < |ShowOpts(o)| + 2
    requires PlainOpts(RewrittenOpts(o, i - 1, k)) && NarrowerOpts(RewrittenOpts(o, i - 1, k), o)
    requires ShowOpts(RewrittenOpts(o, i - 1, k)) == text
    requires Replace(s, i, j, Chosen(s, i, j, k)) == ['{'] + (text + (['}'] + Show(rest)))
    requires OptionsAtOpts(o, i - 1) == |Split(s[i + 1..j], '|')|
    ensures RewrittenOk(Group_(o, rest), inside, i, j, k)
  {
    hide Yields, YieldsOpts, Narrower, NarrowerOpts, Split, Replace, Chosen, BraceFree;
    var o' := RewrittenOpts(o, i - 1, k);
    NarrowerGroup(o', o, rest);
    assert ['{'] + (text + (['}'] + Show(rest))) == Show(Group_(o', rest));
  }

  lemma {:induction false} RewriteOpts(o: Opts, i: int, j: int, k: nat)
    requires PlainOpts(o) && Inner(ShowOpts(o), i, j) && k < |Split(ShowOpts(o)[i + 1..j], '|')|
    ensures PlainOpts(RewrittenOpts(o, i, k)) && NarrowerOpts(RewrittenOpts(o, i, k), o)
    ensures ShowOpts(RewrittenOpts(o, i, k)) == Replace(ShowOpts(o), i, j, Chosen(ShowOpts(o), i, j, k))
    ensures OptionsAtOpts(o, i) == |Split(ShowOpts(o)[i + 1..j], '|')|
    decreases o, 0
  {
    hide Yields, YieldsOpts, Narrower, NarrowerOpts, Split, Replace, Chosen, Height;
    match o
    case One(t) =>
      Rewrite(t, true, i, j, k);
      NarrowerSelf(t, o);
      NarrowerOption(t, Rewritten(t, i, k), o, o);
    case More(t, others) =>
      NarrowerSelf(t, others);
      if i < |Show(t)| {
        RewriteFirst(t, others, i, j, k);
        NarrowerOption(t, Rewritten(t, i, k), others, others);
      } else {
        var a := Show(t) + ['|'];
        assert ShowOpts(o) == a + ShowOpts(others);
        assert i >= |a| by {
          assert ShowOpts(o)[|Show(t)|] == '|';
        }
        ChosenAfter(a, ShowOpts(others), i, j, k);
        RewriteOpts(others, i - |a|, j - |a|, k);
        NarrowerOption(t, t, others, RewrittenOpts(others, i - |a|, k));
      }
  }

  lemma {:induction false} RewriteFirst(t: Tpl, others: Opts, i: int, j: int, k: nat)
    requires PlainOpts(More(t, others)) && Inner(ShowOpts(More(t, others)), i, j) && i < |Show(t)|
    requires k < |Split(ShowOpts(More(t, others))[i + 1..j], '|')|
    ensures Plain(Rewritten(t, i, k), true) && Narrower(Rewritten(t, i, k), t)
    ensures ShowOpts(More(Rewritten(t, i, k), others)) ==
      Replace(ShowOpts(More(t, others)), i, j, Chosen(ShowOpts(More(t, others)), i, j, k))
    ensures OptionsAt(t, i) == |Split(ShowOpts(More(t, others))[i + 1..j], '|')|
    decreases t, 1
  {
    hide Yields, YieldsOpts, Narrower, Split, Replace, Chosen, Height;
    var tail := ['|'] + ShowOpts(others);
    assert ShowOpts(More(t, others)) == Show(t) + tail;
    ShowBalanced(t, true);
    ChosenBefore(Show(t), tail, i, j, k);
    Rewrite(t, true, i, j, k);
    assert Show(Rewritten(t, i, k)) + tail == ShowOpts(More(Rewritten(t, i, k), others));
  }

  // ----- And no text is lost -----

  // Whatever text a template stands for, one of the options of any innermost group keeps it.
  lemma {:induction false} Reach(t: Tpl, i: int, text: string) returns (k: nat)
    requires Yields(t, text) && OptionsAt(t, i) > 0
    ensures k < OptionsAt(t, i) && Yields(Rewritten(t, i, k), text)
    decreases t
  {
    k := 0;
    match t
    case End =>
    case Char(c, rest) => k := Reach(rest, i - 1, text[1..]);
    case Group_(o, rest) =>
      var m :| 0 <= m <= |text| && YieldsOpts(o, text[..m]) && Yields(rest, text[m..]);
      var n := |ShowOpts(o)| + 2;
      if i == 0 {
        k := SomeOption(o, text[..m]);
        OptionIsFree(o, k);
        FreeYieldsItself(Option_(o, k), text[..m]);
        FreeAppendYields(Option_(o, k), rest, text);
      } else if i < n {
        k := ReachOpts(o, i - 1, text[..m]);
      } else {
        k := Reach(rest, i - n, text[m..]);
      }
  }

  lemma {:induction false} ReachOpts(o: Opts, i: int, text: string) returns (k: nat)
    requires YieldsOpts(o, text) && OptionsAtOpts(o, i) > 0
    ensures k < OptionsAtOpts(o, i) && YieldsOpts(RewrittenOpts(o, i, k), text)
    decreases o
  {
    match o
    case One(t) => k := Reach(t, i, text);
    case More(t, others) =>
      if i < |Show(t)| {
        k := 0;
        if Yields(t, text) {
          k := Reach(t, i, text);
        }
      } else {
        k := 0;
        if YieldsOpts(others, text) {
          k := ReachOpts(others, i - |Show(t)| - 1, text);
        }
      }
  }
}

// `renderSpintax` (apps/api/src/lib/spintax.ts): innermost groups first, one random option each, until
// none is left.
module SpintaxRender {
  import opened Basics
  import opened JobIds
  import opened Spintax
  import opened SpintaxMeaning

  // ----- The draw -----

  function PickIndex(draw: real, n: nat): (k: nat)
    requires n > 0 && 0.0 <= draw < 1.0
    ensures k < n
  {
    Min((draw * n as real).Floor, n - 1)
  }

  // Of `n` options, each is picked by its own n-th part of the draws.
  lemma EachOptionItsShare(draw: real, n: nat, k: nat)
    requires k < n && 0.0 <= draw < 1.0
    ensures PickIndex(draw, n) == k <==> k as real <= draw * n as real < (k + 1) as real
  {
    assert draw * n as real < n as real;
  }

  ghost predicate ValidDraws(draws: nat -> real) {
    forall n :: 0.0 <= draws(n) < 1.0
  }

  // ----- The rewriting, step by step -----

  ghost predicate Leftmost(s: string, i: nat, j: nat) {
    Group(s, i, j) && forall a, b :: 0 <= a < i ==> !Group(s, a, b)
  }

  ghost predicate HasGroup(s: string) {
    exists i, j :: Leftmost(s, i, j)
  }

  lemma OneLeftmost(s: string, i: nat, j: nat, a: nat, b: nat)
    requires Leftmost(s, i, j) && Leftmost(s, a, b)
    ensures i == a && j == b
  {
    assert i == a;
    OneCloser(s, i, j, b);
  }

  lemma ChosenIsFree(s: string, i: nat, j: nat, k: nat)
    requires Inner(s, i, j) && k < |Split(s[i + 1..j], '|')|
    ensures BraceFree(Chosen(s, i, j, k))
  {
    PartsAmong(s[i + 1..j], '|', k);
  }

  lemma {:induction false} PartsAmong(text: string, sep: char, k: nat)
    requires k < |Split(text, sep)|
    ensures forall x :: x in Split(text, sep)[k] ==> x in text
  {
    if |text| > 0 {
      var rest := Split(text[1..], sep);
      assert forall x :: x in text[1..] ==> x in text;
      if text[0] == sep {
        if k > 0 {
          PartsAmong(text[1..], sep, k - 1);
        }
      } else {
        PartsAmong(text[1..], sep, k);
        if k == 0 {
          assert Split(text, sep)[0] == [text[0]] + rest[0];
        }
      }
    }
  }

  // One rewriting with one draw.
  function Picked(s: string, i: nat, j: nat, draw: real): string
    requires Inner(s, i, j) && 0.0 <= draw < 1.0
  {
    Replace(s, i, j, Chosen(s, i, j, PickIndex(draw, |Split(s[i + 1..j], '|')|)))
  }

  lemma PickedUsesOne(s: string, i: nat, j: nat, draw: real)
    requires Inner(s, i, j) && 0.0 <= draw < 1.0
    ensures Opens(Picked(s, i, j, draw)) == Opens(s) - 1
  {
    var k := PickIndex(draw, |Split(s[i + 1..j], '|')|);
    ChosenIsFree(s, i, j, k);
    ReplaceUsesOne(s, i, j, Chosen(s, i, j, k));
  }

  ghost function RenderFrom(s: string, draws: nat -> real, n: nat): string
    requires ValidDraws(draws)
    decreases Opens(s)
  {
    if HasGroup(s) then
      var i, j :| Leftmost(s, i, j);
      PickedUsesOne(s, i, j, draws(n));
      RenderFrom(Picked(s, i, j, draws(n)), draws, n + 1)
    else s
  }

  lemma RenderStep(s: string, draws: nat -> real, n: nat, i: nat, j: nat)
    requires ValidDraws(draws) && Leftmost(s, i, j)
    ensures RenderFrom(s, draws, n) == RenderFrom(Picked(s, i, j, draws(n)), draws, n + 1)
  {
    var a, b :| Leftmost(s, a, b)
      && RenderFrom(s, draws, n) == RenderFrom(Picked(s, a, b, draws(n)), draws, n + 1);
    OneLeftmost(s, i, j, a, b);
  }

  method RenderSpintax(template: string, draws: nat -> real) returns (r: Result)
    requires ValidDraws(draws)
    ensures r.Ok? <==> Balanced(template)
    ensures r.NotOpened? <==> !NeverBelow(template)
    ensures r != TooDeep
    ensures r.Ok? ==> r.text == RenderFrom(template, draws, 0)
  {
    hide RenderFrom, Opens, Height, Split, PickIndex, BraceFree;
    r := AssertBalanced(template);
    if !r.Ok? {
      return r;
    }
    var result := template;
    var maxIterations := |template| + 100;
    var iterations := 0;
    OpensBound(template);
    var found, i, j := FindGroup(result);
    while found
      invariant found ==> Leftmost(result, i, j)
      invariant !found ==> !HasGroup(result)
      invariant iterations + Opens(result) == Opens(template)
      invariant RenderFrom(template, draws, 0) == RenderFrom(result, draws, iterations)
      decreases Opens(result), if found then 1 else 0
    {
      RenderStep(result, draws, iterations, i, j);
      PickedUsesOne(result, i, j, draws(iterations));
      var draw := draws(iterations);
      iterations := iterations + 1;
      if iterations > maxIterations {
        return TooDeep;
      }
      var options := Split(result[i + 1..j], '|');
      result := result[..i] + options[PickIndex(draw, |options|)] + result[j + 1..];
      found, i, j := FindGroup(result);
    }
    NoneLeft(result, draws, iterations);
    return Ok(result);
  }

  lemma NoneLeft(s: string, draws: nat -> real, n: nat)
    requires ValidDraws(draws) && !HasGroup(s)
    ensures RenderFrom(s, draws, n) == s
  {
  }

  // ----- What rendering gives -----

  lemma SomeLeftmost(s: string, i: nat, j: nat) returns (a: nat, b: nat)
    requires Group(s, i, j)
    ensures Leftmost(s, a, b)
    decreases i
  {
    if c, d :| 0 <= c < i && Group(s, c, d) {
      a, b := SomeLeftmost(s, c, d);
    } else {
      a, b := i, j;
    }
  }

  lemma PickedKeeps(s: string, i: nat, j: nat, draw: real)
    requires Balanced(s) && Group(s, i, j) && 0.0 <= draw < 1.0
    ensures Balanced(Picked(s, i, j, draw))
    ensures NotDoubled(Picked(s, i, j, draw)) <==> NotDoubled(s)
  {
    var k := PickIndex(draw, |Split(s[i + 1..j], '|')|);
    var text := Chosen(s, i, j, k);
    ChosenIsFree(s, i, j, k);
    ReplaceBalanced(s, i, j, text);
    if NotDoubled(s) {
      ReplaceNotDoubled(s, i, j, text);
    } else {
      StaysDoubled(s, i, j, text);
    }
  }

  // Two braces side by side are never taken apart.
  lemma StaysDoubled(s: string, i: nat, j: nat, text: string)
    requires Group(s, i, j) && !NotDoubled(s)
    ensures !NotDoubled(Replace(s, i, j, text))
  {
    var p :| 0 <= p < |s| - 1 && (s[p] == s[p + 1] == '{' || s[p] == s[p + 1] == '}');
    FreeAt(s, i + 1, j);
    var r := Replace(s, i, j, text);
    if p + 1 < i {
      assert r[p] == s[p] && r[p + 1] == s[p + 1];
    } else {
      var q := p - (j + 1) + i + |text|;
      assert p > j;
      assert r[q] == s[p] && r[q + 1] == s[p + 1];
    }
  }

  // A balanced template comes out without braces exactly when none of its braces is doubled, on
  // either side; one that is, as in `{a|{b|c}}`, is left standing.
  lemma {:induction false} NoBracesIff(s: string, draws: nat -> real, n: nat)
    requires Balanced(s) && ValidDraws(draws)
    ensures BraceFree(RenderFrom(s, draws, n)) <==> NotDoubled(s)
    ensures Balanced(RenderFrom(s, draws, n))
    decreases Opens(s)
  {
    if HasGroup(s) {
      var i, j :| Leftmost(s, i, j);
      RenderStep(s, draws, n, i, j);
      PickedUsesOne(s, i, j, draws(n));
      PickedKeeps(s, i, j, draws(n));
      NoBracesIff(Picked(s, i, j, draws(n)), draws, n + 1);
    } else if NotDoubled(s) && !BraceFree(s) {
      var i, j := BraceMeansGroup(s);
      var a, b := SomeLeftmost(s, i, j);
      assert false;
    } else if BraceFree(s) {
      assert forall p :: 0 <= p < |s| ==> s[p] in s;
    }
  }

  // A group at the very end of an option is next to the outer brace, and stays.
  lemma GroupAtTheEndStays(draws: nat -> real)
    requires ValidDraws(draws)
    ensures RenderFrom("{a|{b|c}}", draws, 0) == "{a|{b|c}}"
  {
    hide RenderFrom, Split, Opens, Height, BraceFree;
    var s := "{a|{b|c}}";
    forall i: nat, j: nat ensures !Leftmost(s, i, j) {
      NoGroupIn(s, i, j);
    }
    NoneLeft(s, draws, 0);
  }

  lemma NoGroupIn(s: string, i: nat, j: nat)
    requires |s| == 9 && s[0] == s[3] == '{' && s[7] == s[8] == '}'
    requires forall k :: 0 <= k < 9 && k != 0 && k != 3 ==> s[k] != '{'
    requires forall k :: 0 <= k < 7 ==> s[k] != '}'
    ensures !Group(s, i, j)
  {
    if Inner(s, i, j) {
      FreeAt(s, i + 1, j);
    }
  }

  // Whatever is drawn, a template of that kind renders to one of the texts it stands for.
  lemma {:induction false} RenderMeans(t: Tpl, draws: nat -> real, n: nat)
    requires Plain(t, false) && NotDoubled(Show(t)) && ValidDraws(draws)
    ensures Yields(t, RenderFrom(Show(t), draws, n))
    decreases Opens(Show(t))
  {
    var s := Show(t);
    ShowBalanced(t, false);
    if BraceFree(s) {
      FreeYieldsItself(t, s);
    } else {
      var a, b := BraceMeansGroup(s);
      var i, j := SomeLeftmost(s, a, b);
      var k := PickIndex(draws(n), |Split(s[i + 1..j], '|')|);
      RenderStep(s, draws, n, i, j);
      PickedUsesOne(s, i, j, draws(n));
      PickedKeeps(s, i, j, draws(n));
      Rewrite(t, false, i, j, k);
      RenderMeans(Rewritten(t, i, k), draws, n + 1);
    }
  }

  // ----- Every text can come up -----

  function Ahead(draws: nat -> real, n: nat, k: nat): real {
    draws(n + k)
  }

  ghost predicate SameDraws(a: nat -> real, m: nat, b: nat -> real, n: nat) {
    forall k: nat :: Ahead(a, m, k) == Ahead(b, n, k)
  }

  lemma {:induction false} RenderShift(s: string, a: nat -> real, m: nat, b: nat -> real, n: nat)
    requires ValidDraws(a) && ValidDraws(b) && SameDraws(a, m, b, n)
    ensures RenderFrom(s, a, m) == RenderFrom(s, b, n)
    decreases Opens(s)
  {
    hide Opens, Group, Picked;
    assert Ahead(a, m, 0) == Ahead(b, n, 0);
    if HasGroup(s) {
      var i, j :| Leftmost(s, i, j);
      LeftmostIsInner(s, i, j);
      RenderStep(s, a, m, i, j);
      RenderStep(s, b, n, i, j);
      PickedUsesOne(s, i, j, a(m));
      NextDraws(a, m, b, n, m + 1, n + 1);
      RenderShift(Picked(s, i, j, a(m)), a, m + 1, b, n + 1);
    }
  }

  lemma NextDraws(a: nat -> real, m: nat, b: nat -> real, n: nat, m': nat, n': nat)
    requires SameDraws(a, m, b, n) && m' == m + 1 && n' == n + 1
    ensures SameDraws(a, m', b, n')
  {
    forall k: nat ensures Ahead(a, m', k) == Ahead(b, n', k) {
      assert Ahead(a, m, k + 1) == Ahead(b, n, k + 1);
    }
  }

  lemma LeftmostIsInner(s: string, i: nat, j: nat)
    requires Leftmost(s, i, j)
    ensures Inner(s, i, j)
  {
  }

  // A draw for option `k` of `n`, and then the rest.
  function First(draw: real, rest: nat -> real): nat -> real {
    (n: nat) => if n == 0 then draw else rest(n - 1)
  }

  lemma DrawFor(n: nat, k: nat) returns (draw: real)
    requires k < n
    ensures 0.0 <= draw < 1.0 && PickIndex(draw, n) == k
  {
    draw := k as real / n as real;
    assert draw * n as real == k as real;
    assert 0.0 <= draw < 1.0;
    EachOptionItsShare(draw, n, k);
  }

  // Each text the template stands for is what some draws give.
  lemma {:induction false} RenderReaches(t: Tpl, text: string) returns (draws: nat -> real)
    requires Plain(t, false) && NotDoubled(Show(t)) && Yields(t, text)
    ensures ValidDraws(draws) && RenderFrom(Show(t), draws, 0) == text
    decreases Opens(Show(t))
  {
    var s := Show(t);
    ShowBalanced(t, false);
    if BraceFree(s) {
      FreeYieldsItself(t, text);
      draws := (n: nat) => 0.0;
      NothingToRender(s, draws);
    } else {
      var a, b := BraceMeansGroup(s);
      var i, j := SomeLeftmost(s, a, b);
      Rewrite(t, false, i, j, 0);
      var k := Reach(t, i, text);
      Rewrite(t, false, i, j, k);
      var draw := DrawFor(|Split(s[i + 1..j], '|')|, k);
      PickedUsesOne(s, i, j, draw);
      PickedKeeps(s, i, j, draw);
      var rest := RenderReaches(Rewritten(t, i, k), text);
      draws := First(draw, rest);
      StartsWith(s, draw, rest, i, j);
    }
  }

  lemma NothingToRender(s: string, draws: nat -> real)
    requires BraceFree(s) && ValidDraws(draws)
    ensures RenderFrom(s, draws, 0) == s
  {
    forall i: nat, j: nat ensures !Leftmost(s, i, j) {
      assert i < |s| ==> s[i] in s;
    }
  }

  lemma FirstDraws(draw: real, rest: nat -> real)
    requires 0.0 <= draw < 1.0 && ValidDraws(rest)
    ensures ValidDraws(First(draw, rest)) && First(draw, rest)(0) == draw
    ensures SameDraws(First(draw, rest), 1, rest, 0)
  {
    var draws := First(draw, rest);
    forall n: nat ensures 0.0 <= draws(n) < 1.0 {
      assert n > 0 ==> 0.0 <= rest(n - 1) < 1.0;
    }
    forall k: nat ensures Ahead(draws, 1, k) == Ahead(rest, 0, k) {
    }
  }

  lemma StartsWith(s: string, draw: real, rest: nat -> real, i: nat, j: nat)
    requires 0.0 <= draw < 1.0 && ValidDraws(rest) && Leftmost(s, i, j)
    ensures ValidDraws(First(draw, rest))
    ensures RenderFrom(s, First(draw, rest), 0) == RenderFrom(Picked(s, i, j, draw), rest, 0)
  {
    hide Opens, Group, Picked, RenderFrom;
    var draws := First(draw, rest);
    FirstDraws(draw, rest);
    LeftmostIsInner(s, i, j);
    RenderStep(s, draws, 0, i, j);
    RenderShift(Picked(s, i, j, draw), draws, 1, rest, 0);
  }

  // ----- Every balanced text is a template -----

  // A bar that stands outside all groups.
  predicate OuterBar(s: string, p: int) {
    0 <= p < |s| && s[p] == '|' && Height(s[..p]) == 0
  }

  // Where the group at the front closes.
  lemma FrontClose(s: string) returns (m: nat)
    requires Balanced(s) && |s| > 0 && s[0] == '{'
    ensures 1 <= m < |s| && s[m] == '}' && Balanced(s[1..m]) && Balanced(s[m + 1..])
  {
    HeightOne('{');
    m := 1;
    assert s[..1] == ['{'] && s[..|s|] == s;
    while Height(s[..m]) > 0
      invariant 1 <= m <= |s|
      invariant forall k :: 1 <= k < m ==> Height(s[..k]) >= 1
      decreases |s| - m
    {
      m := m + 1;
    }
    assert s[..m] == s[..m - 1] + [s[m - 1]];
    HeightSum(s[..m - 1], [s[m - 1]]);
    HeightOne(s[m - 1]);
    m := m - 1;
    InnerBalanced(s, m);
  }

  lemma InnerBalanced(s: string, m: nat)
    requires Balanced(s) && 1 <= m < |s| && s[0] == '{' && s[m] == '}'
    requires (forall k :: 1 <= k <= m ==> Height(s[..k]) >= 1) && Height(s[..m + 1]) == 0
    ensures Balanced(s[1..m]) && Balanced(s[m + 1..])
  {
    HeightOne('{');
    HeightOne('}');
    forall k | 0 <= k <= m - 1 ensures Height(s[1..m][..k]) == Height(s[..k + 1]) - 1 {
      assert s[..k + 1] == ['{'] + s[1..m][..k];
      HeightSum(['{'], s[1..m][..k]);
    }
    assert s[1..m][..m - 1] == s[1..m];
    assert s[..m + 1] == s[..m] + ['}'];
    HeightSum(s[..m], ['}']);
    var tail := s[m + 1..];
    forall k | 0 <= k <= |tail| ensures Height(tail[..k]) == Height(s[..m + 1 + k]) {
      assert s[..m + 1 + k] == s[..m + 1] + tail[..k];
      HeightSum(s[..m + 1], tail[..k]);
    }
    assert tail[..|tail|] == tail && s[..m + 1 + |tail|] == s;
  }

  lemma {:induction false} EveryTextIsShown(s: string, inside: bool) returns (t: Tpl)
    requires Balanced(s) && (inside ==> forall p :: !OuterBar(s, p))
    ensures Plain(t, inside) && Show(t) == s
    decreases |s|, 0
  {
    if |s| == 0 {
      t := End;
    } else if s[0] == '{' {
      var m := FrontClose(s);
      var x, rest := s[1..m], s[m + 1..];
      assert s == (['{'] + x + ['}']) + rest;
      BalancedGroup(x);
      OuterBarsAfter(['{'] + x + ['}'], rest, inside);
      var o := EveryTextIsOptions(x);
      var r := EveryTextIsShown(rest, inside);
      t := Group_(o, r);
    } else {
      FrontChar(s);
      assert s == [s[0]] + s[1..];
      OuterBarsAfter([s[0]], s[1..], inside);
      var r := EveryTextIsShown(s[1..], inside);
      t := Char(s[0], r);
    }
  }

  lemma FrontChar(s: string)
    requires Balanced(s) && |s| > 0 && s[0] != '{'
    ensures s[0] != '}' && Balanced([s[0]]) && Balanced(s[1..])
    ensures OuterBar(s, 0) <==> s[0] == '|'
  {
    assert s[..1] == [s[0]];
    HeightOne(s[0]);
    FreeIsBalanced([s[0]]);
    forall k | 0 <= k <= |s| - 1 ensures Height(s[1..][..k]) == Height(s[..k + 1]) {
      assert s[..k + 1] == [s[0]] + s[1..][..k];
      HeightSum([s[0]], s[1..][..k]);
    }
    assert s[1..][..|s| - 1] == s[1..] && s[..|s|] == s;
  }

  lemma OuterBarsAfter(a: string, b: string, inside: bool)
    requires Height(a) == 0 && (inside ==> forall p :: !OuterBar(a + b, p))
    ensures inside ==> forall p :: !OuterBar(b, p)
  {
    if inside {
      forall p ensures !OuterBar(b, p) {
        if 0 <= p < |b| {
          assert (a + b)[..|a| + p] == a + b[..p];
          HeightSum(a, b[..p]);
          assert !OuterBar(a + b, |a| + p);
        }
      }
    }
  }

  lemma {:induction false} EveryTextIsOptions(s: string) returns (o: Opts)
    requires Balanced(s)
    ensures PlainOpts(o) && ShowOpts(o) == s
    decreases |s|, 1
  {
    if p :| OuterBar(s, p) {
      var q := FirstBar(s, p);
      var a, b := s[..q], s[q + 1..];
      assert s == a + ['|'] + b;
      BarParts(s, q);
      var t := EveryTextIsShown(a, true);
      var others := EveryTextIsOptions(b);
      o := More(t, others);
    } else {
      var t := EveryTextIsShown(s, true);
      o := One(t);
    }
  }

  lemma FirstBar(s: string, p: int) returns (q: int)
    requires OuterBar(s, p)
    ensures OuterBar(s, q) && forall k :: 0 <= k < q ==> !OuterBar(s, k)
    decreases p
  {
    if k :| 0 <= k < p && OuterBar(s, k) {
      q := FirstBar(s, k);
    } else {
      q := p;
    }
  }

  lemma BarParts(s: string, q: nat)
    requires Balanced(s) && OuterBar(s, q) && forall k :: 0 <= k < q ==> !OuterBar(s, k)
    ensures Balanced(s[..q]) && Balanced(s[q + 1..])
    ensures forall p :: !OuterBar(s[..q], p)
  {
    var a, b := s[..q], s[q + 1..];
    HeightOne('|');
    forall k | 0 <= k <= q ensures a[..k] == s[..k] {
    }
    forall k | 0 <= k <= |b| ensures Height(b[..k]) == Height(s[..q + 1 + k]) {
      assert s[..q + 1 + k] == (a + ['|']) + b[..k];
      HeightSum(a + ['|'], b[..k]);
      HeightSum(a, ['|']);
    }
    assert b[..|b|] == b && s[..|s|] == s;
    forall p ensures !OuterBar(a, p) {
      if 0 <= p < q {
        assert !OuterBar(s, p);
      }
    }
  }
}

