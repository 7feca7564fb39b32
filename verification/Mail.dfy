// The CAN-SPAM footer (`appendCanSpamFooter` in apps/api/src/lib/sendCompliance.ts): after it every
// campaign email carries the address and the link, and adding it again changes nothing.
module Footer {
  import opened Basics
  import opened JobIds

  // ----- White space and words -----

  // What a JavaScript regular expression's `\s`, and `trim`, take for white space.
  predicate IsSpace(c: char) {
    || c == ' ' || '\t' <= c <= '\r' || c == '\U{00A0}' || c == '\U{1680}' || '\U{2000}' <= c <= '\U{200A}'
    || c == '\U{2028}' || c == '\U{2029}' || c == '\U{202F}' || c == '\U{205F}' || c == '\U{3000}' || c == '\U{FEFF}'
  }

  function TrimStart(s: string): string {
    if |s| > 0 && IsSpace(s[0]) then TrimStart(s[1..]) else s
  }

  function TrimEnd(s: string): (r: string)
    ensures |r| <= |s| && r == s[..|r|]
    ensures forall i :: |r| <= i < |s| ==> IsSpace(s[i])
    ensures |r| > 0 ==> !IsSpace(r[|r| - 1])
  {
    if |s| > 0 && IsSpace(s[|s| - 1]) then TrimEnd(s[..|s| - 1]) else s
  }

  function Trim(s: string): string {
    TrimEnd(TrimStart(s))
  }

  // `text.replace(/\s+/g, ' ')`: `after` is whether a run of white space is being swallowed.
  function Collapse(s: string, after: bool): string {
    if |s| == 0 then []
    else if IsSpace(s[0]) then (if after then [] else [' ']) + Collapse(s[1..], true)
    else [s[0]] + Collapse(s[1..], false)
  }

  // The runs of other characters. `word` is the one being read.
  function WordsFrom(s: string, word: string): seq<string> {
    if |s| == 0 then (if word == [] then [] else [word])
    else if IsSpace(s[0]) then (if word == [] then [] else [word]) + WordsFrom(s[1..], [])
    else WordsFrom(s[1..], word + [s[0]])
  }

  function Words(s: string): seq<string> {
    WordsFrom(s, [])
  }

  function Spaced(ws: seq<string>): string {
    if |ws| == 0 then []
    else if |ws| == 1 then ws[0]
    else Spaced(ws[..|ws| - 1]) + [' '] + ws[|ws| - 1]
  }

  predicate AllSpace(s: string) {
    forall i :: 0 <= i < |s| ==> IsSpace(s[i])
  }

  predicate NoSpace(s: string) {
    forall i :: 0 <= i < |s| ==> !IsSpace(s[i])
  }

  // ----- Words of texts put together -----

  lemma {:induction false} WordsThenSpace(a: string, c: char, b: string, word: string)
    requires IsSpace(c)
    ensures WordsFrom(a + [c] + b, word) == WordsFrom(a, word) + Words(b)
  {
    var s := a + [c] + b;
    if |a| == 0 {
      assert s[1..] == b;
    } else {
      assert s[1..] == a[1..] + [c] + b;
      if IsSpace(a[0]) {
        WordsThenSpace(a[1..], c, b, []);
      } else {
        WordsThenSpace(a[1..], c, b, word + [a[0]]);
      }
    }
  }

  lemma {:induction false} SpaceHasNoWords(s: string)
    requires AllSpace(s)
    ensures Words(s) == []
  {
    if |s| > 0 {
      SpaceHasNoWords(s[1..]);
    }
  }

  // White space at the ends has no words.
  lemma TrimEndWords(s: string)
    ensures Words(TrimEnd(s)) == Words(s)
  {
    var r := TrimEnd(s);
    if |r| < |s| {
      assert s == r + [s[|r|]] + s[|r| + 1..];
      WordsThenSpace(r, s[|r|], s[|r| + 1..], []);
      SpaceHasNoWords(s[|r| + 1..]);
    } else {
      assert s[..|r|] == s;
    }
  }

  lemma {:induction false} TrimStartWords(s: string)
    ensures Words(TrimStart(s)) == Words(s)
  {
    if |s| > 0 && IsSpace(s[0]) {
      TrimStartWords(s[1..]);
    }
  }

  lemma TrimWords(s: string)
    ensures Words(Trim(s)) == Words(s)
  {
    TrimStartWords(s);
    TrimEndWords(TrimStart(s));
  }

  // ----- Collapsing is words with single spaces -----

  lemma {:induction false} SpacedMore(a: seq<string>, b: seq<string>)
    ensures a == [] ==> Spaced(a + b) == Spaced(b)
    ensures b == [] ==> Spaced(a + b) == Spaced(a)
    ensures a != [] && b != [] ==> Spaced(a + b) == Spaced(a) + [' '] + Spaced(b)
    decreases |b|
  {
    if a == [] {
      assert a + b == b;
    } else if b == [] {
      assert a + b == a;
    } else {
      var init := b[..|b| - 1];
      SpacedMore(a, init);
      assert (a + b)[..|a + b| - 1] == a + init;
      if init != [] {
        assert Spaced(a) + [' '] + Spaced(init) + [' '] + b[|b| - 1] == Spaced(a) + [' '] + (Spaced(init) + [' '] + b[|b| - 1]);
      }
    }
  }

  // With a word begun, the rest of the text completes it; a trailing space may be left.
  lemma {:induction false} CollapseFrom(s: string, word: string) returns (tail: string)
    requires word != [] && NoSpace(word)
    ensures tail == [] || tail == [' ']
    ensures word + Collapse(s, false) == Spaced(WordsFrom(s, word)) + tail
    ensures WordsFrom(s, word) != [] && WordsFrom(s, word)[0] != [] && !IsSpace(WordsFrom(s, word)[0][0])
    decreases |s|, 1
  {
    hide IsSpace;
    if |s| == 0 {
      tail := [];
    } else if IsSpace(s[0]) {
      tail := CollapseAfter(s[1..]);
      var rest := Words(s[1..]);
      SpacedMore([word], rest);
      if rest == [] {
        assert word + ([' '] + Collapse(s[1..], true)) == Spaced([word]) + [' '];
        tail := [' '];
      } else {
        assert word + ([' '] + (Spaced(rest) + tail)) == word + [' '] + Spaced(rest) + tail;
      }
    } else {
      tail := CollapseFrom(s[1..], word + [s[0]]);
      assert word + ([s[0]] + Collapse(s[1..], false)) == word + [s[0]] + Collapse(s[1..], false);
    }
  }

  // After white space: the words to come, or nothing.
  lemma {:induction false} CollapseAfter(s: string) returns (tail: string)
    ensures tail == [] || tail == [' ']
    ensures Words(s) == [] ==> Collapse(s, true) == []
    ensures Words(s) != [] ==> Collapse(s, true) == Spaced(Words(s)) + tail
    decreases |s|, 0
  {
    hide IsSpace, Spaced;
    tail := [];
    if |s| > 0 {
      if IsSpace(s[0]) {
        tail := CollapseAfter(s[1..]);
        assert [] + Collapse(s[1..], true) == Collapse(s[1..], true);
        assert [] + Words(s[1..]) == Words(s[1..]);
      } else {
        tail := CollapseFrom(s[1..], [s[0]]);
        assert [] + [s[0]] == [s[0]];
        assert Words(s) == WordsFrom(s[1..], [s[0]]);
        assert Collapse(s, true) == [s[0]] + Collapse(s[1..], false);
      }
    }
  }

  // ----- Normalizing -----

  // Case folding, character by character; `lower` gives what a character becomes.
  function Lower(s: string, lower: char -> string): string {
    if |s| == 0 then [] else Lower(s[..|s| - 1], lower) + lower(s[|s| - 1])
  }

  function NormalizeForMatch(s: string, lower: char -> string): string {
    Lower(Trim(Collapse(s, false)), lower)
  }

  lemma {:induction false} LowerSum(a: string, b: string, lower: char -> string)
    ensures Lower(a + b, lower) == Lower(a, lower) + Lower(b, lower)
    decreases |b|
  {
    if |b| == 0 {
      assert a + b == a && Lower(a, lower) + [] == Lower(a, lower);
    } else {
      LowerSum(a, b[..|b| - 1], lower);
      assert (a + b)[..|a + b| - 1] == a + b[..|b| - 1];
      assert Lower(a, lower) + (Lower(b[..|b| - 1], lower) + lower(b[|b| - 1])) == Lower(a + b, lower);
    }
  }

  predicate Firm(s: string) {
    |s| > 0 && !IsSpace(s[0]) && !IsSpace(s[|s| - 1])
  }

  lemma TrimFirm(a: string, b: string, s: string)
    requires (a == [] || a == [' ']) && (b == [] || b == [' ']) && Firm(s)
    ensures Trim(a + s + b) == s
  {
    assert (a + s + b)[|a|..] == s + b;
    if a != [] {
      assert (a + s + b)[1..] == s + b;
    }
    assert TrimStart(a + s + b) == s + b;
    if b != [] {
      assert (s + b)[..|s + b| - 1] == s;
    } else {
      assert s + b == s;
    }
  }

  ghost predicate WordsOk(ws: seq<string>) {
    forall i :: 0 <= i < |ws| ==> ws[i] != [] && NoSpace(ws[i])
  }

  lemma {:induction false} WordsAreWords(s: string, word: string)
    requires NoSpace(word)
    ensures WordsOk(WordsFrom(s, word))
  {
    if |s| > 0 {
      if IsSpace(s[0]) {
        WordsAreWords(s[1..], []);
      } else {
        WordsAreWords(s[1..], word + [s[0]]);
      }
    }
  }

  lemma {:induction false} SpacedIsFirm(ws: seq<string>)
    requires WordsOk(ws) && ws != []
    ensures Firm(Spaced(ws))
  {
    if |ws| > 1 {
      SpacedIsFirm(ws[..|ws| - 1]);
    }
  }

  // The text the code compares is the words, with single spaces.
  lemma {:induction false} CollapsedIsWords(s: string)
    ensures Trim(Collapse(s, false)) == Spaced(Words(s))
  {
    hide IsSpace, Trim, Firm;
    WordsAreWords(s, []);
    if |s| == 0 {
      TrimNothing();
    } else if IsSpace(s[0]) {
      var tail := CollapseAfter(s[1..]);
      WordsAreWords(s[1..], []);
      assert [] + Words(s[1..]) == Words(s[1..]);
      if Words(s[1..]) == [] {
        TrimNothing();
        assert [' '] + [] == [' '];
      } else {
        SpacedIsFirm(Words(s[1..]));
        assert [' '] + (Spaced(Words(s[1..])) + tail) == [' '] + Spaced(Words(s[1..])) + tail;
        TrimFirm([' '], tail, Spaced(Words(s[1..])));
      }
    } else {
      var tail := CollapseFrom(s[1..], [s[0]]);
      assert [] + [s[0]] == [s[0]];
      assert Collapse(s, false) == [s[0]] + Collapse(s[1..], false);
      SpacedIsFirm(Words(s));
      assert [] + Spaced(Words(s)) + tail == Spaced(Words(s)) + tail;
      TrimFirm([], tail, Spaced(Words(s)));
    }
  }

  lemma TrimNothing()
    ensures Trim([]) == [] && Trim([' ']) == []
  {
    assert [' '][1..] == [];
  }

  lemma NormalIsWords(s: string, lower: char -> string)
    ensures NormalizeForMatch(s, lower) == Lower(Spaced(Words(s)), lower)
  {
    CollapsedIsWords(s);
  }

  // ----- Containing -----

  predicate StandsAt(s: string, part: string, i: int) {
    0 <= i <= |s| - |part| && s[i..i + |part|] == part
  }

  ghost predicate Contains(s: string, part: string) {
    exists i :: StandsAt(s, part, i)
  }

  lemma ContainsMiddle(a: string, part: string, b: string)
    ensures Contains(a + part + b, part)
  {
    assert (a + part + b)[|a|..|a| + |part|] == part;
    assert StandsAt(a + part + b, part, |a|);
  }

  lemma ContainsMore(a: string, s: string, b: string, part: string)
    requires Contains(s, part)
    ensures Contains(a + s + b, part)
  {
    var i :| StandsAt(s, part, i);
    assert (a + s + b)[|a| + i..|a| + i + |part|] == part;
    assert StandsAt(a + s + b, part, |a| + i);
  }

  // The words of one text among those of another: so its normal form is part of the other's.
  lemma {:induction false} WordsWithin(before: seq<string>, ws: seq<string>, after: seq<string>, part: string, lower: char -> string)
    requires Contains(Lower(Spaced(ws), lower), part) && ws != []
    ensures Contains(Lower(Spaced(before + ws + after), lower), part)
  {
    SpacedMore(before, ws);
    SpacedMore(before + ws, after);
    var a := if before == [] then [] else Spaced(before) + [' '];
    var b := if after == [] then [] else [' '] + Spaced(after);
    assert Spaced(before + ws) == a + Spaced(ws);
    assert Spaced(before + ws + after) == a + Spaced(ws) + b;
    LowerSum(a + Spaced(ws), b, lower);
    LowerSum(a, Spaced(ws), lower);
    ContainsMore(Lower(a, lower), Lower(Spaced(ws), lower), Lower(b, lower), part);
  }

  // ----- The footer -----

  datatype Result = Done(body: string, appended: bool) | NoAddress | NoLink

  function Join(lines: seq<string>): string {
    if |lines| == 0 then []
    else if |lines| == 1 then lines[0]
    else Join(lines[..|lines| - 1]) + ['\n'] + lines[|lines| - 1]
  }

  // The address, each line trimmed and empty lines dropped.
  function CleanLines(parts: seq<string>): seq<string> {
    if |parts| == 0 then []
    else CleanLines(parts[..|parts| - 1])
         + if Trim(parts[|parts| - 1]) != [] then [Trim(parts[|parts| - 1])] else []
  }

  function CleanAddress(address: string): string {
    Join(CleanLines(Split(address, '\n')))
  }

  const DASHES := "\n\n--\n"
  const UNSUBSCRIBE := "Unsubscribe: "

  method Includes(s: string, part: string) returns (found: bool)
    ensures found <==> Contains(s, part)
  {
    var i := 0;
    while i + |part| <= |s|
      invariant 0 <= i <= |s| + 1
      invariant forall k :: 0 <= k < i ==> !StandsAt(s, part, k)
    {
      if s[i..i + |part|] == part {
        assert StandsAt(s, part, i);
        return true;
      }
      i := i + 1;
    }
    return false;
  }

  ghost function FooterLines(body: string, address: string, link: string, lower: char -> string): seq<string> {
    (if Contains(NormalizeForMatch(body, lower), NormalizeForMatch(address, lower)) then [] else [CleanAddress(address)])
    + if Contains(body, link) then [] else [UNSUBSCRIBE + link]
  }

  ghost function WithFooter(body: string, address: string, link: string, lower: char -> string): Result {
    if Trim(address) == [] then NoAddress
    else if Trim(link) == [] then NoLink
    else
      var lines := FooterLines(body, Trim(address), Trim(link), lower);
      if lines == [] then Done(body, false) else Done(TrimEnd(body) + DASHES + Join(lines), true)
  }

  method AppendCanSpamFooter(body: string, physicalAddress: string, unsubscribeUrl: string, lower: char -> string)
    returns (r: Result)
    ensures r == WithFooter(body, physicalAddress, unsubscribeUrl, lower)
  {
    var address, link := Trim(physicalAddress), Trim(unsubscribeUrl);
    if |address| == 0 {
      return NoAddress;
    }
    if |link| == 0 {
      return NoLink;
    }
    var lines: seq<string> := [];
    var hasAddress := Includes(NormalizeForMatch(body, lower), NormalizeForMatch(address, lower));
    if !hasAddress {
      lines := lines + [CleanAddress(address)];
    }
    var hasLink := Includes(body, link);
    if !hasLink {
      lines := lines + [UNSUBSCRIBE + link];
    }
    assert lines == FooterLines(body, address, link, lower);
    if |lines| == 0 {
      return Done(body, false);
    }
    return Done(TrimEnd(body) + DASHES + Join(lines), true);
  }

  // ----- What it carries -----

  lemma {:induction false} CleanLinesWords(parts: seq<string>)
    ensures Words(Join(CleanLines(parts))) == Words(Join(parts))
  {
    if |parts| > 0 {
      var init, last := parts[..|parts| - 1], parts[|parts| - 1];
      CleanLinesWords(init);
      TrimWords(last);
      JoinMoreWords(init, last);
      JoinMoreWords(CleanLines(init), Trim(last));
      assert init + [last] == parts;
      if Trim(last) == [] {
        assert CleanLines(init) + [] == CleanLines(init);
        assert Words([]) == [];
      }
    }
  }

  lemma JoinMoreWords(lines: seq<string>, line: string)
    ensures Words(Join(lines + [line])) == Words(Join(lines)) + Words(line)
  {
    if |lines| == 0 {
      assert lines + [line] == [line] && Words([]) == [];
    } else {
      assert (lines + [line])[..|lines|] == lines;
      WordsThenSpace(Join(lines), '\n', line, []);
    }
  }

  // Splitting at line ends and joining again is the text itself.
  lemma {:induction false} JoinSplit(text: string)
    ensures Join(Split(text, '\n')) == text
  {
    if |text| > 0 {
      JoinSplit(text[1..]);
      var rest := Split(text[1..], '\n');
      if text[0] == '\n' {
        JoinFront([], rest);
        assert [] + ['\n'] + text[1..] == text;
      } else {
        JoinChar(text[0], rest);
        assert [text[0]] + text[1..] == text;
      }
    }
  }

  lemma {:induction false} JoinFront(line: string, lines: seq<string>)
    requires |lines| > 0
    ensures Join([line] + lines) == line + ['\n'] + Join(lines)
  {
    var last := |lines| - 1;
    assert ([line] + lines)[..|lines|] == [line] + lines[..last];
    if last > 0 {
      JoinFront(line, lines[..last]);
      assert line + ['\n'] + Join(lines[..last]) + ['\n'] + lines[last]
        == line + ['\n'] + (Join(lines[..last]) + ['\n'] + lines[last]);
    } else {
      assert [line] + lines[..last] == [line];
    }
  }

  lemma {:induction false} JoinChar(c: char, lines: seq<string>)
    requires |lines| > 0
    ensures Join([[c] + lines[0]] + lines[1..]) == [c] + Join(lines)
  {
    var last := |lines| - 1;
    var more := [[c] + lines[0]] + lines[1..];
    if last > 0 {
      JoinChar(c, lines[..last]);
      assert more[..last] == [[c] + lines[..last][0]] + lines[..last][1..];
      assert [c] + Join(lines[..last]) + ['\n'] + lines[last] == [c] + (Join(lines[..last]) + ['\n'] + lines[last]);
    }
  }

  lemma AddressWords(address: string)
    ensures Words(CleanAddress(address)) == Words(address)
  {
    CleanLinesWords(Split(address, '\n'));
    JoinSplit(address);
  }

  lemma {:induction false} SomeWord(s: string, word: string)
    requires word != [] || !AllSpace(s)
    ensures WordsFrom(s, word) != []
  {
    if |s| > 0 {
      if IsSpace(s[0]) {
        if word == [] {
          SomeWord(s[1..], []);
        }
      } else {
        SomeWord(s[1..], word + [s[0]]);
      }
    }
  }

  // A text with no white space at its end is not touched by dropping the white space behind it.
  lemma KeptByTrimEnd(s: string, part: string)
    requires Contains(s, part) && part != [] && !IsSpace(part[|part| - 1])
    ensures Contains(TrimEnd(s), part)
  {
    var i :| StandsAt(s, part, i);
    assert s[i + |part| - 1] == s[i..i + |part|][|part| - 1];
    assert TrimEnd(s)[i..i + |part|] == s[i..i + |part|];
    assert StandsAt(TrimEnd(s), part, i);
  }

  // The link, trimmed, is in the result as it is.
  lemma {:induction false} CarriesLink(body: string, address: string, link: string, lower: char -> string)
    requires link != [] && !IsSpace(link[|link| - 1])
    ensures var lines := FooterLines(body, address, link, lower);
            Contains(if lines == [] then body else TrimEnd(body) + DASHES + Join(lines), link)
  {
    hide IsSpace, NormalizeForMatch, CleanAddress, Contains, TrimEnd;
    var lines := FooterLines(body, address, link, lower);
    var front := TrimEnd(body) + DASHES;
    if Contains(body, link) {
      KeptByTrimEnd(body, link);
      ContainsMore([], TrimEnd(body), DASHES + Join(lines), link);
      assert [] + TrimEnd(body) + (DASHES + Join(lines)) == front + Join(lines);
    } else if |lines| == 1 {
      assert lines == [UNSUBSCRIBE + link];
      ContainsMiddle(front + UNSUBSCRIBE, link, []);
      assert front + UNSUBSCRIBE + link + [] == front + Join(lines);
    } else {
      assert lines == [CleanAddress(address), UNSUBSCRIBE + link];
      assert lines[..1] == [CleanAddress(address)];
      ContainsMiddle(front + CleanAddress(address) + ['\n'] + UNSUBSCRIBE, link, []);
      assert front + CleanAddress(address) + ['\n'] + UNSUBSCRIBE + link + [] == front + Join(lines);
    }
  }

  // The words of the result: those of the body, the dashes, those of the lines added.
  lemma FooterWords(body: string, lines: seq<string>) returns (dashes: seq<string>)
    ensures Words(TrimEnd(body) + DASHES + Join(lines)) == Words(body) + dashes + Words(Join(lines))
  {
    hide IsSpace, Join;
    assert IsSpace('\n') by { IsSpaceLineEnd(); }
    var r := TrimEnd(body);
    TrimEndWords(body);
    dashes := Words("\n--");
    assert r + DASHES + Join(lines) == r + ['\n'] + ("\n--" + ['\n'] + Join(lines));
    WordsThenSpace(r, '\n', "\n--" + ['\n'] + Join(lines), []);
    WordsThenSpace("\n--", '\n', Join(lines), []);
    assert Words(body) + (dashes + Words(Join(lines))) == Words(body) + dashes + Words(Join(lines));
  }

  lemma IsSpaceLineEnd()
    ensures IsSpace('\n')
  {
  }

  lemma LinesWords(lines: seq<string>, address: string, rest: string) returns (after: seq<string>)
    requires lines == [CleanAddress(address)] || lines == [CleanAddress(address), rest]
    ensures Words(Join(lines)) == Words(address) + after
  {
    AddressWords(address);
    if |lines| == 1 {
      after := [];
      assert Words(address) + [] == Words(address);
    } else {
      after := Words(rest);
      JoinMoreWords([CleanAddress(address)], rest);
      assert lines == [CleanAddress(address)] + [rest];
    }
  }

  // The address is in the result, up to white space and case.
  lemma CarriesAddress(body: string, address: string, link: string, lower: char -> string)
    requires Words(address) != []
    ensures var lines := FooterLines(body, address, link, lower);
            Contains(NormalizeForMatch(if lines == [] then body else TrimEnd(body) + DASHES + Join(lines), lower),
                     NormalizeForMatch(address, lower))
  {
    hide NormalizeForMatch, Words, Spaced, Lower, CleanAddress, Join;
    var lines := FooterLines(body, address, link, lower);
    var part := NormalizeForMatch(address, lower);
    if lines != [] {
      var whole := TrimEnd(body) + DASHES + Join(lines);
      var dashes := FooterWords(body, lines);
      NormalIsWords(whole, lower);
      NormalIsWords(body, lower);
      NormalIsWords(address, lower);
      if Contains(NormalizeForMatch(body, lower), part) {
        BodyCarries(Words(body), dashes + Words(Join(lines)), part, lower);
        assert Words(body) + (dashes + Words(Join(lines))) == Words(whole);
      } else {
        var after := LinesWords(lines, address, UNSUBSCRIBE + link);
        ContainsMiddle([], part, []);
        assert [] + part + [] == part;
        WordsWithin(Words(body) + dashes, Words(address), after, part, lower);
        assert Words(body) + dashes + Words(address) + after == Words(whole);
      }
    }
  }

  lemma NothingIsIn(part: string, s: string)
    requires Contains([], part)
    ensures Contains(s, part)
  {
    assert part == [];
    ContainsMiddle([], part, s);
    assert [] + part + s == s;
  }

  lemma {:induction false} BodyCarries(ws: seq<string>, after: seq<string>, part: string, lower: char -> string)
    requires Contains(Lower(Spaced(ws), lower), part)
    ensures Contains(Lower(Spaced(ws + after), lower), part)
  {
    hide StandsAt, Contains;
    if ws == [] {
      assert Lower(Spaced(ws), lower) == [];
      NothingIsIn(part, Lower(Spaced(ws + after), lower));
    } else {
      WordsWithin([], ws, after, part, lower);
      assert [] + ws + after == ws + after;
    }
  }

  // Trimming leaves white space at neither end.
  lemma {:induction false} TrimStartFirm(s: string)
    ensures TrimStart(s) != [] ==> !IsSpace(TrimStart(s)[0])
  {
    if |s| > 0 && IsSpace(s[0]) {
      TrimStartFirm(s[1..]);
    }
  }

  lemma TrimIsFirm(s: string)
    requires Trim(s) != []
    ensures Firm(Trim(s))
  {
    TrimStartFirm(s);
  }

  // Whenever a body comes back, it carries the link, and the address up to white space and case.
  lemma FooterCarries(body: string, address: string, link: string, lower: char -> string)
    requires Trim(address) != [] && Trim(link) != []
    ensures var r := WithFooter(body, address, link, lower);
            && r.Done?
            && Contains(r.body, Trim(link))
            && Contains(NormalizeForMatch(r.body, lower), NormalizeForMatch(Trim(address), lower))
  {
    TrimIsFirm(address);
    TrimIsFirm(link);
    SomeWord(Trim(address), []);
    CarriesLink(body, Trim(address), Trim(link), lower);
    CarriesAddress(body, Trim(address), Trim(link), lower);
  }

  // The body is left alone exactly when it carried both already; so a second time changes nothing.
  lemma FooterTwice(body: string, address: string, link: string, lower: char -> string)
    requires Trim(address) != [] && Trim(link) != []
    ensures var r := WithFooter(body, address, link, lower);
            && r.Done?
            && (r.appended <==> !(Contains(body, Trim(link))
                                  && Contains(NormalizeForMatch(body, lower), NormalizeForMatch(Trim(address), lower))))
            && (!r.appended ==> r.body == body)
            && WithFooter(r.body, address, link, lower) == Done(r.body, false)
  {
    hide NormalizeForMatch, Trim, Join, TrimEnd, CleanAddress;
    FooterCarries(body, address, link, lower);
  }
}

// Replies off an SMTP connection (`replyReader` in apps/worker/src/addressCheck.ts): bytes come in
// whatever pieces the network makes, and whole replies go out one at a time.
module ReplyReader {
  import opened JobIds

  datatype SmtpReply = SmtpReply(code: int, text: string)

  // ----- What a stream of bytes says -----

  function StripReturn(line: string): string {
    if |line| > 0 && line[|line| - 1] == '\r' then line[..|line| - 1] else line
  }

  function Strip(lines: seq<string>): (r: seq<string>)
    ensures |r| == |lines|
    ensures forall i :: 0 <= i < |r| ==> r[i] == StripReturn(lines[i])
  {
    if |lines| == 0 then [] else Strip(lines[..|lines| - 1]) + [StripReturn(lines[|lines| - 1])]
  }

  // The complete lines of a text, and what follows the last line end.
  function Lines(text: string): seq<string> {
    var parts := Split(text, '\n');
    Strip(parts[..|parts| - 1])
  }

  function Rest(text: string): string {
    var parts := Split(text, '\n');
    parts[|parts| - 1]
  }

  predicate IsDigit(c: char) {
    '0' <= c <= '9'
  }

  // A line that says more lines of the same reply follow: three digits and a hyphen.
  predicate Continues(line: string) {
    |line| >= 4 && IsDigit(line[0]) && IsDigit(line[1]) && IsDigit(line[2]) && line[3] == '-'
  }

  function Front(line: string): string {
    if |line| < 3 then line else line[..3]
  }

  function Beyond(line: string): string {
    if |line| < 4 then [] else line[4..]
  }

  function Joined(lines: seq<string>): string {
    if |lines| == 0 then []
    else if |lines| == 1 then Beyond(lines[0])
    else Joined(lines[..|lines| - 1]) + [' '] + Beyond(lines[|lines| - 1])
  }

  // `number` is JavaScript's reading of a text as a number, 0 for what is none.
  function ReplyOf(lines: seq<string>, number: string -> int): SmtpReply
    requires |lines| > 0
  {
    SmtpReply(number(Front(lines[|lines| - 1])), Joined(lines))
  }

  // The replies a list of lines makes, and the lines of the one still coming.
  datatype Gathered = Gathered(replies: seq<SmtpReply>, pending: seq<string>)

  function Gather(lines: seq<string>, number: string -> int): Gathered {
    if |lines| == 0 then Gathered([], [])
    else
      var g := Gather(lines[..|lines| - 1], number);
      var line := lines[|lines| - 1];
      if Continues(line) then Gathered(g.replies, g.pending + [line])
      else Gathered(g.replies + [ReplyOf(g.pending + [line], number)], [])
  }

  // ----- Text in pieces -----

  // The parts of two texts put together: the last of one and the first of the other are one part.
  function Seam(p: seq<string>, q: seq<string>): seq<string>
    requires |p| > 0 && |q| > 0
  {
    p[..|p| - 1] + [p[|p| - 1] + q[0]] + q[1..]
  }

  lemma SeamAfterSep(r: seq<string>, q: seq<string>)
    requires |r| > 0 && |q| > 0
    ensures Seam([[]] + r, q) == [[]] + Seam(r, q)
  {
    var p := [[]] + r;
    assert p[..|p| - 1] == [[]] + r[..|r| - 1];
  }

  lemma SeamAfterChar(c: char, r: seq<string>, q: seq<string>)
    requires |r| > 0 && |q| > 0
    ensures var p := [[c] + r[0]] + r[1..];
            Seam(p, q) == [[c] + Seam(r, q)[0]] + Seam(r, q)[1..]
  {
    var p := [[c] + r[0]] + r[1..];
    if |r| == 1 {
      assert p[0] + q[0] == [c] + (r[0] + q[0]);
    } else {
      assert p[..|p| - 1] == [[c] + r[0]] + r[1..|r| - 1];
      assert Seam(r, q)[1..] == r[1..|r| - 1] + [r[|r| - 1] + q[0]] + q[1..];
    }
  }

  // Splitting a text in two splits its lines at the same place.
  lemma {:induction false} SplitPieces(a: string, b: string)
    ensures Split(a + b, '\n') == Seam(Split(a, '\n'), Split(b, '\n'))
  {
    hide Seam;
    if |a| == 0 {
      assert a + b == b;
      SeamOfNothing(Split(b, '\n'));
    } else {
      SplitPieces(a[1..], b);
      assert (a + b)[1..] == a[1..] + b;
      if a[0] == '\n' {
        SeamAfterSep(Split(a[1..], '\n'), Split(b, '\n'));
      } else {
        SeamAfterChar(a[0], Split(a[1..], '\n'), Split(b, '\n'));
      }
    }
  }

  lemma SeamOfNothing(q: seq<string>)
    requires |q| > 0
    ensures Seam([[]], q) == q
  {
    assert [] + q[0] == q[0];
  }

  lemma RestHasNoEnd(text: string)
    ensures '\n' !in Rest(text)
  {
    PartsHaveNoSep(text, '\n', |Split(text, '\n')| - 1);
  }

  // A piece without a line end only lengthens the rest.
  lemma NoLineEnd(a: string, b: string)
    requires '\n' !in b
    ensures Lines(a + b) == Lines(a) && Rest(a + b) == Rest(a) + b
  {
    SplitPieces(a, b);
    var p, q := Split(a, '\n'), Split(a + b, '\n');
    assert q[..|q| - 1] == p[..|p| - 1];
  }

  // A line end completes the rest.
  lemma LineEnd(a: string)
    ensures Lines(a + ['\n']) == Lines(a) + [StripReturn(Rest(a))] && Rest(a + ['\n']) == []
  {
    SplitPieces(a, ['\n']);
    assert ['\n'][1..] == [];
    assert Split(['\n'], '\n') == [[], []];
    var p, q := Split(a, '\n'), Split(a + ['\n'], '\n');
    assert p[|p| - 1] + [] == p[|p| - 1];
    assert q[..|q| - 1] == p;
    assert p == p[..|p| - 1] + [p[|p| - 1]];
  }

  // ----- The reader -----

  // The first line end.
  method IndexOfLineEnd(s: string) returns (end: int)
    ensures end < 0 <==> '\n' !in s
    ensures end >= 0 ==> end < |s| && s[end] == '\n' && '\n' !in s[..end]
  {
    end := 0;
    while end < |s|
      invariant 0 <= end <= |s| && '\n' !in s[..end]
    {
      if s[end] == '\n' {
        return;
      }
      assert s[..end + 1] == s[..end] + [s[end]];
      end := end + 1;
    }
    assert s[..end] == s;
    return -1;
  }

  class Reader {
    const number: string -> int
    var buffer: string
    var lines: seq<string>
    var ready: seq<SmtpReply>
    // A promise is waiting for the next reply.
    var waiting: bool
    // The replies handed over so far, in order.
    var handed: seq<SmtpReply>
    // Everything the socket has delivered, and how often a reply was asked for.
    ghost var fed: string
    ghost var asked: nat

    // What is held is what the bytes so far say, however they came; what was handed over is the
    // replies asked for, in order, as far as they have come.
    ghost predicate Valid()
      reads this
    {
      && buffer == Rest(fed)
      && Gather(Lines(fed), number) == Gathered(handed + ready, lines)
      && (waiting ==> ready == [])
      && asked == |handed| + if waiting then 1 else 0
    }

    constructor (number: string -> int)
      ensures Valid() && fed == [] && handed == [] && !waiting && this.number == number
    {
      this.number := number;
      buffer, lines, ready, waiting, handed, fed, asked := [], [], [], false, [], [], 0;
    }

    method TakeReply(reply: SmtpReply)
      modifies this`ready, this`waiting, this`handed
      ensures waiting ==> ready == old(ready)
      ensures old(waiting) ==> !waiting && handed == old(handed) + [reply] && ready == old(ready)
      ensures !old(waiting) ==> !waiting && handed == old(handed) && ready == old(ready) + [reply]
    {
      if waiting {
        waiting := false;
        handed := handed + [reply];
      } else {
        ready := ready + [reply];
      }
    }

    // A complete line.
    method TakeLine(line: string)
      modifies this`lines, this`ready, this`waiting, this`handed
      requires waiting ==> ready == []
      ensures waiting ==> ready == [] && old(waiting)
      ensures |handed| + (if waiting then 1 else 0) == |old(handed)| + if old(waiting) then 1 else 0
      ensures old(handed) <= handed
      ensures if Continues(line)
              then lines == old(lines) + [line] && handed + ready == old(handed + ready)
              else lines == [] && handed + ready == old(handed + ready) + [ReplyOf(old(lines) + [line], number)]
    {
      lines := lines + [line];
      if Continues(line) {
        return;
      }
      var reply := SmtpReply(number(Front(line)), Joined(lines));
      lines := [];
      TakeReply(reply);
    }

    // A piece of the stream arrives.
    method OnData(chunk: string)
      requires Valid()
      modifies this
      ensures Valid() && fed == old(fed) + chunk && asked == old(asked)
      ensures old(handed) <= handed
    {
      hide Lines, Rest, Split;
      ghost var seen, todo := fed, chunk;
      buffer := buffer + chunk;
      var end := IndexOfLineEnd(buffer);
      while end >= 0
        invariant seen + todo == old(fed) + chunk && buffer == Rest(seen) + todo
        invariant Gather(Lines(seen), number) == Gathered(handed + ready, lines)
        invariant (waiting ==> ready == []) && asked == |handed| + if waiting then 1 else 0
        invariant old(handed) <= handed && asked == old(asked) && fed == old(fed)
        invariant end < 0 <==> '\n' !in buffer
        invariant end >= 0 ==> end < |buffer| && buffer[end] == '\n' && '\n' !in buffer[..end]
        decreases |buffer|
      {
        ghost var m := NextLine(seen, todo, end);
        var line := StripReturn(buffer[..end]);
        buffer := buffer[end + 1..];
        ghost var g := Gather(Lines(seen), number);
        assert Gather(Lines(seen) + [line], number) ==
          if Continues(line) then Gathered(g.replies, g.pending + [line])
          else Gathered(g.replies + [ReplyOf(g.pending + [line], number)], []) by {
          assert (Lines(seen) + [line])[..|Lines(seen)|] == Lines(seen);
        }
        seen, todo := seen + todo[..m + 1], todo[m + 1..];
        TakeLine(line);
        end := IndexOfLineEnd(buffer);
      }
      NoLineEnd(seen, todo);
      fed := fed + chunk;
    }

    // The next reply is asked for: one that has come is handed over at once, else the next to come.
    method NextReply()
      requires Valid() && !waiting
      modifies this`ready, this`waiting, this`handed, this`asked
      ensures Valid() && asked == old(asked) + 1
      ensures old(handed) <= handed
    {
      hide Lines, Rest, Gather;
      asked := asked + 1;
      if |ready| > 0 {
        var reply := ready[0];
        assert ready == [reply] + ready[1..];
        ready := ready[1..];
        handed := handed + [reply];
      } else {
        waiting := true;
      }
    }
  }

  // The next line of what is held and what is still to be read: it ends in what is to be read.
  lemma NextLine(seen: string, todo: string, end: int) returns (m: nat)
    requires 0 <= end < |Rest(seen) + todo| && (Rest(seen) + todo)[end] == '\n'
    requires '\n' !in (Rest(seen) + todo)[..end]
    ensures m < |todo| && m == end - |Rest(seen)|
    ensures Lines(seen + todo[..m + 1]) == Lines(seen) + [StripReturn((Rest(seen) + todo)[..end])]
    ensures Rest(seen + todo[..m + 1]) == []
    ensures (Rest(seen) + todo)[end + 1..] == todo[m + 1..]
    ensures seen + todo[..m + 1] + todo[m + 1..] == seen + todo
  {
    hide Lines, Rest, Split;
    RestHasNoEnd(seen);
    m := end - |Rest(seen)|;
    assert (Rest(seen) + todo)[..end] == Rest(seen) + todo[..m];
    NoLineEnd(seen, todo[..m]);
    LineEnd(seen + todo[..m]);
    assert seen + todo[..m + 1] == seen + todo[..m] + ['\n'];
  }

  // What a reader holds and has handed over depends on the bytes and the number of replies asked for,
  // not on the pieces the bytes came in, nor on when the replies were asked for.
  lemma PiecesDoNotMatter(a: Reader, b: Reader)
    requires a.Valid() && b.Valid() && a.number == b.number && a.fed == b.fed
    ensures a.buffer == b.buffer && a.lines == b.lines && a.handed + a.ready == b.handed + b.ready
    ensures a.asked == b.asked ==> a.handed == b.handed && a.ready == b.ready && a.waiting == b.waiting
  {
    hide Lines, Rest, Gather;
    if a.asked == b.asked {
      var all := a.handed + a.ready;
      assert a.handed == all[..|a.handed|] && b.handed == all[..|b.handed|];
      assert a.ready == all[|a.handed|..] && b.ready == all[|b.handed|..];
    }
  }

  // ----- Replies as a server writes them: section 4.2.1 of RFC 5321 -----

  // A reply of one or more lines, all with the same code; a hyphen after it on every line but the last.
  datatype WireReply = WireReply(code: string, texts: seq<string>)

  predicate WireOk(w: WireReply) {
    && |w.code| == 3 && IsDigit(w.code[0]) && IsDigit(w.code[1]) && IsDigit(w.code[2])
    && |w.texts| > 0 && forall i :: 0 <= i < |w.texts| ==> '\n' !in w.texts[i]
  }

  function WireLine(w: WireReply, k: nat): string
    requires k < |w.texts|
  {
    w.code + [if k < |w.texts| - 1 then '-' else ' '] + w.texts[k]
  }

  function WireLines(w: WireReply, n: nat): seq<string>
    requires n <= |w.texts|
  {
    if n == 0 then [] else WireLines(w, n - 1) + [WireLine(w, n - 1)]
  }

  function Wire(w: WireReply, n: nat): string
    requires n <= |w.texts|
  {
    if n == 0 then [] else Wire(w, n - 1) + (WireLine(w, n - 1) + ['\r', '\n'])
  }

  function WireAll(ws: seq<WireReply>): string {
    if |ws| == 0 then []
    else WireAll(ws[..|ws| - 1]) + Wire(ws[|ws| - 1], |ws[|ws| - 1].texts|)
  }

  function Spaced(texts: seq<string>): string {
    if |texts| == 0 then []
    else if |texts| == 1 then texts[0]
    else Spaced(texts[..|texts| - 1]) + [' '] + texts[|texts| - 1]
  }

  function Meant(ws: seq<WireReply>, number: string -> int): seq<SmtpReply> {
    if |ws| == 0 then []
    else Meant(ws[..|ws| - 1], number) + [SmtpReply(number(ws[|ws| - 1].code), Spaced(ws[|ws| - 1].texts))]
  }

  lemma LineIsRead(before: string, line: string)
    requires Rest(before) == [] && '\n' !in line
    ensures Lines(before + (line + ['\r', '\n'])) == Lines(before) + [line]
    ensures Rest(before + (line + ['\r', '\n'])) == []
  {
    hide Lines, Rest;
    NoLineEnd(before, line + ['\r']);
    LineEnd(before + (line + ['\r']));
    assert before + (line + ['\r', '\n']) == before + (line + ['\r']) + ['\n'];
    assert [] + (line + ['\r']) == line + ['\r'];
    assert (line + ['\r'])[..|line|] == line;
  }

  lemma {:induction false} WireIsLines(before: string, w: WireReply, n: nat)
    requires Rest(before) == [] && WireOk(w) && n <= |w.texts|
    ensures Lines(before + Wire(w, n)) == Lines(before) + WireLines(w, n) && Rest(before + Wire(w, n)) == []
  {
    hide Lines, Rest;
    if n == 0 {
      assert before + [] == before && Lines(before) + [] == Lines(before);
    } else {
      WireIsLines(before, w, n - 1);
      LineIsRead(before + Wire(w, n - 1), WireLine(w, n - 1));
      assert before + Wire(w, n) == before + Wire(w, n - 1) + (WireLine(w, n - 1) + ['\r', '\n']);
      assert Lines(before) + WireLines(w, n - 1) + [WireLine(w, n - 1)] == Lines(before) + WireLines(w, n);
    }
  }

  lemma WireLineReads(w: WireReply, k: nat)
    requires WireOk(w) && k < |w.texts|
    ensures Continues(WireLine(w, k)) <==> k < |w.texts| - 1
    ensures Front(WireLine(w, k)) == w.code && Beyond(WireLine(w, k)) == w.texts[k]
  {
  }

  lemma {:induction false} WireJoined(w: WireReply, n: nat)
    requires WireOk(w) && n <= |w.texts|
    ensures |WireLines(w, n)| == n && Joined(WireLines(w, n)) == Spaced(w.texts[..n])
  {
    if n > 0 {
      WireJoined(w, n - 1);
      WireLineReads(w, n - 1);
      assert w.texts[..n][..n - 1] == w.texts[..n - 1];
      assert WireLines(w, n)[..n - 1] == WireLines(w, n - 1);
    }
  }

  lemma GatherMore(lines: seq<string>, line: string, number: string -> int)
    ensures var g := Gather(lines, number);
            Gather(lines + [line], number) ==
              if Continues(line) then Gathered(g.replies, g.pending + [line])
              else Gathered(g.replies + [ReplyOf(g.pending + [line], number)], [])
  {
    assert (lines + [line])[..|lines|] == lines;
  }

  // Until its last line, a reply is still coming.
  lemma {:induction false} WireComing(before: seq<string>, w: WireReply, n: nat, number: string -> int)
    requires WireOk(w) && n < |w.texts| && Gather(before, number).pending == []
    ensures Gather(before + WireLines(w, n), number) == Gathered(Gather(before, number).replies, WireLines(w, n))
  {
    if n == 0 {
      assert before + [] == before;
    } else {
      WireComing(before, w, n - 1, number);
      WireLineReads(w, n - 1);
      GatherMore(before + WireLines(w, n - 1), WireLine(w, n - 1), number);
      assert before + WireLines(w, n) == before + WireLines(w, n - 1) + [WireLine(w, n - 1)];
    }
  }

  lemma WireComes(before: seq<string>, w: WireReply, number: string -> int)
    requires WireOk(w) && Gather(before, number).pending == []
    ensures Gather(before + WireLines(w, |w.texts|), number) ==
      Gathered(Gather(before, number).replies + [SmtpReply(number(w.code), Spaced(w.texts))], [])
  {
    hide Gather, Joined, Spaced, Continues, Front, WireLine;
    var n := |w.texts|;
    WireComing(before, w, n - 1, number);
    WireLineReads(w, n - 1);
    GatherMore(before + WireLines(w, n - 1), WireLine(w, n - 1), number);
    assert before + WireLines(w, n) == before + WireLines(w, n - 1) + [WireLine(w, n - 1)];
    WireJoined(w, n);
    assert w.texts[..n] == w.texts;
  }

  // What a server writes is read back: each reply once, in order, its lines joined, nothing left over.
  lemma {:induction false} RepliesReadBack(ws: seq<WireReply>, number: string -> int)
    requires forall i :: 0 <= i < |ws| ==> WireOk(ws[i])
    ensures Gather(Lines(WireAll(ws)), number) == Gathered(Meant(ws, number), [])
    ensures Rest(WireAll(ws)) == []
  {
    hide Lines, Rest, Gather;
    if |ws| == 0 {
      NothingRead(number);
    } else {
      var init, w := ws[..|ws| - 1], ws[|ws| - 1];
      RepliesReadBack(init, number);
      WireIsLines(WireAll(init), w, |w.texts|);
      WireComes(Lines(WireAll(init)), w, number);
    }
  }

  lemma NothingRead(number: string -> int)
    ensures Gather(Lines([]), number) == Gathered([], []) && Rest([]) == []
  {
  }
}

