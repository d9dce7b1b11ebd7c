/** The audit ledger as bytes: complete lines, perhaps a partial one at the end, and the three
    ways src/pionir/audit.py cuts such a file up - at newlines from its end, in growing chunks,
    and with `str.splitlines`, which cuts at more than newlines. */
module LedgerBytes {

  newtype Byte = x: int | 0 <= x < 256
  type Bytes = seq<Byte>

  const NL: Byte := 10

  predicate OneLine(line: Bytes) { NL !in line }

  /** The file holding these lines, each with its newline. */
  function Render(lines: seq<Bytes>): Bytes {
    if lines == [] then [] else Render(lines[..|lines| - 1]) + lines[|lines| - 1] + [NL]
  }

  lemma {:induction false} RenderFront(lines: seq<Bytes>)
    requires lines != []
    ensures Render(lines) == lines[0] + [NL] + Render(lines[1..])
  {
    if |lines| > 1 {
      var shorter := lines[..|lines| - 1];
      RenderFront(shorter);
      assert shorter[1..] == lines[1..][..|lines| - 2];
    }
  }

  // ----- newlines counted and found from the end

  /** `data.rfind(b"\n")`. */
  function LastNewline(s: Bytes): (at: int)
    ensures -1 <= at < |s|
    ensures at >= 0 ==> s[at] == NL
    ensures forall i | at < i < |s| :: s[i] != NL
  {
    if s == [] then -1
    else if s[|s| - 1] == NL then |s| - 1
    else LastNewline(s[..|s| - 1])
  }

  function CountNewlines(s: Bytes): nat {
    if s == [] then 0 else CountNewlines(s[..|s| - 1]) + if s[|s| - 1] == NL then 1 else 0
  }

  lemma {:induction false} CountsAdd(a: Bytes, b: Bytes)
    ensures CountNewlines(a + b) == CountNewlines(a) + CountNewlines(b)
  {
    if b == [] {
      assert a + b == a;
    } else {
      assert (a + b)[..|a + b| - 1] == a + b[..|b| - 1];
      CountsAdd(a, b[..|b| - 1]);
    }
  }

  lemma {:induction false} NoneCounted(s: Bytes)
    ensures OneLine(s) <==> CountNewlines(s) == 0
  {
    if s != [] {
      NoneCounted(s[..|s| - 1]);
      assert s == s[..|s| - 1] + [s[|s| - 1]];
    }
  }

  /** Everything up to and including the last newline. */
  function CompletePart(s: Bytes): Bytes { s[..LastNewline(s) + 1] }

  /** `complete.rstrip(b"\n").rsplit(b"\n", 1)[-1]`. */
  function StripNewlines(s: Bytes): Bytes {
    if s != [] && s[|s| - 1] == NL then StripNewlines(s[..|s| - 1]) else s
  }

  function LastLine(complete: Bytes): Bytes {
    var stripped := StripNewlines(complete);
    stripped[LastNewline(stripped) + 1..]
  }

  lemma NewlineAt(s: Bytes, at: nat)
    requires at < |s| && s[at] == NL && OneLine(s[at + 1..])
    ensures LastNewline(s) == at
  {
    forall i | at < i < |s| ensures s[i] != NL {
      assert s[i] == s[at + 1..][i - at - 1];
    }
  }

  lemma LastOf(before: Bytes, line: Bytes)
    requires line != [] && OneLine(line)
    requires before == [] || before[|before| - 1] == NL
    ensures LastLine(before + line + [NL]) == line
  {
    var whole := before + line + [NL];
    var stripped := before + line;
    assert whole[..|whole| - 1] == stripped;
    assert stripped[|stripped| - 1] == line[|line| - 1] && line[|line| - 1] in line;
    assert StripNewlines(whole) == StripNewlines(stripped) == stripped;
    if before == [] {
      assert stripped == line;
    } else {
      assert stripped[|before|..] == line;
      NewlineAt(stripped, |before| - 1);
    }
  }

  predicate IsLedger(file: Bytes, lines: seq<Bytes>, partial: Bytes) {
    && file == Render(lines) + partial && OneLine(partial)
    && forall i | 0 <= i < |lines| :: lines[i] != [] && OneLine(lines[i])
  }

  /** What is read from the file's end, once it holds a newline, splits off the same partial
      line as the whole file. */
  lemma PartialOfSuffix(file: Bytes, lines: seq<Bytes>, partial: Bytes, from: nat)
    requires IsLedger(file, lines, partial) && from <= |file|
    requires CountNewlines(file[from..]) > 0 || from == 0
    ensures |CompletePart(file[from..])| == |file| - from - |partial|
    ensures from + |partial| <= |file| && CompletePart(file[from..]) == Render(lines)[from..]
  {
    var data, complete := file[from..], Render(lines);
    if lines == [] {
      assert data == partial[from..];
      NoneCounted(data);
      assert OneLine(data);
    } else {
      assert complete[|complete| - 1] == NL;
      if from >= |complete| {
        assert data == partial[from - |complete|..];
        NoneCounted(data);
      } else {
        var at := |complete| - 1 - from;
        assert data[at] == NL && data[at + 1..] == partial;
        NewlineAt(data, at);
      }
    }
  }

  lemma OneNewline(line: Bytes, partial: Bytes, from: nat)
    requires OneLine(line) && OneLine(partial) && from <= |line| + 1 + |partial|
    ensures CountNewlines((line + [NL] + partial)[from..]) <= 1
  {
    var s := line + [NL] + partial;
    assert s == s[..from] + s[from..];
    CountsAdd(s[..from], s[from..]);
    CountsAdd(line + [NL], partial);
    CountsAdd(line, [NL]);
    NoneCounted(line);
    NoneCounted(partial);
    assert [NL][..0] == [];
  }

  /** ... and once it holds two, the same last line. */
  lemma TailOfSuffix(file: Bytes, lines: seq<Bytes>, partial: Bytes, from: nat)
    requires IsLedger(file, lines, partial) && from <= |file|
    requires CountNewlines(file[from..]) >= 2 || from == 0
    ensures |file| - from - |CompletePart(file[from..])| == |partial|
    ensures LastLine(CompletePart(file[from..])) == if lines == [] then [] else lines[|lines| - 1]
  {
    PartialOfSuffix(file, lines, partial, from);
    if lines != [] {
      var line, before := lines[|lines| - 1], Render(lines[..|lines| - 1]);
      if from > |before| {
        assert file[from..] == (line + [NL] + partial)[from - |before|..];
        OneNewline(line, partial, from - |before|);
      }
      assert Render(lines)[from..] == before[from..] + line + [NL];
      LastOf(before[from..], line);
    }
  }

  // ----- str.splitlines

  /** How many bytes the line break at `i` takes, 0 if there is none: \n, \v, \f, \x1c-\x1e,
      \r or \r\n, and in UTF-8 the characters U+0085, U+2028 and U+2029. */
  function BreakAt(s: Bytes, i: nat): (width: nat)
    requires i < |s|
    ensures i + width <= |s|
  {
    var c := s[i];
    if c == 10 || c == 11 || c == 12 || c == 28 || c == 29 || c == 30 then 1
    else if c == 13 then if i + 1 < |s| && s[i + 1] == 10 then 2 else 1
    else if c == 0xC2 && i + 1 < |s| && s[i + 1] == 0x85 then 2
    else if c == 0xE2 && i + 2 < |s| && s[i + 1] == 0x80 && (s[i + 2] == 0xA8 || s[i + 2] == 0xA9) then 3
    else 0
  }

  function FirstBreak(s: Bytes, from: nat): (at: nat)
    requires from <= |s|
    ensures from <= at <= |s|
    ensures forall i | from <= i < at :: BreakAt(s, i) == 0
    ensures at < |s| ==> BreakAt(s, at) > 0
    decreases |s| - from
  {
    if from == |s| || BreakAt(s, from) > 0 then from else FirstBreak(s, from + 1)
  }

  function SplitLines(s: Bytes): seq<Bytes> {
    if s == [] then []
    else
      var at := FirstBreak(s, 0);
      if at == |s| then [s] else [s[..at]] + SplitLines(s[at + BreakAt(s, at)..])
  }

  predicate BreakFree(s: Bytes) { FirstBreak(s, 0) == |s| }

  lemma FirstBreakAt(s: Bytes, at: nat)
    requires at < |s| && BreakAt(s, at) > 0
    requires forall i | 0 <= i < at :: BreakAt(s, i) == 0
    ensures FirstBreak(s, 0) == at
  {
    var found := FirstBreak(s, 0);
    assert !(at < found) && !(found < at);
  }

  /** The first break of a line is the first break of the file that starts with it. */
  lemma BreakInContext(line: Bytes, rest: Bytes)
    requires OneLine(line)
    ensures FirstBreak(line + [NL] + rest, 0) == FirstBreak(line, 0)
    ensures BreakFree(line) ==> BreakAt(line + [NL] + rest, |line|) == 1
  {
    var s, at := line + [NL] + rest, FirstBreak(line, 0);
    forall i | 0 <= i < at ensures BreakAt(s, i) == 0 {
      assert BreakAt(line, i) == 0;
    }
    if at < |line| {
      assert BreakAt(line, at) > 0;
    }
    FirstBreakAt(s, at);
  }

  lemma SplitOnce(s: Bytes)
    requires s != []
    ensures SplitLines(s) == [s[..FirstBreak(s, 0)]] + SplitLines(AfterBreak(s, FirstBreak(s, 0)))
  {
    var at := FirstBreak(s, 0);
    if at == |s| {
      assert s[..at] == s;
    }
  }

  /** What `SplitLines` has left after the first line. */
  function AfterBreak(s: Bytes, at: nat): Bytes
    requires at <= |s|
  {
    if at == |s| then [] else s[at + BreakAt(s, at)..]
  }

  lemma SplitFront(line: Bytes, after: Bytes)
    requires OneLine(line) && BreakFree(line)
    ensures SplitLines(line + [NL] + after) == [line] + SplitLines(after)
  {
    var s := line + [NL] + after;
    BreakInContext(line, after);
    SplitOnce(s);
    assert s[|line| + 1..] == after && s[..|line|] == line;
  }

  lemma FrontOf<T>(s: seq<T>, rest: seq<T>)
    requires s != []
    ensures [s[0]] + (s[1..] + rest) == s + rest
  {
  }

  /** Lines without breaks of their own come out as they went in. */
  lemma {:induction false} SplitRendered(lines: seq<Bytes>, rest: Bytes)
    requires forall i | 0 <= i < |lines| :: OneLine(lines[i]) && BreakFree(lines[i])
    ensures SplitLines(Render(lines) + rest) == lines + SplitLines(rest)
  {
    if lines == [] {
      assert Render(lines) + rest == rest;
      assert lines + SplitLines(rest) == SplitLines(rest);
    } else {
      SplitRendered(lines[1..], rest);
      SplitOneMore(lines, rest, SplitLines(rest));
    }
  }

  lemma SplitOneMore(lines: seq<Bytes>, rest: Bytes, split: seq<Bytes>)
    requires lines != [] && OneLine(lines[0]) && BreakFree(lines[0])
    requires SplitLines(Render(lines[1..]) + rest) == lines[1..] + split
    ensures SplitLines(Render(lines) + rest) == lines + split
  {
    RenderThen(lines, rest);
    SplitFront(lines[0], Render(lines[1..]) + rest);
    FrontOf(lines, split);
  }

  lemma RenderThen(lines: seq<Bytes>, rest: Bytes)
    requires lines != []
    ensures Render(lines) + rest == lines[0] + [NL] + (Render(lines[1..]) + rest)
  {
    RenderFront(lines);
  }

  lemma {:induction false} AtLeastTheNewlines(s: Bytes)
    ensures |SplitLines(s)| >= CountNewlines(s)
    decreases |s|
  {
    if s != [] {
      var at := FirstBreak(s, 0);
      NoNewlineBefore(s, at);
      if at == |s| {
        assert s[..at] == s;
      } else {
        var width := BreakAt(s, at);
        AtLeastTheNewlines(s[at + width..]);
        assert s == s[..at] + s[at..at + width] + s[at + width..];
        CountsAdd(s[..at] + s[at..at + width], s[at + width..]);
        CountsAdd(s[..at], s[at..at + width]);
        OneInABreak(s, at);
      }
    }
  }

  lemma NoNewlineBefore(s: Bytes, at: nat)
    requires at <= |s| && forall i | 0 <= i < at :: BreakAt(s, i) == 0
    ensures CountNewlines(s[..at]) == 0
  {
    NoneCounted(s[..at]);
    forall i | 0 <= i < at ensures s[i] != NL {
      assert BreakAt(s, i) == 0;
    }
  }

  lemma OneInABreak(s: Bytes, at: nat)
    requires at < |s| && BreakAt(s, at) > 0
    ensures CountNewlines(s[at..at + BreakAt(s, at)]) <= 1
  {
    var width := BreakAt(s, at);
    var b := s[at..at + width];
    if width == 1 {
      assert b[..0] == [];
    } else if width == 2 {
      assert b == b[..1] + b[1..] && b[..1][..0] == [] && b[1..][..0] == [];
      CountsAdd(b[..1], b[1..]);
    } else {
      NoneCounted(b);
    }
  }

  predicate IsSuffix<T(==)>(end: seq<T>, whole: seq<T>) {
    |end| <= |whole| && whole[|whole| - |end|..] == end
  }

  lemma SuffixOfRest<T>(end: seq<T>, first: T, rest: seq<T>)
    requires IsSuffix(end, rest)
    ensures IsSuffix(end, [first] + rest)
  {
  }

  lemma BreakShift(s: Bytes, from: nat, i: nat)
    requires from + i < |s|
    ensures BreakAt(s[from..], i) == BreakAt(s, from + i)
  {
  }

  lemma {:induction false} FirstBreakShift(s: Bytes, from: nat, i: nat)
    requires from + i <= |s|
    ensures from + FirstBreak(s[from..], i) == FirstBreak(s, from + i)
    decreases |s| - i
  {
    if from + i < |s| {
      BreakShift(s, from, i);
      FirstBreakShift(s, from, i + 1);
    }
  }

  lemma AfterBreakShift(s: Bytes, from: nat, at: nat)
    requires from <= at <= |s|
    ensures AfterBreak(s[from..], at - from) == AfterBreak(s, at)
  {
    if at < |s| {
      BreakShift(s, from, at - from);
      assert s[from..][at - from + BreakAt(s, at)..] == s[at + BreakAt(s, at)..];
    }
  }

  /** From anywhere at or before a break, what comes after the break is the same. */
  lemma SameRest(s: Bytes, from: nat)
    requires from < |s|
    ensures var at := FirstBreak(s, from);
      SplitLines(s[from..]) == [s[from..][..at - from]] + SplitLines(AfterBreak(s, at))
  {
    var at := FirstBreak(s, from);
    FirstBreakShift(s, from, 0);
    SplitOnce(s[from..]);
    AfterBreakShift(s, from, at);
  }

  lemma {:induction false} BreakBetween(s: Bytes, from: nat, to: nat)
    requires from <= to <= |s| && to <= FirstBreak(s, from)
    ensures FirstBreak(s, to) == FirstBreak(s, from)
    decreases |s| - from
  {
    if from < to {
      assert FirstBreak(s, from) == FirstBreak(s, from + 1);
      BreakBetween(s, from + 1, to);
    }
  }

  lemma Whole<T>(s: seq<T>)
    ensures IsSuffix(s, s)
  {
  }

  /** `after` is what the lines from `from` on are, the first left out. */
  ghost predicate RestFrom(s: Bytes, from: nat, after: seq<Bytes>)
    requires from <= |s|
  {
    SplitLines(s[from..]) != [] && SplitLines(s[from..])[1..] == after
  }

  lemma RestOf(s: Bytes, from: nat) returns (after: seq<Bytes>)
    requires from < |s|
    ensures after == SplitLines(AfterBreak(s, FirstBreak(s, from))) && RestFrom(s, from, after)
  {
    SameRest(s, from);
    after := SplitLines(AfterBreak(s, FirstBreak(s, from)));
  }

  predicate EndsAlike(s: Bytes, from: nat)
    requires from < |s|
  {
    SplitLines(s[from..]) != [] && IsSuffix(SplitLines(s[from..])[1..], SplitLines(s))
  }

  /** Two places in the file whose lines, the first left out, are the same. */
  lemma SameEnds(s: Bytes, from: nat, after: seq<Bytes>)
    requires from < |s| && RestFrom(s, from, after) && IsSuffix(after, SplitLines(s))
    ensures EndsAlike(s, from)
  {
  }

  lemma EndOf(s: Bytes, from: nat, after: seq<Bytes>)
    requires from < |s| && RestFrom(s, from, after)
    ensures IsSuffix(after, SplitLines(s[from..]))
  {
  }

  lemma InFirstLine(s: Bytes, from: nat)
    requires from < |s| && from <= FirstBreak(s, 0)
    ensures EndsAlike(s, from)
  {
    var after := RestOf(s, from);
    BreakBetween(s, 0, from);
    var whole := RestOf(s, 0);
    assert s[0..] == s;
    EndOf(s, 0, whole);
    SameEnds(s, from, after);
  }

  lemma AfterFirst(s: Bytes, start: nat, after: seq<Bytes>)
    requires FirstBreak(s, 0) < |s| && start == FirstBreak(s, 0) + BreakAt(s, FirstBreak(s, 0))
    requires IsSuffix(after, SplitLines(s[start..]))
    ensures IsSuffix(after, SplitLines(s))
  {
    var at := FirstBreak(s, 0);
    SplitOnce(s);
    assert AfterBreak(s, at) == s[start..];
    SuffixOfRest(after, s[..at], SplitLines(s[start..]));
  }

  lemma LaterLine(s: Bytes, start: nat, from: nat)
    requires start <= from < |s| && FirstBreak(s, 0) < |s| && start == FirstBreak(s, 0) + BreakAt(s, FirstBreak(s, 0))
    requires EndsAlike(s[start..], from - start)
    ensures EndsAlike(s, from)
  {
    assert s[start..][from - start..] == s[from..];
    AfterFirst(s, start, SplitLines(s[from..])[1..]);
  }

  predicate InFirstBreak(s: Bytes, from: nat) {
    FirstBreak(s, 0) < from < |s| && FirstBreak(s, 0) + BreakAt(s, FirstBreak(s, 0)) > from
  }

  /** Between \r and \n: the \n alone ends an empty line. */
  lemma BetweenCrLf(s: Bytes, from: nat)
    requires InFirstBreak(s, from) && s[FirstBreak(s, 0)] == 13
    ensures EndsAlike(s, from)
  {
    var after := RestOf(s, from);
    assert s[from] == 10 && BreakAt(s, from) == 1;
    assert FirstBreak(s, from) == from && AfterBreak(s, from) == s[from + 1..];
    assert BreakAt(s, FirstBreak(s, 0)) == 2 && from == FirstBreak(s, 0) + 1;
    Whole(after);
    AfterFirst(s, from + 1, after);
    SameEnds(s, from, after);
  }

  /** In the middle of a character that is a break: there is no other break inside it. */
  lemma InsideBreak(s: Bytes, from: nat)
    requires InFirstBreak(s, from) && s[FirstBreak(s, 0)] != 13
    ensures EndsAlike(s, from)
  {
    var at := FirstBreak(s, 0);
    var end := at + BreakAt(s, at);
    var after := RestOf(s, from);
    NoneInside(s, at, from);
    BreakBetween(s, from, end);
    if end < |s| {
      var next := RestOf(s, end);
      EndOf(s, end, next);
    } else {
      NothingAfter(s, after);
    }
    AfterFirst(s, end, after);
    SameEnds(s, from, after);
  }

  lemma NothingAfter(s: Bytes, after: seq<Bytes>)
    requires after == SplitLines(AfterBreak(s, |s|))
    ensures after == [] && IsSuffix(after, SplitLines(s[|s|..]))
  {
  }

  /** Splitting from anywhere in the file gives, after the first line, lines the whole file
      ends with - even from the middle of a character or between \r and \n. */
  lemma {:induction false} MidFileSplit(s: Bytes, from: nat)
    requires from < |s|
    ensures EndsAlike(s, from)
    decreases |s|
  {
    var at := FirstBreak(s, 0);
    if from <= at {
      InFirstLine(s, from);
    } else if at + BreakAt(s, at) <= from {
      MidFileSplit(s[at + BreakAt(s, at)..], from - at - BreakAt(s, at));
      LaterLine(s, at + BreakAt(s, at), from);
    } else if s[at] == 13 {
      BetweenCrLf(s, from);
    } else {
      InsideBreak(s, from);
    }
  }

  lemma NoneInside(s: Bytes, at: nat, from: nat)
    requires at < from < |s| && BreakAt(s, at) > from - at && s[at] != 13
    ensures FirstBreak(s, from) >= at + BreakAt(s, at)
  {
    assert BreakAt(s, from) == 0;
    if from == at + 1 && BreakAt(s, at) == 3 {
      assert BreakAt(s, from + 1) == 0;
    }
  }

  function LastN<T>(s: seq<T>, n: nat): seq<T> { if n >= |s| then s else s[|s| - n..] }

  lemma SameEnd<T>(end: seq<T>, whole: seq<T>, n: nat)
    requires IsSuffix(end, whole) && n <= |end|
    ensures LastN(end, n) == LastN(whole, n)
  {
  }
}
