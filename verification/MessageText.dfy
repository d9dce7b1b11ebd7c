/** `split_message` of src/pionir/discord_gate.py: a long text into Discord-sized chunks, cut
    at line ends, with a code block that a cut falls into closed and opened again. */
module MessageText {
  import opened Wrappers

  const FENCE := "```"
  const CLOSING := |FENCE| + 1    // what closing a block adds: a newline and the fence

  // ----- lines and pieces

  predicate OneLine(s: string) { '\n' !in s }

  /** `text.split("\n")`: always at least one line. */
  function Lines(text: string): (lines: seq<string>)
    ensures lines != [] && forall i | 0 <= i < |lines| :: OneLine(lines[i])
  {
    if text == "" then [""]
    else
      var before := Lines(text[..|text| - 1]);
      var c := text[|text| - 1];
      if c == '\n' then before + [""]
      else before[..|before| - 1] + [before[|before| - 1] + [c]]
  }

  /** `"\n".join(rows)`. */
  function Join(rows: seq<string>): string {
    if rows == [] then ""
    else if |rows| == 1 then rows[0]
    else Join(rows[..|rows| - 1]) + "\n" + rows[|rows| - 1]
  }

  /** An over-long line, hard-split. */
  function Pieces(line: string, max: nat): (pieces: seq<string>)
    requires max > 0
    ensures pieces != []
    ensures OneLine(line) ==> forall i | 0 <= i < |pieces| :: OneLine(pieces[i])
    ensures forall i | 0 <= i < |pieces| :: |pieces[i]| <= max
  {
    if |line| <= max then [line] else [line[..max]] + Pieces(line[max..], max)
  }

  function AllPieces(lines: seq<string>, max: nat): (pieces: seq<string>)
    requires max > 0
    ensures (forall i | 0 <= i < |lines| :: OneLine(lines[i])) ==> forall i | 0 <= i < |pieces| :: OneLine(pieces[i])
    ensures forall i | 0 <= i < |pieces| :: |pieces[i]| <= max
    ensures lines != [] ==> pieces != []
  {
    if lines == [] then [] else AllPieces(lines[..|lines| - 1], max) + Pieces(lines[|lines| - 1], max)
  }

  function Concat(rows: seq<string>): string {
    if rows == [] then "" else rows[0] + Concat(rows[1..])
  }

  /** Splitting into lines and joining them again is the identity; hard-splitting a line loses
      none of it. */
  lemma {:induction false} LinesJoin(text: string)
    ensures Join(Lines(text)) == text
  {
    if text != "" {
      var before := Lines(text[..|text| - 1]);
      LinesJoin(text[..|text| - 1]);
      assert text == text[..|text| - 1] + [text[|text| - 1]];
      assert Lines(text)[..|Lines(text)| - 1] == before || Lines(text)[..|Lines(text)| - 1] == before[..|before| - 1];
    }
  }

  lemma {:induction false} PiecesConcat(line: string, max: nat)
    requires max > 0
    ensures Concat(Pieces(line, max)) == line
  {
    if |line| > max {
      PiecesConcat(line[max..], max);
      var pieces := Pieces(line, max);
      assert pieces[1..] == Pieces(line[max..], max);
    }
  }

  lemma LinesOfNewline(text: string)
    ensures Lines(text + "\n") == Lines(text) + [""]
  {
    assert (text + "\n")[..|text|] == text;
  }

  function OntoLast(lines: seq<string>, more: string): seq<string>
    requires lines != []
  {
    lines[..|lines| - 1] + [lines[|lines| - 1] + more]
  }

  lemma OntoTwice(lines: seq<string>, more: string, rest: string)
    requires lines != []
    ensures OntoLast(OntoLast(lines, more), rest) == OntoLast(lines, more + rest)
    ensures OntoLast(lines, "") == lines
  {
    assert lines[|lines| - 1] + (more + rest) == lines[|lines| - 1] + more + rest;
    assert lines[|lines| - 1] + "" == lines[|lines| - 1];
  }

  lemma LinesOfChar(text: string, c: char)
    requires c != '\n'
    ensures Lines(text + [c]) == OntoLast(Lines(text), [c])
  {
    assert (text + [c])[..|text|] == text;
  }

  lemma {:induction false} LinesOfLine(text: string, line: string)
    requires OneLine(line)
    ensures Lines(text + line) == OntoLast(Lines(text), line)
  {
    if line == "" {
      assert text + line == text;
      OntoTwice(Lines(text), "", "");
    } else {
      var shorter, c := line[..|line| - 1], line[|line| - 1];
      assert c in line;
      LinesOfLine(text, shorter);
      assert line == shorter + [c] && text + line == (text + shorter) + [c];
      LinesStep(text + shorter, c, Lines(text), shorter);
    }
  }

  lemma LinesStep(front: string, c: char, lines: seq<string>, last: string)
    requires c != '\n' && lines != [] && Lines(front) == OntoLast(lines, last)
    ensures Lines(front + [c]) == OntoLast(lines, last + [c])
  {
    LinesOfChar(front, c);
    OntoTwice(lines, last, [c]);
  }

  lemma NewLine(text: string, line: string)
    requires OneLine(line)
    ensures Lines(text + "\n" + line) == Lines(text) + [line]
  {
    LinesOfNewline(text);
    LinesOfLine(text + "\n", line);
    assert "" + line == line;
  }

  /** What was joined from single lines splits into the same lines. */
  lemma {:induction false} JoinLines(rows: seq<string>)
    requires rows != [] && forall i | 0 <= i < |rows| :: OneLine(rows[i])
    ensures Lines(Join(rows)) == rows
  {
    var last := rows[|rows| - 1];
    if |rows| == 1 {
      LinesOfLine("", last);
      assert "" + last == last;
      assert rows == [last];
    } else {
      JoinLines(rows[..|rows| - 1]);
      NewLine(Join(rows[..|rows| - 1]), last);
      assert rows == rows[..|rows| - 1] + [last];
    }
  }

  // ----- code blocks

  predicate IsFence(line: string) { FENCE <= line }

  /** The opener of the code block these lines end inside, if any. */
  function FenceAfter(rows: seq<string>): (fence: Option<string>)
    ensures fence.Some? ==> IsFence(fence.value) && fence.value in rows
  {
    if rows == [] then None
    else
      var before := FenceAfter(rows[..|rows| - 1]);
      var line := rows[|rows| - 1];
      if !IsFence(line) then before else if before.Some? then None else Some(line)
  }

  function Opener(fence: Option<string>): seq<string> { if fence.Some? then [fence.value] else [] }

  /** Pieces `from` to `to` as a chunk opens them: the block they fall into first. */
  function Opening(pieces: seq<string>, from: nat, to: nat): seq<string>
    requires from <= to <= |pieces|
  {
    Opener(FenceAfter(pieces[..from])) + pieces[from..to]
  }

  /** The text ends a chunk inside a code block that goes on in the next one. */
  predicate Broken(pieces: seq<string>, to: nat)
    requires to <= |pieces|
  {
    to < |pieces| && FenceAfter(pieces[..to]).Some?
  }

  /** ... and closed again. */
  function Rows(pieces: seq<string>, from: nat, to: nat): seq<string>
    requires from <= to <= |pieces|
  {
    Opening(pieces, from, to) + if Broken(pieces, to) then [FENCE] else []
  }

  /** What is set aside for a closing fence when piece `at` is weighed. */
  function Reserve(pieces: seq<string>, at: nat): nat
    requires at <= |pieces|
  {
    if FenceAfter(pieces[..at]).Some? then CLOSING else 0
  }

  /** The chunk that began with piece `from` still takes piece `at`. */
  predicate Takes(pieces: seq<string>, from: nat, at: nat, cap: nat)
    requires from <= at < |pieces|
  {
    |Join(Opening(pieces, from, at + 1))| + Reserve(pieces, at) <= cap
  }

  predicate Held(pieces: seq<string>, from: nat, to: nat, cap: nat)
    requires to <= |pieces|
  {
    forall at | from < at < to :: Takes(pieces, from, at, cap)
  }

  /** Pieces `from` to `to` make this chunk, and it could not take one more. */
  predicate IsChunk(pieces: seq<string>, from: nat, to: nat, cap: nat, chunk: string) {
    && from < to <= |pieces|
    && Held(pieces, from, to, cap)
    && (to < |pieces| ==> !Takes(pieces, from, to, cap))
    && chunk == Join(Rows(pieces, from, to))
  }

  function Cap(first: nat, limit: nat, k: nat): nat { if k == 0 then first else limit }

  /** Chunk `k` is made of the pieces from `cuts[k]` to `cuts[k + 1]`. */
  predicate CutSoFar(pieces: seq<string>, first: nat, limit: nat, cuts: seq<nat>, chunks: seq<string>) {
    && |cuts| == |chunks| + 1 && cuts[0] == 0 && cuts[|chunks|] <= |pieces|
    && forall k, n | 0 <= k && n == k + 1 < |cuts| :: IsChunk(pieces, cuts[k], cuts[n], Cap(first, limit, k), chunks[k])
  }

  predicate Cut(pieces: seq<string>, first: nat, limit: nat, cuts: seq<nat>, chunks: seq<string>) {
    CutSoFar(pieces, first, limit, cuts, chunks) && cuts[|chunks|] == |pieces|
  }

  lemma PushChunk(pieces: seq<string>, first: nat, limit: nat, cuts: seq<nat>, chunks: seq<string>, to: nat, chunk: string)
    requires CutSoFar(pieces, first, limit, cuts, chunks)
    requires IsChunk(pieces, cuts[|chunks|], to, Cap(first, limit, |chunks|), chunk)
    ensures CutSoFar(pieces, first, limit, cuts + [to], chunks + [chunk])
  {
    forall k, n | 0 <= k && n == k + 1 < |cuts + [to]|
      ensures IsChunk(pieces, (cuts + [to])[k], (cuts + [to])[n], Cap(first, limit, k), (chunks + [chunk])[k])
    {
      if n < |cuts| {
        assert IsChunk(pieces, cuts[k], cuts[n], Cap(first, limit, k), chunks[k]);
      }
    }
  }

  /** The longest piece: room is kept for a block's opener and closing. */
  function PieceMax(first: nat, limit: nat): int { (if first < limit then first else limit) - 40 }

  method HardSplit(text: string, max: nat) returns (pieces: seq<string>)
    requires max > 0
    ensures pieces == AllPieces(Lines(text), max)
  {
    var lines := Lines(text);
    pieces := [];
    for i := 0 to |lines|
      invariant pieces == AllPieces(lines[..i], max)
    {
      var line := lines[i];
      ghost var before := pieces;
      while |line| > max
        invariant pieces + Pieces(line, max) == before + Pieces(lines[i], max)
        decreases |line|
      {
        assert pieces + ([line[..max]] + Pieces(line[max..], max)) == (pieces + [line[..max]]) + Pieces(line[max..], max);
        pieces := pieces + [line[..max]];
        line := line[max..];
      }
      pieces := pieces + [line];
      assert lines[..i + 1][..i] == lines[..i];
    }
    assert lines[..|lines|] == lines;
  }

  /** One more piece in the open chunk. */
  lemma OneMore(pieces: seq<string>, from: nat, at: nat)
    requires from <= at < |pieces|
    ensures Opening(pieces, from, at + 1) == Opening(pieces, from, at) + [pieces[at]]
    ensures FenceAfter(pieces[..at + 1]) ==
      if !IsFence(pieces[at]) then FenceAfter(pieces[..at])
      else if FenceAfter(pieces[..at]).Some? then None else Some(pieces[at])
  {
    assert pieces[..at + 1][..at] == pieces[..at];
    assert pieces[from..at + 1] == pieces[from..at] + [pieces[at]];
  }

  /** Where the loop of `SplitMessage` stands before piece `at`. */
  ghost predicate Here(pieces: seq<string>, first: nat, limit: nat, cuts: seq<nat>, chunks: seq<string>,
                       current: seq<string>, fence: Option<string>, at: nat) {
    && at <= |pieces|
    && CutSoFar(pieces, first, limit, cuts, chunks)
    && cuts[|chunks|] <= at
    && (if at == 0 then cuts == [0] else cuts[|chunks|] < at)
    && fence == FenceAfter(pieces[..at])
    && current == Opening(pieces, cuts[|chunks|], at)
    && Held(pieces, cuts[|chunks|], at, Cap(first, limit, |chunks|))
  }

  function Closed(current: seq<string>, fence: Option<string>): seq<string> {
    current + if fence.Some? then [FENCE] else []
  }

  function Turned(fence: Option<string>, line: string): Option<string> {
    if !IsFence(line) then fence else if fence.Some? then None else Some(line)
  }

  function Weight(current: seq<string>, fence: Option<string>, line: string): nat {
    |Join(current + [line])| + if fence.Some? then CLOSING else 0
  }

  lemma Keeps(pieces: seq<string>, first: nat, limit: nat, cuts: seq<nat>, chunks: seq<string>,
              current: seq<string>, fence: Option<string>, at: nat)
    requires Here(pieces, first, limit, cuts, chunks, current, fence, at) && at < |pieces|
    requires current == [] || Weight(current, fence, pieces[at]) <= Cap(first, limit, |chunks|)
    ensures Here(pieces, first, limit, cuts, chunks, current + [pieces[at]], Turned(fence, pieces[at]), at + 1)
  {
    OneMore(pieces, cuts[|chunks|], at);
    if cuts[|chunks|] < at {
      assert current != [];
      assert Takes(pieces, cuts[|chunks|], at, Cap(first, limit, |chunks|));
    }
  }

  lemma Cuts(pieces: seq<string>, first: nat, limit: nat, cuts: seq<nat>, chunks: seq<string>,
             current: seq<string>, fence: Option<string>, at: nat)
    requires Here(pieces, first, limit, cuts, chunks, current, fence, at) && at < |pieces|
    requires current != [] && Weight(current, fence, pieces[at]) > Cap(first, limit, |chunks|)
    ensures Here(pieces, first, limit, cuts + [at], chunks + [Join(Closed(current, fence))],
                 Opener(fence) + [pieces[at]], Turned(fence, pieces[at]), at + 1)
  {
    OneMore(pieces, cuts[|chunks|], at);
    OneMore(pieces, at, at);
    assert pieces[at..at] == [];
    PushChunk(pieces, first, limit, cuts, chunks, at, Join(Closed(current, fence)));
  }

  lemma Ends(pieces: seq<string>, first: nat, limit: nat, cuts: seq<nat>, chunks: seq<string>,
             current: seq<string>, fence: Option<string>)
    requires Here(pieces, first, limit, cuts, chunks, current, fence, |pieces|) && pieces != []
    ensures current != []
    ensures Cut(pieces, first, limit, cuts + [|pieces|], chunks + [Join(current)])
  {
    assert Rows(pieces, cuts[|chunks|], |pieces|) == current + [] == current;
    PushChunk(pieces, first, limit, cuts, chunks, |pieces|, Join(current));
  }

  method SplitMessage(text: string, first: nat, limit: nat) returns (chunks: seq<string>)
    requires PieceMax(first, limit) > 0
    ensures exists cuts :: Cut(AllPieces(Lines(text), PieceMax(first, limit)), first, limit, cuts, chunks)
    ensures ShortOpeners(AllPieces(Lines(text), PieceMax(first, limit))) ==>
      forall k | 0 <= k < |chunks| :: |chunks[k]| <= Cap(first, limit, k) + CLOSING
  {
    var pieces := HardSplit(text, PieceMax(first, limit));
    ghost var cuts: seq<nat>;
    chunks, cuts := Gather(pieces, first, limit);
    if ShortOpeners(pieces) {
      EveryChunkFits(text, first, limit, cuts, chunks);
    }
  }

  lemma Starts(pieces: seq<string>, first: nat, limit: nat)
    ensures Here(pieces, first, limit, [0], [], [], None, 0)
  {
  }

  method Gather(pieces: seq<string>, first: nat, limit: nat) returns (chunks: seq<string>, ghost cuts: seq<nat>)
    requires pieces != []
    ensures Cut(pieces, first, limit, cuts, chunks)
  {
    cuts := [0];
    chunks := [];
    var current: seq<string> := [];
    var fence: Option<string> := None;
    Starts(pieces, first, limit);
    for i := 0 to |pieces|
      invariant Here(pieces, first, limit, cuts, chunks, current, fence, i)
    {
      var line := pieces[i];
      ghost var turned := Turned(fence, line);
      var full := Overflows(current, fence, line, if chunks == [] then first else limit);
      if full {
        Cuts(pieces, first, limit, cuts, chunks, current, fence, i);
        ghost var closed := Closed(current, fence);
        if fence.Some? {
          current := current + [FENCE];
        }
        assert current == closed;
        chunks := chunks + [Join(current)];
        cuts := cuts + [i];
        current := if fence.Some? then [fence.value] else [];
      } else {
        Keeps(pieces, first, limit, cuts, chunks, current, fence, i);
      }
      current := current + [line];
      if IsFence(line) {
        fence := if fence.Some? then None else Some(line);
      }
      assert fence == turned;
    }
    Ends(pieces, first, limit, cuts, chunks, current, fence);
    if current != [] {
      chunks := chunks + [Join(current)];
      cuts := cuts + [|pieces|];
    }
  }

  predicate Overflows(current: seq<string>, fence: Option<string>, line: string, cap: nat) {
    current != [] && Weight(current, fence, line) > cap
  }

  // ----- what the chunks are worth

  lemma JoinMore(rows: seq<string>, row: string)
    ensures Join(rows + [row]) == if rows == [] then row else Join(rows) + "\n" + row
  {
    assert (rows + [row])[..|rows|] == rows;
  }

  /** No other chunks satisfy the rule: it decides every cut. */
  lemma {:induction false} SameCuts(pieces: seq<string>, first: nat, limit: nat,
                                    cuts: seq<nat>, chunks: seq<string>, others: seq<nat>, texts: seq<string>, k: nat)
    requires Cut(pieces, first, limit, cuts, chunks) && Cut(pieces, first, limit, others, texts)
    requires k < |cuts| && k < |others|
    ensures cuts[k] == others[k]
  {
    if k > 0 {
      SameCuts(pieces, first, limit, cuts, chunks, others, texts, k - 1);
      var cap := Cap(first, limit, k - 1);
      assert IsChunk(pieces, cuts[k - 1], cuts[k], cap, chunks[k - 1]);
      assert IsChunk(pieces, others[k - 1], others[k], cap, texts[k - 1]);
    }
  }

  lemma {:induction false} CutsRise(pieces: seq<string>, first: nat, limit: nat, cuts: seq<nat>, chunks: seq<string>, i: nat, j: nat)
    requires Cut(pieces, first, limit, cuts, chunks) && i < j < |cuts|
    ensures cuts[i] < cuts[j] <= |pieces|
  {
    assert IsChunk(pieces, cuts[j - 1], cuts[j], Cap(first, limit, j - 1), chunks[j - 1]);
    if i < j - 1 {
      CutsRise(pieces, first, limit, cuts, chunks, i, j - 1);
    }
  }

  lemma CutIsUnique(pieces: seq<string>, first: nat, limit: nat,
                    cuts: seq<nat>, chunks: seq<string>, others: seq<nat>, texts: seq<string>)
    requires Cut(pieces, first, limit, cuts, chunks) && Cut(pieces, first, limit, others, texts)
    ensures cuts == others && chunks == texts
  {
    var least := if |chunks| < |texts| then |chunks| else |texts|;
    SameCuts(pieces, first, limit, cuts, chunks, others, texts, least);
    if least < |chunks| {
      CutsRise(pieces, first, limit, cuts, chunks, least, |chunks|);
    }
    if least < |texts| {
      CutsRise(pieces, first, limit, others, texts, least, |texts|);
    }
    forall k | 0 <= k < |cuts| ensures cuts[k] == others[k] {
      SameCuts(pieces, first, limit, cuts, chunks, others, texts, k);
    }
    forall k | 0 <= k < |chunks| ensures chunks[k] == texts[k] {
      var cap := Cap(first, limit, k);
      assert IsChunk(pieces, cuts[k], cuts[k + 1], cap, chunks[k]) && IsChunk(pieces, others[k], others[k + 1], cap, texts[k]);
    }
  }

  // ----- nothing is dropped

  /** A chunk's lines without the fence lines the split put in. */
  function Bare(rows: seq<string>, reopened: bool, closed: bool): seq<string> {
    var rest := if reopened && rows != [] then rows[1..] else rows;
    if closed && rest != [] then rest[..|rest| - 1] else rest
  }

  /** The lines of the first `k` chunks, without the fence lines that were put in. */
  ghost function Kept(pieces: seq<string>, cuts: seq<nat>, chunks: seq<string>, k: nat): seq<string>
    requires |cuts| == |chunks| + 1 && k <= |chunks|
    requires forall i | 0 <= i < |cuts| :: cuts[i] <= |pieces|
  {
    if k == 0 then []
    else
      Kept(pieces, cuts, chunks, k - 1)
      + Bare(Lines(chunks[k - 1]), FenceAfter(pieces[..cuts[k - 1]]).Some?, Broken(pieces, cuts[k]))
  }

  lemma ChunkLines(pieces: seq<string>, from: nat, to: nat, cap: nat, chunk: string)
    requires IsChunk(pieces, from, to, cap, chunk)
    requires forall i | 0 <= i < |pieces| :: OneLine(pieces[i])
    ensures Lines(chunk) == Rows(pieces, from, to)
  {
    var rows := Rows(pieces, from, to);
    var fence := FenceAfter(pieces[..from]);
    forall i | 0 <= i < |rows| ensures OneLine(rows[i]) {
      if fence.Some? {
        var at :| 0 <= at < from && pieces[at] == fence.value;
      }
    }
    JoinLines(rows);
  }

  lemma BareChunk(pieces: seq<string>, from: nat, to: nat, cap: nat, chunk: string)
    requires IsChunk(pieces, from, to, cap, chunk)
    requires forall i | 0 <= i < |pieces| :: OneLine(pieces[i])
    ensures Bare(Lines(chunk), FenceAfter(pieces[..from]).Some?, Broken(pieces, to)) == pieces[from..to]
  {
    ChunkLines(pieces, from, to, cap, chunk);
    BareRows(Opener(FenceAfter(pieces[..from])), pieces[from..to], Broken(pieces, to));
  }

  lemma BareRows(opener: seq<string>, rows: seq<string>, closed: bool)
    requires |opener| <= 1 && rows != []
    ensures Bare(opener + rows + (if closed then [FENCE] else []), opener != [], closed) == rows
  {
    var all := opener + rows + if closed then [FENCE] else [];
    assert all[|opener|..] == rows + if closed then [FENCE] else [];
  }

  lemma BareAt(pieces: seq<string>, first: nat, limit: nat, cuts: seq<nat>, chunks: seq<string>, k: nat)
    requires Cut(pieces, first, limit, cuts, chunks) && k < |chunks|
    requires forall i | 0 <= i < |pieces| :: OneLine(pieces[i])
    ensures cuts[k] < cuts[k + 1] <= |pieces|
    ensures Bare(Lines(chunks[k]), FenceAfter(pieces[..cuts[k]]).Some?, Broken(pieces, cuts[k + 1])) == pieces[cuts[k]..cuts[k + 1]]
  {
    assert IsChunk(pieces, cuts[k], cuts[k + 1], Cap(first, limit, k), chunks[k]);
    BareChunk(pieces, cuts[k], cuts[k + 1], Cap(first, limit, k), chunks[k]);
  }

  lemma Adjoin(pieces: seq<string>, from: nat, to: nat)
    requires from <= to <= |pieces|
    ensures pieces[..from] + pieces[from..to] == pieces[..to]
  {
  }

  /** The chunks' pieces, cut by cut. */
  ghost predicate BareCut(pieces: seq<string>, cuts: seq<nat>, chunks: seq<string>, k: nat)
    requires |cuts| == |chunks| + 1 && k < |chunks|
  {
    && cuts[k] <= cuts[k + 1] <= |pieces|
    && Bare(Lines(chunks[k]), FenceAfter(pieces[..cuts[k]]).Some?, Broken(pieces, cuts[k + 1])) == pieces[cuts[k]..cuts[k + 1]]
  }

  lemma {:induction false} KeptSoFar(pieces: seq<string>, cuts: seq<nat>, chunks: seq<string>, k: nat)
    requires |cuts| == |chunks| + 1 && cuts[0] == 0 && k <= |chunks|
    requires forall i | 0 <= i < |cuts| :: cuts[i] <= |pieces|
    requires forall i | 0 <= i < |chunks| :: BareCut(pieces, cuts, chunks, i)
    ensures Kept(pieces, cuts, chunks, k) == pieces[..cuts[k]]
  {
    if k > 0 {
      KeptSoFar(pieces, cuts, chunks, k - 1);
      assert BareCut(pieces, cuts, chunks, k - 1);
      Adjoin(pieces, cuts[k - 1], cuts[k]);
    }
  }

  /** Take the inserted fence lines away again, and what is left of the chunks is the text's
      own pieces, all of them and in order. */
  lemma NothingDropped(pieces: seq<string>, first: nat, limit: nat, cuts: seq<nat>, chunks: seq<string>)
    requires Cut(pieces, first, limit, cuts, chunks)
    requires forall i | 0 <= i < |pieces| :: OneLine(pieces[i])
    ensures forall i | 0 <= i < |cuts| :: cuts[i] <= |pieces|
    ensures Kept(pieces, cuts, chunks, |chunks|) == pieces
  {
    forall i | 0 <= i < |cuts| ensures cuts[i] <= |pieces| {
      if i < |chunks| {
        CutsRise(pieces, first, limit, cuts, chunks, i, |chunks|);
      }
    }
    forall k | 0 <= k < |chunks| ensures BareCut(pieces, cuts, chunks, k) {
      BareAt(pieces, first, limit, cuts, chunks, k);
    }
    KeptSoFar(pieces, cuts, chunks, |chunks|);
    assert pieces[..|pieces|] == pieces;
  }

  /** And what was put in are only fences: the block's opener in front, a bare fence behind. */
  lemma OnlyFencesAdded(pieces: seq<string>, from: nat, to: nat, cap: nat, chunk: string)
    requires IsChunk(pieces, from, to, cap, chunk)
    requires forall i | 0 <= i < |pieces| :: OneLine(pieces[i])
    ensures FenceAfter(pieces[..from]).Some? ==>
      Lines(chunk)[0] == FenceAfter(pieces[..from]).value && IsFence(Lines(chunk)[0]) && Lines(chunk)[0] in pieces[..from]
    ensures Broken(pieces, to) ==> Lines(chunk)[|Lines(chunk)| - 1] == FENCE
  {
    ChunkLines(pieces, from, to, cap, chunk);
  }

  // ----- every block is closed

  lemma {:induction false} Resumes(before: seq<string>, rows: seq<string>)
    ensures FenceAfter(Opener(FenceAfter(before)) + rows) == FenceAfter(before + rows)
  {
    var opener := Opener(FenceAfter(before));
    if rows == [] {
      assert opener + rows == opener && before + rows == before;
      if opener != [] {
        assert opener[..0] == [];
      }
    } else {
      var shorter, n := rows[..|rows| - 1], |rows| - 1;
      Resumes(before, shorter);
      assert (opener + rows)[..|opener| + n] == opener + shorter && (before + rows)[..|before| + n] == before + shorter;
    }
  }

  /** A chunk that is followed by another one never leaves a code block open. */
  lemma Balanced(pieces: seq<string>, from: nat, to: nat, cap: nat, chunk: string)
    requires IsChunk(pieces, from, to, cap, chunk)
    requires forall i | 0 <= i < |pieces| :: OneLine(pieces[i])
    ensures to < |pieces| ==> FenceAfter(Lines(chunk)) == None
    ensures to == |pieces| ==> FenceAfter(Lines(chunk)) == FenceAfter(pieces)
  {
    ChunkLines(pieces, from, to, cap, chunk);
    RowsBalanced(pieces, from, to);
  }

  lemma RowsBalanced(pieces: seq<string>, from: nat, to: nat)
    requires from < to <= |pieces|
    ensures to < |pieces| ==> FenceAfter(Rows(pieces, from, to)) == None
    ensures to == |pieces| ==> FenceAfter(Rows(pieces, from, to)) == FenceAfter(pieces)
  {
    Resumes(pieces[..from], pieces[from..to]);
    Adjoin(pieces, from, to);
    ClosedIf(Opening(pieces, from, to), Broken(pieces, to));
    assert pieces[..|pieces|] == pieces;
  }

  lemma ClosedIf(rows: seq<string>, close: bool)
    requires close ==> FenceAfter(rows).Some?
    ensures FenceAfter(rows + if close then [FENCE] else []) == if close then None else FenceAfter(rows)
  {
    if close {
      assert (rows + [FENCE])[..|rows|] == rows;
    } else {
      assert rows + [] == rows;
    }
  }

  // ----- how long a chunk is

  const LONGEST_OPENER := 35

  /** The chunk was cut right after the line that opened its last block. */
  predicate CutAfterOpener(pieces: seq<string>, to: nat)
    requires 0 < to <= |pieces|
  {
    Broken(pieces, to) && FenceAfter(pieces[..to - 1]).None?
  }

  /** One piece alone, in a block with a long opener. */
  predicate LongOpener(pieces: seq<string>, from: nat, to: nat)
    requires from < to <= |pieces|
  {
    to == from + 1 && FenceAfter(pieces[..from]).Some? && |FenceAfter(pieces[..from]).value| > LONGEST_OPENER
  }

  /** A chunk of one piece has room for its block's opener and its closing, unless that opener is
      a long one. */
  lemma OnePiece(pieces: seq<string>, max: nat, from: nat)
    requires from < |pieces| && |pieces[from]| <= max && !LongOpener(pieces, from, from + 1)
    ensures |Join(Opening(pieces, from, from + 1))| <= max + LONGEST_OPENER + 1
  {
    var fence := FenceAfter(pieces[..from]);
    assert Opening(pieces, from, from + 1) == Opener(fence) + [pieces[from]];
    JoinMore(Opener(fence), pieces[from]);
  }

  /** A chunk keeps its cap, but for two cases. One cut right after its own opener may run over,
      by what it lacks of the four characters for the closing fence: these are set aside only
      inside a block. And one piece in a block with a long opener does so exactly if the opener,
      opened again without being weighed, the piece and the fence are too much together. */
  lemma SizeBound(pieces: seq<string>, max: nat, from: nat, to: nat, cap: nat, chunk: string)
    requires IsChunk(pieces, from, to, cap, chunk)
    requires cap >= max + 40 && |pieces[from]| <= max
    ensures |chunk| > cap ==> CutAfterOpener(pieces, to) || LongOpener(pieces, from, to)
    ensures |chunk| > cap + CLOSING ==> LongOpener(pieces, from, to)
    ensures !LongOpener(pieces, from, to) ==>
      (|chunk| > cap <==> CutAfterOpener(pieces, to) && cap - |Join(Opening(pieces, from, to))| < CLOSING)
    ensures LongOpener(pieces, from, to) ==>
      |chunk| == |FenceAfter(pieces[..from]).value| + 1 + |pieces[from]| + if Broken(pieces, to) then CLOSING else 0
  {
    ChunkLength(pieces, from, to);
    if from < to - 1 {
      assert Takes(pieces, from, to - 1, cap);
    } else if LongOpener(pieces, from, to) {
      var opener := FenceAfter(pieces[..from]).value;
      assert Opening(pieces, from, to) == [opener] + [pieces[from]];
      JoinMore([opener], pieces[from]);
    } else {
      OnePiece(pieces, max, from);
    }
  }

  predicate ShortOpeners(pieces: seq<string>) {
    forall i | 0 <= i < |pieces| && IsFence(pieces[i]) :: |pieces[i]| <= LONGEST_OPENER
  }

  /** Of any text: no chunk is more than four characters over its cap, if no line that opens a
      block is longer than 35. */
  lemma EveryChunkFits(text: string, first: nat, limit: nat, cuts: seq<nat>, chunks: seq<string>)
    requires PieceMax(first, limit) > 0
    requires Cut(AllPieces(Lines(text), PieceMax(first, limit)), first, limit, cuts, chunks)
    requires ShortOpeners(AllPieces(Lines(text), PieceMax(first, limit)))
    ensures forall k | 0 <= k < |chunks| :: |chunks[k]| <= Cap(first, limit, k) + CLOSING
  {
    var pieces := AllPieces(Lines(text), PieceMax(first, limit));
    forall k | 0 <= k < |chunks| ensures |chunks[k]| <= Cap(first, limit, k) + CLOSING {
      assert IsChunk(pieces, cuts[k], cuts[k + 1], Cap(first, limit, k), chunks[k]);
      SizeBound(pieces, PieceMax(first, limit), cuts[k], cuts[k + 1], Cap(first, limit, k), chunks[k]);
      OpenersAreShort(pieces, cuts[k]);
    }
  }

  lemma OpenersAreShort(pieces: seq<string>, to: nat)
    requires ShortOpeners(pieces) && to <= |pieces|
    ensures FenceAfter(pieces[..to]).Some? ==> |FenceAfter(pieces[..to]).value| <= LONGEST_OPENER
  {
    if FenceAfter(pieces[..to]).Some? {
      var i :| 0 <= i < to && pieces[i] == FenceAfter(pieces[..to]).value;
    }
  }

  lemma ChunkLength(pieces: seq<string>, from: nat, to: nat)
    requires from < to <= |pieces|
    ensures |Join(Rows(pieces, from, to))| == |Join(Opening(pieces, from, to))| + if Broken(pieces, to) then CLOSING else 0
  {
    var opening := Opening(pieces, from, to);
    JoinMore(opening, FENCE);
    assert !Broken(pieces, to) ==> Rows(pieces, from, to) == opening + [] == opening;
  }

  lemma {:induction false} ShortLines(rows: seq<string>, max: nat)
    requires max > 0 && forall i | 0 <= i < |rows| :: |rows[i]| <= max
    ensures AllPieces(rows, max) == rows
  {
    if rows != [] {
      ShortLines(rows[..|rows| - 1], max);
    }
  }

  ghost predicate Plain(line: string, n: nat) { |line| == n && OneLine(line) && !IsFence(line) }

  lemma FencesHere(long: string, short: string)
    requires Plain(long, 60) && Plain(short, 35)
    ensures var rows := [long, short, FENCE, "x"];
      FenceAfter([]) == FenceAfter(rows[..0]) == FenceAfter(rows[..1]) == FenceAfter(rows[..2]) == None
      && FenceAfter(rows[..3]) == Some(FENCE)
  {
    var rows := [long, short, FENCE, "x"];
    OneMore(rows, 0, 0);
    OneMore(rows, 0, 1);
    OneMore(rows, 0, 2);
    assert rows[..0] == [];
  }

  lemma FirstChunk(long: string, short: string)
    requires Plain(long, 60) && Plain(short, 35)
    ensures var rows := [long, short, FENCE, "x"];
      IsChunk(rows, 0, 3, 100, Join(Rows(rows, 0, 3))) && |Join(Rows(rows, 0, 3))| == 104
  {
    var rows := [long, short, FENCE, "x"];
    FencesHere(long, short);
    JoinMore([], long);
    JoinMore([long], short);
    JoinMore([long, short], FENCE);
    JoinMore([long, short, FENCE], "x");
    JoinMore([long, short, FENCE], FENCE);
    assert Opening(rows, 0, 2) == [] + [long] + [short];
    assert Opening(rows, 0, 3) == [long, short] + [FENCE];
    assert Opening(rows, 0, 4) == [long, short, FENCE] + ["x"];
    assert Rows(rows, 0, 3) == [long, short, FENCE] + [FENCE];
    assert Takes(rows, 0, 1, 100) && Takes(rows, 0, 2, 100) && !Takes(rows, 0, 3, 100);
  }

  lemma LastChunk(rows: seq<string>, cap: nat)
    requires |rows| == 4
    ensures IsChunk(rows, 3, 4, cap, Join(Rows(rows, 3, 4)))
  {
  }

  lemma TwoChunks(pieces: seq<string>, cap: nat, to: nat, chunk: string, last: string)
    requires IsChunk(pieces, 0, to, cap, chunk) && IsChunk(pieces, to, |pieces|, cap, last)
    ensures Cut(pieces, cap, cap, [0, to, |pieces|], [chunk, last])
  {
    var cuts, chunks := [0, to, |pieces|], [chunk, last];
    forall k, n | 0 <= k && n == k + 1 < |cuts| ensures IsChunk(pieces, cuts[k], cuts[n], Cap(cap, cap, k), chunks[k]) {
      assert k == 0 || k == 1;
    }
  }

  lemma LongLines() returns (long: string, short: string)
    ensures Plain(long, 60) && Plain(short, 35)
  {
    long, short := seq(60, i => 'a'), seq(35, i => 'a');
    assert long[0] == short[0] == 'a' && FENCE[0] == '`';
  }

  lemma FourRows(long: string, short: string)
    requires Plain(long, 60) && Plain(short, 35)
    ensures var rows := [long, short, FENCE, "x"];
      && Lines(Join(rows)) == rows && AllPieces(rows, 60) == rows
      && forall i | 0 <= i < 4 :: IsFence(rows[i]) ==> |rows[i]| <= LONGEST_OPENER
  {
    var rows := [long, short, FENCE, "x"];
    JoinLines(rows);
    ShortLines(rows, 60);
  }

  /** The four characters over are reached. */
  lemma BoundIsReached() returns (text: string, cuts: seq<nat>, chunks: seq<string>)
    ensures Cut(AllPieces(Lines(text), PieceMax(100, 100)), 100, 100, cuts, chunks)
    ensures forall i | 0 <= i < |Lines(text)| :: IsFence(Lines(text)[i]) ==> |Lines(text)[i]| <= LONGEST_OPENER
    ensures |chunks| == 2 && |chunks[0]| == 100 + CLOSING
  {
    var long, short := LongLines();
    var rows := [long, short, FENCE, "x"];
    FourRows(long, short);
    FirstChunk(long, short);
    LastChunk(rows, 100);
    text, cuts, chunks := Join(rows), [0, 3, 4], [Join(Rows(rows, 0, 3)), Join(Rows(rows, 3, 4))];
    TwoChunks(rows, 100, 3, chunks[0], chunks[1]);
  }

  /** A block whose opener is 60 long, cut after it: the chunk that goes on with it is 121 long,
      for a cap of 100. */
  lemma LongOpenerRunsOver() returns (text: string, cuts: seq<nat>, chunks: seq<string>)
    ensures Cut(AllPieces(Lines(text), PieceMax(100, 100)), 100, 100, cuts, chunks)
    ensures |chunks| == 2 && |chunks[1]| == 121
  {
    var opener, line := FENCE + seq(57, i => 'a'), seq(60, i => 'a');
    var rows := [opener, line];
    assert line[0] == 'a' && FENCE[0] == '`';
    OpenedAndCut(opener, line);
    JoinLines(rows);
    ShortLines(rows, 60);
    text, cuts, chunks := Join(rows), [0, 1, 2], [Join(Rows(rows, 0, 1)), Join(Rows(rows, 1, 2))];
    TwoChunks(rows, 100, 1, chunks[0], chunks[1]);
  }

  lemma OpenedAndCut(opener: string, line: string)
    requires |opener| == 60 && IsFence(opener) && Plain(line, 60)
    ensures var rows := [opener, line];
      && IsChunk(rows, 0, 1, 100, Join(Rows(rows, 0, 1)))
      && IsChunk(rows, 1, 2, 100, Join(Rows(rows, 1, 2))) && |Join(Rows(rows, 1, 2))| == 121
  {
    var rows := [opener, line];
    OneMore(rows, 0, 0);
    assert rows[..0] == [];
    JoinMore([opener], line);
    assert Opening(rows, 0, 2) == [opener] + [line];
    assert Rows(rows, 1, 2) == [opener] + [line];
  }
}
