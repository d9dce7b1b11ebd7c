/** What the rules of MessageText.dfy come to, in characters and in lines that begin with three
    backticks. */
module TextMeaning {
  import opened Wrappers
  import opened MessageText

  // ----- lines in pieces

  /** No piece is longer than the lower of the two limits less forty. */
  lemma PieceMaxIs(first: nat, limit: nat)
    ensures PieceMax(first, limit) <= first - 40 && PieceMax(first, limit) <= limit - 40
    ensures PieceMax(first, limit) == first - 40 || PieceMax(first, limit) == limit - 40
  {
  }

  /** A line in pieces: all of it, every piece but the last as long as a piece may be, the last no
      longer and not empty - unless the line is. */
  predicate CutUp(line: string, pieces: seq<string>, max: nat) {
    && pieces != [] && Concat(pieces) == line
    && (forall i | 0 <= i < |pieces| - 1 :: |pieces[i]| == max)
    && |pieces[|pieces| - 1]| <= max && (pieces[|pieces| - 1] == "" ==> line == "")
  }

  lemma {:induction false} PiecesMean(line: string, max: nat)
    requires max > 0
    ensures CutUp(line, Pieces(line, max), max)
  {
    PiecesConcat(line, max);
    if |line| > max {
      PiecesMean(line[max..], max);
    }
  }

  /** Line `i` is in the pieces from `starts[i]` to `starts[i + 1]`. */
  predicate LineAt(lines: seq<string>, pieces: seq<string>, max: nat, starts: seq<nat>, i: nat)
    requires |starts| == |lines| + 1 && i < |lines|
  {
    starts[i] <= starts[i + 1] <= |pieces| && CutUp(lines[i], pieces[starts[i]..starts[i + 1]], max)
  }

  predicate LinesAt(lines: seq<string>, pieces: seq<string>, max: nat, starts: seq<nat>) {
    && |starts| == |lines| + 1 && starts[0] == 0 && starts[|lines|] == |pieces|
    && forall i | 0 <= i < |lines| :: LineAt(lines, pieces, max, starts, i)
  }

  lemma LineStays(lines: seq<string>, pieces: seq<string>, max: nat, starts: seq<nat>, line: string, more: seq<string>, i: nat)
    requires |starts| == |lines| + 1 && i < |lines| && LineAt(lines, pieces, max, starts, i)
    ensures LineAt(lines + [line], pieces + more, max, starts + [|pieces + more|], i)
  {
    assert (pieces + more)[starts[i]..starts[i + 1]] == pieces[starts[i]..starts[i + 1]];
  }

  lemma LastLineAt(lines: seq<string>, pieces: seq<string>, max: nat, starts: seq<nat>, line: string, more: seq<string>)
    requires LinesAt(lines, pieces, max, starts) && CutUp(line, more, max)
    ensures LinesAt(lines + [line], pieces + more, max, starts + [|pieces + more|])
  {
    var all, ends := pieces + more, starts + [|pieces + more|];
    forall i | 0 <= i < |lines| + 1 ensures LineAt(lines + [line], all, max, ends, i) {
      if i < |lines| {
        LineStays(lines, pieces, max, starts, line, more, i);
      } else {
        assert all[|pieces|..|all|] == more;
      }
    }
  }

  /** Every line is there, in order, whole when it is no longer than a piece may be and cut up
      otherwise. */
  lemma {:induction false} AllPiecesMean(lines: seq<string>, max: nat) returns (starts: seq<nat>)
    requires max > 0
    ensures LinesAt(lines, AllPieces(lines, max), max, starts)
  {
    if lines == [] {
      starts := [0];
    } else {
      var front, last := lines[..|lines| - 1], lines[|lines| - 1];
      var before := AllPiecesMean(front, max);
      PiecesMean(last, max);
      LastLineAt(front, AllPieces(front, max), max, before, last, Pieces(last, max));
      starts := before + [|AllPieces(lines, max)|];
      assert front + [last] == lines;
    }
  }

  lemma WholeLine(line: string, pieces: seq<string>, max: nat)
    requires CutUp(line, pieces, max) && max > 0 && |line| <= max
    ensures pieces == [line]
  {
    if |pieces| > 1 {
      assert |pieces[0]| == max;
      assert Concat(pieces) == pieces[0] + Concat(pieces[1..]);
      LastIn(pieces[1..]);
    } else {
      assert pieces[1..] == [] && Concat(pieces) == pieces[0] + "" == pieces[0];
    }
  }

  lemma {:induction false} LastIn(rows: seq<string>)
    requires rows != []
    ensures |Concat(rows)| >= |rows[|rows| - 1]|
  {
    if |rows| > 1 {
      LastIn(rows[1..]);
    }
  }

  // ----- when a chunk is full, and when a block is open

  /** The places of the lines that begin with three backticks. */
  function Fences(rows: seq<string>): set<nat> { set i: nat | i < |rows| && "```" <= rows[i] }

  /** A block is open after an odd number of them, and the last of them opened it. */
  lemma {:induction false} FenceMeans(rows: seq<string>)
    ensures FenceAfter(rows).None? <==> |Fences(rows)| % 2 == 0
    ensures FenceAfter(rows).Some? ==>
      exists i :: i in Fences(rows) && rows[i] == FenceAfter(rows).value && forall j | j in Fences(rows) :: j <= i
  {
    if rows != [] {
      var n := |rows| - 1;
      var front := rows[..n];
      FenceMeans(front);
      forall i: nat | i < n ensures front[i] == rows[i] {
      }
      assert Fences(rows) == Fences(front) + if "```" <= rows[n] then {n} else {};
      if FenceAfter(rows).Some? && FenceAfter(front).Some? {
        var i :| i in Fences(front) && front[i] == FenceAfter(front).value && forall j | j in Fences(front) :: j <= i;
        assert i in Fences(rows) && rows[i] == FenceAfter(rows).value;
      } else if FenceAfter(rows).Some? {
        assert n in Fences(rows);
      }
    }
  }

  /** The characters of these lines and a newline after each. */
  function Characters(rows: seq<string>): nat {
    if rows == [] then 0 else |rows[0]| + 1 + Characters(rows[1..])
  }

  lemma {:induction false} CharactersOfLast(rows: seq<string>)
    requires rows != []
    ensures Characters(rows) == Characters(rows[..|rows| - 1]) + |rows[|rows| - 1]| + 1
  {
    if |rows| > 1 {
      CharactersOfLast(rows[1..]);
      assert rows[1..][..|rows| - 2] == rows[..|rows| - 1][1..];
    } else {
      assert rows[1..] == [] && rows[..0] == [];
    }
  }

  lemma {:induction false} JoinLength(rows: seq<string>)
    requires rows != []
    ensures |Join(rows)| + 1 == Characters(rows)
  {
    CharactersOfLast(rows);
    if |rows| > 1 {
      JoinLength(rows[..|rows| - 1]);
    } else {
      assert rows[..0] == [];
    }
  }

  /** A chunk takes one more line exactly when the block it opened with, its lines and this one,
      with the newlines between them - and four characters more inside a block - are no more
      than its cap. */
  lemma TakesExactly(pieces: seq<string>, from: nat, at: nat, cap: nat)
    requires from <= at < |pieces|
    ensures Takes(pieces, from, at, cap) <==>
      (match FenceAfter(pieces[..from]) case None => 0 case Some(opener) => |opener| + 1)
      + Characters(pieces[from..at + 1]) - 1 + (if |Fences(pieces[..at])| % 2 == 0 then 0 else 4) <= cap
  {
    FenceMeans(pieces[..at]);
    var opening := Opening(pieces, from, at + 1);
    JoinLength(opening);
    if FenceAfter(pieces[..from]).Some? {
      assert opening[1..] == pieces[from..at + 1];
    } else {
      assert opening == pieces[from..at + 1];
    }
  }

  /** The first chunk is held to the first limit and the others to the other, but for the four
      characters of a closing fence; and none but the last could have taken the next line. */
  lemma ChunksFit(text: string, first: nat, limit: nat, cuts: seq<nat>, chunks: seq<string>, k: nat)
    requires PieceMax(first, limit) > 0 && Cut(AllPieces(Lines(text), PieceMax(first, limit)), first, limit, cuts, chunks)
    requires ShortOpeners(AllPieces(Lines(text), PieceMax(first, limit))) && k < |chunks|
    ensures var pieces, cap := AllPieces(Lines(text), PieceMax(first, limit)), if k == 0 then first else limit;
      && |chunks[k]| <= cap + 4
      && cuts[k] < cuts[k + 1] <= |pieces|
      && (k + 1 < |chunks| ==> cuts[k + 1] < |pieces| && !Takes(pieces, cuts[k], cuts[k + 1], cap))
  {
    EveryChunkFits(text, first, limit, cuts, chunks);
    var pieces := AllPieces(Lines(text), PieceMax(first, limit));
    assert IsChunk(pieces, cuts[k], cuts[k + 1], Cap(first, limit, k), chunks[k]);
    if k + 1 < |chunks| {
      CutsRise(pieces, first, limit, cuts, chunks, k + 1, |chunks|);
    }
  }
}
