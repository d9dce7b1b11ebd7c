/** `JsonlAuditSink` itself: the readers that start at the file's end, `record`, the cached
    `verify`, and any number of processes using them on one file. */
module AuditSink {
  import opened Wrappers
  import opened LedgerBytes
  import opened AuditLedger

  /** The one file. `mtime` is whatever the filesystem says; it need not move on a write. */
  class LedgerFile {
    var bytes: Bytes
    var mtime: int

    constructor ()
      ensures bytes == []
    {
      bytes, mtime := [], 0;
    }
  }

  /** What one process remembers of a clean verification: the file's size and time, the verdict. */
  datatype Cached = Cached(size: nat, mtime: int, verdict: Verdict)

  /** What the file held when it was verified is still what its first bytes are. */
  ghost predicate StillTrue(codec: Codec, cached: Option<Cached>, bytes: Bytes) {
    cached.Some? ==>
      && cached.value.size <= |bytes|
      && cached.value.verdict.Verified?
      && VerdictOn(codec, bytes[..cached.value.size]) == cached.value.verdict
  }

  lemma EndsInPartial(complete: Bytes, partial: Bytes, size: nat)
    requires OneLine(partial) && |complete| < size <= |complete + partial|
    ensures Truncated((complete + partial)[..size])
  {
    assert (complete + partial)[..size][size - 1] == partial[size - 1 - |complete|];
  }

  /** Recording, by this process or another, whole or cut short, leaves that so. */
  lemma CacheSurvives(codec: Codec, cached: Option<Cached>, ledger: Ledger, bytes: Bytes)
    requires Sound(codec) && OneLine(ledger.partial)
    requires StillTrue(codec, cached, FileOf(codec, ledger))
    requires Render(ChainLines(codec, ledger.events)) <= bytes
    ensures StillTrue(codec, cached, bytes)
  {
    if cached.Some? {
      var complete, size := Render(ChainLines(codec, ledger.events)), cached.value.size;
      var seen := FileOf(codec, ledger)[..size];
      if size > |complete| {
        EndsInPartial(complete, ledger.partial, size);
      }
      assert seen == complete[..size] == bytes[..size];
    }
  }

  datatype Recorded = Done | Died | Refused

  class JsonlAuditSink {
    const codec: Codec
    const file: LedgerFile
    const tailChunk: nat
    var sequence: int
    var lastHash: string
    var verified: Option<Cached>

    constructor (codec: Codec, file: LedgerFile, tailChunk: nat)
      requires tailChunk >= 1
      ensures this.codec == codec && this.file == file && this.tailChunk == tailChunk && verified == None
    {
      this.codec, this.file, this.tailChunk := codec, file, tailChunk;
      sequence, lastHash, verified := 0, GENESIS, None;
      new;
      var read := Tail();
      if read.At? {
        sequence, lastHash := read.sequence, read.digest;
      }
    }

    /** The file's end, read in growing chunks until it holds the last complete line. */
    method ReadEnd() returns (data: Bytes, complete: Bytes, ghost from: nat)
      requires tailChunk >= 1 && file.bytes != []
      ensures from <= |file.bytes| && data == file.bytes[from..] && complete == CompletePart(data)
      ensures CountNewlines(complete) >= 2 || from == 0
    {
      var size := |file.bytes|;
      var chunk := if size < tailChunk then size else tailChunk;
      data := file.bytes[size - chunk..];
      complete := CompleteLines(data);
      while CountNewlines(complete) < 2 && chunk < size
        invariant 0 < chunk <= size
        invariant data == file.bytes[size - chunk..] && complete == CompletePart(data)
        decreases size - chunk
      {
        chunk := if size < chunk * 4 then size else chunk * 4;
        data := file.bytes[size - chunk..];
        complete := CompleteLines(data);
      }
      from := size - chunk;
    }

    /** The chain head, from as little of the file as holds the last complete line. */
    method Tail() returns (read: TailRead)
      requires tailChunk >= 1
      ensures TailOf(codec, file.bytes, read)
    {
      if file.bytes == [] {
        read := At(0, GENESIS, 0);
        EmptyTail(codec, read);
        return;
      }
      var data, complete;
      ghost var from;
      data, complete, from := ReadEnd();
      var truncated := |data| - |complete|;
      var last := LastLine(complete);
      read := ReadHead(codec, last, truncated);
      TailIsRight(codec, file.bytes, from, data, last, truncated);
    }

    method Resync() returns (read: TailRead)
      requires tailChunk >= 1
      modifies this, file
      ensures verified == old(verified)
      ensures TailOf(codec, old(file.bytes), read)
      ensures read.NotARecord? ==> file.bytes == old(file.bytes)
      ensures read.At? ==>
        && file.bytes == old(file.bytes)[..|old(file.bytes)| - read.truncated]
        && sequence == read.sequence && lastHash == read.digest
    {
      read := Tail();
      if read.At? {
        sequence, lastHash := read.sequence, read.digest;
        if read.truncated > 0 {
          Write(file.bytes[..|file.bytes| - read.truncated]);
        }
      }
    }

    method Write(bytes: Bytes)
      modifies file
      ensures file.bytes == bytes
    {
      file.bytes := bytes;
      file.mtime := *;
    }

    /** `record`, by a process that gets as far as `fate` says. */
    method Record(event: Event, fate: Fate) returns (r: Recorded, ghost read: TailRead)
      requires tailChunk >= 1
      modifies this, file
      ensures TailOf(codec, old(file.bytes), read)
      ensures file.bytes == AfterBytes(codec, old(file.bytes), read, event, fate)
      ensures r == if fate.DiesFirst? then Died else if read.NotARecord? then Refused else if fate.Completes? then Done else Died
      ensures verified == if r.Done? then None else old(verified)
      ensures r.Done? ==>
        && sequence == read.sequence + 1
        && lastHash == codec.hash(Doc(Some(sequence), Some(read.digest), Recorded(event)))
    {
      if fate.DiesFirst? {
        read := Tail();
        return Died, read;
      }
      var found := Resync();
      read := found;
      if found.NotARecord? {
        return Refused, read;
      }
      var body := Doc(Some(sequence + 1), Some(lastHash), Recorded(event));
      var digest := codec.hash(body);
      var line := codec.encode(body, digest);
      Append(line, fate);
      if !fate.Completes? {
        return Died, read;
      }
      sequence, lastHash, verified := sequence + 1, digest, None;
      r := Done;
    }

    method Append(line: Bytes, fate: Fate)
      modifies file
      ensures file.bytes == Appended(old(file.bytes), line, fate)
    {
      match fate {
        case Completes => Write(file.bytes + line + [NL]);
        case DiesWriting(n) => Write(file.bytes + Prefix(line, n));
        case _ =>
      }
    }

    /** The last `limit` complete lines, never reading more of the file than that needs - for
        any file at all, and exactly the lines `splitlines` finds in the whole of it. */
    method TailLines(limit: nat) returns (lines: seq<Bytes>)
      requires tailChunk >= 1 && limit > 0
      ensures lines == LastN(SplitLines(CompletePart(file.bytes)), limit)
    {
      var size := |file.bytes|;
      var chunk := if size < tailChunk then size else tailChunk;
      var data := file.bytes[size - chunk..];
      while CountNewlines(data) <= limit && chunk < size
        invariant 0 <= chunk <= size && (chunk == 0 ==> size == 0)
        invariant data == file.bytes[size - chunk..]
        decreases size - chunk
      {
        chunk := if size < chunk * 4 then size else chunk * 4;
        data := file.bytes[size - chunk..];
      }
      TailLinesAreRight(file.bytes, size - chunk, limit);
      data := CompleteLines(data);
      lines := SplitLines(data);
      if chunk < size {
        lines := lines[1..];
      }
      lines := LastN(lines, limit);
    }

    method VerifyAll() returns (verdict: Verdict)
      ensures verdict == VerdictOn(codec, file.bytes)
    {
      var raw := file.bytes;
      if !codec.isText(raw) {
        return Broken(0, Unreadable);
      }
      var lines := SplitLines(raw);
      if Truncated(raw) {
        lines := lines[..|lines| - 1];
      }
      var count, previous := 0, GENESIS;
      while count < |lines|
        invariant 0 <= count <= |lines|
        invariant Judge(codec, lines, 0, GENESIS) == Judge(codec, lines[count..], count, previous)
      {
        var parsed := codec.decode(lines[count]);
        assert lines[count..][1..] == lines[count + 1..];
        if !parsed.Object? {
          return Broken(count + 1, if parsed.NotJson? then InvalidJson else NotObject);
        }
        if parsed.doc.sequence != Some(count + 1) {
          return Broken(count + 1, SequenceBreaks);
        }
        if parsed.doc.previous != Some(previous) {
          return Broken(count + 1, ChainBreaks);
        }
        var expected := codec.hash(parsed.doc);
        if parsed.sha256 != Some(expected) {
          return Broken(count + 1, DigestFails);
        }
        count, previous := count + 1, expected;
      }
      if Truncated(raw) {
        return Broken(|lines| + 1, PartialLine);
      }
      return Verified(count, previous);
    }

    /** `verify`: from memory while the file's size and time are those of a clean verdict. */
    method Verify() returns (verdict: Verdict)
      requires StillTrue(codec, verified, file.bytes)
      modifies this
      ensures verdict == VerdictOn(codec, file.bytes)
      ensures StillTrue(codec, verified, file.bytes)
    {
      if verified.Some? && verified.value.size == |file.bytes| && verified.value.mtime == file.mtime {
        assert file.bytes[..|file.bytes|] == file.bytes;
        return verified.value.verdict;
      }
      verdict := VerifyAll();
      if verdict.Verified? {
        verified := Some(Cached(|file.bytes|, file.mtime, verdict));
        assert file.bytes[..|file.bytes|] == file.bytes;
      }
    }
  }

  function CompleteLines(data: Bytes): (complete: Bytes)
    ensures complete == CompletePart(data)
  {
    if data != [] && data[|data| - 1] == NL then data else data[..LastNewline(data) + 1]
  }

  lemma EmptyTail(codec: Codec, read: TailRead)
    requires read == At(0, GENESIS, 0)
    ensures TailOf(codec, [], read)
  {
    forall lines, partial | IsLedger([], lines, partial)
      ensures read == ReadHead(codec, LastOr(lines), |partial|)
    {
      assert |Render(lines)| == 0;
      assert lines == [];
    }
  }

  lemma CompleteCounts(data: Bytes)
    ensures |CompletePart(data)| <= |data| && CountNewlines(CompletePart(data)) <= CountNewlines(data)
  {
    assert data == CompletePart(data) + data[|CompletePart(data)|..];
    CountsAdd(CompletePart(data), data[|CompletePart(data)|..]);
  }

  lemma SameRead(codec: Codec, last: Bytes, truncated: nat, other: Bytes, length: nat)
    requires last == other && truncated == length
    ensures ReadHead(codec, last, truncated) == ReadHead(codec, other, length)
  {
  }

  lemma TailIsRight(codec: Codec, file: Bytes, from: nat, data: Bytes, last: Bytes, truncated: nat)
    requires from <= |file| && data == file[from..] && last == LastLine(CompletePart(data))
    requires CountNewlines(CompletePart(data)) >= 2 || from == 0
    requires truncated == |data| - |CompletePart(data)|
    ensures TailOf(codec, file, ReadHead(codec, last, truncated))
  {
    CompleteCounts(data);
    ReadsTruncated(codec, last, truncated);
    forall lines, partial | IsLedger(file, lines, partial)
      ensures ReadHead(codec, last, truncated) == ReadHead(codec, LastOr(lines), |partial|)
    {
      TailOfSuffix(file, lines, partial, from);
      SameRead(codec, last, truncated, LastOr(lines), |partial|);
    }
  }

  lemma ReadsTruncated(codec: Codec, last: Bytes, truncated: nat)
    ensures var read := ReadHead(codec, last, truncated); read.At? ==> read.truncated == truncated
  {
  }

  lemma TailLinesAreRight(file: Bytes, from: nat, limit: nat)
    requires from <= |file| && (CountNewlines(file[from..]) > limit > 0 || from == 0)
    ensures from == 0 ==> file[from..] == file
    ensures from > 0 ==>
      var lines := SplitLines(CompletePart(file[from..]));
      lines != [] && LastN(lines[1..], limit) == LastN(SplitLines(CompletePart(file)), limit)
  {
    if from > 0 {
      var data := file[from..];
      NoneCounted(data);
      var at := LastNewline(data);
      var i :| 0 <= i < |data| && data[i] == NL;
      assert !(at < i);
      assert file[from + at + 1..] == data[at + 1..];
      NewlineAt(file, from + at);
      var whole, complete := CompletePart(file), CompletePart(data);
      assert whole[from..] == complete;
      assert data == complete + data[at + 1..];
      CountsAdd(complete, data[at + 1..]);
      NoneCounted(data[at + 1..]);
      AtLeastTheNewlines(complete);
      MidFileSplit(whole, from);
      assert EndsAlike(whole, from);
      SameEnd(SplitLines(complete)[1..], SplitLines(whole), limit);
    }
  }

  // ----- many processes, one file

  datatype Turn = Append(process: nat, event: Event, fate: Fate) | Check(process: nat)

  function Ran(codec: Codec, turns: seq<Turn>): Ledger {
    if turns == [] then Ledger([], [])
    else
      var before := Ran(codec, turns[..|turns| - 1]);
      var turn := turns[|turns| - 1];
      if turn.Append? then After(codec, before, turn.event, turn.fate) else before
  }

  /** The events whose `record` returned, in order. */
  function Completed(turns: seq<Turn>): seq<Event> {
    if turns == [] then []
    else
      var turn := turns[|turns| - 1];
      Completed(turns[..|turns| - 1]) + if turn.Append? && turn.fate.Completes? then [turn.event] else []
  }

  /** What each check should have said, had it read the whole file. */
  function Verdicts(codec: Codec, turns: seq<Turn>): seq<Verdict> {
    if turns == [] then []
    else
      var front := turns[..|turns| - 1];
      Verdicts(codec, front)
      + if turns[|turns| - 1].Check? then [VerdictOn(codec, FileOf(codec, Ran(codec, front)))] else []
  }

  /** Whoever recorded, died and recorded again, the ledger holds exactly the completed events
      in order, and at most one partial line. */
  lemma {:induction false} NoneLost(codec: Codec, turns: seq<Turn>)
    requires Sound(codec)
    ensures Ran(codec, turns).events == Completed(turns)
    ensures OneLine(Ran(codec, turns).partial)
  {
    if turns != [] {
      NoneLost(codec, turns[..|turns| - 1]);
      var before, turn := Ran(codec, turns[..|turns| - 1]), turns[|turns| - 1];
      if turn.Append? {
        OneAppend(codec, before, turn.event, turn.fate);
      }
    }
  }

  lemma OneAppend(codec: Codec, ledger: Ledger, event: Event, fate: Fate)
    requires Sound(codec) && OneLine(ledger.partial)
    ensures OneLine(After(codec, ledger, event, fate).partial)
    ensures After(codec, ledger, event, fate).events == ledger.events + if fate.Completes? then [event] else []
  {
    if fate.DiesWriting? {
      NextDoc(codec, ledger.events, event);
      var doc := LastDoc(codec, ledger.events + [event]);
      assert Encodes(codec, doc, codec.hash(doc));
      assert OneLine(LineOf(codec, doc));
    }
  }

  ghost predicate OneFile(codec: Codec, file: LedgerFile, sinks: seq<JsonlAuditSink>)
  {
    && (forall i | 0 <= i < |sinks| :: sinks[i].codec == codec && sinks[i].file == file && sinks[i].tailChunk >= 1)
    && forall i, j | 0 <= i < j < |sinks| :: sinks[i] != sinks[j]
  }

  ghost predicate Fresh(codec: Codec, file: LedgerFile, sinks: seq<JsonlAuditSink>)
    reads file, sinks
  {
    forall i | 0 <= i < |sinks| :: StillTrue(codec, sinks[i].verified, file.bytes)
  }

  /** Any number of processes take turns on the empty file. In the end it holds the chain of the
      events that completed, and every check along the way, cached or not, told the truth. */
  method TakeTurns(codec: Codec, file: LedgerFile, sinks: seq<JsonlAuditSink>, turns: seq<Turn>) returns (verdicts: seq<Verdict>)
    requires Sound(codec) && OneFile(codec, file, sinks) && file.bytes == []
    requires forall i | 0 <= i < |sinks| :: sinks[i].verified == None
    requires forall i | 0 <= i < |turns| :: turns[i].process < |sinks|
    modifies file, sinks
    ensures file.bytes == FileOf(codec, Ran(codec, turns))
    ensures Ran(codec, turns).events == Completed(turns) && OneLine(Ran(codec, turns).partial)
    ensures verdicts == Verdicts(codec, turns)
  {
    verdicts := [];
    for n := 0 to |turns|
      invariant file.bytes == FileOf(codec, Ran(codec, turns[..n]))
      invariant verdicts == Verdicts(codec, turns[..n])
      invariant Fresh(codec, file, sinks)
    {
      assert turns[..n + 1][..n] == turns[..n];
      NoneLost(codec, turns[..n]);
      var turn := turns[n];
      var sink := sinks[turn.process];
      if turn.Append? {
        OneRecord(codec, file, sinks, sink, turn.event, turn.fate, Ran(codec, turns[..n]));
      } else {
        var verdict := sink.Verify();
        verdicts := verdicts + [verdict];
      }
    }
    assert turns[..|turns|] == turns;
    NoneLost(codec, turns);
  }

  method OneRecord(codec: Codec, file: LedgerFile, sinks: seq<JsonlAuditSink>, sink: JsonlAuditSink,
                   event: Event, fate: Fate, ghost ledger: Ledger)
    requires Sound(codec) && OneFile(codec, file, sinks) && sink in sinks && Fresh(codec, file, sinks)
    requires OneLine(ledger.partial) && file.bytes == FileOf(codec, ledger)
    modifies file, sink
    ensures file.bytes == FileOf(codec, After(codec, ledger, event, fate))
    ensures Fresh(codec, file, sinks)
  {
    var r;
    ghost var read;
    r, read := sink.Record(event, fate);
    AttemptKeepsChain(codec, ledger, read, event, fate);
    forall i | 0 <= i < |sinks| ensures StillTrue(codec, sinks[i].verified, file.bytes) {
      CacheSurvives(codec, old(sinks[i].verified), ledger, file.bytes);
    }
  }
}
