/** The tamper-evident ledger of src/pionir/audit.py: a hash chain of JSON lines that several
    processes append to, each of which may die at any byte of the line it is writing. */
module AuditLedger {
  import opened Wrappers
  import opened LedgerBytes

  datatype Event = Event(eventType: string, taskId: string, agentId: string, occurredAt: string, detail: Option<string>)

  /** The rest of a record: the fields of an event, or whatever else an object read back holds. */
  datatype Body = Recorded(event: Event) | Foreign(json: string)

  /** A ledger record without its digest. A record read back may lack any field. */
  datatype Doc = Doc(sequence: Option<int>, previous: Option<string>, body: Body)

  datatype Parse = NotJson | NotAnObject | Object(doc: Doc, sha256: Option<string>)

  const DIGEST_LENGTH := 64
  const GENESIS := seq(DIGEST_LENGTH, _ => '0')

  /** JSON, SHA-256 over the canonical JSON, and UTF-8. */
  datatype Codec = Codec(encode: (Doc, string) -> Bytes, decode: Bytes -> Parse, hash: Doc -> string, isText: Bytes -> bool)

  predicate Blank(line: Bytes) { forall i | 0 <= i < |line| :: line[i] == 32 || 9 <= line[i] <= 13 }

  /** The line breaks that JSON leaves in a string as they are: those below U+0020 it escapes. */
  predicate IsBreak(c: char) { c == '\U{0085}' || c == '\U{2028}' || c == '\U{2029}' }

  predicate Breaks(text: string) { exists i :: 0 <= i < |text| && IsBreak(text[i]) }

  predicate Unbroken(event: Event) {
    && !Breaks(event.eventType) && !Breaks(event.taskId) && !Breaks(event.agentId) && !Breaks(event.occurredAt)
    && (event.detail.Some? ==> !Breaks(event.detail.value))
  }

  predicate IsDigest(text: string) {
    |text| == DIGEST_LENGTH && forall i | 0 <= i < |text| :: '0' <= text[i] <= '9' || 'a' <= text[i] <= 'f'
  }

  /** What the ledger relies on: a record is one line that reads back, no beginning of that
      line is a JSON document, the line holds the breaks that the event's fields hold and no
      others, and text after text is text. */
  ghost predicate Sound(codec: Codec) {
    && (forall doc: Doc, sha256 | doc.body.Recorded? :: Encodes(codec, doc, sha256))
    && (forall doc :: IsDigest(codec.hash(doc)))
    && codec.isText([]) && codec.isText([NL])
    && (forall a, b :: codec.isText(a) && codec.isText(b) ==> codec.isText(a + b))
  }

  ghost predicate Encodes(codec: Codec, doc: Doc, sha256: string)
    requires doc.body.Recorded?
  {
    var line := codec.encode(doc, sha256);
    && codec.decode(line) == Object(doc, Some(sha256))
    && (forall n | 0 <= n < |line| :: codec.decode(line[..n]).NotJson?)
    && OneLine(line) && !Blank(line) && codec.isText(line)
    && (doc.previous.Some? && IsDigest(doc.previous.value) && IsDigest(sha256) ==>
         (BreakFree(line) <==> Unbroken(doc.body.event)))
  }

  // ----- the chain of the events recorded so far

  function LastDoc(codec: Codec, events: seq<Event>): Doc
    requires events != []
    decreases |events|, 0
  {
    Doc(Some(|events|), Some(Head(codec, events[..|events| - 1])), Recorded(events[|events| - 1]))
  }

  function Head(codec: Codec, events: seq<Event>): string
    decreases |events|, 1
  {
    if events == [] then GENESIS else codec.hash(LastDoc(codec, events))
  }

  function LineOf(codec: Codec, doc: Doc): Bytes { codec.encode(doc, codec.hash(doc)) }

  function ChainLines(codec: Codec, events: seq<Event>): (lines: seq<Bytes>)
    ensures |lines| == |events|
  {
    if events == [] then []
    else ChainLines(codec, events[..|events| - 1]) + [LineOf(codec, LastDoc(codec, events))]
  }

  /** The file between two records: the whole chain, and what a dying process left behind it. */
  datatype Ledger = Ledger(events: seq<Event>, partial: Bytes)

  function FileOf(codec: Codec, ledger: Ledger): Bytes {
    Render(ChainLines(codec, ledger.events)) + ledger.partial
  }

  lemma {:induction false} ChainIsLedger(codec: Codec, ledger: Ledger)
    requires Sound(codec) && OneLine(ledger.partial)
    ensures IsLedger(FileOf(codec, ledger), ChainLines(codec, ledger.events), ledger.partial)
    ensures |ChainLines(codec, ledger.events)| == |ledger.events|
    ensures codec.isText(Render(ChainLines(codec, ledger.events)))
    decreases |ledger.events|
  {
    var events := ledger.events;
    if events != [] {
      ChainIsLedger(codec, Ledger(events[..|events| - 1], ledger.partial));
      var doc := LastDoc(codec, events);
      assert Encodes(codec, doc, codec.hash(doc));
      var front := ChainLines(codec, events[..|events| - 1]);
      assert ChainLines(codec, events)[..|front|] == front;
    }
  }

  // ----- the head, read from the file's end

  datatype TailRead = At(sequence: int, digest: string, truncated: nat) | NotARecord

  function ReadHead(codec: Codec, last: Bytes, truncated: nat): TailRead {
    if Blank(last) then At(0, GENESIS, truncated)
    else match codec.decode(last)
      case Object(Doc(Some(sequence), _, _), Some(sha256)) =>
        if |sha256| == DIGEST_LENGTH then At(sequence, sha256, truncated) else NotARecord
      case _ => NotARecord
  }

  function LastOr(lines: seq<Bytes>): Bytes { if lines == [] then [] else lines[|lines| - 1] }

  /** What reading the whole file would have found. */
  ghost predicate TailOf(codec: Codec, file: Bytes, read: TailRead) {
    && (read.At? ==> read.truncated <= |file|)
    && forall lines, partial | IsLedger(file, lines, partial) ::
         read == ReadHead(codec, LastOr(lines), |partial|)
  }

  lemma {:induction false} TailOfChain(codec: Codec, ledger: Ledger, read: TailRead)
    requires Sound(codec) && OneLine(ledger.partial) && TailOf(codec, FileOf(codec, ledger), read)
    ensures read == At(|ledger.events|, Head(codec, ledger.events), |ledger.partial|)
  {
    ChainIsLedger(codec, ledger);
    if ledger.events != [] {
      var doc := LastDoc(codec, ledger.events);
      assert Encodes(codec, doc, codec.hash(doc));
    }
  }

  // ----- one attempt to record

  /** How far a process gets: it dies before it touches the file, after it cut a partial line
      off, or with only the first bytes of its line written. */
  datatype Fate = Completes | DiesFirst | DiesHealed | DiesWriting(written: nat)

  function Prefix(line: Bytes, n: nat): Bytes { if n <= |line| then line[..n] else line }

  function Appended(file: Bytes, line: Bytes, fate: Fate): Bytes {
    match fate
    case Completes => file + line + [NL]
    case DiesWriting(n) => file + Prefix(line, n)
    case _ => file
  }

  /** The file after `record`, given what it read from the file's end. */
  function AfterBytes(codec: Codec, file: Bytes, read: TailRead, event: Event, fate: Fate): Bytes
    requires read.At? ==> read.truncated <= |file|
  {
    if read.NotARecord? || fate.DiesFirst? then file
    else
      Appended(file[..|file| - read.truncated], LineOf(codec, Doc(Some(read.sequence + 1), Some(read.digest), Recorded(event))), fate)
  }

  /** The same, on the ledger. */
  function After(codec: Codec, ledger: Ledger, event: Event, fate: Fate): Ledger {
    match fate
    case DiesFirst => ledger
    case DiesHealed => ledger.(partial := [])
    case DiesWriting(n) => ledger.(partial := Prefix(LineOf(codec, LastDoc(codec, ledger.events + [event])), n))
    case Completes => Ledger(ledger.events + [event], [])
  }

  lemma NextDoc(codec: Codec, events: seq<Event>, event: Event)
    ensures LastDoc(codec, events + [event]) == Doc(Some(|events| + 1), Some(Head(codec, events)), Recorded(event))
    ensures ChainLines(codec, events + [event]) == ChainLines(codec, events) + [LineOf(codec, LastDoc(codec, events + [event]))]
  {
    assert (events + [event])[..|events|] == events;
  }

  /** Whatever a process leaves behind, the file is the chain of the completed events and at
      most one partial line; nothing that was complete is touched. */
  lemma AttemptKeepsChain(codec: Codec, ledger: Ledger, read: TailRead, event: Event, fate: Fate)
    requires Sound(codec) && OneLine(ledger.partial)
    requires TailOf(codec, FileOf(codec, ledger), read)
    ensures AfterBytes(codec, FileOf(codec, ledger), read, event, fate) == FileOf(codec, After(codec, ledger, event, fate))
    ensures OneLine(After(codec, ledger, event, fate).partial)
    ensures Render(ChainLines(codec, ledger.events)) <= FileOf(codec, After(codec, ledger, event, fate))
  {
    TailOfChain(codec, ledger, read);
    NextDoc(codec, ledger.events, event);
    var file, complete := FileOf(codec, ledger), Render(ChainLines(codec, ledger.events));
    assert file[..|file| - |ledger.partial|] == complete;
    var doc := LastDoc(codec, ledger.events + [event]);
    assert Encodes(codec, doc, codec.hash(doc));
    if fate.DiesFirst? {
      assert After(codec, ledger, event, fate) == ledger;
    } else {
      AppendedIsAfter(codec, ledger, event, fate);
    }
  }

  /** Appending to the healed file is appending to the chain. */
  lemma AppendedIsAfter(codec: Codec, ledger: Ledger, event: Event, fate: Fate)
    requires !fate.DiesFirst?
    ensures var line, complete := LineOf(codec, LastDoc(codec, ledger.events + [event])), Render(ChainLines(codec, ledger.events));
      && FileOf(codec, After(codec, ledger, event, fate)) == Appended(complete, line, fate)
      && complete <= Appended(complete, line, fate)
  {
    NextDoc(codec, ledger.events, event);
    var line := LineOf(codec, LastDoc(codec, ledger.events + [event]));
    match fate
    case Completes => RenderMore(ChainLines(codec, ledger.events), line);
    case DiesHealed => assert Render(ChainLines(codec, ledger.events)) + [] == Render(ChainLines(codec, ledger.events));
    case DiesWriting(n) =>
  }

  lemma RenderMore(lines: seq<Bytes>, line: Bytes)
    ensures Render(lines + [line]) + [] == Render(lines) + line + [NL]
  {
    assert (lines + [line])[..|lines|] == lines;
  }

  // ----- the whole file, verified

  datatype Fault = Unreadable | InvalidJson | NotObject | SequenceBreaks | ChainBreaks | DigestFails | PartialLine

  datatype Verdict = Verified(sequence: nat, head: string) | Broken(line: nat, fault: Fault)

  function Judge(codec: Codec, lines: seq<Bytes>, sequence: nat, previous: string): Verdict {
    if lines == [] then Verified(sequence, previous)
    else match codec.decode(lines[0])
      case NotJson => Broken(sequence + 1, InvalidJson)
      case NotAnObject => Broken(sequence + 1, NotObject)
      case Object(doc, sha256) =>
        if doc.sequence != Some(sequence + 1) then Broken(sequence + 1, SequenceBreaks)
        else if doc.previous != Some(previous) then Broken(sequence + 1, ChainBreaks)
        else if sha256 != Some(codec.hash(doc)) then Broken(sequence + 1, DigestFails)
        else Judge(codec, lines[1..], sequence + 1, codec.hash(doc))
  }

  predicate Truncated(raw: Bytes) { raw != [] && raw[|raw| - 1] != NL }

  function WholeLines(raw: Bytes): seq<Bytes> {
    var lines := SplitLines(raw);
    if Truncated(raw) && lines != [] then lines[..|lines| - 1] else lines
  }

  function VerdictOn(codec: Codec, raw: Bytes): Verdict {
    if !codec.isText(raw) then Broken(0, Unreadable)
    else
      var verdict := Judge(codec, WholeLines(raw), 0, GENESIS);
      if verdict.Verified? && Truncated(raw) then Broken(|WholeLines(raw)| + 1, PartialLine) else verdict
  }

  /** The chain is walked through: after its lines the rest is judged from its head. */
  lemma {:induction false} JudgeOn(codec: Codec, events: seq<Event>, rest: seq<Bytes>)
    requires Sound(codec)
    ensures Judge(codec, ChainLines(codec, events) + rest, 0, GENESIS) == Judge(codec, rest, |events|, Head(codec, events))
  {
    if events == [] {
      assert ChainLines(codec, events) + rest == rest;
    } else {
      var front, doc := events[..|events| - 1], LastDoc(codec, events);
      var line := LineOf(codec, doc);
      assert Encodes(codec, doc, codec.hash(doc));
      JudgeOn(codec, front, [line] + rest);
      assert ChainLines(codec, events) + rest == ChainLines(codec, front) + ([line] + rest);
      assert ([line] + rest)[1..] == rest;
    }
  }

  ghost predicate AllBreakFree(lines: seq<Bytes>) { forall i | 0 <= i < |lines| :: BreakFree(lines[i]) }

  ghost predicate AllUnbroken(events: seq<Event>) { forall i | 0 <= i < |events| :: Unbroken(events[i]) }

  /** The lines of a ledger have no breaks of their own when its events have none. */
  lemma {:induction false} LinesAreUnbroken(codec: Codec, events: seq<Event>)
    requires Sound(codec)
    ensures AllBreakFree(ChainLines(codec, events)) <==> AllUnbroken(events)
  {
    if events != [] {
      var n := |events| - 1;
      LinesAreUnbroken(codec, events[..n]);
      var doc := LastDoc(codec, events);
      assert Encodes(codec, doc, codec.hash(doc));
      assert IsDigest(Head(codec, events[..n]));
      AllMore(ChainLines(codec, events[..n]), LineOf(codec, doc));
      UnbrokenMore(events[..n], events[n]);
      assert events == events[..n] + [events[n]];
    }
  }

  lemma AllMore(lines: seq<Bytes>, line: Bytes)
    ensures AllBreakFree(lines + [line]) <==> AllBreakFree(lines) && BreakFree(line)
  {
    if AllBreakFree(lines + [line]) {
      forall i | 0 <= i < |lines| ensures BreakFree(lines[i]) {
        assert (lines + [line])[i] == lines[i];
      }
      assert (lines + [line])[|lines|] == line;
    }
  }

  lemma UnbrokenMore(events: seq<Event>, event: Event)
    ensures AllUnbroken(events + [event]) <==> AllUnbroken(events) && Unbroken(event)
  {
    if AllUnbroken(events + [event]) {
      forall i | 0 <= i < |events| ensures Unbroken(events[i]) {
        assert (events + [event])[i] == events[i];
      }
      assert (events + [event])[|events|] == event;
    }
  }

  /** The line of an event that holds U+0085, U+2028 or U+2029 is cut in two, and its first half
      is no JSON - whatever follows it. */
  lemma {:induction false} CutLineFails(codec: Codec, events: seq<Event>, rest: Bytes)
    requires Sound(codec) && !AllUnbroken(events)
    ensures Judge(codec, SplitLines(Render(ChainLines(codec, events)) + rest), 0, GENESIS).Broken?
  {
    var front, doc := events[..|events| - 1], LastDoc(codec, events);
    var lines, line := ChainLines(codec, front), LineOf(codec, doc);
    var after := line + [NL] + rest;
    LinesAreUnbroken(codec, events);
    LinesAreUnbroken(codec, front);
    assert ChainLines(codec, events)[..|lines|] == lines;
    assert Render(ChainLines(codec, events)) + rest == Render(lines) + after;
    if AllBreakFree(lines) {
      ChainIsLedger(codec, Ledger(front, []));
      SplitRendered(lines, after);
      JudgeOn(codec, front, SplitLines(after));
      assert Encodes(codec, doc, codec.hash(doc));
      FirstPieceFails(codec, line, rest, |front|, Head(codec, front));
    } else {
      CutLineFails(codec, front, after);
    }
  }

  lemma FirstPieceFails(codec: Codec, line: Bytes, rest: Bytes, sequence: nat, previous: string)
    requires OneLine(line) && !BreakFree(line) && forall n | 0 <= n < |line| :: codec.decode(line[..n]).NotJson?
    ensures Judge(codec, SplitLines(line + [NL] + rest), sequence, previous).Broken?
  {
    var after := line + [NL] + rest;
    BreakInContext(line, rest);
    SplitOnce(after);
    var at := FirstBreak(line, 0);
    assert after[..at] == line[..at];
    assert SplitLines(after)[0] == line[..at];
  }

  /** Exactly when does a ledger that lost nothing verify: when no field of any event holds
      U+0085, U+2028 or U+2029. Then the verdict is the number of events and the last digest. */
  lemma LedgerVerifies(codec: Codec, events: seq<Event>)
    requires Sound(codec)
    ensures var file := FileOf(codec, Ledger(events, []));
      && (VerdictOn(codec, file).Verified? <==> AllUnbroken(events))
      && (VerdictOn(codec, file).Verified? ==> VerdictOn(codec, file) == Verified(|events|, Head(codec, events)))
  {
    var lines, file := ChainLines(codec, events), FileOf(codec, Ledger(events, []));
    ChainIsLedger(codec, Ledger(events, []));
    LinesAreUnbroken(codec, events);
    assert file == Render(lines) + [] == Render(lines);
    if AllBreakFree(lines) {
      SplitRendered(lines, []);
      JudgeOn(codec, events, []);
      assert lines + [] == lines;
    } else {
      CutLineFails(codec, events, []);
    }
  }

  /** A detail that is one U+2028: the ledger of this one event, written whole and touched by
      nobody, is reported broken. */
  lemma SeparatorFails(codec: Codec, taskId: string, occurredAt: string)
    requires Sound(codec)
    ensures VerdictOn(codec, FileOf(codec, Ledger([Event("route", taskId, "host", occurredAt, Some("\U{2028}"))], []))).Broken?
  {
    var event := Event("route", taskId, "host", occurredAt, Some("\U{2028}"));
    assert IsBreak(event.detail.value[0]);
    assert !Unbroken([event][0]);
    LedgerVerifies(codec, [event]);
  }

  /** A crash left a partial line: never a clean verdict, and the exact one when the text
      holds no other breaks. */
  lemma PartialIsReported(codec: Codec, ledger: Ledger)
    requires Sound(codec) && OneLine(ledger.partial) && ledger.partial != []
    ensures VerdictOn(codec, FileOf(codec, ledger)).Broken?
    ensures AllUnbroken(ledger.events) && BreakFree(ledger.partial) && codec.isText(ledger.partial) ==>
      VerdictOn(codec, FileOf(codec, ledger)) == Broken(|ledger.events| + 1, PartialLine)
  {
    var lines, file := ChainLines(codec, ledger.events), FileOf(codec, ledger);
    ChainIsLedger(codec, ledger);
    LinesAreUnbroken(codec, ledger.events);
    assert file[|file| - 1] == ledger.partial[|ledger.partial| - 1] && ledger.partial[|ledger.partial| - 1] in ledger.partial;
    assert Truncated(file);
    if AllBreakFree(lines) && BreakFree(ledger.partial) && codec.isText(ledger.partial) {
      SplitRendered(lines, ledger.partial);
      assert SplitLines(ledger.partial) == [ledger.partial];
      assert WholeLines(file) == lines;
      JudgeOn(codec, ledger.events, []);
      assert lines + [] == lines;
    }
  }

  // ----- what a verdict says of the stored lines

  function Stored(codec: Codec, line: Bytes): Option<string> {
    var parsed := codec.decode(line);
    if parsed.Object? then parsed.sha256 else None
  }

  /** The digest stored on the line before, or the genesis, the head of no events. */
  function StoredBefore(codec: Codec, lines: seq<Bytes>, i: nat): Option<string>
    requires i <= |lines|
  {
    if i == 0 then Some(Head(codec, [])) else Stored(codec, lines[i - 1])
  }

  /** Line `i` is a record, numbered from one, that names the digest stored on the line before and
      stores its own. */
  ghost predicate Holds(codec: Codec, lines: seq<Bytes>, i: nat)
    requires i < |lines|
  {
    var parsed := codec.decode(lines[i]);
    && parsed.Object? && parsed.doc.sequence == Some(i + 1) && parsed.doc.previous == StoredBefore(codec, lines, i)
    && parsed.sha256 == Some(codec.hash(parsed.doc))
  }

  /** What is wrong with a line, when the lines before it hold. */
  ghost predicate IsFault(codec: Codec, lines: seq<Bytes>, i: nat, fault: Fault)
    requires i < |lines|
  {
    var parsed := codec.decode(lines[i]);
    match fault
    case InvalidJson => parsed.NotJson?
    case NotObject => parsed.NotAnObject?
    case SequenceBreaks => parsed.Object? && parsed.doc.sequence != Some(i + 1)
    case ChainBreaks => parsed.Object? && parsed.doc.sequence == Some(i + 1) && parsed.doc.previous != StoredBefore(codec, lines, i)
    case DigestFails =>
      && parsed.Object? && parsed.doc.sequence == Some(i + 1) && parsed.doc.previous == StoredBefore(codec, lines, i)
      && parsed.sha256 != Some(codec.hash(parsed.doc))
    case _ => false
  }

  ghost predicate HoldTo(codec: Codec, lines: seq<Bytes>, n: nat)
    requires n <= |lines|
  {
    forall i | 0 <= i < n :: Holds(codec, lines, i)
  }

  /** A verdict on lines of which the first `n` hold. */
  ghost predicate Means(codec: Codec, lines: seq<Bytes>, verdict: Verdict) {
    if verdict.Verified? then
      verdict.sequence == |lines| && HoldTo(codec, lines, |lines|) && Some(verdict.head) == StoredBefore(codec, lines, |lines|)
    else
      1 <= verdict.line <= |lines| && HoldTo(codec, lines, verdict.line - 1) && IsFault(codec, lines, verdict.line - 1, verdict.fault)
  }

  lemma {:induction false} JudgeMeans(codec: Codec, lines: seq<Bytes>, n: nat, previous: string)
    requires n <= |lines| && HoldTo(codec, lines, n) && Some(previous) == StoredBefore(codec, lines, n)
    ensures Means(codec, lines, Judge(codec, lines[n..], n, previous))
    decreases |lines| - n
  {
    if n < |lines| {
      var parsed := codec.decode(lines[n]);
      assert lines[n..][0] == lines[n] && lines[n..][1..] == lines[n + 1..];
      if parsed.Object? && parsed.doc.sequence == Some(n + 1) && parsed.doc.previous == Some(previous)
        && parsed.sha256 == Some(codec.hash(parsed.doc)) {
        assert Holds(codec, lines, n);
        JudgeMeans(codec, lines, n + 1, codec.hash(parsed.doc));
      }
    }
  }

  /** No two verdicts mean the same lines. */
  lemma MeansOne(codec: Codec, lines: seq<Bytes>, verdict: Verdict, other: Verdict)
    requires Means(codec, lines, verdict) && Means(codec, lines, other)
    ensures verdict == other
  {
    if verdict.Broken? {
      FaultyFails(codec, lines, verdict.line - 1, verdict.fault);
    }
    if other.Broken? {
      FaultyFails(codec, lines, other.line - 1, other.fault);
    }
  }

  lemma FaultyFails(codec: Codec, lines: seq<Bytes>, i: nat, fault: Fault)
    requires i < |lines| && IsFault(codec, lines, i, fault)
    ensures !Holds(codec, lines, i)
  {
  }

  /** Exactly what each verdict on a file says: accepted if and only if every line stores its own
      digest and names the one stored before it, numbered in a row, with nothing after the last
      newline; and otherwise the first line that does not, with what is wrong with it. */
  lemma VerdictMeans(codec: Codec, raw: Bytes, verdict: Verdict)
    requires codec.isText(raw)
    ensures VerdictOn(codec, raw) == verdict <==>
      if Truncated(raw) && HoldTo(codec, WholeLines(raw), |WholeLines(raw)|) then verdict == Broken(|WholeLines(raw)| + 1, PartialLine)
      else Means(codec, WholeLines(raw), verdict)
  {
    var lines := WholeLines(raw);
    assert lines[0..] == lines;
    JudgeMeans(codec, lines, 0, GENESIS);
    var judged := Judge(codec, lines, 0, GENESIS);
    if judged.Broken? {
      FaultyFails(codec, lines, judged.line - 1, judged.fault);
    }
    if Means(codec, lines, verdict) {
      MeansOne(codec, lines, verdict, judged);
    }
  }

  lemma {:induction false} ChainHolds(codec: Codec, events: seq<Event>, i: nat)
    requires Sound(codec) && i < |events|
    ensures |ChainLines(codec, events)| == |events| && Holds(codec, ChainLines(codec, events), i)
    ensures StoredBefore(codec, ChainLines(codec, events), |events|) == Some(Head(codec, events))
  {
    ChainIsLedger(codec, Ledger(events, []));
    var n, doc, lines := |events| - 1, LastDoc(codec, events), ChainLines(codec, events);
    var front := ChainLines(codec, events[..n]);
    assert Encodes(codec, doc, codec.hash(doc));
    assert lines == front + [LineOf(codec, doc)];
    ChainIsLedger(codec, Ledger(events[..n], []));
    if n > 0 {
      ChainHolds(codec, events[..n], if i < n then i else 0);
    }
    if i < n {
      assert forall j | 0 <= j < n :: lines[j] == front[j];
    } else {
      assert StoredBefore(codec, lines, n) == StoredBefore(codec, front, n);
    }
  }

  lemma {:induction false} RenderIsText(codec: Codec, lines: seq<Bytes>)
    requires Sound(codec) && forall i | 0 <= i < |lines| :: codec.isText(lines[i])
    ensures codec.isText(Render(lines))
  {
    if lines != [] {
      RenderIsText(codec, lines[..|lines| - 1]);
    }
  }

  ghost predicate IsOwnLine(codec: Codec, line: Bytes) { OneLine(line) && BreakFree(line) && codec.isText(line) }

  lemma {:induction false} ChainTexts(codec: Codec, events: seq<Event>)
    requires Sound(codec) && AllUnbroken(events)
    ensures forall i | 0 <= i < |ChainLines(codec, events)| :: IsOwnLine(codec, ChainLines(codec, events)[i])
  {
    LinesAreUnbroken(codec, events);
    ChainIsLedger(codec, Ledger(events, []));
    var lines := ChainLines(codec, events);
    forall i | 0 <= i < |lines| ensures codec.isText(lines[i]) {
      ChainIsText(codec, events, i);
    }
  }

  lemma {:induction false} ChainIsText(codec: Codec, events: seq<Event>, i: nat)
    requires Sound(codec) && i < |ChainLines(codec, events)|
    ensures codec.isText(ChainLines(codec, events)[i])
  {
    if events != [] {
      var n, doc := |events| - 1, LastDoc(codec, events);
      assert Encodes(codec, doc, codec.hash(doc));
      if i < |ChainLines(codec, events[..n])| {
        ChainIsText(codec, events[..n], i);
      }
    }
  }

  lemma WholeLinesOf(codec: Codec, lines: seq<Bytes>)
    requires Sound(codec) && forall i | 0 <= i < |lines| :: IsOwnLine(codec, lines[i])
    ensures codec.isText(Render(lines)) && WholeLines(Render(lines)) == lines && !Truncated(Render(lines))
  {
    RenderIsText(codec, lines);
    SplitRendered(lines, []);
    assert Render(lines) + [] == Render(lines) && lines + [] == lines;
  }

  /** Any one line of a ledger replaced by another: the verdict names that line and what is wrong
      with it, if anything is. */
  lemma ReplacedLineIsFound(codec: Codec, events: seq<Event>, i: nat, line: Bytes, fault: Fault)
    requires Sound(codec) && AllUnbroken(events) && i < |events| && IsOwnLine(codec, line)
    requires IsFault(codec, ChainLines(codec, events)[i := line], i, fault)
    ensures VerdictOn(codec, Render(ChainLines(codec, events)[i := line])) == Broken(i + 1, fault)
  {
    var lines := ChainLines(codec, events)[i := line];
    ChainTexts(codec, events);
    WholeLinesOf(codec, lines);
    forall j | 0 <= j < i ensures Holds(codec, lines, j) {
      ChainHolds(codec, events, j);
      assert StoredBefore(codec, lines, j) == StoredBefore(codec, ChainLines(codec, events), j);
    }
    FaultyFails(codec, lines, i, fault);
    VerdictMeans(codec, Render(lines), Broken(i + 1, fault));
  }

  function EditedLine(codec: Codec, events: seq<Event>, i: nat, edited: Event, sha256: string): Bytes
    requires i < |events|
  {
    codec.encode(Doc(Some(i + 1), Some(Head(codec, events[..i])), Recorded(edited)), sha256)
  }

  /** An event edited in place, the digest on its line left as it was (or any but its own put
      there): the line is reported, and its digest is what fails. */
  lemma EditedEventIsFound(codec: Codec, events: seq<Event>, i: nat, edited: Event, sha256: string)
    requires Sound(codec) && AllUnbroken(events) && i < |events| && Unbroken(edited) && IsDigest(sha256)
    requires sha256 != codec.hash(Doc(Some(i + 1), Some(Head(codec, events[..i])), Recorded(edited)))
    ensures VerdictOn(codec, Render(ChainLines(codec, events)[i := EditedLine(codec, events, i, edited, sha256)])) == Broken(i + 1, DigestFails)
  {
    var doc := Doc(Some(i + 1), Some(Head(codec, events[..i])), Recorded(edited));
    var line := EditedLine(codec, events, i, edited, sha256);
    assert Encodes(codec, doc, sha256);
    HeadsAreDigests(codec, events[..i]);
    PrefixOfChain(codec, events, i);
    if i > 0 {
      ChainHolds(codec, events[..i], 0);
    }
    var lines := ChainLines(codec, events)[i := line];
    assert StoredBefore(codec, lines, i) == StoredBefore(codec, ChainLines(codec, events[..i]), i);
    ReplacedLineIsFound(codec, events, i, line, DigestFails);
  }

  lemma HeadsAreDigests(codec: Codec, events: seq<Event>)
    requires Sound(codec)
    ensures IsDigest(Head(codec, events))
  {
  }

  lemma {:induction false} PrefixOfChain(codec: Codec, events: seq<Event>, i: nat)
    requires Sound(codec) && i <= |events|
    ensures |ChainLines(codec, events)| == |events| && |ChainLines(codec, events[..i])| == i
    ensures forall j | 0 <= j < i :: ChainLines(codec, events)[j] == ChainLines(codec, events[..i])[j]
    decreases |events|
  {
    ChainIsLedger(codec, Ledger(events, []));
    ChainIsLedger(codec, Ledger(events[..i], []));
    if i < |events| {
      var n := |events| - 1;
      PrefixOfChain(codec, events[..n], i);
      assert events[..n][..i] == events[..i];
    } else {
      assert events[..i] == events;
    }
  }

  // ----- equal heads, equal ledgers

  function DocsOf(codec: Codec, lines: seq<Bytes>): seq<Doc> {
    if lines == [] then []
    else
      var parsed := codec.decode(lines[0]);
      (if parsed.Object? then [parsed.doc] else []) + DocsOf(codec, lines[1..])
  }

  ghost predicate Follows(codec: Codec, docs: seq<Doc>, i: nat, sequence: nat, previous: string)
    requires i < |docs|
  {
    && docs[i].sequence == Some(sequence + i + 1)
    && docs[i].previous == Some(if i == 0 then previous else codec.hash(docs[i - 1]))
  }

  ghost predicate IsChain(codec: Codec, docs: seq<Doc>, sequence: nat, previous: string) {
    forall i | 0 <= i < |docs| :: Follows(codec, docs, i, sequence, previous)
  }

  function HeadOf(codec: Codec, docs: seq<Doc>, previous: string): string {
    if docs == [] then previous else codec.hash(docs[|docs| - 1])
  }

  lemma {:induction false} JudgedIsChain(codec: Codec, lines: seq<Bytes>, sequence: nat, previous: string)
    requires Judge(codec, lines, sequence, previous).Verified?
    ensures var docs := DocsOf(codec, lines);
      && |docs| == |lines| && IsChain(codec, docs, sequence, previous)
      && Judge(codec, lines, sequence, previous) == Verified(sequence + |lines|, HeadOf(codec, docs, previous))
  {
    if lines != [] {
      var doc := codec.decode(lines[0]).doc;
      JudgedIsChain(codec, lines[1..], sequence + 1, codec.hash(doc));
      var docs, rest := DocsOf(codec, lines), DocsOf(codec, lines[1..]);
      assert docs == [doc] + rest;
      forall i | 0 <= i < |docs| ensures Follows(codec, docs, i, sequence, previous) {
        if i > 0 {
          assert Follows(codec, rest, i - 1, sequence + 1, codec.hash(doc));
        }
      }
    }
  }

  /** The hash was broken: two documents with one digest, or one that hashes to the genesis. */
  ghost predicate HashBroken(codec: Codec, docs: seq<Doc>, others: seq<Doc>) {
    || (exists i, j :: 0 <= i < |docs| && 0 <= j < |others| && docs[i] != others[j] && codec.hash(docs[i]) == codec.hash(others[j]))
    || (exists i :: 0 <= i < |docs| && codec.hash(docs[i]) == GENESIS)
    || (exists j :: 0 <= j < |others| && codec.hash(others[j]) == GENESIS)
  }

  lemma {:induction false} SameHeadSameChain(codec: Codec, docs: seq<Doc>, others: seq<Doc>)
    requires IsChain(codec, docs, 0, GENESIS) && IsChain(codec, others, 0, GENESIS)
    requires HeadOf(codec, docs, GENESIS) == HeadOf(codec, others, GENESIS)
    ensures docs == others || HashBroken(codec, docs, others)
    decreases |docs|
  {
    var n, m := |docs| - 1, |others| - 1;
    if docs == [] && others == [] {
    } else if docs == [] {
      assert codec.hash(others[m]) == GENESIS;
    } else if others == [] {
      assert codec.hash(docs[n]) == GENESIS;
    } else if docs[n] == others[m] {
      assert Follows(codec, docs, n, 0, GENESIS) && Follows(codec, others, m, 0, GENESIS);
      assert n == m;
      ChainFront(codec, docs);
      ChainFront(codec, others);
      SameHeadSameChain(codec, docs[..n], others[..m]);
      if docs[..n] == others[..m] {
        assert docs == docs[..n] + [docs[n]];
        assert others == others[..m] + [others[m]];
      } else {
        BrokenGrows(codec, docs, others, n, m);
      }
    } else {
      assert codec.hash(docs[n]) == codec.hash(others[m]);
    }
  }

  lemma ChainFront(codec: Codec, docs: seq<Doc>)
    requires IsChain(codec, docs, 0, GENESIS) && docs != []
    ensures var front := docs[..|docs| - 1];
      IsChain(codec, front, 0, GENESIS) && docs[|docs| - 1].previous == Some(HeadOf(codec, front, GENESIS))
  {
    var front := docs[..|docs| - 1];
    forall i | 0 <= i < |front| ensures Follows(codec, front, i, 0, GENESIS) {
      assert Follows(codec, docs, i, 0, GENESIS);
    }
    assert Follows(codec, docs, |docs| - 1, 0, GENESIS);
  }

  lemma BrokenGrows(codec: Codec, docs: seq<Doc>, others: seq<Doc>, n: nat, m: nat)
    requires n <= |docs| && m <= |others| && HashBroken(codec, docs[..n], others[..m])
    ensures HashBroken(codec, docs, others)
  {
    var a, b := docs[..n], others[..m];
    if i, j :| 0 <= i < n && 0 <= j < m && a[i] != b[j] && codec.hash(a[i]) == codec.hash(b[j]) {
      assert docs[i] != others[j] && codec.hash(docs[i]) == codec.hash(others[j]);
    } else if i :| 0 <= i < n && codec.hash(a[i]) == GENESIS {
      assert codec.hash(docs[i]) == GENESIS;
    } else {
      var j :| 0 <= j < m && codec.hash(b[j]) == GENESIS;
      assert codec.hash(others[j]) == GENESIS;
    }
  }

  /** Any two files that verify with the same head hold the same records in the same order:
      an edit, insertion, deletion or reordering changes the head or fails, unless SHA-256 was
      broken. */
  lemma EqualHeadsEqualLedgers(codec: Codec, file: Bytes, other: Bytes)
    requires VerdictOn(codec, file).Verified? && VerdictOn(codec, other).Verified?
    requires VerdictOn(codec, file).head == VerdictOn(codec, other).head
    ensures var docs, others := DocsOf(codec, WholeLines(file)), DocsOf(codec, WholeLines(other));
      || (docs == others && VerdictOn(codec, file) == VerdictOn(codec, other) == Verified(|docs|, HeadOf(codec, docs, GENESIS)))
      || HashBroken(codec, docs, others)
  {
    JudgedIsChain(codec, WholeLines(file), 0, GENESIS);
    JudgedIsChain(codec, WholeLines(other), 0, GENESIS);
    SameHeadSameChain(codec, DocsOf(codec, WholeLines(file)), DocsOf(codec, WholeLines(other)));
  }
}
