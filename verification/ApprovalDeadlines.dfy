/** How long an approval can be claimed, in terms of what it was enqueued with; and what each
    operation of the queue writes into its row. */
module ApprovalDeadlines {
  import opened Wrappers
  import opened Approvals
  import opened ApprovalRuns

  const A_DAY: Time := 24 * 60 * 60 * 1_000_000

  /** When an approval enqueued at `stamp` lapses: after the time asked for, or after a day when
      none was. */
  function LapsesAt(stamp: Time, expiresAfter: Option<Time>): Time {
    match expiresAfter
    case Some(after) => if after == 0 then stamp + A_DAY else stamp + after
    case None => stamp + A_DAY
  }

  /** The time an operation's sweep goes by, if it sweeps. */
  function Sweeps(op: Op): Option<Time> {
    match op
    case Restart(_, _) => None
    case NoteDigest(_, _, _) => None
    case Enqueue(_, _, _, _, _, clock) => Some(clock.sweep)
    case Look(clock) => Some(clock.sweep)
    case Claim(_, _, clock) => Some(clock.sweep)
    case Resolve(_, _, _, _, clock) => Some(clock.sweep)
  }

  /** An operation that may take the approval out of its waiting itself. */
  predicate Takes(op: Op, id: Id) {
    || (op.Claim? && op.id == id)
    || (op.Resolve? && op.id == id && op.from.Pending?)
  }

  predicate WaitsUntil(rows: seq<Row>, id: Id, lapses: Time) {
    exists i :: 0 <= i < |rows| && rows[i].id == id && rows[i].status.Pending? && rows[i].expiresAt == Some(lapses)
  }

  predicate DoesNotWait(rows: seq<Row>, id: Id) { forall i | 0 <= i < |rows| && rows[i].id == id :: !rows[i].status.Pending? }

  // ----- one row

  /** A row that says nothing of its expiry lapses a day after it was made, and one that says
      neither never does. */
  lemma LapsesExactly(row: Row, now: Time)
    requires row.status.Pending?
    ensures SweptRow(row, now) ==
      if (row.expiresAt.Some? && now >= row.expiresAt.value)
        || (row.expiresAt.None? && row.createdAt.Some? && now >= row.createdAt.value + A_DAY)
      then row.(status := Denied, reason := Some(Expired), resolvedAt := Some(now)) else row
  {
  }

  // ----- one operation

  lemma {:induction false} RetainedWaits(rows: seq<Row>, save: Time, id: Id, lapses: Time)
    requires WaitsUntil(rows, id, lapses)
    ensures WaitsUntil(Retained(rows, save), id, lapses)
  {
    RetainedIsPart(rows, save);
    var i :| 0 <= i < |rows| && rows[i].id == id && rows[i].status.Pending? && rows[i].expiresAt == Some(lapses);
    assert rows[i] in Retained(rows, save);
  }

  lemma RetainedDoesNotWait(rows: seq<Row>, save: Time, id: Id)
    requires DoesNotWait(rows, id)
    ensures DoesNotWait(Retained(rows, save), id)
  {
    RetainedIsPart(rows, save);
    var kept := Retained(rows, save);
    forall k | 0 <= k < |kept| && kept[k].id == id ensures !kept[k].status.Pending? {
      assert kept[k] in rows;
    }
  }

  lemma SweptWaits(rows: seq<Row>, now: Time, id: Id, lapses: Time)
    requires OneRowEach(rows) && WaitsUntil(rows, id, lapses)
    ensures if now >= lapses then DoesNotWait(Swept(rows, now), id) else WaitsUntil(Swept(rows, now), id, lapses)
    ensures OneRowEach(Swept(rows, now))
  {
    var i :| 0 <= i < |rows| && rows[i].id == id && rows[i].status.Pending? && rows[i].expiresAt == Some(lapses);
    var swept := Swept(rows, now);
    forall k | 0 <= k < |rows| ensures swept[k] == SweptRow(rows[k], now) {
    }
    LapsesExactly(rows[i], now);
    if now < lapses {
      assert swept[i] == rows[i];
    }
  }

  /** What waits stays waiting, or ceases to at its lapse and no sooner. */
  predicate Goes(rows: seq<Row>, id: Id, lapses: Time, read: Option<Time>) {
    if read.Some? && read.value >= lapses then DoesNotWait(rows, id) else WaitsUntil(rows, id, lapses)
  }

  lemma ChangedWaits(rows: seq<Row>, op: Op, id: Id, lapses: Time)
    requires OneRowEach(rows) && WaitsUntil(rows, id, lapses) && !Takes(op, id) && (op.Enqueue? ==> op.id != id)
    requires op.Resolve? ==> Terminal(op.to)
    ensures Goes(Changed(rows, op), id, lapses, Sweeps(op))
  {
    match op {
      case Restart(_, _) => UnsweptWaits(rows, op, id, lapses);
      case NoteDigest(_, _, _) => UnsweptWaits(rows, op, id, lapses);
      case _ =>
        SweptWaits(rows, op.clock.sweep, id, lapses);
        ThenWaits(Swept(rows, op.clock.sweep), rows, op, id, lapses);
    }
  }

  lemma UnsweptWaits(rows: seq<Row>, op: Op, id: Id, lapses: Time)
    requires WaitsUntil(rows, id, lapses) && (op.Restart? || op.NoteDigest?)
    ensures WaitsUntil(Changed(rows, op), id, lapses)
  {
    var i :| 0 <= i < |rows| && rows[i].id == id && rows[i].status.Pending? && rows[i].expiresAt == Some(lapses);
    var changed := Changed(rows, op);
    assert changed[i].id == id && changed[i].status.Pending? && changed[i].expiresAt == Some(lapses);
  }

  lemma ThenWaits(swept: seq<Row>, rows: seq<Row>, op: Op, id: Id, lapses: Time)
    requires !op.Restart? && !op.NoteDigest? && swept == Swept(rows, op.clock.sweep) && OneRowEach(swept)
    requires !Takes(op, id) && (op.Enqueue? ==> op.id != id) && (op.Resolve? ==> Terminal(op.to))
    requires WaitsUntil(swept, id, lapses) || DoesNotWait(swept, id)
    ensures WaitsUntil(swept, id, lapses) ==> WaitsUntil(Changed(rows, op), id, lapses)
    ensures DoesNotWait(swept, id) ==> DoesNotWait(Changed(rows, op), id)
  {
    var changed := Changed(rows, op);
    match op {
      case Look(_) =>
      case Enqueue(_, _, _, _, _, _) => OtherAdded(swept, changed, id, lapses);
      case Claim(other, _, _) => OtherChanged(swept, changed, PlaceOf(swept, other, Pending), id, lapses);
      case Resolve(_, _, _, _, _) => ResolvedElsewhere(swept, op, id, lapses);
    }
  }

  lemma OtherAdded(rows: seq<Row>, more: seq<Row>, id: Id, lapses: Time)
    requires |more| == |rows| + 1 && more[..|rows|] == rows && more[|rows|].id != id
    ensures WaitsUntil(rows, id, lapses) ==> WaitsUntil(more, id, lapses)
    ensures DoesNotWait(rows, id) ==> DoesNotWait(more, id)
  {
    forall k | 0 <= k < |rows| ensures more[k] == rows[k] {
      assert more[..|rows|][k] == rows[k];
    }
    if WaitsUntil(rows, id, lapses) {
      var i :| 0 <= i < |rows| && rows[i].id == id && rows[i].status.Pending? && rows[i].expiresAt == Some(lapses);
      assert more[i] == rows[i];
    }
  }

  lemma OtherChanged(rows: seq<Row>, after: seq<Row>, at: nat, id: Id, lapses: Time)
    requires |after| == |rows| && forall k | 0 <= k < |rows| && k != at :: after[k] == rows[k]
    requires at < |rows| ==> rows[at].id != id && after[at].id != id
    ensures WaitsUntil(rows, id, lapses) ==> WaitsUntil(after, id, lapses)
    ensures DoesNotWait(rows, id) ==> DoesNotWait(after, id)
  {
    if WaitsUntil(rows, id, lapses) {
      var i :| 0 <= i < |rows| && rows[i].id == id && rows[i].status.Pending? && rows[i].expiresAt == Some(lapses);
      assert after[i] == rows[i];
    }
  }

  lemma ResolvedElsewhere(rows: seq<Row>, op: Op, id: Id, lapses: Time)
    requires op.Resolve? && !Takes(op, id) && OneRowEach(rows) && (WaitsUntil(rows, id, lapses) || DoesNotWait(rows, id))
    requires op.id == id && DoesNotWait(rows, id) ==> Terminal(op.to)
    ensures var after := Resolved(rows, op.id, op.from, op.to, op.reason, op.clock.stamp);
      && (WaitsUntil(rows, id, lapses) ==> WaitsUntil(after, id, lapses))
      && (DoesNotWait(rows, id) ==> DoesNotWait(after, id))
  {
    var at := PlaceOf(rows, op.id, op.from);
    if WaitsUntil(rows, id, lapses) && op.id == id {
      var i :| 0 <= i < |rows| && rows[i].id == id && rows[i].status.Pending? && rows[i].expiresAt == Some(lapses);
      assert at < |rows| ==> at == i;
    } else if op.id != id {
      OtherChanged(rows, Resolved(rows, op.id, op.from, op.to, op.reason, op.clock.stamp), at, id, lapses);
    }
  }

  lemma DoneWaits(rows: seq<Row>, op: Op, id: Id, lapses: Time)
    requires OneRowEach(rows) && WaitsUntil(rows, id, lapses) && !Takes(op, id) && (op.Enqueue? ==> op.id != id)
    requires op.Resolve? ==> Terminal(op.to)
    ensures Goes(Done(rows, op), id, lapses, Sweeps(op))
  {
    ChangedWaits(rows, op, id, lapses);
    if Saves(rows, op) {
      if WaitsUntil(Changed(rows, op), id, lapses) {
        RetainedWaits(Changed(rows, op), SaveTime(op), id, lapses);
      } else {
        RetainedDoesNotWait(Changed(rows, op), SaveTime(op), id);
      }
    }
  }

  /** Nothing starts to wait again. */
  lemma DoneStaysOver(rows: seq<Row>, op: Op, id: Id)
    requires DoesNotWait(rows, id) && (op.Enqueue? ==> op.id != id) && (op.Resolve? ==> Terminal(op.to))
    ensures DoesNotWait(Done(rows, op), id)
  {
    var changed := Changed(rows, op);
    ChangedStaysOver(rows, op, id);
    RetainedDoesNotWait(changed, SaveTime(op), id);
  }

  lemma SweptStaysOver(rows: seq<Row>, now: Time, id: Id)
    requires DoesNotWait(rows, id)
    ensures DoesNotWait(Swept(rows, now), id)
  {
    forall k | 0 <= k < |rows| && Swept(rows, now)[k].id == id ensures !Swept(rows, now)[k].status.Pending? {
      assert Swept(rows, now)[k] == SweptRow(rows[k], now);
    }
  }

  lemma ChangedStaysOver(rows: seq<Row>, op: Op, id: Id)
    requires DoesNotWait(rows, id) && (op.Enqueue? ==> op.id != id) && (op.Resolve? ==> Terminal(op.to))
    ensures DoesNotWait(Changed(rows, op), id)
  {
    if Sweeps(op).Some? {
      SweptStaysOver(rows, op.clock.sweep, id);
    }
    if op.Enqueue? {
      OtherAdded(Swept(rows, op.clock.sweep), Changed(rows, op), id, 0);
    }
  }

  // ----- every run

  /** Since operation `n`, up to and without `m`, no sweep has read a time at or past `lapses`. */
  predicate NoSweepPast(ops: seq<Op>, n: nat, m: nat, lapses: Time)
    requires m <= |ops|
  {
    forall k | n < k < m :: Sweeps(ops[k]).Some? ==> Sweeps(ops[k]).value < lapses
  }

  predicate LeftAlone(ops: seq<Op>, n: nat, m: nat, id: Id)
    requires m <= |ops|
  {
    forall k | n < k < m :: !Takes(ops[k], id)
  }

  lemma EnqueuedWaits(q: Queue, op: Op)
    requires Inv(q) && op.Enqueue? && Enabled(q, op)
    ensures WaitsUntil(Do(q, op).rows, op.id, LapsesAt(op.clock.stamp, op.expiresAfter))
  {
    FileIsDone(q, op);
    var row := NewRow(op.id, op.work, op.batch, op.digestDate, op.expiresAfter, op.clock.stamp);
    var changed := Changed(q.rows, op);
    assert |changed| == |q.rows| + 1 && changed[|q.rows|] == row;
    assert WaitsUntil(changed, op.id, LapsesAt(op.clock.stamp, op.expiresAfter));
    RetainedWaits(changed, SaveTime(op), op.id, LapsesAt(op.clock.stamp, op.expiresAfter));
  }

  lemma RunPrefix(ops: seq<Op>)
    requires ops != [] && Run(ops).Some?
    ensures Run(ops[..|ops| - 1]).Some? && Enabled(Run(ops[..|ops| - 1]).value, ops[|ops| - 1])
    ensures Run(ops).value == Do(Run(ops[..|ops| - 1]).value, ops[|ops| - 1])
  {
  }

  predicate Stands(q: Queue, id: Id, waits: bool, lapses: Time) {
    id in q.stories && if waits then WaitsUntil(q.rows, id, lapses) else DoesNotWait(q.rows, id)
  }

  predicate Past(op: Op, lapses: Time) { Sweeps(op).Some? && Sweeps(op).value >= lapses }

  lemma OneMoreOp(q: Queue, op: Op, id: Id, waits: bool, lapses: Time)
    requires Inv(q) && Enabled(q, op) && !Takes(op, id) && Stands(q, id, waits, lapses)
    ensures Stands(Do(q, op), id, waits && !Past(op, lapses), lapses)
  {
    FileIsDone(q, op);
    StoriesGoOn(q, op);
    if waits {
      DoneWaits(q.rows, op, id, lapses);
    } else {
      DoneStaysOver(q.rows, op, id);
    }
  }

  lemma EnqueuedStands(q: Queue, op: Op)
    requires Inv(q) && op.Enqueue? && Enabled(q, op)
    ensures Stands(Do(q, op), op.id, true, LapsesAt(op.clock.stamp, op.expiresAfter))
  {
    EnqueuedWaits(q, op);
  }

  function LapseOf(op: Op): Time
    requires op.Enqueue?
  {
    LapsesAt(op.clock.stamp, op.expiresAfter)
  }

  lemma NoSweepPastMore(ops: seq<Op>, n: nat, lapses: Time)
    requires n < |ops| - 1
    ensures NoSweepPast(ops, n, |ops|, lapses) <==>
      NoSweepPast(ops[..|ops| - 1], n, |ops| - 1, lapses) && !Past(ops[|ops| - 1], lapses)
  {
    var front := ops[..|ops| - 1];
    forall k | n < k < |front| ensures front[k] == ops[k] {
    }
    if NoSweepPast(ops, n, |ops|, lapses) {
      assert Sweeps(ops[|ops| - 1]).Some? ==> Sweeps(ops[|ops| - 1]).value < lapses;
    }
  }

  lemma LeftAloneLess(ops: seq<Op>, n: nat, id: Id)
    requires n < |ops| - 1 && LeftAlone(ops, n, |ops|, id)
    ensures LeftAlone(ops[..|ops| - 1], n, |ops| - 1, id) && !Takes(ops[|ops| - 1], id)
  {
    var front := ops[..|ops| - 1];
    forall k | n < k < |front| ensures !Takes(front[k], id) {
      assert front[k] == ops[k];
    }
  }

  /** An approval that nobody claims or resolves waits until the first sweep at or past its
      lapse, and not a sweep longer. */
  lemma {:induction false} WaitsExactly(ops: seq<Op>, n: nat)
    requires Run(ops).Some? && n < |ops| && ops[n].Enqueue? && LeftAlone(ops, n, |ops|, ops[n].id)
    ensures Stands(Run(ops).value, ops[n].id, NoSweepPast(ops, n, |ops|, LapseOf(ops[n])), LapseOf(ops[n]))
    decreases |ops|
  {
    RunPrefix(ops);
    var front, last := ops[..|ops| - 1], ops[|ops| - 1];
    var q, id, lapses := Run(front).value, ops[n].id, LapseOf(ops[n]);
    EveryRun(front);
    if n == |ops| - 1 {
      EnqueuedStands(q, last);
    } else {
      LeftAloneLess(ops, n, id);
      WaitsExactly(front, n);
      NoSweepPastMore(ops, n, lapses);
      OneMoreOp(q, last, id, NoSweepPast(front, n, |front|, lapses), lapses);
    }
  }

  lemma WinsIfWaits(rows: seq<Row>, id: Id, clock: Clock, lapses: Time)
    requires OneRowEach(rows)
    ensures WaitsUntil(rows, id, lapses) ==> (Wins(rows, id, clock) <==> clock.sweep < lapses)
    ensures DoesNotWait(rows, id) ==> !Wins(rows, id, clock)
  {
    var swept := Swept(rows, clock.sweep);
    if WaitsUntil(rows, id, lapses) {
      SweptWaits(rows, clock.sweep, id, lapses);
      if clock.sweep < lapses {
        var i :| 0 <= i < |swept| && swept[i].id == id && swept[i].status.Pending? && swept[i].expiresAt == Some(lapses);
        assert PlaceOf(swept, id, Pending) <= i;
      }
    } else if DoesNotWait(rows, id) {
      SweptStaysOver(rows, clock.sweep, id);
    }
  }

  /** Exactly when a claim is won: an approval that nobody has claimed or resolved so far goes to
      a claim if and only if no sweep since it was enqueued, the claim's own included, has read a
      time at or past what it was enqueued with - a day, if with nothing. */
  lemma ClaimWonExactly(ops: seq<Op>, n: nat, m: nat)
    requires n < m < |ops| && Run(ops[..m]).Some? && ops[n].Enqueue? && LeftAlone(ops, n, m, ops[n].id)
    requires ops[m].Claim? && ops[m].id == ops[n].id
    ensures Wins(Run(ops[..m]).value.rows, ops[m].id, ops[m].clock) <==> NoSweepPast(ops, n, m + 1, LapseOf(ops[n]))
  {
    var early := ops[..m];
    UpToClaim(ops, n, m, LapseOf(ops[n]));
    EveryRun(early);
    WaitsExactly(early, n);
    WinsIfWaits(Run(early).value.rows, ops[n].id, ops[m].clock, LapseOf(ops[n]));
  }

  lemma UpToClaim(ops: seq<Op>, n: nat, m: nat, lapses: Time)
    requires n < m < |ops| && ops[n].Enqueue? && LeftAlone(ops, n, m, ops[n].id)
    ensures NoSweepPast(ops, n, m + 1, lapses) <==> NoSweepPast(ops[..m], n, m, lapses) && !Past(ops[m], lapses)
    ensures ops[..m][n] == ops[n] && LeftAlone(ops[..m], n, m, ops[n].id)
  {
    forall k | n < k < m ensures ops[..m][k] == ops[k] {
    }
    if NoSweepPast(ops, n, m + 1, lapses) {
      assert Sweeps(ops[m]).Some? ==> Sweeps(ops[m]).value < lapses;
    }
  }

  /** ... and the first sweep past it denies it as expired, at the time it read. */
  lemma LapseIsDenied(rows: seq<Row>, op: Op, i: nat, lapses: Time)
    requires OneRowEach(rows) && i < |rows| && rows[i].status.Pending? && rows[i].expiresAt == Some(lapses)
    requires Past(op, lapses) && (op.Enqueue? ==> op.id != rows[i].id) && (op.Resolve? ==> !Terminal(op.from))
    ensures i < |Changed(rows, op)|
    ensures Changed(rows, op)[i] == rows[i].(status := Denied, reason := Some(Expired), resolvedAt := Some(op.clock.sweep))
  {
    var swept := Swept(rows, op.clock.sweep);
    LapsesExactly(rows[i], op.clock.sweep);
    assert swept[i] == SweptRow(rows[i], op.clock.sweep);
    assert forall k | 0 <= k < |rows| :: swept[k] == SweptRow(rows[k], op.clock.sweep) && swept[k].id == rows[k].id;
  }

  // ----- what stays in the file

  /** A save drops what was settled more than a week ago, and nothing else. */
  lemma {:induction false} RetainedExactly(rows: seq<Row>, now: Time, i: nat)
    requires OneRowEach(rows) && i < |rows|
    ensures rows[i] in Retained(rows, now) <==>
      rows[i].status.Pending? || rows[i].status.Running? || rows[i].resolvedAt.None? || rows[i].resolvedAt.value >= now - 7 * A_DAY
  {
    RetainedIsPart(rows, now);
    var last := |rows| - 1;
    if i < last {
      assert rows[..last][i] == rows[i];
      RetainedExactly(rows[..last], now, i);
    } else {
      RetainedIsPart(rows[..last], now);
      assert forall k | 0 <= k < last :: rows[..last][k].id != rows[i].id;
    }
  }

  // ----- what the operations write

  /** A new row waits, from the stamp on, with its own digest date only if it is batched. */
  lemma EnqueueWrites(rows: seq<Row>, op: Op)
    requires op.Enqueue?
    ensures Changed(rows, op)[..|rows|] == Swept(rows, op.clock.sweep) && |Changed(rows, op)| == |rows| + 1
    ensures var row := Changed(rows, op)[|rows|];
      && row.id == op.id && row.work == op.work && row.status.Pending? && row.batch == op.batch
      && row.createdAt == Some(op.clock.stamp) && row.expiresAt == Some(LapseOf(op))
      && row.digestDate == (if op.batch then op.digestDate else None)
      && row.claimedAt.None? && row.resolvedAt.None? && row.taskId.None? && row.reason.None?
  {
  }

  /** A won claim marks its row running, with its time and task, and touches no other. */
  lemma ClaimWrites(rows: seq<Row>, id: Id, taskId: Option<string>, clock: Clock, i: nat)
    requires OneRowEach(rows) && i < |rows| && rows[i].id == id && rows[i].status.Pending? && !Lapsed(rows[i], clock.sweep)
    ensures Changed(rows, Claim(id, taskId, clock))[i] ==
      rows[i].(status := Running, claimedAt := Some(clock.stamp), taskId := if taskId.Some? then taskId else rows[i].taskId)
    ensures forall k | 0 <= k < |rows| && k != i :: Changed(rows, Claim(id, taskId, clock))[k] == SweptRow(rows[k], clock.sweep)
  {
    var swept := Swept(rows, clock.sweep);
    assert forall k | 0 <= k < |rows| :: swept[k] == SweptRow(rows[k], clock.sweep) && swept[k].id == rows[k].id;
    assert swept[i] == rows[i];
  }

  /** A resolution sets the status, the time and the reason, if one is given, of the row that has
      the status it asks for. */
  lemma ResolveWrites(rows: seq<Row>, op: Op, i: nat)
    requires op.Resolve? && OneRowEach(rows) && i < |rows| && rows[i].id == op.id && SweptRow(rows[i], op.clock.sweep).status == op.from
    ensures Changed(rows, op)[i] == SweptRow(rows[i], op.clock.sweep).(status := op.to, resolvedAt := Some(op.clock.stamp),
      reason := if op.reason.Some? then Some(Other(op.reason.value)) else SweptRow(rows[i], op.clock.sweep).reason)
    ensures forall k | 0 <= k < |rows| && k != i :: Changed(rows, op)[k] == SweptRow(rows[k], op.clock.sweep)
  {
    var swept := Swept(rows, op.clock.sweep);
    assert forall k | 0 <= k < |rows| :: swept[k] == SweptRow(rows[k], op.clock.sweep) && swept[k].id == rows[k].id;
  }

  /** A digest that was posted moves the date of the batched approvals it names that still wait;
      nothing else of them, and no others. */
  lemma NoteWrites(rows: seq<Row>, ids: set<Id>, date: int, save: Time, i: nat)
    requires i < |rows|
    ensures |Changed(rows, NoteDigest(ids, date, save))| == |rows|
    ensures Changed(rows, NoteDigest(ids, date, save))[i] ==
      if rows[i].batch && rows[i].status.Pending? && rows[i].id in ids then rows[i].(digestDate := Some(date)) else rows[i]
  {
    assert Changed(rows, NoteDigest(ids, date, save))[i] == NotedRow(rows[i], ids, date);
  }

  /** A restart denies what was running as interrupted, and changes nothing else. */
  lemma RestartWrites(rows: seq<Row>, now: Time, save: Time, i: nat)
    requires i < |rows|
    ensures |Changed(rows, Restart(now, save))| == |rows|
    ensures Changed(rows, Restart(now, save))[i] ==
      if rows[i].status.Running? then rows[i].(status := Denied, reason := Some(Interrupted), resolvedAt := Some(now)) else rows[i]
  {
    assert Changed(rows, Restart(now, save))[i] == RecoveredRow(rows[i], now);
  }
}
