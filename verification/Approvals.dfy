/** The approval queue of src/pionir/approvals.py. Every operation reads the whole file, changes
    it and writes it back under one lock, so each is one step from file to file; the clock
    readings it takes on the way are parameters, and nothing is assumed of them. */
module Approvals {
  import opened Wrappers

  type Id = nat
  type Time = int     // microseconds

  const HOUR: Time := 3_600_000_000
  const EXPIRES_AFTER: Time := 24 * HOUR
  const RETAIN_RESOLVED: Time := 7 * 24 * HOUR

  datatype Status = Pending | Running | Approved | ApprovedFailed | Denied

  predicate Terminal(s: Status) { !s.Pending? && !s.Running? }

  datatype Reason = Expired | Interrupted | Other(text: string)

  /** What was asked for; `ref` stands for the payload field a producer looks its request up by. */
  datatype Work = Work(capability: string, ref: string)

  datatype Row = Row(
    id: Id, work: Work, createdAt: Option<Time>, expiresAt: Option<Time>, batch: bool, digestDate: Option<int>,
    status: Status, claimedAt: Option<Time>, taskId: Option<string>, resolvedAt: Option<Time>, reason: Option<Reason>)

  /** The readings of one operation: by the sweep, for its own stamps, and by the retention. */
  datatype Clock = Clock(sweep: Time, stamp: Time, save: Time)

  // ----- one row

  function Deadline(row: Row): Option<Time> {
    if row.expiresAt.Some? then row.expiresAt
    else if row.createdAt.Some? then Some(row.createdAt.value + EXPIRES_AFTER)
    else None
  }

  predicate Before(at: Time, deadline: Option<Time>) { deadline.Some? ==> at < deadline.value }

  predicate Lapsed(row: Row, now: Time) { row.status.Pending? && !Before(now, Deadline(row)) }

  function SweptRow(row: Row, now: Time): Row {
    if Lapsed(row, now) then row.(status := Denied, reason := Some(Expired), resolvedAt := Some(now)) else row
  }

  function RecoveredRow(row: Row, now: Time): Row {
    if row.status.Running? then row.(status := Denied, reason := Some(Interrupted), resolvedAt := Some(now)) else row
  }

  function ClaimedRow(row: Row, taskId: Option<string>, now: Time): Row {
    row.(status := Running, claimedAt := Some(now), taskId := if taskId.Some? then taskId else row.taskId)
  }

  function ResolvedRow(row: Row, to: Status, reason: Option<string>, now: Time): Row {
    row.(status := to, resolvedAt := Some(now), reason := if reason.Some? then Some(Other(reason.value)) else row.reason)
  }

  function NotedRow(row: Row, ids: set<Id>, date: int): Row {
    if row.id in ids && row.status.Pending? && row.batch && row.digestDate != Some(date)
    then row.(digestDate := Some(date)) else row
  }

  predicate Kept(row: Row, now: Time) {
    !Terminal(row.status) || row.resolvedAt.None? || row.resolvedAt.value >= now - RETAIN_RESOLVED
  }

  // ----- the file

  function Each(rows: seq<Row>, change: Row -> Row): (r: seq<Row>)
    ensures |r| == |rows| && forall i | 0 <= i < |rows| :: r[i] == change(rows[i])
  {
    if rows == [] then [] else Each(rows[..|rows| - 1], change) + [change(rows[|rows| - 1])]
  }

  function Swept(rows: seq<Row>, now: Time): seq<Row> { Each(rows, row => SweptRow(row, now)) }

  function Recovered(rows: seq<Row>, now: Time): seq<Row> { Each(rows, row => RecoveredRow(row, now)) }

  function Noted(rows: seq<Row>, ids: set<Id>, date: int): seq<Row> { Each(rows, row => NotedRow(row, ids, date)) }

  function Retained(rows: seq<Row>, now: Time): seq<Row> {
    if rows == [] then []
    else Retained(rows[..|rows| - 1], now) + if Kept(rows[|rows| - 1], now) then [rows[|rows| - 1]] else []
  }

  /** How many of the first `n` rows differ. */
  function Changes(before: seq<Row>, after: seq<Row>, n: nat): (changed: nat)
    requires n <= |before| == |after|
    ensures changed == 0 <==> forall i | 0 <= i < n :: after[i] == before[i]
  {
    if n == 0 then 0 else Changes(before, after, n - 1) + if after[n - 1] != before[n - 1] then 1 else 0
  }

  /** The first row with this id in this status, or the number of rows. */
  function PlaceOf(rows: seq<Row>, id: Id, status: Status): (i: nat)
    ensures i <= |rows|
    ensures i < |rows| ==> rows[i].id == id && rows[i].status == status
    ensures forall j | 0 <= j < i :: !(rows[j].id == id && rows[j].status == status)
  {
    if rows == [] then 0
    else
      var before := PlaceOf(rows[..|rows| - 1], id, status);
      if before < |rows| - 1 then before
      else if rows[|rows| - 1].id == id && rows[|rows| - 1].status == status then |rows| - 1 else |rows|
  }

  function NewRow(id: Id, work: Work, batch: bool, digestDate: Option<int>, expiresAfter: Option<Time>, now: Time): Row {
    var lasts := if expiresAfter.Some? && expiresAfter.value != 0 then expiresAfter.value else EXPIRES_AFTER;
    Row(id, work, Some(now), Some(now + lasts), batch, if batch then digestDate else None, Pending, None, None, None, None)
  }

  /** The rows after the operation's own change, and whether it found one to change. */
  function Claimed(rows: seq<Row>, id: Id, taskId: Option<string>, now: Time): seq<Row> {
    var i := PlaceOf(rows, id, Pending);
    if i < |rows| then rows[i := ClaimedRow(rows[i], taskId, now)] else rows
  }

  function Resolved(rows: seq<Row>, id: Id, from: Status, to: Status, reason: Option<string>, now: Time): seq<Row> {
    var i := PlaceOf(rows, id, from);
    if i < |rows| then rows[i := ResolvedRow(rows[i], to, reason, now)] else rows
  }

  predicate Finds(rows: seq<Row>, id: Id, status: Status) { PlaceOf(rows, id, status) < |rows| }

  // ----- the operations

  datatype Op =
    | Restart(now: Time, save: Time)
    | Enqueue(id: Id, work: Work, batch: bool, digestDate: Option<int>, expiresAfter: Option<Time>, clock: Clock)
    | Look(clock: Clock)                                              // pending, batched_expired
    | NoteDigest(ids: set<Id>, date: int, save: Time)
    | Claim(id: Id, taskId: Option<string>, clock: Clock)
    | Resolve(id: Id, from: Status, to: Status, reason: Option<string>, clock: Clock)

  /** What is in memory just before the file is written. */
  function Changed(rows: seq<Row>, op: Op): seq<Row> {
    match op
    case Restart(now, _) => Recovered(rows, now)
    case Enqueue(id, work, batch, date, after, c) => Swept(rows, c.sweep) + [NewRow(id, work, batch, date, after, c.stamp)]
    case Look(c) => Swept(rows, c.sweep)
    case NoteDigest(ids, date, _) => Noted(rows, ids, date)
    case Claim(id, task, c) => Claimed(Swept(rows, c.sweep), id, task, c.stamp)
    case Resolve(id, from, to, reason, c) => Resolved(Swept(rows, c.sweep), id, from, to, reason, c.stamp)
  }

  function SaveTime(op: Op): Time {
    match op
    case Restart(_, save) => save
    case NoteDigest(_, _, save) => save
    case _ => op.clock.save
  }

  /** The file is written when something changed, or a resolution found its row - be it one that
      is already as it says. */
  predicate Saves(rows: seq<Row>, op: Op) {
    Changed(rows, op) != rows || (op.Resolve? && Finds(Swept(rows, op.clock.sweep), op.id, op.from))
  }

  function Done(rows: seq<Row>, op: Op): seq<Row> {
    if Saves(rows, op) then Retained(Changed(rows, op), SaveTime(op)) else rows
  }

  /** The claim's answer. */
  predicate Wins(rows: seq<Row>, id: Id, clock: Clock) { Finds(Swept(rows, clock.sweep), id, Pending) }
}
