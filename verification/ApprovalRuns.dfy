/** Every run of the approval queue: what each approval's story can be, however enqueues,
    claims, resolutions, looks, digests, restarts and clock jumps interleave. */
module ApprovalRuns {
  import opened Wrappers
  import opened Approvals

  datatype Cause = ByClaim | ByResolve | ByExpiry | ByRestart

  /** One change of an approval's status. */
  datatype Move = Move(from: Status, to: Status, at: Time, cause: Cause)

  datatype Story = Story(deadline: Option<Time>, moves: seq<Move>) {
    function Status(): Status { if moves == [] then Pending else moves[|moves| - 1].to }

    /** Nothing yet; or denied at its deadline, or resolved, never claimed; or claimed once,
        before its deadline, and then at most settled once, by its resolve or by a restart. */
    predicate Legal() {
      && |moves| <= 2
      && (|moves| >= 1 ==> moves[0].from == Pending && LegalFirst(moves[0]) && (|moves| == 2 ==> moves[0].to == Running))
      && (|moves| == 2 ==> LegalSecond(moves[1]))
    }

    predicate LegalFirst(m: Move) {
      match m.cause
      case ByClaim => m.to == Running && Before(m.at, deadline)
      case ByResolve => Terminal(m.to) && Before(m.at, deadline)
      case ByExpiry => m.to == Denied && !Before(m.at, deadline)
      case ByRestart => false
    }

    predicate LegalSecond(m: Move) {
      m.from == Running && Terminal(m.to) && (m.cause == ByResolve || (m.cause == ByRestart && m.to == Denied))
    }
  }

  /** The file, and the story of every approval ever parked. */
  datatype Queue = Queue(rows: seq<Row>, stories: map<Id, Story>)

  predicate HasRow(rows: seq<Row>, id: Id) { exists i :: 0 <= i < |rows| && rows[i].id == id }

  predicate OneRowEach(rows: seq<Row>) { forall i, j | 0 <= i < j < |rows| :: rows[i].id != rows[j].id }

  predicate Tells(story: Story, row: Row) { story.deadline == Deadline(row) && story.Status() == row.status }

  predicate Inv(q: Queue) {
    && OneRowEach(q.rows)
    && (forall i | 0 <= i < |q.rows| :: q.rows[i].id in q.stories && Tells(q.stories[q.rows[i].id], q.rows[i]))
    && (forall id | id in q.stories :: q.stories[id].Legal() && (Terminal(q.stories[id].Status()) || HasRow(q.rows, id)))
  }

  // ----- how an operation moves the stories

  function Place(rows: seq<Row>, id: Id): (i: nat)
    ensures i <= |rows|
    ensures i < |rows| ==> rows[i].id == id
    ensures i == |rows| ==> !HasRow(rows, id)
  {
    if rows == [] then 0
    else
      var before := Place(rows[..|rows| - 1], id);
      if before < |rows| - 1 then before
      else if rows[|rows| - 1].id == id then |rows| - 1
      else |rows|
  }

  predicate SameRows(before: seq<Row>, after: seq<Row>) {
    |before| == |after| && forall i | 0 <= i < |before| :: after[i].id == before[i].id && Deadline(after[i]) == Deadline(before[i])
  }

  /** Whose status changed from `before` to `after`, changed at `at` by `by`. */
  function Told(stories: map<Id, Story>, before: seq<Row>, after: seq<Row>, at: Time, cause: Cause): map<Id, Story>
    requires SameRows(before, after)
  {
    map id | id in stories :: Retold(stories[id], before, after, Place(before, id), at, cause)
  }

  function Retold(story: Story, before: seq<Row>, after: seq<Row>, i: nat, at: Time, cause: Cause): Story
    requires SameRows(before, after)
  {
    if i < |before| && before[i].status != after[i].status
    then story.(moves := story.moves + [Move(before[i].status, after[i].status, at, cause)])
    else story
  }

  function Sweep(q: Queue, now: Time): Queue {
    Queue(Swept(q.rows, now), Told(q.stories, q.rows, Swept(q.rows, now), now, ByExpiry))
  }

  /** A claim, a resolution or a denial at the deadline is as of the reading the sweep took. */
  function SweepClaim(q: Queue, id: Id, taskId: Option<string>, c: Clock): Queue {
    var s := Sweep(q, c.sweep);
    var rows := Claimed(s.rows, id, taskId, c.stamp);
    Queue(rows, Told(s.stories, s.rows, rows, c.sweep, ByClaim))
  }

  function SweepResolve(q: Queue, id: Id, from: Status, to: Status, reason: Option<string>, c: Clock): Queue {
    var s := Sweep(q, c.sweep);
    var rows := Resolved(s.rows, id, from, to, reason, c.stamp);
    Queue(rows, Told(s.stories, s.rows, rows, c.sweep, ByResolve))
  }

  function Recover(q: Queue, now: Time): Queue {
    Queue(Recovered(q.rows, now), Told(q.stories, q.rows, Recovered(q.rows, now), now, ByRestart))
  }

  function Park(q: Queue, row: Row): Queue {
    Queue(q.rows + [row], q.stories[row.id := Story(Deadline(row), [])])
  }

  ghost predicate Enabled(q: Queue, op: Op) {
    && (op.Enqueue? ==> op.id !in q.stories)          // a new uuid
    && (op.Resolve? ==> !Terminal(op.from) && Terminal(op.to))
  }

  function Change(q: Queue, op: Op): Queue {
    match op
    case Restart(now, _) => Recover(q, now)
    case Enqueue(id, work, batch, date, after, c) => Park(Sweep(q, c.sweep), NewRow(id, work, batch, date, after, c.stamp))
    case Look(c) => Sweep(q, c.sweep)
    case NoteDigest(ids, date, _) => q.(rows := Noted(q.rows, ids, date))
    case Claim(id, task, c) => SweepClaim(q, id, task, c)
    case Resolve(id, from, to, reason, c) => SweepResolve(q, id, from, to, reason, c)
  }

  /** One operation, file and stories. */
  function Do(q: Queue, op: Op): Queue {
    Queue(if Saves(q.rows, op) then Retained(Change(q, op).rows, SaveTime(op)) else q.rows, Change(q, op).stories)
  }

  lemma FileIsDone(q: Queue, op: Op)
    ensures Do(q, op).rows == Done(q.rows, op)
  {
  }

  // ----- every operation keeps the invariant

  lemma PlaceIsUnique(rows: seq<Row>, i: nat)
    requires OneRowEach(rows) && i < |rows|
    ensures Place(rows, rows[i].id) == i
  {
  }

  /** The next chapter of a row's story is a legal one. */
  predicate LegalChange(before: Row, after: Row, at: Time, cause: Cause) {
    && after.id == before.id && Deadline(after) == Deadline(before)
    && (after.status != before.status ==>
          var story := Story(Deadline(before), []);
          var move := Move(before.status, after.status, at, cause);
          if before.status.Pending? then story.LegalFirst(move) else before.status.Running? && story.LegalSecond(move))
  }

  predicate LegalChanges(before: seq<Row>, after: seq<Row>, at: Time, cause: Cause) {
    |before| == |after| && forall i | 0 <= i < |before| :: LegalChange(before[i], after[i], at, cause)
  }

  lemma LegalSame(before: seq<Row>, after: seq<Row>, at: Time, cause: Cause)
    requires LegalChanges(before, after, at, cause)
    ensures SameRows(before, after)
  {
    forall i | 0 <= i < |before| ensures after[i].id == before[i].id && Deadline(after[i]) == Deadline(before[i]) {
      assert LegalChange(before[i], after[i], at, cause);
    }
  }

  lemma NextChapter(story: Story, before: Row, after: Row, at: Time, cause: Cause)
    requires story.Legal() && Tells(story, before) && LegalChange(before, after, at, cause)
    ensures var next := if before.status != after.status then story.(moves := story.moves + [Move(before.status, after.status, at, cause)]) else story;
      next.Legal() && Tells(next, after)
  {
    if story.moves == [] {
    } else if |story.moves| == 1 {
      assert (story.moves + [Move(before.status, after.status, at, cause)])[0] == story.moves[0];
    }
  }

  lemma ChangesKeepInv(q: Queue, after: seq<Row>, at: Time, cause: Cause)
    requires Inv(q) && LegalChanges(q.rows, after, at, cause)
    ensures SameRows(q.rows, after)
    ensures Inv(Queue(after, Told(q.stories, q.rows, after, at, cause)))
  {
    LegalSame(q.rows, after, at, cause);
    var next := Queue(after, Told(q.stories, q.rows, after, at, cause));
    forall i | 0 <= i < |after| ensures after[i].id in next.stories && Tells(next.stories[after[i].id], after[i]) {
      PlaceIsUnique(q.rows, i);
      assert LegalChange(q.rows[i], after[i], at, cause);
      NextChapter(q.stories[after[i].id], q.rows[i], after[i], at, cause);
    }
    forall id | id in next.stories
      ensures next.stories[id].Legal() && (Terminal(next.stories[id].Status()) || HasRow(after, id))
    {
      var i := Place(q.rows, id);
      if i < |after| {
        assert LegalChange(q.rows[i], after[i], at, cause);
        NextChapter(q.stories[id], q.rows[i], after[i], at, cause);
        assert after[i].id == id;
      }
    }
  }

  lemma SweepKeepsInv(q: Queue, now: Time)
    requires Inv(q)
    ensures Inv(Sweep(q, now))
  {
    var after := Swept(q.rows, now);
    forall i | 0 <= i < |after| ensures LegalChange(q.rows[i], after[i], now, ByExpiry) {
    }
    ChangesKeepInv(q, after, now, ByExpiry);
  }

  /** Nothing that waits is past its deadline. */
  predicate NoneLapsed(rows: seq<Row>, now: Time) {
    forall i | 0 <= i < |rows| && rows[i].status.Pending? :: Before(now, Deadline(rows[i]))
  }

  lemma SweptNoneLapsed(rows: seq<Row>, now: Time)
    ensures NoneLapsed(Swept(rows, now), now)
  {
    forall i | 0 <= i < |rows| && Swept(rows, now)[i].status.Pending? ensures Before(now, Deadline(Swept(rows, now)[i])) {
      assert Swept(rows, now)[i] == SweptRow(rows[i], now);
    }
  }

  lemma ClaimIsLegal(rows: seq<Row>, id: Id, taskId: Option<string>, stamp: Time, now: Time)
    requires NoneLapsed(rows, now)
    ensures LegalChanges(rows, Claimed(rows, id, taskId, stamp), now, ByClaim)
  {
  }

  lemma ClaimKeepsInv(q: Queue, id: Id, taskId: Option<string>, c: Clock)
    requires Inv(q)
    ensures Inv(SweepClaim(q, id, taskId, c))
  {
    var s := Sweep(q, c.sweep);
    SweepKeepsInv(q, c.sweep);
    SweptNoneLapsed(q.rows, c.sweep);
    ClaimIsLegal(s.rows, id, taskId, c.stamp, c.sweep);
    ChangesKeepInv(s, Claimed(s.rows, id, taskId, c.stamp), c.sweep, ByClaim);
  }

  lemma ResolveIsLegal(rows: seq<Row>, id: Id, from: Status, to: Status, reason: Option<string>, stamp: Time, now: Time)
    requires NoneLapsed(rows, now) && !Terminal(from) && Terminal(to)
    ensures LegalChanges(rows, Resolved(rows, id, from, to, reason, stamp), now, ByResolve)
  {
  }

  lemma ResolveKeepsInv(q: Queue, id: Id, from: Status, to: Status, reason: Option<string>, c: Clock)
    requires Inv(q) && !Terminal(from) && Terminal(to)
    ensures Inv(SweepResolve(q, id, from, to, reason, c))
  {
    var s := Sweep(q, c.sweep);
    SweepKeepsInv(q, c.sweep);
    SweptNoneLapsed(q.rows, c.sweep);
    ResolveIsLegal(s.rows, id, from, to, reason, c.stamp, c.sweep);
    ChangesKeepInv(s, Resolved(s.rows, id, from, to, reason, c.stamp), c.sweep, ByResolve);
  }

  lemma RestartKeepsInv(q: Queue, now: Time)
    requires Inv(q)
    ensures Inv(Recover(q, now))
  {
    var after := Recovered(q.rows, now);
    forall i | 0 <= i < |after| ensures LegalChange(q.rows[i], after[i], now, ByRestart) {
    }
    ChangesKeepInv(q, after, now, ByRestart);
  }

  lemma NoteKeepsInv(q: Queue, ids: set<Id>, date: int)
    requires Inv(q)
    ensures Inv(q.(rows := Noted(q.rows, ids, date)))
  {
    var after := Noted(q.rows, ids, date);
    forall i | 0 <= i < |after|
      ensures after[i].id == q.rows[i].id && after[i].status == q.rows[i].status && Deadline(after[i]) == Deadline(q.rows[i])
    {
      assert after[i] == NotedRow(q.rows[i], ids, date);
    }
    forall id | id in q.stories ensures Terminal(q.stories[id].Status()) || HasRow(after, id) {
      if HasRow(q.rows, id) {
        var i :| 0 <= i < |q.rows| && q.rows[i].id == id;
        assert after[i].id == id;
      }
    }
  }

  lemma EnqueueKeepsInv(q: Queue, row: Row)
    requires Inv(q) && row.id !in q.stories && row.status.Pending?
    ensures Inv(Park(q, row))
  {
    var rows := q.rows + [row];
    forall id | id in q.stories[row.id := Story(Deadline(row), [])]
      ensures id in q.stories && HasRow(q.rows, id) ==> HasRow(rows, id)
    {
      if id in q.stories && HasRow(q.rows, id) {
        var i :| 0 <= i < |q.rows| && q.rows[i].id == id;
        assert rows[i].id == id;
      }
    }
    assert rows[|q.rows|] == row;
    assert HasRow(rows, row.id);
  }

  /** The retention drops rows, in place, and never one that waits or runs. */
  lemma {:induction false} RetainedIsPart(rows: seq<Row>, now: Time)
    ensures forall i | 0 <= i < |Retained(rows, now)| :: Retained(rows, now)[i] in rows
    ensures forall i | 0 <= i < |rows| && Kept(rows[i], now) :: rows[i] in Retained(rows, now)
    ensures OneRowEach(rows) ==> OneRowEach(Retained(rows, now))
  {
    if rows != [] {
      var front, last := rows[..|rows| - 1], rows[|rows| - 1];
      RetainedIsPart(front, now);
      var kept := Retained(front, now);
      forall i | 0 <= i < |kept| ensures kept[i] in rows && (OneRowEach(rows) ==> kept[i].id != last.id) {
        var j :| 0 <= j < |front| && front[j] == kept[i];
        assert rows[j] == kept[i];
      }
      forall i | 0 <= i < |rows| && Kept(rows[i], now) ensures rows[i] in Retained(rows, now) {
        if i < |front| {
          assert front[i] == rows[i];
          assert rows[i] in kept;
        }
      }
      assert OneRowEach(rows) ==> OneRowEach(front);
    }
  }

  lemma RetainKeepsInv(q: Queue, now: Time)
    requires Inv(q)
    ensures Inv(q.(rows := Retained(q.rows, now)))
  {
    RetainedIsPart(q.rows, now);
    var kept := Retained(q.rows, now);
    forall id | id in q.stories ensures Terminal(q.stories[id].Status()) || HasRow(kept, id) {
      if !Terminal(q.stories[id].Status()) {
        var i :| 0 <= i < |q.rows| && q.rows[i].id == id;
        assert q.rows[i] in kept;
        var j :| 0 <= j < |kept| && kept[j] == q.rows[i];
      }
    }
  }

  lemma StepKeepsInv(q: Queue, op: Op)
    requires Inv(q) && Enabled(q, op)
    ensures Inv(Do(q, op))
  {
    match op {
      case Restart(now, save) => RestartKeepsInv(q, now);
      case Enqueue(id, work, batch, date, after, c) =>
        SweepKeepsInv(q, c.sweep);
        EnqueueKeepsInv(Sweep(q, c.sweep), NewRow(id, work, batch, date, after, c.stamp));
      case Look(c) => SweepKeepsInv(q, c.sweep);
      case NoteDigest(ids, date, save) => NoteKeepsInv(q, ids, date);
      case Claim(id, task, c) => ClaimKeepsInv(q, id, task, c);
      case Resolve(id, from, to, reason, c) => ResolveKeepsInv(q, id, from, to, reason, c);
    }
    RetainKeepsInv(Change(q, op), SaveTime(op));
  }

  // ----- every run

  ghost function Run(ops: seq<Op>): Option<Queue> {
    if ops == [] then Some(Queue([], map[]))
    else match Run(ops[..|ops| - 1])
      case None => None
      case Some(q) => if Enabled(q, ops[|ops| - 1]) then Some(Do(q, ops[|ops| - 1])) else None
  }

  /** In every run each approval's story is a legal one, the file tells the same status, and an
      approval is missing from the file only once it has been settled. */
  lemma {:induction false} EveryRun(ops: seq<Op>)
    ensures Run(ops).Some? ==> Inv(Run(ops).value)
  {
    if ops != [] {
      EveryRun(ops[..|ops| - 1]);
      if Run(ops[..|ops| - 1]).Some? && Enabled(Run(ops[..|ops| - 1]).value, ops[|ops| - 1]) {
        StepKeepsInv(Run(ops[..|ops| - 1]).value, ops[|ops| - 1]);
      }
    }
  }

  predicate GoesOn(early: map<Id, Story>, late: map<Id, Story>) {
    forall id | id in early ::
      id in late && early[id].moves <= late[id].moves && late[id].deadline == early[id].deadline
  }

  lemma ToldGoesOn(stories: map<Id, Story>, before: seq<Row>, after: seq<Row>, at: Time, cause: Cause)
    requires SameRows(before, after)
    ensures GoesOn(stories, Told(stories, before, after, at, cause))
  {
  }

  /** Stories only ever go on. */
  lemma StoriesGoOn(q: Queue, op: Op)
    requires Enabled(q, op)
    ensures GoesOn(q.stories, Do(q, op).stories)
  {
    ChangeGoesOn(q, op);
  }

  lemma ChangeGoesOn(q: Queue, op: Op)
    requires op.Enqueue? ==> op.id !in q.stories
    ensures GoesOn(q.stories, Change(q, op).stories)
  {
    match op
    case Restart(now, _) => RecoverGoesOn(q, now);
    case Enqueue(_, _, _, _, _, c) => SweepGoesOn(q, c.sweep);
    case Look(c) => SweepGoesOn(q, c.sweep);
    case NoteDigest(_, _, _) =>
    case Claim(id, task, c) => ClaimGoesOn(q, id, task, c);
    case Resolve(id, from, to, reason, c) => ResolveGoesOn(q, id, from, to, reason, c);
  }

  lemma RecoverGoesOn(q: Queue, now: Time)
    ensures GoesOn(q.stories, Recover(q, now).stories)
  {
    ToldGoesOn(q.stories, q.rows, Recovered(q.rows, now), now, ByRestart);
  }

  lemma ClaimGoesOn(q: Queue, id: Id, taskId: Option<string>, c: Clock)
    ensures GoesOn(q.stories, SweepClaim(q, id, taskId, c).stories)
  {
    ThenGoesOn(q, c.sweep, Claimed(Swept(q.rows, c.sweep), id, taskId, c.stamp), ByClaim);
  }

  lemma ResolveGoesOn(q: Queue, id: Id, from: Status, to: Status, reason: Option<string>, c: Clock)
    ensures GoesOn(q.stories, SweepResolve(q, id, from, to, reason, c).stories)
  {
    ThenGoesOn(q, c.sweep, Resolved(Swept(q.rows, c.sweep), id, from, to, reason, c.stamp), ByResolve);
  }

  lemma ThenGoesOn(q: Queue, now: Time, rows: seq<Row>, cause: Cause)
    requires SameRows(Swept(q.rows, now), rows)
    ensures GoesOn(q.stories, Told(Sweep(q, now).stories, Swept(q.rows, now), rows, now, cause))
  {
    SweepGoesOn(q, now);
    ToldGoesOn(Sweep(q, now).stories, Swept(q.rows, now), rows, now, cause);
  }

  lemma SweepGoesOn(q: Queue, now: Time)
    ensures GoesOn(q.stories, Sweep(q, now).stories)
  {
    ToldGoesOn(q.stories, q.rows, Swept(q.rows, now), now, ByExpiry);
  }

  lemma {:induction false} LaterStory(ops: seq<Op>, n: nat)
    requires n <= |ops| && Run(ops).Some?
    ensures Run(ops[..n]).Some?
    ensures GoesOn(Run(ops[..n]).value.stories, Run(ops).value.stories)
    decreases |ops|
  {
    if n == |ops| {
      assert ops[..n] == ops;
    } else {
      var front := ops[..|ops| - 1];
      assert front[..n] == ops[..n];
      LaterStory(front, n);
      StoriesGoOn(Run(front).value, ops[|ops| - 1]);
    }
  }

  lemma NothingAfterTheEnd(early: Story, late: Story)
    requires early.Legal() && late.Legal() && early.moves <= late.moves && Terminal(early.Status())
    ensures late.moves == early.moves
  {
    assert early.moves[0] == late.moves[0];
    assert early.moves == late.moves[..|early.moves|];
  }

  /** A settled approval stays as it was settled, for ever. */
  lemma SettledForEver(ops: seq<Op>, n: nat, id: Id)
    requires n <= |ops| && Run(ops).Some?
    requires Run(ops[..n]).Some? && id in Run(ops[..n]).value.stories
    requires Terminal(Run(ops[..n]).value.stories[id].Status())
    ensures id in Run(ops).value.stories && Run(ops).value.stories[id].moves == Run(ops[..n]).value.stories[id].moves
  {
    LaterStory(ops, n);
    EveryRun(ops);
    EveryRun(ops[..n]);
    NothingAfterTheEnd(Run(ops[..n]).value.stories[id], Run(ops).value.stories[id]);
  }

  lemma WaitingStory(q: Queue, i: nat)
    requires Inv(q) && i < |q.rows| && q.rows[i].status.Pending?
    ensures q.rows[i].id in q.stories && q.stories[q.rows[i].id] == Story(Deadline(q.rows[i]), [])
  {
    var story := q.stories[q.rows[i].id];
    assert Tells(story, q.rows[i]) && story.Legal();
  }

  /** A claim is won only by an approval nothing has happened to, before its deadline. */
  lemma WonFromTheStart(q: Queue, id: Id, clock: Clock)
    requires Inv(q)
    ensures Wins(q.rows, id, clock) ==>
      id in q.stories && q.stories[id].moves == [] && Before(clock.sweep, q.stories[id].deadline)
  {
    var swept := Swept(q.rows, clock.sweep);
    var i := PlaceOf(swept, id, Pending);
    if i < |swept| {
      assert swept[i] == SweptRow(q.rows[i], clock.sweep) == q.rows[i];
      WaitingStory(q, i);
    }
  }

  lemma RetoldAt(stories: map<Id, Story>, before: seq<Row>, after: seq<Row>, i: nat, at: Time, cause: Cause)
    requires SameRows(before, after) && OneRowEach(before) && i < |before| && before[i].id in stories
    ensures Told(stories, before, after, at, cause)[before[i].id] == Retold(stories[before[i].id], before, after, i, at, cause)
  {
    PlaceIsUnique(before, i);
  }

  lemma ClaimTold(s: Queue, i: nat, taskId: Option<string>, c: Clock)
    requires Inv(s) && i < |s.rows| && s.rows[i].status.Pending? && i == PlaceOf(s.rows, s.rows[i].id, Pending)
    ensures var rows := Claimed(s.rows, s.rows[i].id, taskId, c.stamp);
      SameRows(s.rows, rows) && s.rows[i].id in s.stories
      && Told(s.stories, s.rows, rows, c.sweep, ByClaim)[s.rows[i].id].moves == [Move(Pending, Running, c.sweep, ByClaim)]
  {
    WaitingStory(s, i);
    var rows := Claimed(s.rows, s.rows[i].id, taskId, c.stamp);
    assert rows[i].status == Running;
    RetoldAt(s.stories, s.rows, rows, i, c.sweep, ByClaim);
  }

  lemma SweepClaimTold(q: Queue, id: Id, taskId: Option<string>, clock: Clock)
    requires Inv(q) && Wins(q.rows, id, clock)
    ensures id in SweepClaim(q, id, taskId, clock).stories
    ensures SweepClaim(q, id, taskId, clock).stories[id].moves == [Move(Pending, Running, clock.sweep, ByClaim)]
  {
    var s := Sweep(q, clock.sweep);
    assert Inv(s) by {
      SweepKeepsInv(q, clock.sweep);
    }
    var i := PlaceOf(s.rows, id, Pending);
    ClaimTold(s, i, taskId, clock);
  }

  /** ... and is the first thing that happens to it. */
  lemma WinningClaim(q: Queue, id: Id, taskId: Option<string>, clock: Clock)
    requires Inv(q) && Wins(q.rows, id, clock)
    ensures id in Do(q, Claim(id, taskId, clock)).stories
    ensures Do(q, Claim(id, taskId, clock)).stories[id].moves == [Move(Pending, Running, clock.sweep, ByClaim)]
  {
    SweepClaimTold(q, id, taskId, clock);
    ClaimIsSweepClaim(q, id, taskId, clock);
  }

  lemma ClaimIsSweepClaim(q: Queue, id: Id, taskId: Option<string>, clock: Clock)
    ensures Do(q, Claim(id, taskId, clock)).stories == SweepClaim(q, id, taskId, clock).stories
  {
    assert Change(q, Claim(id, taskId, clock)) == SweepClaim(q, id, taskId, clock);
  }

  ghost predicate ClaimWins(ops: seq<Op>, n: nat, id: Id) {
    && n < |ops| && ops[n].Claim? && ops[n].id == id
    && Run(ops[..n]).Some? && Wins(Run(ops[..n]).value.rows, id, ops[n].clock)
  }

  lemma WonMeansMoved(ops: seq<Op>, m: nat, id: Id)
    requires Run(ops).Some? && ClaimWins(ops, m, id)
    ensures Run(ops[..m + 1]).Some? && id in Run(ops[..m + 1]).value.stories
    ensures Run(ops[..m + 1]).value.stories[id].moves != []
  {
    LaterStory(ops, m + 1);
    assert ops[..m + 1][..m] == ops[..m];
    EveryRun(ops[..m]);
    WinningClaim(Run(ops[..m]).value, id, ops[m].taskId, ops[m].clock);
  }

  lemma TouchedNeverWins(q: Queue, id: Id, clock: Clock)
    requires Inv(q) && id in q.stories && q.stories[id].moves != []
    ensures !Wins(q.rows, id, clock)
  {
    WonFromTheStart(q, id, clock);
  }

  lemma MovedByThen(ops: seq<Op>, m: nat, n: nat, id: Id)
    requires Run(ops).Some? && m < n <= |ops| && ClaimWins(ops, m, id)
    ensures Run(ops[..n]).Some? && id in Run(ops[..n]).value.stories && Run(ops[..n]).value.stories[id].moves != []
  {
    WonMeansMoved(ops, m, id);
    LaterStory(ops, n);
    LaterStory(ops[..n], m + 1);
    assert ops[..n][..m + 1] == ops[..m + 1];
  }

  /** No approval is claimed twice. */
  lemma ClaimedOnce(ops: seq<Op>, m: nat, n: nat, id: Id)
    requires Run(ops).Some? && m < n < |ops| && ClaimWins(ops, m, id)
    ensures !ClaimWins(ops, n, id)
  {
    MovedByThen(ops, m, n, id);
    EveryRun(ops[..n]);
    if ops[n].Claim? {
      TouchedNeverWins(Run(ops[..n]).value, id, ops[n].clock);
    }
  }

  /** After a restart every approval that was ever claimed has been settled, exactly once: what
      was still running by the restart, anything else as it already was. */
  lemma RestartSettles(q: Queue, now: Time, save: Time, id: Id)
    requires Inv(q) && id in q.stories && |q.stories[id].moves| >= 1 && q.stories[id].moves[0].cause == ByClaim
    ensures id in Do(q, Restart(now, save)).stories
    ensures Do(q, Restart(now, save)).stories[id].moves ==
      if |q.stories[id].moves| == 1 then q.stories[id].moves + [Move(Running, Denied, now, ByRestart)]
      else q.stories[id].moves
  {
    RecoverSettles(q, now, id);
    assert Do(q, Restart(now, save)).stories == Recover(q, now).stories;
  }

  lemma RecoverSettles(q: Queue, now: Time, id: Id)
    requires Inv(q) && id in q.stories && |q.stories[id].moves| >= 1 && q.stories[id].moves[0].cause == ByClaim
    ensures Recover(q, now).stories[id].moves ==
      if |q.stories[id].moves| == 1 then q.stories[id].moves + [Move(Running, Denied, now, ByRestart)]
      else q.stories[id].moves
  {
    var story, i := q.stories[id], Place(q.rows, id);
    ClaimedStory(story);
    RecoverRetold(q, now, id);
    if i < |q.rows| {
      assert Tells(story, q.rows[i]);
    }
  }

  lemma RecoverRetold(q: Queue, now: Time, id: Id)
    requires id in q.stories
    ensures var i := Place(q.rows, id);
      Recover(q, now).stories[id].moves == q.stories[id].moves +
        if i < |q.rows| && q.rows[i].status.Running? then [Move(Running, Denied, now, ByRestart)] else []
  {
    var i := Place(q.rows, id);
    if i < |q.rows| {
      assert Recovered(q.rows, now)[i] == RecoveredRow(q.rows[i], now);
    }
  }

  lemma ClaimedStory(story: Story)
    requires story.Legal() && |story.moves| >= 1 && story.moves[0].cause == ByClaim
    ensures if |story.moves| == 1 then story.Status() == Running else |story.moves| == 2 && Terminal(story.Status())
  {
  }

  /** What waits or runs is in the file, with the status its story tells. */
  lemma NeverLost(ops: seq<Op>, id: Id)
    requires Run(ops).Some? && id in Run(ops).value.stories && !Terminal(Run(ops).value.stories[id].Status())
    ensures exists i :: 0 <= i < |Run(ops).value.rows| && Run(ops).value.rows[i].id == id
              && Run(ops).value.rows[i].status == Run(ops).value.stories[id].Status()
  {
    EveryRun(ops);
    var q := Run(ops).value;
    var i :| 0 <= i < |q.rows| && q.rows[i].id == id;
    assert Tells(q.stories[id], q.rows[i]);
  }
}
