/** When the process may die without leaving an order two live quotes: before the approval of the
    reply in hand is parked, or after the last older reply is withdrawn and marked - and at no
    other time. */
module QuotesCrash {
  import opened Wrappers
  import opened Approvals
  import opened ApprovalRuns
  import opened ApprovalStore
  import opened Quotes
  import opened QuotesLive

  /** What comes next may not be lost: it is a withdrawal, or the record of an approval that is in
      the file. */
  predicate HalfDone(w: World) {
    w.todo != [] &&
    match w.todo[0]
    case Put(_, reply) => reply.state.Superseded? || (reply.state.Submitted? && FoundIn(w.queue.rows, WorkOf(reply)) != [])
    case Deny(_) => true
    case _ => false
  }

  // ----- where the handling of a reply stands

  predicate LiveNow(w: World) { OneLive(w.replies, Live(w.queue.rows), Refs(w.queue.rows)) }

  function AllWithdrawals(replies: seq<Reply>, keep: nat): seq<Action>
    requires keep < |replies|
  {
    Withdrawals(replies, keep, |replies|)
  }

  function Record(replies: seq<Reply>, i: nat, id: Id): Action
    requires i < |replies|
  {
    Put(i, SubmittedAs(replies[i], id))
  }

  /** No quote: one reply is recorded, once or twice, and perhaps its card closed. */
  predicate OnlyRecords(w: World) {
    && |w.todo| <= 2
    && (forall k | 0 <= k < |w.todo| :: w.todo[k].CloseCard? || NotQuoted(w.replies, w.todo[k]))
    && (|w.todo| == 2 && w.todo[1].Put? ==>
          w.todo[0].Put? && w.todo[0].reply.state.Waiting? && w.todo[0].at == w.todo[1].at)
  }

  predicate NotQuoted(replies: seq<Reply>, a: Action) {
    a.Put? && a.at < |replies| && replies[a.at].state.Waiting? && JustRecords(a, replies[a.at], a.at)
    && !a.reply.state.Superseded? && a.reply.order == replies[a.at].order
  }

  predicate ToPark(w: World, i: nat, id: Id) {
    && i < |w.replies| && w.replies[i].state.Waiting? && LiveNow(w)
    && w.todo == [Park(id, RefOf(w.replies[i])), Record(w.replies, i, id)] + AllWithdrawals(w.replies, i)
  }

  /** Parked and not recorded: but for that approval, the record is right. */
  predicate ToRecord(w: World, i: nat, id: Id) {
    && i < |w.replies| && w.replies[i].state.Waiting?
    && w.todo == [Record(w.replies, i, id)] + AllWithdrawals(w.replies, i)
    && OneLive(w.replies, Live(w.queue.rows) - {(id, RefOf(w.replies[i]))}, Refs(w.queue.rows) - multiset{RefOf(w.replies[i])})
  }

  predicate ToWithdraw(w: World, i: nat) {
    && i < |w.replies| && w.replies[i].state.Submitted?
    && w.todo == AllWithdrawals(w.replies, i)
  }

  function Marked(replies: seq<Reply>, j: nat): seq<Reply>
    requires j < |replies|
  {
    replies[j := replies[j].(state := Superseded)]
  }

  predicate ToMark(w: World, i: nat, j: nat) {
    && i < |w.replies| && j < |w.replies| && w.replies[i].state.Submitted? && Older(w.replies, i, j)
    && w.todo == [Put(j, w.replies[j].(state := Superseded))] + AllWithdrawals(Marked(w.replies, j), i)
  }

  ghost predicate Phase(w: World) {
    || (OnlyRecords(w) && LiveNow(w))
    || (exists i: nat, id: Id :: ToPark(w, i, id))
    || (exists i: nat, id: Id :: ToRecord(w, i, id))
    || (exists i: nat :: ToWithdraw(w, i))
    || (exists i: nat, j: nat :: ToMark(w, i, j))
  }

  lemma LiveNowIs(w: World)
    ensures LiveInv(w.(todo := [])) <==> LiveNow(w)
  {
    assert Refs(w.queue.rows) + Parked([]) == Refs(w.queue.rows);
  }

  // ----- the list of withdrawals

  /** The list hangs on the replies below `n` but the one kept, and on that one's order. */
  lemma {:induction false} SameWithdrawals(replies: seq<Reply>, others: seq<Reply>, keep: nat, n: nat)
    requires keep < |replies| == |others| && n <= |replies| && others[keep].order == replies[keep].order
    requires forall j | 0 <= j < n && j != keep :: others[j] == replies[j]
    ensures Withdrawals(others, keep, n) == Withdrawals(replies, keep, n)
  {
    if n > 0 {
      SameWithdrawals(replies, others, keep, n - 1);
    }
  }

  lemma {:induction false} NoneOlder(replies: seq<Reply>, keep: nat, n: nat)
    requires keep < |replies| && n <= |replies|
    ensures Withdrawals(replies, keep, n) == [] <==> forall j | 0 <= j < n :: !Older(replies, keep, j)
  {
    if n > 0 {
      NoneOlder(replies, keep, n - 1);
    }
  }

  function Pair(replies: seq<Reply>, j: nat): seq<Action>
    requires j < |replies| && replies[j].approval.Some?
  {
    [Deny(replies[j].approval.value), Put(j, replies[j].(state := Superseded))]
  }

  /** The first reply withdrawn, and once it is marked the list is what is left. */
  lemma {:induction false} FirstWithdrawal(replies: seq<Reply>, keep: nat, n: nat) returns (j: nat)
    requires keep < |replies| && n <= |replies| && Withdrawals(replies, keep, n) != []
    ensures j < n && Older(replies, keep, j)
    ensures Withdrawals(replies, keep, n) == Pair(replies, j) + Withdrawals(Marked(replies, j), keep, n)
  {
    var front := Withdrawals(replies, keep, n - 1);
    if front == [] {
      j := n - 1;
      SameWithdrawals(replies, Marked(replies, j), keep, n - 1);
      assert Withdrawals(Marked(replies, j), keep, n) == [];
    } else {
      j := FirstWithdrawal(replies, keep, n - 1);
      var rest := Withdrawals(Marked(replies, j), keep, n - 1);
      var last := if Older(replies, keep, n - 1) then Pair(replies, n - 1) else [];
      assert Older(Marked(replies, j), keep, n - 1) == Older(replies, keep, n - 1);
      assert Withdrawals(Marked(replies, j), keep, n) == rest + last;
      assert Pair(replies, j) + rest + last == Pair(replies, j) + (rest + last);
    }
  }

  // ----- a crash

  /** A crash leaves one live quote at most, now and in every handling to come, if and only if
      nothing half done is left. */
  lemma CrashKeepsLive(w: World)
    requires Quotes.Inv(w) && LiveInv(w) && Phase(w)
    ensures LiveInv(Take(w, Crash)) <==> !HalfDone(w)
  {
    LiveNowIs(w);
    if OnlyRecords(w) && LiveNow(w) {
      OnlyRecordsLost(w);
    } else if i: nat, id: Id :| ToPark(w, i, id) {
      ParkLost(w, i, id);
    } else if i: nat, id: Id :| ToRecord(w, i, id) {
      RecordLost(w, i, id);
    } else if i: nat :| ToWithdraw(w, i) {
      WithdrawalLost(w, i);
    } else {
      var i: nat, j: nat :| ToMark(w, i, j);
      MarkLost(w, i, j);
    }
  }

  lemma OnlyRecordsLost(w: World)
    requires OnlyRecords(w)
    ensures !HalfDone(w)
  {
  }

  lemma ParkLost(w: World, i: nat, id: Id)
    requires ToPark(w, i, id)
    ensures LiveNow(w) && !HalfDone(w)
  {
  }

  lemma MarkLost(w: World, i: nat, j: nat)
    requires ToMark(w, i, j)
    ensures !LiveNow(w) && HalfDone(w)
  {
    assert w.replies[j].state.Submitted? && w.replies[i].order == w.replies[j].order && i != j;
  }

  lemma RecordLost(w: World, i: nat, id: Id)
    requires ToRecord(w, i, id)
    ensures LiveNow(w) <==> !HalfDone(w)
  {
    var ref, rows := RefOf(w.replies[i]), w.queue.rows;
    FoundCounts(rows, ref);
    if FoundIn(rows, WorkOf(w.replies[i])) == [] {
      assert Refs(rows) - multiset{ref} == Refs(rows);
      forall p | p in Live(rows) ensures p.1 != ref {
        LiveHasRow(rows, p);
        var k :| 0 <= k < |rows| && LiveRow(rows[k]) && rows[k].id == p.0 && rows[k].work.ref == p.1;
        RowHasRef(rows, k);
      }
      assert Live(rows) - {(id, ref)} == Live(rows);
    } else {
      assert ref in Refs(rows);
    }
  }

  lemma WithdrawalLost(w: World, i: nat)
    requires LiveInv(w) && ToWithdraw(w, i)
    ensures LiveNow(w) <==> !HalfDone(w)
  {
    LiveNowIs(w);
    if w.todo != [] {
      var j := FirstWithdrawal(w.replies, i, |w.replies|);
      assert w.replies[j].state.Submitted? && w.replies[i].order == w.replies[j].order && i != j;
    }
  }

  // ----- every other step

  lemma MoveKeepsPhase(w: World, op: Op)
    requires Phase(w) && Enabled(w.queue, op) && !ParksQuote(op)
    ensures Phase(Operate(w, op))
  {
    var next := Operate(w, op);
    if i: nat, id: Id :| ToRecord(w, i, id) {
      FileIsDone(w.queue, op);
      RecordWaits(w, next, i, id, op);
      assert ToRecord(next, i, id);
    } else if i: nat :| ToWithdraw(w, i) {
      assert ToWithdraw(next, i);
    } else if i: nat, j: nat :| ToMark(w, i, j) {
      assert ToMark(next, i, j);
    } else {
      MoveKeepsNow(w, op);
      if i: nat, id: Id :| ToPark(w, i, id) {
        assert ToPark(next, i, id);
      } else {
        assert OnlyRecords(next);
      }
    }
  }

  lemma MoveKeepsNow(w: World, op: Op)
    requires LiveNow(w) && Enabled(w.queue, op) && !ParksQuote(op)
    ensures LiveNow(Operate(w, op))
  {
    LiveNowIs(w);
    LiveNowIs(Operate(w, op));
    MoveKeepsLive(w.(todo := []), op);
    assert Operate(w.(todo := []), op) == Operate(w, op).(todo := []);
  }

  lemma RecordWaits(w: World, next: World, i: nat, id: Id, op: Op)
    requires ToRecord(w, i, id) && next.replies == w.replies && next.queue.rows == Done(w.queue.rows, op)
    requires (op.Resolve? ==> Terminal(op.to)) && !ParksQuote(op)
    ensures OneLive(next.replies, Live(next.queue.rows) - {(id, RefOf(w.replies[i]))}, Refs(next.queue.rows) - multiset{RefOf(w.replies[i])})
  {
    DoneLive(w.queue.rows, op);
    DoneRefs(w.queue.rows, op);
    var p := {(id, RefOf(w.replies[i]))};
    FewerIsFine(w.replies, Live(w.queue.rows) - p, Refs(w.queue.rows) - multiset{RefOf(w.replies[i])},
                Live(next.queue.rows) - p, Refs(next.queue.rows) - multiset{RefOf(w.replies[i])});
  }

  lemma ParkGoesOn(w: World, clock: Clock, i: nat, id: Id)
    requires ToPark(w, i, id) && id !in w.queue.stories
    ensures ToRecord(Take(w, Act(clock)), i, id)
  {
    var ref := RefOf(w.replies[i]);
    ActPark(w, id, ref, clock);
    ParkedIsFine(w.replies, w.queue, id, ref, clock);
    Tail(Park(id, ref), Record(w.replies, i, id), AllWithdrawals(w.replies, i));
  }

  lemma Tail(a: Action, b: Action, rest: seq<Action>)
    ensures ([a, b] + rest)[0] == a && ([a, b] + rest)[1..] == [b] + rest
  {
  }

  lemma ParkedIsFine(replies: seq<Reply>, queue: Queue, id: Id, ref: string, clock: Clock)
    requires OneLive(replies, Live(queue.rows), Refs(queue.rows))
    ensures var rows := Do(queue, OpOf(Park(id, ref), clock)).rows;
      OneLive(replies, Live(rows) - {(id, ref)}, Refs(rows) - multiset{ref})
  {
    var op := OpOf(Park(id, ref), clock);
    FileIsDone(queue, op);
    DoneLive(queue.rows, op);
    DoneRefs(queue.rows, op);
    var rows := Done(queue.rows, op);
    FewerIsFine(replies, Live(queue.rows), Refs(queue.rows), Live(rows) - {(id, ref)}, Refs(rows) - multiset{ref});
  }

  lemma RecordGoesOn(w: World, clock: Clock, i: nat, id: Id)
    requires ToRecord(w, i, id)
    ensures Able(w, Act(clock)) && ToWithdraw(Take(w, Act(clock)), i)
  {
    var next := Take(w, Act(clock));
    SameWithdrawals(w.replies, next.replies, i, |w.replies|);
    assert next.todo == AllWithdrawals(w.replies, i);
  }

  lemma WithdrawGoesOn(w: World, clock: Clock, i: nat)
    requires ToWithdraw(w, i) && w.todo != []
    ensures w.todo[0].Deny?
    ensures exists j: nat :: ToMark(Take(w, Act(clock)), i, j)
  {
    var j := FirstWithdrawal(w.replies, i, |w.replies|);
    var deny, put := Deny(w.replies[j].approval.value), Put(j, w.replies[j].(state := Superseded));
    ActDeny(w, clock);
    Tail(deny, put, AllWithdrawals(Marked(w.replies, j), i));
    assert ToMark(Take(w, Act(clock)), i, j);
  }

  lemma ActDeny(w: World, clock: Clock)
    requires w.todo != [] && w.todo[0].Deny?
    ensures Able(w, Act(clock))
    ensures Take(w, Act(clock)).replies == w.replies && Take(w, Act(clock)).todo == w.todo[1..]
  {
  }

  lemma MarkGoesOn(w: World, clock: Clock, i: nat, j: nat)
    requires ToMark(w, i, j)
    ensures Able(w, Act(clock)) && ToWithdraw(Take(w, Act(clock)), i)
  {
    var next := Take(w, Act(clock));
    assert next.replies == Marked(w.replies, j) && next.todo == AllWithdrawals(next.replies, i);
  }

  lemma RecordsGoOn(w: World, clock: Clock)
    requires OnlyRecords(w) && LiveNow(w) && w.todo != []
    ensures Able(w, Act(clock)) && OnlyRecords(Take(w, Act(clock))) && LiveNow(Take(w, Act(clock)))
  {
    var a, next := w.todo[0], Take(w, Act(clock));
    if a.Put? {
      PutKeepsLive(w.replies, Live(w.queue.rows), Refs(w.queue.rows), a.at, a.reply);
    }
    if |w.todo| == 2 && w.todo[1].Put? {
      assert next.todo == [w.todo[1]] && NotQuoted(w.replies, w.todo[1]);
      assert NotQuoted(next.replies, w.todo[1]);
    }
  }

  lemma ActKeepsPhase(w: World, clock: Clock)
    requires Phase(w) && Able(w, Act(clock))
    ensures Phase(Take(w, Act(clock)))
  {
    if OnlyRecords(w) && LiveNow(w) {
      RecordsGoOn(w, clock);
    } else if i: nat, id: Id :| ToPark(w, i, id) {
      ParkGoesOn(w, clock, i, id);
    } else if i: nat, id: Id :| ToRecord(w, i, id) {
      RecordGoesOn(w, clock, i, id);
    } else if i: nat :| ToWithdraw(w, i) {
      WithdrawGoesOn(w, clock, i);
    } else {
      var i: nat, j: nat :| ToMark(w, i, j);
      MarkGoesOn(w, clock, i, j);
    }
  }

  lemma HandleBegins(w: World, i: nat, reading: Reading)
    requires LiveInv(w) && Able(w, Handle(i, reading))
    ensures Phase(Take(w, Handle(i, reading)))
  {
    LiveNowIs(w);
    assert w.(todo := []) == w;
    var next := Take(w, Handle(i, reading));
    FoundCounts(w.queue.rows, RefOf(w.replies[i]));
    assert FoundIn(w.queue.rows, WorkOf(w.replies[i])) == [];
    if reading.Taken? && !w.replies[i].noContent && w.replies[i].readable {
      assert ToPark(next, i, reading.id);
    } else {
      PlanOnlyRecords(w, i, reading);
    }
  }

  lemma PlanOnlyRecords(w: World, i: nat, reading: Reading)
    requires Able(w, Handle(i, reading)) && FoundIn(w.queue.rows, WorkOf(w.replies[i])) == []
    requires !reading.Taken? || w.replies[i].noContent || !w.replies[i].readable
    ensures OnlyRecords(Take(w, Handle(i, reading)))
  {
  }

  lemma TakeKeepsPhase(w: World, step: Step)
    requires Quotes.Inv(w) && LiveInv(w) && Phase(w) && Able(w, step) && (step.Crash? ==> !HalfDone(w))
    ensures LiveInv(Take(w, step)) && Phase(Take(w, step))
  {
    if step.Crash? {
      CrashKeepsLive(w);
    } else {
      TakeKeepsLive(w, step);
    }
    var next := Take(w, step);
    match step {
      case QueueMoves(op) => MoveKeepsPhase(w, op);
      case Handle(i, reading) => HandleBegins(w, i, reading);
      case Act(clock) => ActKeepsPhase(w, clock);
      case Consider(_, _, _, _) => NothingToDo(next);
      case Crash => NothingToDo(next);
      case _ => OtherKeepsPhase(w, next);
    }
  }

  lemma NothingToDo(w: World)
    requires LiveInv(w) && w.todo == []
    ensures Phase(w)
  {
    LiveNowIs(w);
    assert w.(todo := []) == w;
  }

  lemma OtherKeepsPhase(w: World, next: World)
    requires Phase(w) && next == w.(cardsOpen := next.cardsOpen)
    ensures Phase(next)
  {
    if i: nat, id: Id :| ToPark(w, i, id) {
      assert ToPark(next, i, id);
    } else if i: nat, id: Id :| ToRecord(w, i, id) {
      assert ToRecord(next, i, id);
    } else if i: nat :| ToWithdraw(w, i) {
      assert ToWithdraw(next, i);
    } else if i: nat, j: nat :| ToMark(w, i, j) {
      assert ToMark(next, i, j);
    }
  }

  // ----- every run

  /** Wherever the process dies, nothing half done is left. */
  ghost predicate CrashesInTime(w: World, steps: seq<Step>)
    requires Quotes.Run(w, steps).Some?
    decreases |steps|
  {
    steps == [] || ((steps[0].Crash? ==> !HalfDone(w)) && CrashesInTime(Take(w, steps[0]), steps[1..]))
  }

  lemma {:induction false} RunKeepsPhase(w: World, steps: seq<Step>)
    requires Quotes.Inv(w) && LiveInv(w) && Phase(w) && Quotes.Run(w, steps).Some? && CrashesInTime(w, steps)
    ensures var end := Quotes.Run(w, steps).value; Quotes.Inv(end) && LiveInv(end) && Phase(end)
    decreases |steps|
  {
    if steps != [] {
      TakeKeepsInv(w, steps[0]);
      TakeKeepsPhase(w, steps[0]);
      RunKeepsPhase(Take(w, steps[0]), steps[1..]);
    }
  }

  predicate CrashFree(steps: seq<Step>) { forall k | 0 <= k < |steps| :: !steps[k].Crash? }

  lemma {:induction false} CrashFreeIsInTime(w: World, steps: seq<Step>)
    requires Quotes.Run(w, steps).Some? && CrashFree(steps)
    ensures CrashesInTime(w, steps)
    decreases |steps|
  {
    if steps != [] {
      CrashFreeIsInTime(Take(w, steps[0]), steps[1..]);
    }
  }

  /** At most one submitted reply for an order, and at most one quote approval that waits. */
  ghost predicate OnePerOrder(w: World) {
    && OneSubmitted(w.replies)
    && forall i, j, order | 0 <= i < j < |w.queue.rows| :: !(WaitsFor(w, i, order) && WaitsFor(w, j, order))
  }

  lemma QuietHasOne(w: World)
    requires Quotes.Inv(w) && LiveInv(w) && w.todo == []
    ensures OnePerOrder(w)
  {
    forall i, j, order | 0 <= i < j < |w.queue.rows| ensures !(WaitsFor(w, i, order) && WaitsFor(w, j, order)) {
      if WaitsFor(w, i, order) {
        NotBoth(w, i, j, order);
      }
    }
  }

  lemma StartIsFine()
    ensures Quotes.Inv(START) && LiveInv(START) && Phase(START) && START.todo == []
  {
    assert Live([]) == {};
    NothingToDo(START);
  }

  /** In every run whose crashes leave nothing half done, whenever no reply is being handled, each
      order has one live quote at most. */
  lemma OneQuotePerOrder(steps: seq<Step>)
    requires Quotes.Run(START, steps).Some? && CrashesInTime(START, steps)
    ensures var w := Quotes.Run(START, steps).value;
      Quotes.Inv(w) && LiveInv(w) && Phase(w) && (w.todo == [] ==> OnePerOrder(w))
  {
    StartIsFine();
    RunKeepsPhase(START, steps);
    var w := Quotes.Run(START, steps).value;
    if w.todo == [] {
      QuietHasOne(w);
    }
  }

  // ----- and a half-done handling ends in two

  lemma {:induction false} EarlyTime(rows: seq<Row>) returns (t: Time)
    ensures forall k | 0 <= k < |rows| :: Kept(rows[k], t)
  {
    t := 0;
    if rows != [] {
      t := EarlyTime(rows[..|rows| - 1]);
      var last := rows[|rows| - 1];
      if last.resolvedAt.Some? && last.resolvedAt.value < t {
        t := last.resolvedAt.value;
      }
    }
  }

  predicate KeptAt(rows: seq<Row>, t: Time) { forall k | 0 <= k < |rows| :: Kept(rows[k], t) }

  lemma {:induction false} RetainsAll(rows: seq<Row>, t: Time)
    requires KeptAt(rows, t)
    ensures Retained(rows, t) == rows
  {
    if rows != [] {
      RetainsAll(rows[..|rows| - 1], t);
    }
  }

  function At(t: Time): Clock { Clock(t, t, t) }

  lemma SweptKept(rows: seq<Row>, t: Time)
    requires KeptAt(rows, t)
    ensures KeptAt(Swept(rows, t), t) && Refs(Swept(rows, t)) == Refs(rows)
  {
    var swept := Swept(rows, t);
    forall k | 0 <= k < |swept| ensures Kept(swept[k], t) && swept[k].work == rows[k].work && swept[k].id == rows[k].id {
      assert swept[k] == SweptRow(rows[k], t);
    }
    SameRefs(rows, swept);
  }

  lemma ChangedKept(rows: seq<Row>, a: Action, t: Time)
    requires KeptAt(rows, t) && (a.Park? || a.Deny?)
    ensures KeptAt(Changed(rows, OpOf(a, At(t))), t)
  {
    SweptKept(rows, t);
    var swept := Swept(rows, t);
    if a.Deny? {
      var i := PlaceOf(swept, a.id, Pending);
      assert i < |swept| ==> Kept(ResolvedRow(swept[i], Denied, None, t), t);
    }
  }

  lemma ChangedRefs(rows: seq<Row>, a: Action, t: Time)
    requires KeptAt(rows, t) && (a.Park? || a.Deny?)
    ensures Refs(rows) <= Refs(Changed(rows, OpOf(a, At(t))))
  {
    var changed := Changed(rows, OpOf(a, At(t)));
    if a.Park? {
      SweptKept(rows, t);
      assert changed[..|Swept(rows, t)|] == Swept(rows, t);
    } else {
      ChangedSameWork(rows, OpOf(a, At(t)));
      SameRefs(rows, changed);
    }
  }

  /** So early that the retention drops nothing, every ref stays in the file. */
  lemma RefsStay(rows: seq<Row>, a: Action, t: Time)
    requires KeptAt(rows, t) && (a.Park? || a.Deny?)
    ensures KeptAt(Done(rows, OpOf(a, At(t))), t)
    ensures Refs(rows) <= Refs(Done(rows, OpOf(a, At(t))))
  {
    ChangedKept(rows, a, t);
    ChangedRefs(rows, a, t);
    RetainsAll(Changed(rows, OpOf(a, At(t))), t);
  }

  /** What is left to do can be done, with no crash. */
  lemma {:induction false} Finish(w: World, t: Time) returns (steps: seq<Step>, next: World)
    requires Quotes.Inv(w) && KeptAt(w.queue.rows, t)
    requires w.todo != [] && w.todo[0].Park? ==> w.todo[0].id !in w.queue.stories
    ensures Quotes.Run(w, steps) == Some(next) && CrashFree(steps) && next.todo == []
    ensures next.replies == Written(w.replies, w.todo)
    ensures Quotes.Inv(next) && KeptAt(next.queue.rows, t) && Refs(w.queue.rows) <= Refs(next.queue.rows)
    decreases |w.todo|
  {
    steps, next := [], w;
    if w.todo != [] {
      var step := Act(At(t));
      ActLeft(w, t);
      steps, next := Finish(Take(w, step), t);
      steps := [step] + steps;
    }
  }

  lemma ActLeft(w: World, t: Time)
    requires Quotes.Inv(w) && KeptAt(w.queue.rows, t) && w.todo != [] && (w.todo[0].Park? ==> w.todo[0].id !in w.queue.stories)
    ensures Able(w, Act(At(t)))
    ensures var next := Take(w, Act(At(t)));
      && Quotes.Inv(next) && next.todo == w.todo[1..] && (next.todo != [] ==> !next.todo[0].Park?)
      && next.replies == WrittenOne(w.replies, w.todo[0])
      && KeptAt(next.queue.rows, t) && Refs(w.queue.rows) <= Refs(next.queue.rows)
  {
    var a := w.todo[0];
    assert ActionOk(w, 0);
    TakeKeepsInv(w, Act(At(t)));
    if a.Park? || a.Deny? {
      FileIsDone(w.queue, OpOf(a, At(t)));
      RefsStay(w.queue.rows, a, t);
    }
    assert |w.todo| > 1 ==> ActionOk(w, 1);
  }

  lemma {:induction false} NewId(ids: set<Id>) returns (id: Id)
    ensures forall other: Id | other in ids :: other < id
  {
    id := 0;
    if some: Id :| some in ids {
      id := NewId(ids - {some});
      assert forall other: Id | other in ids :: other == some || other in ids - {some};
      id := if id <= some then some + 1 else id;
    }
  }

  lemma {:induction false} NewReplyId(replies: seq<Reply>) returns (id: string)
    ensures forall j | 0 <= j < |replies| :: |replies[j].id| < |id|
  {
    id := "1";
    if replies != [] {
      var front, last := replies[..|replies| - 1], replies[|replies| - 1].id;
      id := NewReplyId(front);
      if |last| >= |id| {
        id := last + "1";
      }
      forall j | 0 <= j < |replies| ensures |replies[j].id| < |id| {
        assert j < |front| ==> replies[j] == front[j];
      }
    }
  }

  function Asking(id: string, order: string): Reply { Reply(id, order, Waiting, None, 0, false, true) }

  predicate JustAsked(reply: Reply, order: string) { reply == Asking(reply.id, order) }

  /** A further reply on the card, ready to be quoted. */
  lemma AnotherReply(w: World, order: string) returns (steps: seq<Step>, next: World)
    requires Quotes.Inv(w) && w.todo == []
    ensures Quotes.Run(w, steps) == Some(next) && CrashFree(steps) && Quotes.Inv(next)
    ensures next.queue == w.queue && next.todo == [] && order in next.cardsOpen
    ensures |next.replies| == |w.replies| + 1 && next.replies[..|w.replies|] == w.replies
    ensures JustAsked(next.replies[|w.replies|], order)
    ensures FoundIn(next.queue.rows, WorkOf(next.replies[|w.replies|])) == []
  {
    var id := NewReplyId(w.replies);
    var open, ask := OpenCard(order), Consider(id, order, false, true);
    var between := Take(w, open);
    next, steps := Take(between, ask), [open, ask];
    FirstStep(w, steps, between);
    FirstStep(between, steps[1..], next);
    TakeKeepsInv(w, open);
    TakeKeepsInv(between, ask);
    NeverParked(w, Asking(id, order));
  }

  lemma NeverParked(w: World, reply: Reply)
    requires Quotes.Inv(w) && forall j | 0 <= j < |w.replies| :: w.replies[j].id != reply.id
    ensures FoundIn(w.queue.rows, WorkOf(reply)) == []
  {
    var ref := RefOf(reply);
    FoundCounts(w.queue.rows, ref);
    if Refs(w.queue.rows)[ref] > 0 {
      assert ref in w.parks;
      var j :| 0 <= j < |w.replies| && RefOf(w.replies[j]) == ref;
      RefsDiffer(w.replies[j], reply);
    }
  }

  /** Quoted to the end: it is submitted, and the order's other submitted replies superseded. */
  lemma Quoted(w: World, i: nat, t: Time) returns (steps: seq<Step>, next: World, id: Id)
    requires Quotes.Inv(w) && w.todo == [] && i < |w.replies| && w.replies[i].state.Waiting?
    requires !w.replies[i].noContent && w.replies[i].readable && FoundIn(w.queue.rows, WorkOf(w.replies[i])) == []
    requires KeptAt(w.queue.rows, t)
    ensures Quotes.Run(w, steps) == Some(next) && CrashFree(steps) && Quotes.Inv(next) && next.todo == []
    ensures KeptAt(next.queue.rows, t) && Refs(w.queue.rows) <= Refs(next.queue.rows)
    ensures |next.replies| == |w.replies| && forall j | 0 <= j < |w.replies| :: next.replies[j] == Settled(w.replies, i, id, j)
  {
    id := NewId(w.queue.stories.Keys);
    var step := Handle(i, Taken(id));
    var begun := Take(w, step);
    TakeKeepsInv(w, step);
    steps, next := Finish(begun, t);
    PlanWrites(w.queue.rows, w.replies, i, id);
    steps := [step] + steps;
  }

  /** What a quote leaves of the replies. */
  lemma PlanWrites(rows: seq<Row>, replies: seq<Reply>, i: nat, id: Id)
    requires i < |replies| && replies[i].state.Waiting? && !replies[i].noContent && replies[i].readable
    requires FoundIn(rows, WorkOf(replies[i])) == []
    ensures var after := Written(replies, PlanFor(rows, replies, i, Taken(id)));
      forall j | 0 <= j < |replies| :: after[j] == Settled(replies, i, id, j)
  {
    var two := [Park(id, RefOf(replies[i])), Record(replies, i, id)];
    AllThen({}, replies, two, AllWithdrawals(replies, i));
    TwoActions({}, replies, two);
    Withdrawn(replies, Written(replies, two), {}, i, |replies|);
  }

  /** Found parked, a reply is recorded and nothing else is done. */
  lemma FoundAndRecorded(w: World, i: nat, clock: Clock) returns (steps: seq<Step>, next: World)
    requires w.todo == [] && i < |w.replies| && w.replies[i].state.Waiting? && FoundIn(w.queue.rows, WorkOf(w.replies[i])) != []
    ensures Quotes.Run(w, steps) == Some(next) && CrashFree(steps) && next.todo == [] && next.queue == w.queue
    ensures exists id :: next.replies == w.replies[i := SubmittedAs(w.replies[i], id)]
  {
    var id := FoundIn(w.queue.rows, WorkOf(w.replies[i]))[0].id;
    steps := [Handle(i, OrderDown), Act(clock)];
    var between := Take(w, steps[0]);
    ActPut(between, i, SubmittedAs(w.replies[i], id), clock);
    next := Take(between, Act(clock));
    FirstStep(w, steps, between);
    FirstStep(between, steps[1..], next);
  }

  /** An approval in the file that is not recorded: another reply of the order may be quoted
      before this one is handled again, and then this one is recorded beside it. */
  lemma UnrecordedLeadsToTwo(w: World, i: nat) returns (steps: seq<Step>, next: World)
    requires Quotes.Inv(w) && w.todo == [] && i < |w.replies| && w.replies[i].state.Waiting?
    requires FoundIn(w.queue.rows, WorkOf(w.replies[i])) != []
    ensures Quotes.Run(w, steps) == Some(next) && CrashFree(steps) && next.todo == [] && !OneSubmitted(next.replies)
  {
    var n := |w.replies|;
    var t := EarlyTime(w.queue.rows);
    var first, asked := AnotherReply(w, w.replies[i].order);
    assert asked.replies[i] == w.replies[..n][i];
    FoundCounts(w.queue.rows, RefOf(w.replies[i]));
    var second, end := QuotedThenFound(asked, i, n, t);
    RunOn(w, first, second);
    steps, next := first + second, end;
  }

  lemma QuotedThenFound(w: World, i: nat, n: nat, t: Time) returns (steps: seq<Step>, next: World)
    requires Quotes.Inv(w) && w.todo == [] && i < |w.replies| && n < |w.replies| && i != n && KeptAt(w.queue.rows, t)
    requires w.replies[i].state.Waiting? && Refs(w.queue.rows)[RefOf(w.replies[i])] > 0
    requires JustAsked(w.replies[n], w.replies[i].order) && FoundIn(w.queue.rows, WorkOf(w.replies[n])) == []
    ensures Quotes.Run(w, steps) == Some(next) && CrashFree(steps) && next.todo == [] && !OneSubmitted(next.replies)
  {
    var first, quoted, id := Quoted(w, n, t);
    assert quoted.replies[i] == w.replies[i];
    FoundCounts(quoted.queue.rows, RefOf(w.replies[i]));
    var second, end := FoundAndRecorded(quoted, i, At(t));
    RunOn(w, first, second);
    steps, next := first + second, end;
    assert next.replies[i].state.Submitted? && next.replies[n].state.Submitted? && next.replies[i].order == next.replies[n].order;
  }

  /** The order has no submitted reply, but the approval of a reply not recorded waits. */
  predicate LeftAlone(w: World, i: nat, row: Row, clock: Clock) {
    && w.todo == [] && i < |w.replies| && w.replies[i].state.Waiting?
    && row in w.queue.rows && row.work == WorkOf(w.replies[i]) && row.status.Pending? && !Lapsed(row, clock.sweep)
    && forall j | 0 <= j < |w.replies| && w.replies[j].order == w.replies[i].order :: !w.replies[j].state.Submitted?
  }

  /** Then once another reply is quoted, at any time before the deadline, two approvals wait. */
  lemma UnrecordedAndAlone(w: World, i: nat, row: Row, clock: Clock) returns (steps: seq<Step>, next: World)
    requires Quotes.Inv(w) && LeftAlone(w, i, row, clock)
    ensures Quotes.Run(w, steps) == Some(next) && CrashFree(steps) && next.todo == [] && TwoWait(next, w.replies[i].order)
  {
    var n := |w.replies|;
    var first, asked := AnotherReply(w, w.replies[i].order);
    StillAlone(w, asked, i, row, clock);
    var second, quoted := AnotherQuoted(asked, i, n, row, clock);
    RunOn(w, first, second);
    steps, next := first + second, quoted;
  }

  lemma StillAlone(w: World, asked: World, i: nat, row: Row, clock: Clock)
    requires LeftAlone(w, i, row, clock) && asked.queue == w.queue && asked.todo == []
    requires |asked.replies| == |w.replies| + 1 && asked.replies[..|w.replies|] == w.replies
    requires JustAsked(asked.replies[|w.replies|], w.replies[i].order)
    ensures LeftAlone(asked, i, row, clock) && asked.replies[i] == w.replies[i]
  {
    forall j | 0 <= j < |w.replies| ensures asked.replies[j] == w.replies[j] {
      assert asked.replies[..|w.replies|][j] == w.replies[j];
    }
  }

  lemma AnotherQuoted(w: World, i: nat, n: nat, row: Row, clock: Clock) returns (steps: seq<Step>, next: World)
    requires Quotes.Inv(w) && LeftAlone(w, i, row, clock) && n < |w.replies| && i != n
    requires JustAsked(w.replies[n], w.replies[i].order) && FoundIn(w.queue.rows, WorkOf(w.replies[n])) == []
    ensures Quotes.Run(w, steps) == Some(next) && CrashFree(steps) && next.todo == [] && TwoWait(next, w.replies[i].order)
  {
    var id;
    steps, next, id := QuotedAlone(w, n, clock);
    ParkedLast(w.queue, id, RefOf(w.replies[n]), clock);
    FoundMissing(w.queue.rows, WorkOf(w.replies[n]), row);
    BothWaitFor(next, i, n, row, FreshAt(id, RefOf(w.replies[n]), clock.stamp));
  }

  ghost predicate TwoWait(w: World, order: string) {
    exists a, b :: 0 <= a < b < |w.queue.rows| && WaitsFor(w, a, order) && WaitsFor(w, b, order)
  }

  lemma BothWaitFor(w: World, i: nat, n: nat, row: Row, last: Row)
    requires i < |w.replies| && n < |w.replies| && w.replies[i].order == w.replies[n].order
    requires LiveRow(row) && row.work.ref == RefOf(w.replies[i]) && LiveRow(last) && last.work.ref == RefOf(w.replies[n])
    requires row != last && row in w.queue.rows && w.queue.rows != [] && w.queue.rows[|w.queue.rows| - 1] == last
    ensures TwoWait(w, w.replies[i].order)
  {
    var a :| 0 <= a < |w.queue.rows| && w.queue.rows[a] == row;
    assert WaitsFor(w, a, w.replies[i].order) && WaitsFor(w, |w.queue.rows| - 1, w.replies[i].order);
  }

  lemma {:induction false} FoundMissing(rows: seq<Row>, work: Work, row: Row)
    requires FoundIn(rows, work) == [] && row in rows
    ensures row.work != work
  {
    if row != rows[|rows| - 1] {
      FoundMissing(rows[..|rows| - 1], work, row);
    }
  }

  /** Quoted when nothing older stands: parked and recorded is all. */
  lemma QuotedAlone(w: World, i: nat, clock: Clock) returns (steps: seq<Step>, next: World, id: Id)
    requires Quotes.Inv(w) && w.todo == [] && i < |w.replies| && w.replies[i].state.Waiting?
    requires !w.replies[i].noContent && w.replies[i].readable && FoundIn(w.queue.rows, WorkOf(w.replies[i])) == []
    requires forall j | 0 <= j < |w.replies| && j != i && w.replies[j].order == w.replies[i].order :: !w.replies[j].state.Submitted?
    ensures Quotes.Run(w, steps) == Some(next) && CrashFree(steps) && next.todo == []
    ensures next.queue == Do(w.queue, OpOf(Park(id, RefOf(w.replies[i])), clock))
    ensures next.replies == w.replies[i := SubmittedAs(w.replies[i], id)]
  {
    id := NewId(w.queue.stories.Keys);
    PlanAlone(w, i, id);
    var begun := Take(w, Handle(i, Taken(id)));
    steps, next := ParksAndRecords(begun, i, id, RefOf(w.replies[i]), SubmittedAs(w.replies[i], id), clock);
    steps := [Handle(i, Taken(id))] + steps;
  }

  lemma ParksAndRecords(w: World, i: nat, id: Id, ref: string, reply: Reply, clock: Clock) returns (steps: seq<Step>, next: World)
    requires w.todo == [Park(id, ref), Put(i, reply)] && id !in w.queue.stories && i < |w.replies|
    ensures Quotes.Run(w, steps) == Some(next) && CrashFree(steps) && next.todo == []
    ensures next.queue == Do(w.queue, OpOf(Park(id, ref), clock)) && next.replies == w.replies[i := reply]
  {
    ActPark(w, id, ref, clock);
    var parked := Take(w, Act(clock));
    ActPut(parked, i, reply, clock);
    next := Take(parked, Act(clock));
    steps := [Act(clock), Act(clock)];
    FirstStep(w, steps, parked);
    FirstStep(parked, steps[1..], next);
  }

  lemma PlanAlone(w: World, i: nat, id: Id)
    requires w.todo == [] && i < |w.replies| && w.replies[i].state.Waiting?
    requires !w.replies[i].noContent && w.replies[i].readable && FoundIn(w.queue.rows, WorkOf(w.replies[i])) == []
    requires forall j | 0 <= j < |w.replies| && j != i && w.replies[j].order == w.replies[i].order :: !w.replies[j].state.Submitted?
    ensures Able(w, Handle(i, Taken(id)))
    ensures Take(w, Handle(i, Taken(id))) == w.(todo := [Park(id, RefOf(w.replies[i])), Record(w.replies, i, id)])
  {
    NoneOlder(w.replies, i, |w.replies|);
    var two := [Park(id, RefOf(w.replies[i])), Record(w.replies, i, id)];
    assert two + [] == two;
  }

  /** A crash that leaves something half done: whatever led there, there is a way on to two
      submitted replies for one order, with no further crash. */
  lemma HalfDoneLeadsToTwo(w: World) returns (steps: seq<Step>, next: World)
    requires Quotes.Inv(w) && Phase(w) && HalfDone(w)
    ensures Quotes.Run(Take(w, Crash), steps) == Some(next) && CrashFree(steps)
    ensures next.todo == [] && !OneSubmitted(next.replies)
  {
    steps, next := [], Take(w, Crash);
    TakeKeepsInv(w, Crash);
    if i: nat, id: Id :| ToRecord(w, i, id) {
      steps, next := UnrecordedLeadsToTwo(next, i);
    } else if i: nat :| ToWithdraw(w, i) {
      var j := FirstWithdrawal(w.replies, i, |w.replies|);
      TwoSubmitted(w.replies, i, j);
    } else {
      var i: nat, j: nat :| ToMark(w, i, j);
      TwoSubmitted(w.replies, i, j);
    }
  }

  lemma TwoSubmitted(replies: seq<Reply>, i: nat, j: nat)
    requires i < |replies| && j < |replies| && replies[i].state.Submitted? && Older(replies, i, j)
    ensures !OneSubmitted(replies)
  {
    assert replies[i].order == replies[j].order && replies[j].state.Submitted? && i != j;
  }

  /** Nothing that follows a crash but a further crash can bring an order two live quotes. */
  ghost predicate SafeFrom(w: World) {
    forall steps | CrashFree(steps) && Quotes.Run(w, steps).Some? && Quotes.Run(w, steps).value.todo == [] ::
      OnePerOrder(Quotes.Run(w, steps).value)
  }

  /** Exactly when may the process die: when nothing half done is left. For every state of every
      run so far without such a crash. */
  lemma CrashIsSafeExactly(early: seq<Step>)
    requires Quotes.Run(START, early).Some? && CrashesInTime(START, early)
    ensures var w := Quotes.Run(START, early).value; SafeFrom(Take(w, Crash)) <==> !HalfDone(w)
  {
    OneQuotePerOrder(early);
    var w := Quotes.Run(START, early).value;
    if HalfDone(w) {
      var steps, next := HalfDoneLeadsToTwo(w);
    } else {
      TakeKeepsInv(w, Crash);
      TakeKeepsPhase(w, Crash);
      SafeOnwards(Take(w, Crash));
    }
  }

  lemma SafeOnwards(w: World)
    requires Quotes.Inv(w) && LiveInv(w) && Phase(w)
    ensures SafeFrom(w)
  {
    forall steps | CrashFree(steps) && Quotes.Run(w, steps).Some? && Quotes.Run(w, steps).value.todo == []
      ensures OnePerOrder(Quotes.Run(w, steps).value)
    {
      CrashFreeIsInTime(w, steps);
      RunKeepsPhase(w, steps);
      QuietHasOne(Quotes.Run(w, steps).value);
    }
  }
}
