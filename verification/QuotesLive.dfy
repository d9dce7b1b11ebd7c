/** One live quote for each order: every step but a crash leaves at most one reply of the order
    submitted and at most one of its quote approvals waiting, once the reply in hand is done with.
    Which crashes do is in QuotesCrash.dfy; here are two that do not, from any state. */
module QuotesLive {
  import opened Wrappers
  import opened Approvals
  import opened ApprovalRuns
  import opened ApprovalStore
  import opened Quotes

  /** The quote approvals that wait: id and ref. */
  function Live(rows: seq<Row>): set<(Id, string)> {
    set i | 0 <= i < |rows| && LiveRow(rows[i]) :: (rows[i].id, rows[i].work.ref)
  }

  predicate LiveRow(row: Row) { row.status.Pending? && row.work.capability == QUOTE }

  lemma LiveHasRow(rows: seq<Row>, p: (Id, string))
    requires p in Live(rows)
    ensures exists i :: 0 <= i < |rows| && LiveRow(rows[i]) && rows[i].id == p.0 && rows[i].work.ref == p.1
  {
  }

  // ----- what is left to do, done

  function AfterOne(live: set<(Id, string)>, a: Action): set<(Id, string)> {
    match a
    case Park(id, ref) => live + {(id, ref)}
    case Deny(id) => set p | p in live && p.0 != id
    case _ => live
  }

  function AfterAll(live: set<(Id, string)>, todo: seq<Action>): set<(Id, string)>
    decreases |todo|
  {
    if todo == [] then live else AfterAll(AfterOne(live, todo[0]), todo[1..])
  }

  function WrittenOne(replies: seq<Reply>, a: Action): (r: seq<Reply>)
    ensures |r| == |replies|
  {
    if a.Put? && a.at < |replies| then replies[a.at := a.reply] else replies
  }

  function Written(replies: seq<Reply>, todo: seq<Action>): (r: seq<Reply>)
    ensures |r| == |replies|
    decreases |todo|
  {
    if todo == [] then replies else Written(WrittenOne(replies, todo[0]), todo[1..])
  }

  function Parked(todo: seq<Action>): multiset<string> {
    if todo == [] then multiset{}
    else (if todo[0].Park? then multiset{todo[0].ref} else multiset{}) + Parked(todo[1..])
  }

  lemma {:induction false} AllThen(live: set<(Id, string)>, replies: seq<Reply>, a: seq<Action>, b: seq<Action>)
    ensures AfterAll(live, a + b) == AfterAll(AfterAll(live, a), b)
    ensures Written(replies, a + b) == Written(Written(replies, a), b)
    ensures Parked(a + b) == Parked(a) + Parked(b)
    decreases |a|
  {
    if a == [] {
      assert a + b == b;
    } else {
      assert (a + b)[1..] == a[1..] + b;
      AllThen(AfterOne(live, a[0]), WrittenOne(replies, a[0]), a[1..], b);
    }
  }

  lemma {:induction false} AllMonotone(less: set<(Id, string)>, more: set<(Id, string)>, todo: seq<Action>)
    requires less <= more
    ensures AfterAll(less, todo) <= AfterAll(more, todo)
    decreases |todo|
  {
    if todo != [] {
      AllMonotone(AfterOne(less, todo[0]), AfterOne(more, todo[0]), todo[1..]);
    }
  }

  // ----- the invariant

  predicate OneSubmitted(replies: seq<Reply>) {
    forall i, j | 0 <= i < j < |replies| && replies[i].state.Submitted? && replies[j].state.Submitted? ::
      replies[i].order != replies[j].order
  }

  predicate DistinctIds(replies: seq<Reply>) { forall i, j | 0 <= i < j < |replies| :: replies[i].id != replies[j].id }

  predicate Stands(reply: Reply, p: (Id, string)) {
    RefOf(reply) == p.1 && reply.state.Submitted? && reply.approval == Some(p.0)
  }

  predicate HasStanding(replies: seq<Reply>, p: (Id, string)) { exists i :: 0 <= i < |replies| && Stands(replies[i], p) }

  /** One submitted reply for each order; every approval that waits is that of a submitted reply;
      nothing is parked for a reply that still waits to be handled. */
  predicate OneLive(replies: seq<Reply>, live: set<(Id, string)>, seen: multiset<string>) {
    && DistinctIds(replies) && OneSubmitted(replies)
    && (forall i | 0 <= i < |replies| && replies[i].state.Submitted? :: replies[i].approval.Some?)
    && (forall p | p in live :: HasStanding(replies, p))
    && (forall i | 0 <= i < |replies| && replies[i].state.Waiting? :: RefOf(replies[i]) !in seen)
  }

  predicate LiveInv(w: World) {
    OneLive(Written(w.replies, w.todo), AfterAll(Live(w.queue.rows), w.todo), Refs(w.queue.rows) + Parked(w.todo))
  }

  lemma FewerIsFine(replies: seq<Reply>, live: set<(Id, string)>, seen: multiset<string>, fewer: set<(Id, string)>, less: multiset<string>)
    requires OneLive(replies, live, seen) && fewer <= live && less <= seen
    ensures OneLive(replies, fewer, less)
  {
  }

  // ----- the queue's moves

  lemma {:induction false} RetainedIn(rows: seq<Row>, now: Time, i: nat)
    requires i < |Retained(rows, now)|
    ensures exists j :: 0 <= j < |rows| && rows[j] == Retained(rows, now)[i]
  {
    RetainedIsPart(rows, now);
    assert Retained(rows, now)[i] in rows;
  }

  lemma RetainedLive(rows: seq<Row>, now: Time)
    ensures Live(Retained(rows, now)) <= Live(rows)
  {
    forall p | p in Live(Retained(rows, now)) ensures p in Live(rows) {
      LiveHasRow(Retained(rows, now), p);
      var i :| 0 <= i < |Retained(rows, now)| && LiveRow(Retained(rows, now)[i])
        && Retained(rows, now)[i].id == p.0 && Retained(rows, now)[i].work.ref == p.1;
      RetainedIn(rows, now, i);
      var j :| 0 <= j < |rows| && rows[j] == Retained(rows, now)[i];
      assert LiveRow(rows[j]) && (rows[j].id, rows[j].work.ref) == p;
    }
  }

  lemma SavedLive(rows: seq<Row>, op: Op)
    ensures Live(Done(rows, op)) <= Live(Changed(rows, op))
  {
    RetainedLive(Changed(rows, op), SaveTime(op));
  }

  /** Nothing starts to wait again. */
  predicate NoneRevived(before: seq<Row>, after: seq<Row>) {
    SameWork(before, after) && forall i | 0 <= i < |before| && after[i].status.Pending? :: before[i].status.Pending?
  }

  lemma FewerLive(before: seq<Row>, after: seq<Row>)
    requires NoneRevived(before, after)
    ensures Live(after) <= Live(before)
  {
    forall p | p in Live(after) ensures p in Live(before) {
      var i :| 0 <= i < |after| && LiveRow(after[i]) && (after[i].id, after[i].work.ref) == p;
      assert LiveRow(before[i]) && (before[i].id, before[i].work.ref) == p;
    }
  }

  lemma ChangedNoneRevived(rows: seq<Row>, op: Op)
    requires !op.Enqueue? && (op.Resolve? ==> Terminal(op.to))
    ensures NoneRevived(rows, Changed(rows, op))
  {
    ChangedSameWork(rows, op);
    match op {
      case Restart(_, _) =>
      case NoteDigest(_, _, _) =>
      case Look(c) => SweptNoneRevived(rows, c.sweep);
      case Claim(_, _, c) => SweptNoneRevived(rows, c.sweep);
      case Resolve(_, _, _, _, c) => SweptNoneRevived(rows, c.sweep);
    }
  }

  lemma SweptNoneRevived(rows: seq<Row>, now: Time)
    ensures forall i | 0 <= i < |rows| && Swept(rows, now)[i].status.Pending? :: rows[i].status.Pending?
  {
    forall i | 0 <= i < |rows| && Swept(rows, now)[i].status.Pending? ensures rows[i].status.Pending? {
      assert Swept(rows, now)[i] == SweptRow(rows[i], now);
    }
  }

  function AddedLive(op: Op): set<(Id, string)> { if ParksQuote(op) then {(op.id, op.work.ref)} else {} }

  lemma DoneLive(rows: seq<Row>, op: Op)
    requires op.Resolve? ==> Terminal(op.to)
    ensures Live(Done(rows, op)) <= Live(rows) + AddedLive(op)
  {
    var changed := Changed(rows, op);
    SavedLive(rows, op);
    if op.Enqueue? {
      EnqueuedLive(rows, op);
    } else {
      ChangedNoneRevived(rows, op);
      FewerLive(rows, changed);
    }
  }

  lemma EnqueuedLive(rows: seq<Row>, op: Op)
    requires op.Enqueue?
    ensures Live(Changed(rows, op)) <= Live(rows) + AddedLive(op)
  {
    var swept, changed := Swept(rows, op.clock.sweep), Changed(rows, op);
    forall i | 0 <= i < |rows| && swept[i].status.Pending? ensures rows[i].status.Pending? {
      assert swept[i] == SweptRow(rows[i], op.clock.sweep);
    }
    forall i | 0 <= i < |rows| ensures swept[i].work == rows[i].work && swept[i].id == rows[i].id {
      assert swept[i] == SweptRow(rows[i], op.clock.sweep);
    }
    FewerLive(rows, swept);
    forall p | p in Live(changed) ensures p in Live(swept) + AddedLive(op) {
      var i :| 0 <= i < |changed| && LiveRow(changed[i]) && (changed[i].id, changed[i].work.ref) == p;
      if i < |swept| {
        assert LiveRow(swept[i]) && (swept[i].id, swept[i].work.ref) == p;
      }
    }
  }

  /** After a denial the approval does not wait. */
  lemma DeniedLive(rows: seq<Row>, id: Id, clock: Clock)
    requires OneRowEach(rows)
    ensures forall p | p in Live(Done(rows, OpOf(Deny(id), clock))) :: p.0 != id
  {
    var op := OpOf(Deny(id), clock);
    var changed := Changed(rows, op);
    ChangedSameWork(rows, op);
    SavedLive(rows, op);
    var swept := Swept(rows, clock.sweep);
    var at := PlaceOf(swept, id, Pending);
    forall i | 0 <= i < |changed| && LiveRow(changed[i]) ensures changed[i].id != id {
      assert swept[i].id == rows[i].id == changed[i].id;
      assert at < |rows| ==> swept[at].id == rows[at].id;
    }
    forall p | p in Live(Done(rows, op)) ensures p.0 != id {
      LiveHasRow(changed, p);
    }
  }

  // ----- each step keeps it

  lemma MoveKeepsLive(w: World, op: Op)
    requires LiveInv(w) && Enabled(w.queue, op) && !ParksQuote(op)
    ensures LiveInv(Operate(w, op))
  {
    FileIsDone(w.queue, op);
    DoneLive(w.queue.rows, op);
    DoneRefs(w.queue.rows, op);
    var rows := Done(w.queue.rows, op);
    AllMonotone(Live(rows), Live(w.queue.rows), w.todo);
    FewerIsFine(Written(w.replies, w.todo), AfterAll(Live(w.queue.rows), w.todo), Refs(w.queue.rows) + Parked(w.todo),
                AfterAll(Live(rows), w.todo), Refs(rows) + Parked(w.todo));
  }

  lemma ActKeepsLive(w: World, clock: Clock)
    requires Quotes.Inv(w) && LiveInv(w) && Able(w, Act(clock))
    ensures LiveInv(Take(w, Act(clock)))
  {
    var a, next := w.todo[0], Take(w, Act(clock));
    if a.Park? || a.Deny? {
      var op, rows := OpOf(a, clock), Done(w.queue.rows, OpOf(a, clock));
      FileIsDone(w.queue, op);
      DoneLive(w.queue.rows, op);
      DoneRefs(w.queue.rows, op);
      if a.Deny? {
        DeniedLive(w.queue.rows, a.id, clock);
      }
      assert Live(rows) <= AfterOne(Live(w.queue.rows), a);
      AllMonotone(Live(rows), AfterOne(Live(w.queue.rows), a), w.todo[1..]);
      FewerIsFine(Written(w.replies, w.todo), AfterAll(Live(w.queue.rows), w.todo), Refs(w.queue.rows) + Parked(w.todo),
                  AfterAll(Live(rows), w.todo[1..]), Refs(rows) + Parked(w.todo[1..]));
    }
  }

  lemma RefsDiffer(a: Reply, b: Reply)
    ensures RefOf(a) == RefOf(b) <==> a.id == b.id
  {
    assert RefOf(a)[8..] == a.id && RefOf(b)[8..] == b.id;
  }

  lemma ConsiderKeepsLive(w: World, step: Step)
    requires Quotes.Inv(w) && LiveInv(w) && step.Consider? && Able(w, step)
    ensures LiveInv(Take(w, step))
  {
    var next := Take(w, step);
    var reply := next.replies[|w.replies|];
    var seen := Refs(w.queue.rows);
    if RefOf(reply) in seen {
      assert RefOf(reply) in w.parks;
      var i :| 0 <= i < |w.replies| && RefOf(w.replies[i]) == RefOf(reply);
      RefsDiffer(w.replies[i], reply);
    }
    forall p | p in Live(w.queue.rows) ensures HasStanding(next.replies, p) {
      var i :| 0 <= i < |w.replies| && Stands(w.replies[i], p);
      assert Stands(next.replies[i], p);
    }
    assert seen + Parked([]) == seen;
  }

  /** A reply that ends without a quote changes nothing about the others. */
  lemma PutKeepsLive(replies: seq<Reply>, live: set<(Id, string)>, seen: multiset<string>, i: nat, reply: Reply)
    requires OneLive(replies, live, seen) && i < |replies| && replies[i].state.Waiting?
    requires reply.id == replies[i].id && !reply.state.Submitted?
    ensures OneLive(replies[i := reply], live, seen)
  {
    var after := replies[i := reply];
    forall p | p in live ensures HasStanding(after, p) {
      var j :| 0 <= j < |replies| && Stands(replies[j], p);
      assert Stands(after[j], p);
    }
  }

  /** What the withdrawals write and deny: exactly the order's other submitted replies. */
  predicate WroteWithdrawn(replies: seq<Reply>, base: seq<Reply>, after: seq<Reply>, keep: nat, n: nat)
    requires keep < |replies| == |base| == |after| && n <= |replies|
  {
    forall j | 0 <= j < |base| ::
      after[j] == if j < n && Older(replies, keep, j) then replies[j].(state := Superseded) else base[j]
  }

  predicate DeniedOlder(replies: seq<Reply>, live: set<(Id, string)>, left: set<(Id, string)>, keep: nat, n: nat)
    requires keep < |replies| && n <= |replies|
  {
    && left <= live
    && forall p, j | p in left && 0 <= j < n && Older(replies, keep, j) :: replies[j].approval.value != p.0
  }

  lemma {:induction false} Withdrawn(replies: seq<Reply>, base: seq<Reply>, live: set<(Id, string)>, keep: nat, n: nat)
    requires keep < |replies| == |base| && n <= |replies|
    ensures WroteWithdrawn(replies, base, Written(base, Withdrawals(replies, keep, n)), keep, n)
    ensures DeniedOlder(replies, live, AfterAll(live, Withdrawals(replies, keep, n)), keep, n)
    ensures Parked(Withdrawals(replies, keep, n)) == multiset{}
  {
    if n > 0 {
      var list := Withdrawals(replies, keep, n - 1);
      Withdrawn(replies, base, live, keep, n - 1);
      if Older(replies, keep, n - 1) {
        WithdrawnOneMore(replies, base, live, keep, n - 1, list);
      } else {
        assert list + [] == list;
      }
    }
  }

  lemma WithdrawnOneMore(replies: seq<Reply>, base: seq<Reply>, live: set<(Id, string)>, keep: nat, n: nat, list: seq<Action>)
    requires keep < |replies| == |base| && n < |replies| && Older(replies, keep, n) && |Written(base, list)| == |base|
    requires WroteWithdrawn(replies, base, Written(base, list), keep, n)
    requires DeniedOlder(replies, live, AfterAll(live, list), keep, n) && Parked(list) == multiset{}
    ensures var more := list + [Deny(replies[n].approval.value), Put(n, replies[n].(state := Superseded))];
      && |Written(base, more)| == |base| && WroteWithdrawn(replies, base, Written(base, more), keep, n + 1)
      && DeniedOlder(replies, live, AfterAll(live, more), keep, n + 1) && Parked(more) == multiset{}
  {
    var two := [Deny(replies[n].approval.value), Put(n, replies[n].(state := Superseded))];
    AllThen(live, base, list, two);
    TwoActions(AfterAll(live, list), Written(base, list), two);
    OneMoreWithdrawn(replies, base, Written(base, list), live, AfterAll(live, list), keep, n);
  }

  lemma OneMoreWithdrawn(replies: seq<Reply>, base: seq<Reply>, after: seq<Reply>, live: set<(Id, string)>, left: set<(Id, string)>, keep: nat, n: nat)
    requires keep < |replies| == |base| == |after| && n < |replies| && Older(replies, keep, n)
    requires WroteWithdrawn(replies, base, after, keep, n) && DeniedOlder(replies, live, left, keep, n)
    ensures WroteWithdrawn(replies, base, after[n := replies[n].(state := Superseded)], keep, n + 1)
    ensures DeniedOlder(replies, live, AfterOne(left, Deny(replies[n].approval.value)), keep, n + 1)
  {
  }

  lemma TwoActions(live: set<(Id, string)>, replies: seq<Reply>, two: seq<Action>)
    requires |two| == 2
    ensures AfterAll(live, two) == AfterOne(AfterOne(live, two[0]), two[1])
    ensures Written(replies, two) == WrittenOne(WrittenOne(replies, two[0]), two[1])
    ensures Parked(two) == (if two[0].Park? then multiset{two[0].ref} else multiset{}) + (if two[1].Park? then multiset{two[1].ref} else multiset{})
  {
    var last := two[1..];
    assert last == [two[1]] && last[1..] == [];
    assert AfterAll(AfterOne(live, two[0]), last) == AfterOne(AfterOne(live, two[0]), two[1]);
    assert Written(WrittenOne(replies, two[0]), last) == WrittenOne(WrittenOne(replies, two[0]), two[1]);
    assert Parked(last) == (if two[1].Park? then multiset{two[1].ref} else multiset{}) + Parked([]);
  }

  function Settled(replies: seq<Reply>, i: nat, id: Id, j: nat): Reply
    requires i < |replies| && j < |replies|
  {
    if Older(replies, i, j) then replies[j].(state := Superseded)
    else if j == i then replies[i].(state := Submitted, approval := Some(id))
    else replies[j]
  }

  /** The replies once a new quote has been recorded and the older ones withdrawn. */
  lemma NewQuoteIsAlone(replies: seq<Reply>, after: seq<Reply>, live: set<(Id, string)>, left: set<(Id, string)>, seen: multiset<string>, i: nat, id: Id)
    requires OneLive(replies, live, seen) && i < |replies| == |after| && replies[i].state.Waiting?
    requires forall j | 0 <= j < |after| :: after[j] == Settled(replies, i, id, j)
    requires forall p | p in left :: p == (id, RefOf(replies[i])) || p in live
    requires forall p | p in left :: forall j | 0 <= j < |replies| && Older(replies, i, j) :: replies[j].approval.value != p.0
    ensures OneLive(after, left, seen + multiset{RefOf(replies[i])})
  {
    forall p | p in left ensures HasStanding(after, p) {
      if p == (id, RefOf(replies[i])) {
        assert Stands(after[i], p);
      } else {
        var q :| 0 <= q < |replies| && Stands(replies[q], p);
        assert after[q] == replies[q];
        assert Stands(after[q], p);
      }
    }
    forall j | 0 <= j < |after| && after[j].state.Waiting? ensures RefOf(after[j]) !in seen + multiset{RefOf(replies[i])} {
      RefsDiffer(after[j], replies[i]);
    }
  }

  lemma QuoteKeepsLive(replies: seq<Reply>, live: set<(Id, string)>, seen: multiset<string>, i: nat, id: Id)
    requires OneLive(replies, live, seen) && i < |replies| && replies[i].state.Waiting?
    ensures var plan := [Park(id, RefOf(replies[i])), Put(i, replies[i].(state := Submitted, approval := Some(id)))]
                        + Withdrawals(replies, i, |replies|);
      OneLive(Written(replies, plan), AfterAll(live, plan), seen + Parked(plan))
  {
    var two := [Park(id, RefOf(replies[i])), Put(i, replies[i].(state := Submitted, approval := Some(id)))];
    var list := Withdrawals(replies, i, |replies|);
    AllThen(live, replies, two, list);
    TwoActions(live, replies, two);
    var base, more := Written(replies, two), AfterAll(live, two);
    Withdrawn(replies, base, more, i, |replies|);
    NewQuoteIsAlone(replies, Written(base, list), live, AfterAll(more, list), seen, i, id);
  }

  lemma {:induction false} PutsOnly(replies: seq<Reply>, live: set<(Id, string)>, plan: seq<Action>)
    requires forall k | 0 <= k < |plan| :: plan[k].Put? || plan[k].CloseCard?
    ensures AfterAll(live, plan) == live && Parked(plan) == multiset{}
    ensures |plan| == 1 ==> Written(replies, plan) == WrittenOne(replies, plan[0])
    ensures |plan| == 2 ==> Written(replies, plan) == WrittenOne(WrittenOne(replies, plan[0]), plan[1])
    decreases |plan|
  {
    if plan != [] {
      PutsOnly(WrittenOne(replies, plan[0]), live, plan[1..]);
    }
  }

  lemma HandleKeepsLive(w: World, i: nat, reading: Reading)
    requires LiveInv(w) && Able(w, Handle(i, reading))
    ensures LiveInv(Take(w, Handle(i, reading)))
  {
    var replies, live, seen := w.replies, Live(w.queue.rows), Refs(w.queue.rows);
    assert seen + Parked([]) == seen;
    FoundCounts(w.queue.rows, RefOf(replies[i]));
    var plan := PlanFor(w.queue.rows, replies, i, reading);
    if reading.Taken? && !replies[i].noContent && replies[i].readable {
      QuoteKeepsLive(replies, live, seen, i, reading.id);
    } else {
      PlanKeepsLive(replies, live, seen, i, plan);
    }
  }

  predicate JustRecords(a: Action, reply: Reply, i: nat) {
    a.Put? && a.at == i && a.reply.id == reply.id && !a.reply.state.Submitted?
  }

  /** A plan that only records: one reply, once or twice, and perhaps a card closed. */
  lemma PlanKeepsLive(replies: seq<Reply>, live: set<(Id, string)>, seen: multiset<string>, i: nat, plan: seq<Action>)
    requires OneLive(replies, live, seen) && i < |replies| && replies[i].state.Waiting? && 1 <= |plan| <= 2
    requires forall k | 0 <= k < |plan| :: JustRecords(plan[k], replies[i], i) || (k == 1 && plan[k].CloseCard?)
    ensures OneLive(Written(replies, plan), AfterAll(live, plan), seen + Parked(plan))
  {
    PutsOnly(replies, live, plan);
    PutKeepsLive(replies, live, seen, i, plan[0].reply);
    if |plan| == 2 && plan[1].Put? {
      assert replies[i := plan[0].reply][i := plan[1].reply] == replies[i := plan[1].reply];
      PutKeepsLive(replies, live, seen, i, plan[1].reply);
    }
    assert seen + multiset{} == seen;
  }

  lemma TakeKeepsLive(w: World, step: Step)
    requires Quotes.Inv(w) && LiveInv(w) && Able(w, step) && !step.Crash?
    ensures LiveInv(Take(w, step))
  {
    match step
    case QueueMoves(op) => MoveKeepsLive(w, op);
    case Consider(_, _, _, _) => ConsiderKeepsLive(w, step);
    case Handle(i, reading) => HandleKeepsLive(w, i, reading);
    case Act(clock) => ActKeepsLive(w, clock);
    case _ =>
  }

  /** The approval at place `i` waits, and was parked for a reply to this order. */
  predicate WaitsFor(w: World, i: nat, order: string)
    requires i < |w.queue.rows|
  {
    LiveRow(w.queue.rows[i]) && exists k :: 0 <= k < |w.replies| && w.replies[k].order == order && RefOf(w.replies[k]) == w.queue.rows[i].work.ref
  }

  lemma NotBoth(w: World, i: nat, j: nat, order: string)
    requires LiveInv(w) && w.todo == [] && OneRowEach(w.queue.rows)
    requires i < j < |w.queue.rows| && WaitsFor(w, i, order)
    ensures !WaitsFor(w, j, order)
  {
    if WaitsFor(w, j, order) {
      var a := StandingFor(w, i, order);
      var b := StandingFor(w, j, order);
    }
  }

  lemma StandingFor(w: World, i: nat, order: string) returns (a: nat)
    requires LiveInv(w) && w.todo == [] && i < |w.queue.rows| && WaitsFor(w, i, order)
    ensures a < |w.replies| && w.replies[a].order == order
    ensures w.replies[a].state.Submitted? && w.replies[a].approval == Some(w.queue.rows[i].id)
  {
    var row := w.queue.rows[i];
    var p := (row.id, row.work.ref);
    assert p in Live(w.queue.rows);
    a :| 0 <= a < |w.replies| && Stands(w.replies[a], p);
    var k :| 0 <= k < |w.replies| && w.replies[k].order == order && RefOf(w.replies[k]) == row.work.ref;
    RefsDiffer(w.replies[a], w.replies[k]);
  }

  // ----- a parked approval found again, and two ways to two

  /** Handled to its end, a reply leaves one submitted reply for each order - unless its approval
      is found already parked, which is recorded without withdrawing the order's other one. */
  lemma FoundSkipsWithdrawal(rows: seq<Row>, replies: seq<Reply>, i: nat, reading: Reading)
    requires i < |replies| && replies[i].state.Waiting? && OneSubmitted(replies)
    requires forall j | 0 <= j < |replies| && replies[j].state.Submitted? :: replies[j].approval.Some?
    ensures OneSubmitted(Written(replies, PlanFor(rows, replies, i, reading))) <==>
      || FoundIn(rows, WorkOf(replies[i])) == []
      || forall j | 0 <= j < |replies| && j != i && replies[j].order == replies[i].order :: !replies[j].state.Submitted?
  {
    if reading.Taken? && FoundIn(rows, WorkOf(replies[i])) == [] && !replies[i].noContent && replies[i].readable {
      QuotedOneSubmitted(rows, replies, i, reading.id);
    } else {
      var plan := PlanFor(rows, replies, i, reading);
      PutsOnly(replies, {}, plan);
      PutOneSubmitted(replies, Written(replies, plan), i);
    }
  }

  lemma PutOneSubmitted(replies: seq<Reply>, after: seq<Reply>, i: nat)
    requires i < |replies| == |after| && replies[i].state.Waiting? && OneSubmitted(replies)
    requires after[i].order == replies[i].order && forall j | 0 <= j < |replies| && j != i :: after[j] == replies[j]
    ensures OneSubmitted(after) <==>
      !after[i].state.Submitted?
      || forall j | 0 <= j < |replies| && j != i && replies[j].order == replies[i].order :: !replies[j].state.Submitted?
  {
    if OneSubmitted(after) && after[i].state.Submitted? {
      forall j | 0 <= j < |replies| && j != i && replies[j].order == replies[i].order ensures !replies[j].state.Submitted? {
        assert after[j] == replies[j];
      }
    }
  }

  lemma QuotedOneSubmitted(rows: seq<Row>, replies: seq<Reply>, i: nat, id: Id)
    requires i < |replies| && replies[i].state.Waiting? && !replies[i].noContent && replies[i].readable && OneSubmitted(replies)
    requires forall j | 0 <= j < |replies| && replies[j].state.Submitted? :: replies[j].approval.Some?
    requires FoundIn(rows, WorkOf(replies[i])) == []
    ensures OneSubmitted(Written(replies, PlanFor(rows, replies, i, Taken(id))))
  {
    var two := [Park(id, RefOf(replies[i])), Put(i, replies[i].(state := Submitted, approval := Some(id)))];
    AllThen({}, replies, two, Withdrawals(replies, i, |replies|));
    TwoActions({}, replies, two);
    Withdrawn(replies, Written(replies, two), {}, i, |replies|);
    var after := Written(replies, two + Withdrawals(replies, i, |replies|));
    assert forall j | 0 <= j < |replies| :: after[j] == Settled(replies, i, id, j);
  }

  const CALM := Clock(0, 0, 0)

  lemma {:induction false} RunThen(w: World, steps: seq<Step>, step: Step)
    requires Quotes.Run(w, steps).Some? && Able(Quotes.Run(w, steps).value, step)
    ensures Quotes.Run(w, steps + [step]) == Some(Take(Quotes.Run(w, steps).value, step))
    decreases |steps|
  {
    if steps == [] {
      assert (steps + [step])[1..] == [];
    } else {
      assert (steps + [step])[1..] == steps[1..] + [step];
      RunThen(Take(w, steps[0]), steps[1..], step);
    }
  }

  predicate Lasting(rows: seq<Row>) { forall i | 0 <= i < |rows| :: rows[i].status.Pending? && !Lapsed(rows[i], 0) }

  lemma {:induction false} AllKept(rows: seq<Row>)
    requires Lasting(rows)
    ensures Retained(rows, 0) == rows && Swept(rows, 0) == rows
  {
    if rows != [] {
      AllKept(rows[..|rows| - 1]);
    }
  }

  function FreshAt(id: Id, ref: string, now: Time): Row { NewRow(id, Work(QUOTE, ref), false, None, None, now) }

  function Fresh(id: Id, ref: string): Row { FreshAt(id, ref, 0) }

  /** Whatever the clock says, the new row is the last of the file, and what waits stays. */
  lemma ParkedLast(queue: Queue, id: Id, ref: string, clock: Clock)
    ensures Do(queue, OpOf(Park(id, ref), clock)).rows
         == Retained(Swept(queue.rows, clock.sweep), clock.save) + [FreshAt(id, ref, clock.stamp)]
    ensures forall row | row in queue.rows && row.status.Pending? && !Lapsed(row, clock.sweep) ::
      row in Do(queue, OpOf(Park(id, ref), clock)).rows
  {
    var op, row := OpOf(Park(id, ref), clock), FreshAt(id, ref, clock.stamp);
    var swept := Swept(queue.rows, clock.sweep);
    FileIsDone(queue, op);
    assert Changed(queue.rows, op) == swept + [row] && |swept + [row]| > |queue.rows|;
    assert (swept + [row])[..|swept|] == swept;
    RetainedIsPart(swept, clock.save);
    forall waits | waits in queue.rows && waits.status.Pending? && !Lapsed(waits, clock.sweep)
      ensures waits in Do(queue, op).rows
    {
      var j :| 0 <= j < |queue.rows| && queue.rows[j] == waits;
      assert swept[j] == waits && Kept(swept[j], clock.save);
    }
  }

  lemma ParkedRow(queue: Queue, id: Id, ref: string)
    requires Lasting(queue.rows)
    ensures Do(queue, OpOf(Park(id, ref), CALM)).rows == queue.rows + [Fresh(id, ref)]
  {
    AllKept(queue.rows);
    ParkedLast(queue, id, ref, CALM);
  }

  lemma ActPark(w: World, id: Id, ref: string, clock: Clock)
    requires w.todo != [] && w.todo[0] == Park(id, ref) && id !in w.queue.stories
    ensures Able(w, Act(clock))
    ensures var next := Take(w, Act(clock));
      && next.queue == Do(w.queue, OpOf(Park(id, ref), clock))
      && next.replies == w.replies && next.todo == w.todo[1..] && next.cardsOpen == w.cardsOpen
  {
  }

  lemma ParkedStories(queue: Queue, id: Id, ref: string, clock: Clock)
    ensures Do(queue, OpOf(Park(id, ref), clock)).stories.Keys == queue.stories.Keys + {id}
  {
    var op, swept := OpOf(Park(id, ref), clock), Sweep(queue, clock.sweep);
    assert swept.stories.Keys == queue.stories.Keys;
    assert Change(queue, op).stories == ApprovalRuns.Park(swept, FreshAt(id, ref, clock.stamp)).stories;
  }

  lemma ActPut(w: World, i: nat, reply: Reply, clock: Clock)
    requires w.todo != [] && w.todo[0] == Put(i, reply) && i < |w.replies|
    ensures Able(w, Act(clock))
    ensures Take(w, Act(clock)) == w.(todo := w.todo[1..], replies := w.replies[i := reply])
  {
  }

  lemma FoundLast(rows: seq<Row>, row: Row)
    requires row.work.capability == QUOTE
    ensures FoundIn(rows + [row], row.work) == [row] + FoundIn(rows, row.work)
  {
    assert (rows + [row])[..|rows|] == rows;
  }

  predicate ReadyToQuote(w: World, i: nat, id: Id) {
    && w.todo == [] && i < |w.replies| && w.replies[i].state.Waiting? && !w.replies[i].noContent && w.replies[i].readable
    && FoundIn(w.queue.rows, WorkOf(w.replies[i])) == [] && id !in w.queue.stories
  }

  /** The process dies after the quote of reply `i` is parked and before that is recorded; when
      it is back, the reply is handled again. */
  function DiesOnce(i: nat, id: Id, clock: Clock): seq<Step> {
    [Handle(i, Taken(id)), Act(clock), Crash, Handle(i, OrderDown), Act(clock)]
  }

  lemma FirstStep(w: World, steps: seq<Step>, next: World)
    requires steps != [] && Able(w, steps[0]) && next == Take(w, steps[0])
    ensures Quotes.Run(w, steps) == Quotes.Run(next, steps[1..])
  {
  }

  lemma FiveSteps(w: World, w1: World, w2: World, w3: World, w4: World, a: Step, b: Step, c: Step, d: Step, e: Step)
    requires Able(w, a) && w1 == Take(w, a) && Able(w1, b) && w2 == Take(w1, b) && Able(w2, c) && w3 == Take(w2, c)
    requires Able(w3, d) && w4 == Take(w3, d) && Able(w4, e)
    ensures Quotes.Run(w, [a, b, c, d, e]) == Some(Take(w4, e))
  {
    var steps := [a, b, c, d, e];
    FirstStep(w, steps, w1);
    FirstStep(w1, steps[1..], w2);
    FirstStep(w2, steps[1..][1..], w3);
    FirstStep(w3, steps[1..][1..][1..], w4);
    FirstStep(w4, steps[1..][1..][1..][1..], Take(w4, e));
  }

  /** From any state with a reply to quote: afterwards it is submitted and its approval is in the
      file, and nothing older is withdrawn - every other reply is as it was, and every approval
      that waited, unless it lapsed, still waits. */
  lemma CrashLeavesTwo(w: World, i: nat, id: Id, clock: Clock)
    requires ReadyToQuote(w, i, id)
    ensures Quotes.Run(w, DiesOnce(i, id, clock)).Some?
    ensures var next := Quotes.Run(w, DiesOnce(i, id, clock)).value;
      && next.todo == [] && next.replies == w.replies[i := SubmittedAs(w.replies[i], id)]
      && next.queue == Do(w.queue, OpOf(Park(id, RefOf(w.replies[i])), clock))
      && FreshAt(id, RefOf(w.replies[i]), clock.stamp) in next.queue.rows
      && forall row | row in w.queue.rows && row.status.Pending? && !Lapsed(row, clock.sweep) :: row in next.queue.rows
  {
    var ref := RefOf(w.replies[i]);
    var w3 := ParksAndDies(w, i, id, clock);
    ParkedLast(w.queue, id, ref, clock);
    var next := IsRecorded(w3, i, Retained(Swept(w.queue.rows, clock.sweep), clock.save), FreshAt(id, ref, clock.stamp), clock);
    RunOn(w, [Handle(i, Taken(id)), Act(clock), Crash], [Handle(i, OrderDown), Act(clock)]);
    assert [Handle(i, Taken(id)), Act(clock), Crash] + [Handle(i, OrderDown), Act(clock)] == DiesOnce(i, id, clock);
  }

  /** The process dies after the quote of reply `i` is recorded and before anything older is
      withdrawn. */
  function DiesLater(i: nat, id: Id, clock: Clock): seq<Step> {
    [Handle(i, Taken(id)), Act(clock), Act(clock), Crash]
  }

  /** ... which comes to the same, and is for good: what is recorded is not handled again. */
  lemma LaterCrashLeavesTwo(w: World, i: nat, id: Id, clock: Clock)
    requires ReadyToQuote(w, i, id)
    ensures Quotes.Run(w, DiesLater(i, id, clock)).Some?
    ensures var next := Quotes.Run(w, DiesLater(i, id, clock)).value;
      && next.todo == [] && next.replies == w.replies[i := SubmittedAs(w.replies[i], id)]
      && next.queue == Do(w.queue, OpOf(Park(id, RefOf(w.replies[i])), clock))
      && FreshAt(id, RefOf(w.replies[i]), clock.stamp) in next.queue.rows
      && forall row | row in w.queue.rows && row.status.Pending? && !Lapsed(row, clock.sweep) :: row in next.queue.rows
  {
    var ref, submitted, steps := RefOf(w.replies[i]), SubmittedAs(w.replies[i], id), DiesLater(i, id, clock);
    PlansToPark(w, i, id);
    var w1 := Take(w, Handle(i, Taken(id)));
    ActPark(w1, id, ref, clock);
    ParkedLast(w.queue, id, ref, clock);
    var w2 := Take(w1, Act(clock));
    assert w2.todo[0] == Put(i, submitted);
    ActPut(w2, i, submitted, clock);
    var w3 := Take(w2, Act(clock));
    FirstStep(w, steps, w1);
    FirstStep(w1, steps[1..], w2);
    FirstStep(w2, steps[1..][1..], w3);
    FirstStep(w3, steps[1..][1..][1..], Take(w3, Crash));
  }

  lemma {:induction false} RunOn(w: World, steps: seq<Step>, more: seq<Step>)
    requires Quotes.Run(w, steps).Some?
    ensures Quotes.Run(w, steps + more) == Quotes.Run(Quotes.Run(w, steps).value, more)
    decreases |steps|
  {
    if steps == [] {
      assert steps + more == more;
    } else {
      assert (steps + more)[1..] == steps[1..] + more;
      RunOn(Take(w, steps[0]), steps[1..], more);
    }
  }

  lemma ParksAndDies(w: World, i: nat, id: Id, clock: Clock) returns (next: World)
    requires ReadyToQuote(w, i, id)
    ensures Quotes.Run(w, [Handle(i, Taken(id)), Act(clock), Crash]) == Some(next)
    ensures next.todo == [] && next.replies == w.replies && next.queue == Do(w.queue, OpOf(Park(id, RefOf(w.replies[i])), clock))
  {
    PlansToPark(w, i, id);
    var w1 := Take(w, Handle(i, Taken(id)));
    ActPark(w1, id, RefOf(w.replies[i]), clock);
    var w2 := Take(w1, Act(clock));
    next := Take(w2, Crash);
    var steps := [Handle(i, Taken(id)), Act(clock), Crash];
    FirstStep(w, steps, w1);
    FirstStep(w1, steps[1..], w2);
    FirstStep(w2, steps[1..][1..], next);
  }

  lemma IsRecorded(w: World, i: nat, front: seq<Row>, row: Row, clock: Clock) returns (next: World)
    requires w.todo == [] && i < |w.replies| && w.replies[i].state.Waiting?
    requires w.queue.rows == front + [row] && row.work == WorkOf(w.replies[i])
    ensures Quotes.Run(w, [Handle(i, OrderDown), Act(clock)]) == Some(next)
    ensures next == w.(replies := w.replies[i := SubmittedAs(w.replies[i], row.id)])
  {
    PlansToRecord(w, i, front, row);
    var w1 := Take(w, Handle(i, OrderDown));
    ActPut(w1, i, SubmittedAs(w.replies[i], row.id), clock);
    next := Take(w1, Act(clock));
    var steps := [Handle(i, OrderDown), Act(clock)];
    FirstStep(w, steps, w1);
    FirstStep(w1, steps[1..], next);
  }

  lemma PlansToPark(w: World, i: nat, id: Id)
    requires ReadyToQuote(w, i, id)
    ensures Able(w, Handle(i, Taken(id)))
    ensures var next := Take(w, Handle(i, Taken(id)));
      && next == w.(todo := next.todo) && |next.todo| >= 2
      && next.todo[0] == Park(id, RefOf(w.replies[i])) && next.todo[1] == Put(i, SubmittedAs(w.replies[i], id))
  {
  }

  lemma PlansToRecord(w: World, i: nat, front: seq<Row>, row: Row)
    requires w.todo == [] && i < |w.replies| && w.replies[i].state.Waiting?
    requires w.queue.rows == front + [row] && row.work == WorkOf(w.replies[i])
    ensures Able(w, Handle(i, OrderDown))
    ensures Take(w, Handle(i, OrderDown)) == w.(todo := [Put(i, SubmittedAs(w.replies[i], row.id))])
  {
    FoundLast(front, row);
  }

  function FirstReply(id: string): Reply { Reply(id, "order", Waiting, None, 0, false, true) }

  function SubmittedAs(reply: Reply, id: Id): Reply { reply.(state := Submitted, approval := Some(id)) }

  function Asked(): World { START.(cardsOpen := {"order"}, replies := [FirstReply("1")]) }

  lemma Planned() returns (w: World)
    ensures Able(Asked(), Handle(0, Taken(0))) && w == Take(Asked(), Handle(0, Taken(0)))
    ensures w == Asked().(todo := [Park(0, "discord-1"), Put(0, SubmittedAs(FirstReply("1"), 0))])
  {
    w := Take(Asked(), Handle(0, Taken(0)));
    assert RefOf(FirstReply("1")) == "discord-1";
    assert Withdrawals([FirstReply("1")], 0, 1) == [];
  }

  /** The first reply of all, quoted without trouble. */
  lemma FirstQuote() returns (w: World, steps: seq<Step>)
    ensures Quotes.Run(START, steps) == Some(w) && w.todo == [] && "order" in w.cardsOpen
    ensures w.replies == [SubmittedAs(FirstReply("1"), 0)]
    ensures w.queue.rows == [Fresh(0, "discord-1")] && w.queue.stories.Keys == {0}
  {
    var w1 := Take(START, OpenCard("order"));
    assert Take(w1, Consider("1", "order", false, true)) == Asked();
    var w3 := Planned();
    ActPark(w3, 0, "discord-1", CALM);
    ParkedStories(w3.queue, 0, "discord-1", CALM);
    ParkedRow(w3.queue, 0, "discord-1");
    var w4 := Take(w3, Act(CALM));
    ActPut(w4, 0, SubmittedAs(FirstReply("1"), 0), CALM);
    w := Take(w4, Act(CALM));
    steps := [OpenCard("order"), Consider("1", "order", false, true), Handle(0, Taken(0)), Act(CALM), Act(CALM)];
    FiveSteps(START, w1, Asked(), w3, w4, steps[0], steps[1], steps[2], steps[3], steps[4]);
  }

  lemma BothWait(w: World)
    requires w.replies == [SubmittedAs(FirstReply("1"), 0), SubmittedAs(FirstReply("2"), 1)]
    requires w.queue.rows == [Fresh(0, "discord-1"), Fresh(1, "discord-2")]
    ensures !OneSubmitted(w.replies) && WaitsFor(w, 0, "order") && WaitsFor(w, 1, "order")
  {
    assert w.replies[0].state.Submitted? && w.replies[1].state.Submitted?;
    assert RefOf(w.replies[0]) == w.queue.rows[0].work.ref && RefOf(w.replies[1]) == w.queue.rows[1].work.ref;
  }

  lemma SecondDies(w: World, row: Row, a: Reply, b: Reply) returns (next: World)
    requires ReadyToQuote(w, 1, 1) && w.queue.rows == [row] && Lasting([row]) && w.replies == [a, b]
    ensures Quotes.Run(w, DiesOnce(1, 1, CALM)) == Some(next) && next.todo == []
    ensures next.queue.rows == [row, Fresh(1, RefOf(b))] && next.replies == [a, SubmittedAs(b, 1)]
  {
    CrashLeavesTwo(w, 1, 1, CALM);
    next := Quotes.Run(w, DiesOnce(1, 1, CALM)).value;
    ParkedRow(w.queue, 1, RefOf(b));
    assert [row] + [Fresh(1, RefOf(b))] == [row, Fresh(1, RefOf(b))];
    assert [a, b][1 := SubmittedAs(b, 1)] == [a, SubmittedAs(b, 1)];
  }

  /** Such a run from the start: the owner replies twice to one card, and the process dies on
      the second reply. Both replies stand, and both approvals wait. */
  lemma TwoAfterACrash() returns (w: World, early: seq<Step>, next: World)
    ensures Quotes.Run(START, early) == Some(w) && Quotes.Run(w, DiesOnce(1, 1, CALM)) == Some(next)
    ensures next.todo == [] && !OneSubmitted(next.replies)
    ensures |next.queue.rows| == 2 && WaitsFor(next, 0, "order") && WaitsFor(next, 1, "order")
  {
    var first, steps := FirstQuote();
    w, early := SecondReply(first, steps);
    assert RefOf(FirstReply("2")) == "discord-2";
    next := SecondDies(w, Fresh(0, "discord-1"), SubmittedAs(FirstReply("1"), 0), FirstReply("2"));
    BothWait(next);
  }

  lemma SecondDiesLater(w: World, row: Row, a: Reply, b: Reply) returns (next: World)
    requires ReadyToQuote(w, 1, 1) && w.queue.rows == [row] && Lasting([row]) && w.replies == [a, b]
    ensures Quotes.Run(w, DiesLater(1, 1, CALM)) == Some(next) && next.todo == []
    ensures next.queue.rows == [row, Fresh(1, RefOf(b))] && next.replies == [a, SubmittedAs(b, 1)]
  {
    LaterCrashLeavesTwo(w, 1, 1, CALM);
    next := Quotes.Run(w, DiesLater(1, 1, CALM)).value;
    ParkedRow(w.queue, 1, RefOf(b));
    assert [row] + [Fresh(1, RefOf(b))] == [row, Fresh(1, RefOf(b))];
    assert [a, b][1 := SubmittedAs(b, 1)] == [a, SubmittedAs(b, 1)];
  }

  /** And from the start: the second reply is recorded, and the first one's card never withdrawn. */
  lemma TwoAfterALaterCrash() returns (w: World, early: seq<Step>, next: World)
    ensures Quotes.Run(START, early) == Some(w) && Quotes.Run(w, DiesLater(1, 1, CALM)) == Some(next)
    ensures next.todo == [] && !OneSubmitted(next.replies)
    ensures |next.queue.rows| == 2 && WaitsFor(next, 0, "order") && WaitsFor(next, 1, "order")
  {
    var first, steps := FirstQuote();
    w, early := SecondReply(first, steps);
    assert RefOf(FirstReply("2")) == "discord-2";
    next := SecondDiesLater(w, Fresh(0, "discord-1"), SubmittedAs(FirstReply("1"), 0), FirstReply("2"));
    BothWait(next);
  }

  lemma SecondReply(w: World, steps: seq<Step>) returns (next: World, more: seq<Step>)
    requires Quotes.Run(START, steps) == Some(w) && w.todo == [] && "order" in w.cardsOpen
    requires w.replies == [SubmittedAs(FirstReply("1"), 0)]
    requires w.queue.rows == [Fresh(0, "discord-1")] && w.queue.stories.Keys == {0}
    ensures Quotes.Run(START, more) == Some(next) && ReadyToQuote(next, 1, 1)
    ensures next.replies == [SubmittedAs(FirstReply("1"), 0), FirstReply("2")] && next.queue == w.queue
  {
    var step := Consider("2", "order", false, true);
    RunThen(START, steps, step);
    next, more := Take(w, step), steps + [step];
    var b := FirstReply("2");
    RefsDiffer(FirstReply("1"), b);
    assert RefOf(FirstReply("1")) == "discord-1";
    assert FoundIn(w.queue.rows, WorkOf(b)) == FoundIn([], WorkOf(b));
  }
}
