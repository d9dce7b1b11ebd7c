/** The owner's replies to quote cards and the approvals parked for them: `QuoteReplies` of
    src/pionir/quotes.py on top of the approval queue. Handling a reply is a list of durable
    actions; between any two of them the queue moves on, and the process may die. */
module Quotes {
  import opened Wrappers
  import opened Approvals
  import opened ApprovalRuns
  import opened ApprovalStore

  const QUOTE := "client.quote"
  const ORDER_TRIES := 5

  datatype ReplyState = Waiting | Submitted | Unreadable | Unparsed | Failed | Refused | Superseded

  /** A claimed reply as recorded. `readable` is whether `parse_reply` reads its text. */
  datatype Reply = Reply(id: string, order: string, state: ReplyState, approval: Option<Id>, tries: nat,
                         noContent: bool, readable: bool)

  function RefOf(reply: Reply): string { "discord-" + reply.id }

  function WorkOf(reply: Reply): Work { Work(QUOTE, RefOf(reply)) }

  /** What the outside says while one reply is handled: Scrooge about the order, the gate about
      the quote. */
  datatype Reading = OrderDown | NotQuotable(closes: bool) | NotTaken | Taken(id: Id)

  /** One durable change. */
  datatype Action =
    | Put(at: nat, reply: Reply)
    | CloseCard(order: string)
    | Park(id: Id, ref: string)
    | Deny(id: Id)

  predicate Older(replies: seq<Reply>, keep: nat, j: nat)
    requires keep < |replies| && j < |replies|
  {
    j != keep && replies[j].order == replies[keep].order && replies[j].state.Submitted? && replies[j].approval.Some?
  }

  /** `_supersede`: withdraw the card of every older reply of the order that still waits. */
  function Withdrawals(replies: seq<Reply>, keep: nat, n: nat): seq<Action>
    requires keep < |replies| && n <= |replies|
  {
    if n == 0 then []
    else Withdrawals(replies, keep, n - 1)
         + if Older(replies, keep, n - 1)
           then [Deny(replies[n - 1].approval.value), Put(n - 1, replies[n - 1].(state := Superseded))]
           else []
  }

  /** `_handle`: everything it will do about reply `i`, in order. */
  function PlanFor(rows: seq<Row>, replies: seq<Reply>, i: nat, reading: Reading): seq<Action>
    requires i < |replies|
  {
    var r := replies[i];
    var found := FoundIn(rows, WorkOf(r));
    if found != [] then [Put(i, r.(state := Submitted, approval := Some(found[0].id)))]
    else if r.noContent then [Put(i, r.(state := Unreadable))]
    else if !r.readable then [Put(i, r.(state := Unparsed))]
    else match reading
      case OrderDown =>
        var tried := r.(tries := r.tries + 1);
        [Put(i, tried)] + if tried.tries >= ORDER_TRIES then [Put(i, tried.(state := Failed))] else []
      case NotQuotable(closes) => [Put(i, r.(state := Refused))] + if closes then [CloseCard(r.order)] else []
      case NotTaken => [Put(i, r.(state := Refused))]
      case Taken(id) =>
        [Park(id, RefOf(r)), Put(i, r.(state := Submitted, approval := Some(id)))] + Withdrawals(replies, i, |replies|)
  }

  // ----- refs parked, present and dropped

  /** The refs of the quote approvals in the file. */
  function Refs(rows: seq<Row>): multiset<string> {
    if rows == [] then multiset{}
    else Refs(rows[..|rows| - 1]) + if rows[|rows| - 1].work.capability == QUOTE then multiset{rows[|rows| - 1].work.ref} else multiset{}
  }

  predicate SameWork(before: seq<Row>, after: seq<Row>) {
    |before| == |after| && forall i | 0 <= i < |before| :: after[i].work == before[i].work && after[i].id == before[i].id
  }

  lemma {:induction false} SameRefs(before: seq<Row>, after: seq<Row>)
    requires SameWork(before, after)
    ensures Refs(after) == Refs(before)
  {
    if before != [] {
      SameRefs(before[..|before| - 1], after[..|after| - 1]);
    }
  }

  lemma {:induction false} RetainedRefs(rows: seq<Row>, now: Time)
    ensures Refs(Retained(rows, now)) <= Refs(rows)
  {
    if rows != [] {
      var front := Retained(rows[..|rows| - 1], now);
      RetainedRefs(rows[..|rows| - 1], now);
      if Kept(rows[|rows| - 1], now) {
        assert (front + [rows[|rows| - 1]])[..|front|] == front;
      } else {
        assert front + [] == front;
      }
    }
  }

  lemma {:induction false} FoundCounts(rows: seq<Row>, ref: string)
    ensures |FoundIn(rows, Work(QUOTE, ref))| == Refs(rows)[ref]
  {
    if rows != [] {
      FoundCounts(rows[..|rows| - 1], ref);
    }
  }

  lemma {:induction false} RefHasRow(rows: seq<Row>, ref: string)
    requires Refs(rows)[ref] > 0
    ensures exists i :: 0 <= i < |rows| && rows[i].work == Work(QUOTE, ref)
  {
    var last := rows[|rows| - 1];
    if last.work != Work(QUOTE, ref) {
      RefHasRow(rows[..|rows| - 1], ref);
      var i :| 0 <= i < |rows| - 1 && rows[..|rows| - 1][i].work == Work(QUOTE, ref);
      assert rows[i].work == Work(QUOTE, ref);
    }
  }

  lemma {:induction false} RowHasRef(rows: seq<Row>, i: nat)
    requires i < |rows| && rows[i].work.capability == QUOTE
    ensures Refs(rows)[rows[i].work.ref] > 0
  {
    if i < |rows| - 1 {
      RowHasRef(rows[..|rows| - 1], i);
    }
  }

  predicate ParksQuote(op: Op) { op.Enqueue? && op.work.capability == QUOTE }

  function Added(op: Op): multiset<string> { if ParksQuote(op) then multiset{op.work.ref} else multiset{} }

  /** An operation adds the ref it parks and may drop some; it adds nothing else. */
  lemma DoneRefs(rows: seq<Row>, op: Op)
    ensures Refs(Done(rows, op)) <= Refs(rows) + Added(op)
  {
    var changed := Changed(rows, op);
    RetainedRefs(changed, SaveTime(op));
    if op.Enqueue? {
      var swept := Swept(rows, op.clock.sweep);
      SameRefs(rows, swept);
      assert changed[..|swept|] == swept;
    } else {
      ChangedSameWork(rows, op);
      SameRefs(rows, changed);
    }
  }

  lemma ChangedSameWork(rows: seq<Row>, op: Op)
    requires !op.Enqueue?
    ensures SameWork(rows, Changed(rows, op))
  {
    if op.Claim? || op.Resolve? {
      var swept := Swept(rows, op.clock.sweep);
      assert SameWork(rows, swept);
    }
  }

  // ----- the world of the replies

  /** `todo` is what the handling under way has still to do. `parks` and `drops` count, for
      every ref, the approvals parked for it so far and those the retention has dropped. */
  datatype World = World(queue: Queue, cardsOpen: set<string>, replies: seq<Reply>, todo: seq<Action>,
                         parks: multiset<string>, drops: multiset<string>)

  const START := World(Queue([], map[]), {}, [], [], multiset{}, multiset{})

  datatype Step =
    | QueueMoves(op: Op)       // the owner, the clock, restarts, other producers
    | OpenCard(order: string)
    | CardCloses(order: string)
    | Consider(id: string, order: string, noContent: bool, readable: bool)
    | Handle(i: nat, reading: Reading)
    | Act(clock: Clock)
    | Crash

  function OpOf(action: Action, clock: Clock): Op
    requires action.Park? || action.Deny?
  {
    if action.Park? then Enqueue(action.id, Work(QUOTE, action.ref), false, None, None, clock)
    else Resolve(action.id, Pending, Denied, None, clock)
  }

  predicate Known(replies: seq<Reply>, id: string) { exists i :: 0 <= i < |replies| && replies[i].id == id }

  ghost predicate Able(w: World, step: Step) {
    match step
    case QueueMoves(op) => Enabled(w.queue, op) && !ParksQuote(op)
    case Consider(id, order, _, _) => w.todo == [] && order in w.cardsOpen && !Known(w.replies, id)
    case Handle(i, _) => w.todo == [] && i < |w.replies| && w.replies[i].state.Waiting?
    case Act(clock) =>
      && w.todo != [] && (w.todo[0].Put? ==> w.todo[0].at < |w.replies|)
      && (w.todo[0].Park? ==> w.todo[0].id !in w.queue.stories)
    case _ => true
  }

  function Operate(w: World, op: Op): World {
    var queue := Do(w.queue, op);
    w.(queue := queue, parks := w.parks + Added(op),
       drops := w.drops + (Refs(w.queue.rows) + Added(op) - Refs(queue.rows)))
  }

  function Take(w: World, step: Step): World
    requires Able(w, step)
  {
    match step
    case QueueMoves(op) => Operate(w, op)
    case OpenCard(order) => w.(cardsOpen := w.cardsOpen + {order})
    case CardCloses(order) => w.(cardsOpen := w.cardsOpen - {order})
    case Consider(id, order, noContent, readable) =>
      w.(replies := w.replies + [Reply(id, order, Waiting, None, 0, noContent, readable)])
    case Handle(i, reading) => w.(todo := PlanFor(w.queue.rows, w.replies, i, reading))
    case Act(clock) =>
      var action, rest := w.todo[0], w.(todo := w.todo[1..]);
      (match action
       case Put(at, reply) => rest.(replies := w.replies[at := reply])
       case CloseCard(order) => rest.(cardsOpen := w.cardsOpen - {order})
       case _ => Operate(rest, OpOf(action, clock)))
    case Crash => w.(todo := [])
  }

  ghost function Run(w: World, steps: seq<Step>): Option<World>
    decreases |steps|
  {
    if steps == [] then Some(w)
    else if Able(w, steps[0]) then Run(Take(w, steps[0]), steps[1..])
    else None
  }

  // ----- at most one approval for each reply, whatever happens

  /** Every ref parked is the ref of a claimed reply; it is parked again only if the retention
      dropped what was there. */
  ghost predicate Inv(w: World) {
    && ApprovalRuns.Inv(w.queue)
    && w.parks == Refs(w.queue.rows) + w.drops
    && (forall ref :: Refs(w.queue.rows)[ref] <= 1)
    && (forall k | 0 <= k < |w.todo| :: ActionOk(w, k))
    && (forall ref | ref in w.parks :: HasReply(w.replies, ref))
  }

  predicate HasReply(replies: seq<Reply>, ref: string) { exists i :: 0 <= i < |replies| && RefOf(replies[i]) == ref }

  ghost predicate ActionOk(w: World, k: nat)
    requires k < |w.todo|
  {
    match w.todo[k]
    case Put(at, reply) => at < |w.replies| && reply.id == w.replies[at].id
    case Park(id, ref) => k == 0 && Refs(w.queue.rows)[ref] == 0 && HasReply(w.replies, ref)
    case _ => true
  }

  lemma OperateCounts(w: World, op: Op)
    requires Inv(w) && Enabled(w.queue, op) && (ParksQuote(op) ==> Refs(w.queue.rows)[op.work.ref] == 0)
    ensures var next := Operate(w, op);
      && next.parks == Refs(next.queue.rows) + next.drops
      && Refs(next.queue.rows) <= Refs(w.queue.rows) + Added(op)
      && forall ref :: Refs(next.queue.rows)[ref] <= 1
  {
    FileIsDone(w.queue, op);
    DoneRefs(w.queue.rows, op);
    var refs, after := Refs(w.queue.rows), Refs(Operate(w, op).queue.rows);
    Balances(w.parks, refs, w.drops, Added(op), after);
    forall ref ensures after[ref] <= 1 {
      AtMostOne(refs, Added(op), after, ref);
    }
  }

  lemma Balances(parks: multiset<string>, refs: multiset<string>, drops: multiset<string>, added: multiset<string>, after: multiset<string>)
    requires parks == refs + drops && after <= refs + added
    ensures parks + added == after + (drops + (refs + added - after))
  {
  }

  lemma AtMostOne(refs: multiset<string>, added: multiset<string>, after: multiset<string>, ref: string)
    requires after <= refs + added && refs[ref] <= 1 && added[ref] <= 1 && (added[ref] > 0 ==> refs[ref] == 0)
    ensures after[ref] <= 1
  {
    assert after[ref] <= (refs + added)[ref];
  }

  lemma OperateKeepsInv(w: World, op: Op)
    requires Inv(w) && Enabled(w.queue, op)
    requires ParksQuote(op) ==> Refs(w.queue.rows)[op.work.ref] == 0 && HasReply(w.replies, op.work.ref)
    requires ParksQuote(op) ==> forall k | 0 <= k < |w.todo| :: !w.todo[k].Park?
    ensures Inv(Operate(w, op))
  {
    StepKeepsInv(w.queue, op);
    OperateCounts(w, op);
    var next := Operate(w, op);
    forall k | 0 <= k < |next.todo| ensures ActionOk(next, k) {
      assert ActionOk(w, k);
    }
  }

  lemma {:induction false} WithdrawalsOk(replies: seq<Reply>, keep: nat, n: nat)
    requires keep < |replies| && n <= |replies|
    ensures forall k | 0 <= k < |Withdrawals(replies, keep, n)| ::
      var a := Withdrawals(replies, keep, n)[k];
      a.Deny? || (a.Put? && a.at < |replies| && a.reply.id == replies[a.at].id)
  {
    if n > 0 {
      WithdrawalsOk(replies, keep, n - 1);
    }
  }

  lemma HandleKeepsInv(w: World, i: nat, reading: Reading)
    requires Inv(w) && Able(w, Handle(i, reading))
    ensures Inv(Take(w, Handle(i, reading)))
  {
    var next := Take(w, Handle(i, reading));
    FoundCounts(w.queue.rows, RefOf(w.replies[i]));
    WithdrawalsOk(w.replies, i, |w.replies|);
    forall k | 0 <= k < |next.todo| ensures ActionOk(next, k) {
      if reading.Taken? && k >= 2 {
        var rest := Withdrawals(w.replies, i, |w.replies|);
        assert next.todo[k] == rest[k - 2];
      }
    }
  }

  lemma RestOk(w: World)
    requires Inv(w) && w.todo != []
    ensures Inv(w.(todo := w.todo[1..]))
    ensures forall k | 0 <= k < |w.todo| - 1 :: !w.todo[1..][k].Park?
  {
    forall k | 0 <= k < |w.todo| - 1 ensures ActionOk(w.(todo := w.todo[1..]), k) && !w.todo[1..][k].Park? {
      assert ActionOk(w, k + 1);
    }
  }

  lemma ActKeepsInv(w: World, clock: Clock)
    requires Inv(w) && Able(w, Act(clock))
    ensures Inv(Take(w, Act(clock)))
  {
    var rest := w.(todo := w.todo[1..]);
    RestOk(w);
    assert ActionOk(w, 0);
    match w.todo[0]
    case Put(at, reply) =>
      var next := rest.(replies := w.replies[at := reply]);
      forall k | 0 <= k < |next.todo| ensures ActionOk(next, k) {
        assert ActionOk(rest, k);
      }
      SameIds(w.replies, next.replies);
    case CloseCard(_) =>
      forall k | 0 <= k < |rest.todo| ensures ActionOk(rest.(cardsOpen := w.cardsOpen - {w.todo[0].order}), k) {
        assert ActionOk(rest, k);
      }
    case _ => OperateKeepsInv(rest, OpOf(w.todo[0], clock));
  }

  lemma SameIds(replies: seq<Reply>, after: seq<Reply>)
    requires |replies| == |after| && forall i | 0 <= i < |replies| :: after[i].id == replies[i].id
    ensures forall ref | HasReply(replies, ref) :: HasReply(after, ref)
  {
    forall ref | HasReply(replies, ref) ensures HasReply(after, ref) {
      var i :| 0 <= i < |replies| && RefOf(replies[i]) == ref;
      assert RefOf(after[i]) == ref;
    }
  }

  lemma ConsiderKeepsInv(w: World, step: Step)
    requires Inv(w) && step.Consider? && Able(w, step)
    ensures Inv(Take(w, step))
  {
    var next := Take(w, step);
    forall ref | HasReply(w.replies, ref) ensures HasReply(next.replies, ref) {
      var i :| 0 <= i < |w.replies| && RefOf(w.replies[i]) == ref;
      assert RefOf(next.replies[i]) == ref;
    }
  }

  lemma TakeKeepsInv(w: World, step: Step)
    requires Inv(w) && Able(w, step)
    ensures Inv(Take(w, step))
  {
    match step
    case QueueMoves(op) => OperateKeepsInv(w, op);
    case Consider(_, _, _, _) => ConsiderKeepsInv(w, step);
    case Handle(i, reading) => HandleKeepsInv(w, i, reading);
    case Act(clock) => ActKeepsInv(w, clock);
    case Crash =>
    case _ =>
      var next := Take(w, step);
      forall k | 0 <= k < |next.todo| ensures ActionOk(next, k) {
        assert ActionOk(w, k);
      }
  }

  lemma {:induction false} RunKeepsInv(w: World, steps: seq<Step>)
    requires Inv(w) && Run(w, steps).Some?
    ensures Inv(Run(w, steps).value)
    decreases |steps|
  {
    if steps != [] {
      TakeKeepsInv(w, steps[0]);
      RunKeepsInv(Take(w, steps[0]), steps[1..]);
    }
  }

  /** For one reply, over every run: what was parked is what is there, never more than one, and
      what the retention dropped a week after it was settled. So until then the reply has
      parked at most one approval, however often the process died on it. */
  lemma ParkedOnce(steps: seq<Step>, reply: Reply)
    requires Run(START, steps).Some?
    ensures var w := Run(START, steps).value;
      && w.parks[RefOf(reply)] == Refs(w.queue.rows)[RefOf(reply)] + w.drops[RefOf(reply)]
      && Refs(w.queue.rows)[RefOf(reply)] <= 1
      && (w.drops[RefOf(reply)] == 0 ==> w.parks[RefOf(reply)] <= 1)
      && (w.parks[RefOf(reply)] > 0 ==> HasReply(w.replies, RefOf(reply)))
  {
    RunKeepsInv(START, steps);
  }
}
