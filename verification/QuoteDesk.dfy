/** `QuoteReplies` itself, over the saved card record and the approval queue: what its methods
    leave behind is what the actions of Quotes.dfy do, one after the other. */
module QuoteDesk {
  import opened Wrappers
  import opened Approvals
  import opened ApprovalRuns
  import opened ApprovalStore
  import opened Quotes

  /** Everything saved: the queue's file, the replies, the cards that are open. */
  datatype Desk = Desk(rows: seq<Row>, replies: seq<Reply>, cardsOpen: set<string>)

  function DeskAfter(desk: Desk, action: Action, clock: Clock): Desk {
    match action
    case Put(at, reply) => if at < |desk.replies| then desk.(replies := desk.replies[at := reply]) else desk
    case CloseCard(order) => desk.(cardsOpen := desk.cardsOpen - {order})
    case _ => desk.(rows := Done(desk.rows, OpOf(action, clock)))
  }

  /** The `k`-th action takes its clock readings from `clock(k)`. */
  function DeskAfterAll(desk: Desk, todo: seq<Action>, clock: nat -> Clock): Desk {
    if todo == [] then desk
    else DeskAfter(DeskAfterAll(desk, todo[..|todo| - 1], clock), todo[|todo| - 1], clock(|todo| - 1))
  }

  function DeskOf(w: World): Desk { Desk(w.queue.rows, w.replies, w.cardsOpen) }

  /** A step of the world of Quotes.dfy is one action. */
  lemma ActIsOneAction(w: World, clock: Clock)
    requires Able(w, Act(clock))
    ensures DeskOf(Take(w, Act(clock))) == DeskAfter(DeskOf(w), w.todo[0], clock)
    ensures Take(w, Act(clock)).todo == w.todo[1..]
  {
    if w.todo[0].Park? || w.todo[0].Deny? {
      FileIsDone(w.queue, OpOf(w.todo[0], clock));
    }
  }

  lemma Then(desk: Desk, todo: seq<Action>, action: Action, clock: nat -> Clock)
    ensures DeskAfterAll(desk, todo + [action], clock) == DeskAfter(DeskAfterAll(desk, todo, clock), action, clock(|todo|))
  {
    assert (todo + [action])[..|todo|] == todo;
  }

  /** The actions done once the first `j` replies have been looked at. */
  function UpTo(done: seq<Action>, asked: seq<Reply>, keep: nat, j: nat): (todo: seq<Action>)
    requires keep < |asked| && j <= |asked|
    ensures |todo| == |done| + |Withdrawals(asked, keep, j)|
  {
    done + Withdrawals(asked, keep, j)
  }

  lemma OneWithdrawn(before: Desk, done: seq<Action>, asked: seq<Reply>, keep: nat, j: nat, clock: nat -> Clock)
    requires keep < |asked| && j < |asked| && Older(asked, keep, j)
    ensures |UpTo(done, asked, keep, j + 1)| == |UpTo(done, asked, keep, j)| + 2
    ensures var sofar := UpTo(done, asked, keep, j);
      DeskAfterAll(before, UpTo(done, asked, keep, j + 1), clock) ==
        DeskAfter(DeskAfter(DeskAfterAll(before, sofar, clock), Deny(asked[j].approval.value), clock(|sofar|)),
                  Put(j, asked[j].(state := Superseded)), clock(|sofar| + 1))
  {
    var sofar := UpTo(done, asked, keep, j);
    var deny, put := Deny(asked[j].approval.value), Put(j, asked[j].(state := Superseded));
    Then(before, sofar, deny, clock);
    Then(before, sofar + [deny], put, clock);
    assert sofar + [deny] + [put] == UpTo(done, asked, keep, j + 1);
  }

  lemma NoneWithdrawn(done: seq<Action>, asked: seq<Reply>, keep: nat, j: nat)
    requires keep < |asked| && j < |asked|
    ensures !Older(asked, keep, j) ==> UpTo(done, asked, keep, j + 1) == UpTo(done, asked, keep, j)
    ensures UpTo(done, asked, keep, 0) == done
  {
    assert Withdrawals(asked, keep, j) + [] == Withdrawals(asked, keep, j);
  }

  // ----- what handling a reply comes to

  /** The desk after a reply was handled to the end. */
  function Handled(desk: Desk, i: nat, reading: Reading, clock: nat -> Clock): Desk
    requires i < |desk.replies|
  {
    DeskAfterAll(desk, PlanFor(desk.rows, desk.replies, i, reading), clock)
  }

  predicate IsFor(row: Row, reply: Reply) { row.work == Work("client.quote", "discord-" + reply.id) }

  predicate Submits(replies: seq<Reply>, j: nat, order: string)
    requires j < |replies|
  {
    replies[j].order == order && replies[j].state.Submitted? && replies[j].approval.Some?
  }

  lemma {:induction false} NoneFound(rows: seq<Row>, reply: Reply)
    ensures FoundIn(rows, WorkOf(reply)) == [] <==> forall k | 0 <= k < |rows| :: !IsFor(rows[k], reply)
  {
    if rows != [] {
      var front := rows[..|rows| - 1];
      NoneFound(front, reply);
      forall k | 0 <= k < |front| ensures front[k] == rows[k] {
      }
      if FoundIn(rows, WorkOf(reply)) == [] {
        forall k | 0 <= k < |rows| ensures !IsFor(rows[k], reply) {
          assert k < |front| ==> !IsFor(front[k], reply);
        }
      }
    }
  }

  lemma {:induction false} NewestFound(rows: seq<Row>, reply: Reply, k: nat)
    requires k < |rows| && IsFor(rows[k], reply) && forall m | k < m < |rows| :: !IsFor(rows[m], reply)
    ensures FoundIn(rows, WorkOf(reply)) != [] && FoundIn(rows, WorkOf(reply))[0] == rows[k]
  {
    if k < |rows| - 1 {
      NewestFound(rows[..|rows| - 1], reply, k);
      assert !IsFor(rows[|rows| - 1], reply);
    }
  }

  lemma OnePut(desk: Desk, at: nat, reply: Reply, clock: nat -> Clock)
    requires at < |desk.replies|
    ensures DeskAfterAll(desk, [Put(at, reply)], clock) == desk.(replies := desk.replies[at := reply])
  {
    Then(desk, [], Put(at, reply), clock);
    assert [] + [Put(at, reply)] == [Put(at, reply)];
  }

  lemma TwoPuts(desk: Desk, at: nat, first: Reply, action: Action, clock: nat -> Clock)
    requires at < |desk.replies|
    ensures DeskAfterAll(desk, [Put(at, first), action], clock) ==
      DeskAfter(desk.(replies := desk.replies[at := first]), action, clock(1))
  {
    OnePut(desk, at, first, clock);
    Then(desk, [Put(at, first)], action, clock);
    assert [Put(at, first)] + [action] == [Put(at, first), action];
  }

  /** A reply whose approval is in the file already is recorded with the newest such approval,
      whatever else it says. */
  lemma FoundIsRecorded(desk: Desk, i: nat, k: nat, reading: Reading, clock: nat -> Clock)
    requires i < |desk.replies| && k < |desk.rows| && IsFor(desk.rows[k], desk.replies[i])
    requires forall m | k < m < |desk.rows| :: !IsFor(desk.rows[m], desk.replies[i])
    ensures Handled(desk, i, reading, clock) ==
      desk.(replies := desk.replies[i := desk.replies[i].(state := Submitted, approval := Some(desk.rows[k].id))])
  {
    NewestFound(desk.rows, desk.replies[i], k);
    OnePut(desk, i, desk.replies[i].(state := Submitted, approval := Some(desk.rows[k].id)), clock);
  }

  predicate NotParked(desk: Desk, i: nat)
    requires i < |desk.replies|
  {
    forall k | 0 <= k < |desk.rows| :: !IsFor(desk.rows[k], desk.replies[i])
  }

  /** Any other reply that is not quoted is only recorded, by the first thing that stands in its
      way: nothing in it, nothing to be read in it, the order not read - which gives up at the
      fifth time - not quotable, which may close the card, or not taken. */
  lemma NotQuotedIsRecorded(desk: Desk, i: nat, reading: Reading, clock: nat -> Clock)
    requires i < |desk.replies| && NotParked(desk, i)
    requires !reading.Taken? || desk.replies[i].noContent || !desk.replies[i].readable
    ensures var r, after := desk.replies[i], Handled(desk, i, reading, clock);
      && after.rows == desk.rows
      && after.replies == desk.replies[i :=
           if r.noContent then r.(state := Unreadable)
           else if !r.readable then r.(state := Unparsed)
           else if reading.OrderDown? then r.(tries := r.tries + 1, state := if r.tries + 1 >= 5 then Failed else r.state)
           else r.(state := Refused)]
      && after.cardsOpen == if !r.noContent && r.readable && reading == NotQuotable(true) then desk.cardsOpen - {r.order} else desk.cardsOpen
  {
    var r := desk.replies[i];
    NoneFound(desk.rows, r);
    if r.noContent {
      OnePut(desk, i, r.(state := Unreadable), clock);
    } else if !r.readable {
      OnePut(desk, i, r.(state := Unparsed), clock);
    } else if reading.OrderDown? {
      var tried := r.(tries := r.tries + 1);
      OnePut(desk, i, tried, clock);
      assert [Put(i, tried)] + [] == [Put(i, tried)];
      TwoPuts(desk, i, tried, Put(i, tried.(state := Failed)), clock);
      assert [Put(i, tried)] + [Put(i, tried.(state := Failed))] == [Put(i, tried), Put(i, tried.(state := Failed))];
    } else {
      OnePut(desk, i, r.(state := Refused), clock);
      assert [Put(i, r.(state := Refused))] + [] == [Put(i, r.(state := Refused))];
      TwoPuts(desk, i, r.(state := Refused), CloseCard(r.order), clock);
      assert [Put(i, r.(state := Refused))] + [CloseCard(r.order)] == [Put(i, r.(state := Refused)), CloseCard(r.order)];
    }
  }

  /** Of the first `n` replies the others that stood for the order are superseded. */
  predicate OlderSuperseded(asked: seq<Reply>, after: seq<Reply>, keep: nat, n: nat)
    requires keep < |asked| && n <= |asked|
  {
    && |after| == |asked|
    && forall j | 0 <= j < |asked| && j != keep ::
         after[j] == if j < n && Older(asked, keep, j) then asked[j].(state := Superseded) else asked[j]
  }

  predicate SameButReplies(before: Desk, after: Desk, keep: nat) {
    && after.cardsOpen == before.cardsOpen && keep < |after.replies| == |before.replies|
    && after.replies[keep] == before.replies[keep]
  }

  lemma OneMoreSuperseded(before: Desk, mid: Desk, asked: seq<Reply>, keep: nat, n: nat, deny: Clock, mark: Clock)
    requires keep < |asked| && n < |asked| && Older(asked, keep, n)
    requires OlderSuperseded(asked, mid.replies, keep, n) && SameButReplies(before, mid, keep)
    ensures var after := DeskAfter(DeskAfter(mid, Deny(asked[n].approval.value), deny), Put(n, asked[n].(state := Superseded)), mark);
      OlderSuperseded(asked, after.replies, keep, n + 1) && SameButReplies(before, after, keep)
  {
    var denied := DeskAfter(mid, Deny(asked[n].approval.value), deny);
    assert denied.replies == mid.replies && denied.cardsOpen == mid.cardsOpen;
  }

  predicate SupersededOnDesk(before: Desk, after: Desk, asked: seq<Reply>, keep: nat, n: nat)
    requires keep < |asked| && n <= |asked|
  {
    OlderSuperseded(asked, after.replies, keep, n) && SameButReplies(before, after, keep)
  }

  lemma OneMoreOnDesk(desk: Desk, done: seq<Action>, asked: seq<Reply>, keep: nat, n: nat, clock: nat -> Clock, before: Desk, mid: Desk)
    requires keep < |asked| && n < |asked| && mid == DeskAfterAll(desk, UpTo(done, asked, keep, n), clock)
    requires SupersededOnDesk(before, mid, asked, keep, n)
    ensures SupersededOnDesk(before, DeskAfterAll(desk, UpTo(done, asked, keep, n + 1), clock), asked, keep, n + 1)
  {
    if Older(asked, keep, n) {
      var sofar := |UpTo(done, asked, keep, n)|;
      OneMoreSuperseded(before, mid, asked, keep, n, clock(sofar), clock(sofar + 1));
      OneWithdrawn(desk, done, asked, keep, n, clock);
    } else {
      NoneWithdrawn(done, asked, keep, n);
      NotOlder(asked, mid.replies, keep, n);
    }
  }

  lemma {:induction false} WithdrawalsOnDesk(desk: Desk, done: seq<Action>, asked: seq<Reply>, keep: nat, n: nat, clock: nat -> Clock, before: Desk)
    requires keep < |asked| && n <= |asked| && before == DeskAfterAll(desk, done, clock)
    requires SupersededOnDesk(before, before, asked, keep, 0)
    ensures SupersededOnDesk(before, DeskAfterAll(desk, UpTo(done, asked, keep, n), clock), asked, keep, n)
    decreases n
  {
    if n == 0 {
      NoneWithdrawn(done, asked, keep, 0);
    } else {
      WithdrawalsOnDesk(desk, done, asked, keep, n - 1, clock, before);
      OneMoreOnDesk(desk, done, asked, keep, n - 1, clock, before, DeskAfterAll(desk, UpTo(done, asked, keep, n - 1), clock));
    }
  }

  lemma NotOlder(asked: seq<Reply>, after: seq<Reply>, keep: nat, n: nat)
    requires keep < |asked| && n < |asked| && !Older(asked, keep, n) && OlderSuperseded(asked, after, keep, n)
    ensures OlderSuperseded(asked, after, keep, n + 1)
  {
  }

  /** A quote that is taken: the reply is submitted with its approval, every other reply of the
      order submitted with one is superseded, and nothing else about the replies or the cards
      changes. (Of the approvals themselves QuotesLive.dfy tells.) */
  lemma TakenIsSubmitted(desk: Desk, i: nat, id: Id, clock: nat -> Clock)
    requires i < |desk.replies| && NotParked(desk, i) && !desk.replies[i].noContent && desk.replies[i].readable
    ensures var after := Handled(desk, i, Taken(id), clock);
      && after.cardsOpen == desk.cardsOpen && |after.replies| == |desk.replies|
      && after.replies[i] == desk.replies[i].(state := Submitted, approval := Some(id))
      && forall j | 0 <= j < |desk.replies| && j != i ::
           after.replies[j] == if Submits(desk.replies, j, desk.replies[i].order) then desk.replies[j].(state := Superseded) else desk.replies[j]
  {
    var r := desk.replies[i];
    NoneFound(desk.rows, r);
    var park, put := Park(id, RefOf(r)), Put(i, r.(state := Submitted, approval := Some(id)));
    Then(desk, [], park, clock);
    Then(desk, [park], put, clock);
    assert [] + [park] == [park] && [park] + [put] == [park, put];
    WithdrawalsOnDesk(desk, [park, put], desk.replies, i, |desk.replies|, clock, DeskAfterAll(desk, [park, put], clock));
  }

  /** A row that was there before with the same status, or waited before and is denied; or the
      new one. */
  predicate Stems(rows: seq<Row>, row: Row, reply: Reply, id: Id) {
    || (row.id == id && IsFor(row, reply) && (row.status.Pending? || row.status.Denied?))
    || exists k | 0 <= k < |rows| :: rows[k].id == row.id && rows[k].work == row.work
         && (rows[k].status == row.status || (rows[k].status.Pending? && row.status.Denied?))
  }

  predicate AllStem(rows: seq<Row>, after: seq<Row>, reply: Reply, id: Id) {
    forall k | 0 <= k < |after| :: Stems(rows, after[k], reply, id)
  }

  lemma RowStems(rows: seq<Row>, mid: seq<Row>, row: Row, k: nat, reply: Reply, id: Id)
    requires k < |mid| && AllStem(rows, mid, reply, id)
    requires row.id == mid[k].id && row.work == mid[k].work
    requires row.status == mid[k].status || (mid[k].status.Pending? && row.status.Denied?)
    ensures Stems(rows, row, reply, id)
  {
    assert Stems(rows, mid[k], reply, id);
  }

  lemma ActionStems(rows: seq<Row>, mid: seq<Row>, action: Action, reply: Reply, id: Id, clock: Clock)
    requires AllStem(rows, mid, reply, id) && (action == Park(id, RefOf(reply)) || action.Deny?)
    ensures AllStem(rows, Done(mid, OpOf(action, clock)), reply, id)
  {
    var op := OpOf(action, clock);
    var changed := Changed(mid, op);
    forall k | 0 <= k < |changed| ensures Stems(rows, changed[k], reply, id) {
      if k < |mid| {
        RowStems(rows, mid, changed[k], k, reply, id);
      }
    }
    RetainedIsPart(changed, SaveTime(op));
    forall k | 0 <= k < |Retained(changed, SaveTime(op))| ensures Stems(rows, Retained(changed, SaveTime(op))[k], reply, id) {
      assert Retained(changed, SaveTime(op))[k] in changed;
    }
  }

  lemma {:induction false} ActionsStem(desk: Desk, todo: seq<Action>, reply: Reply, id: Id, clock: nat -> Clock)
    requires forall k | 0 <= k < |todo| :: todo[k].Park? ==> todo[k] == Park(id, RefOf(reply))
    ensures AllStem(desk.rows, DeskAfterAll(desk, todo, clock).rows, reply, id)
  {
    if todo == [] {
      forall k | 0 <= k < |desk.rows| ensures Stems(desk.rows, desk.rows[k], reply, id) {
      }
    } else {
      var front, last := todo[..|todo| - 1], todo[|todo| - 1];
      forall k | 0 <= k < |front| ensures front[k] == todo[k] {
      }
      ActionsStem(desk, front, reply, id, clock);
      if last.Park? || last.Deny? {
        ActionStems(desk.rows, DeskAfterAll(desk, front, clock).rows, last, reply, id, clock(|front|));
      }
    }
  }

  lemma {:induction false} WithdrawalsPark(replies: seq<Reply>, keep: nat, n: nat)
    requires keep < |replies| && n <= |replies|
    ensures forall k | 0 <= k < |Withdrawals(replies, keep, n)| :: !Withdrawals(replies, keep, n)[k].Park?
  {
    if n > 0 {
      WithdrawalsPark(replies, keep, n - 1);
    }
  }

  /** Handling a reply that is taken approves and runs nothing: it parks the one approval, and
      otherwise only denies approvals that waited. */
  lemma HandlingApprovesNothing(desk: Desk, i: nat, id: Id, clock: nat -> Clock)
    requires i < |desk.replies|
    ensures AllStem(desk.rows, Handled(desk, i, Taken(id), clock).rows, desk.replies[i], id)
  {
    WithdrawalsPark(desk.replies, i, |desk.replies|);
    ActionsStem(desk, PlanFor(desk.rows, desk.replies, i, Taken(id)), desk.replies[i], id, clock);
  }

  class QuoteReplies {
    var replies: seq<Reply>
    var cardsOpen: set<string>
    const queue: ApprovalQueue

    constructor (queue: ApprovalQueue, replies: seq<Reply>, cardsOpen: set<string>)
      ensures this.queue == queue && Saved() == Desk(queue.disk, replies, cardsOpen)
    {
      this.queue, this.replies, this.cardsOpen := queue, replies, cardsOpen;
    }

    function Saved(): Desk
      reads this, queue
    {
      Desk(queue.disk, replies, cardsOpen)
    }

    /** `store.update` with one reply changed. */
    method Set(i: nat, reply: Reply, ghost clock: Clock)
      requires i < |replies|
      modifies this
      ensures Saved() == DeskAfter(old(Saved()), Put(i, reply), clock)
    {
      replies := replies[i := reply];
    }

    method Close(order: string, ghost clock: Clock)
      modifies this
      ensures Saved() == DeskAfter(old(Saved()), CloseCard(order), clock)
    {
      cardsOpen := cardsOpen - {order};
    }

    /** One of the owner's messages: the index of the reply it became, if it is to be handled.
        A reply is claimed before anything is done about it, and never twice. */
    method Consider(id: string, order: string, noContent: bool, readable: bool) returns (i: Option<nat>)
      modifies this
      ensures i.Some? <==> order in old(cardsOpen) && !Known(old(replies), id)
      ensures Saved() == if i.Some?
        then old(Saved()).(replies := old(replies) + [Reply(id, order, Waiting, None, 0, noContent, readable)])
        else old(Saved())
      ensures i.Some? ==> i.value == |old(replies)| && Known(replies, id)
    {
      var seen := false;
      for k := 0 to |replies|
        invariant seen <==> exists j :: 0 <= j < k && replies[j].id == id
      {
        if replies[k].id == id {
          seen := true;
        }
      }
      if seen || order !in cardsOpen {
        return None;
      }
      i := Some(|replies|);
      replies := replies + [Reply(id, order, Waiting, None, 0, noContent, readable)];
      assert replies[i.value].id == id;
    }

    /** `_handle`. */
    method Handle(i: nat, reading: Reading, clock: nat -> Clock)
      requires i < |replies|
      modifies this, queue
      ensures Saved() == DeskAfterAll(old(Saved()), PlanFor(old(queue.disk), old(replies), i, reading), clock)
    {
      ghost var before := Saved();
      var r := replies[i];
      var found := queue.Find(WorkOf(r));
      if found != [] {
        SetOnly(i, r.(state := Submitted, approval := Some(found[0].id)), clock);
        return;
      }
      if r.noContent {
        SetOnly(i, r.(state := Unreadable), clock);
        return;
      }
      if !r.readable {
        SetOnly(i, r.(state := Unparsed), clock);
        return;
      }
      match reading {
        case OrderDown =>
          var tried := r.(tries := r.tries + 1);
          SetOnly(i, tried, clock);
          if tried.tries >= ORDER_TRIES {
            Then(before, [Put(i, tried)], Put(i, tried.(state := Failed)), clock);
            Set(i, tried.(state := Failed), clock(1));
          }
        case NotQuotable(closes) =>
          SetOnly(i, r.(state := Refused), clock);
          if closes {
            Then(before, [Put(i, r.(state := Refused))], CloseCard(r.order), clock);
            Close(r.order, clock(1));
          }
        case NotTaken =>
          SetOnly(i, r.(state := Refused), clock);
        case Taken(id) =>
          Quote(i, id, clock);
      }
    }

    method SetOnly(i: nat, reply: Reply, clock: nat -> Clock)
      requires i < |replies|
      modifies this
      ensures Saved() == DeskAfterAll(old(Saved()), [Put(i, reply)], clock)
      ensures |replies| == |old(replies)|
    {
      Then(Saved(), [], Put(i, reply), clock);
      assert [] + [Put(i, reply)] == [Put(i, reply)];
      Set(i, reply, clock(0));
    }

    method Quote(i: nat, id: Id, clock: nat -> Clock)
      requires i < |replies|
      modifies this, queue
      ensures Saved() == DeskAfterAll(old(Saved()),
        [Park(id, RefOf(old(replies[i]))), Put(i, old(replies[i]).(state := Submitted, approval := Some(id)))]
        + Withdrawals(old(replies), i, |old(replies)|), clock)
    {
      ghost var before := Saved();
      var r := replies[i];
      queue.Enqueue(id, WorkOf(r), false, None, None, clock(0));
      ghost var park := [Park(id, RefOf(r))];
      Then(before, [], Park(id, RefOf(r)), clock);
      assert [] + [Park(id, RefOf(r))] == park;
      Then(before, park, Put(i, r.(state := Submitted, approval := Some(id))), clock);
      Set(i, r.(state := Submitted, approval := Some(id)), clock(1));
      ghost var done := [Park(id, RefOf(r)), Put(i, r.(state := Submitted, approval := Some(id)))];
      assert park + [Put(i, r.(state := Submitted, approval := Some(id)))] == done;
      Supersede(i, clock, before, done, before.replies);
    }

    method Withdraw(j: nat, r: Reply, deny: Clock, mark: Clock)
      requires j < |replies| && r.approval.Some?
      modifies this, queue
      ensures Saved() == DeskAfter(DeskAfter(old(Saved()), Deny(r.approval.value), deny), Put(j, r.(state := Superseded)), mark)
      ensures |replies| == |old(replies)|
    {
      var ok := queue.Resolve(r.approval.value, Pending, Denied, None, deny);
      Set(j, r.(state := Superseded), mark);
    }

    /** `_supersede`: the order's other submitted replies, each denied and marked. */
    method Supersede(keep: nat, clock: nat -> Clock, ghost before: Desk, ghost done: seq<Action>, ghost asked: seq<Reply>)
      requires keep < |replies| == |asked| && replies[keep].order == asked[keep].order
      requires forall j | 0 <= j < |replies| && j != keep :: replies[j] == asked[j]
      requires |done| == 2 && Saved() == DeskAfterAll(before, done, clock)
      modifies this, queue
      ensures Saved() == DeskAfterAll(before, done + Withdrawals(asked, keep, |asked|), clock)
    {
      var seen := replies;
      var k := 2;
      NoneWithdrawn(done, asked, keep, 0);
      for j := 0 to |seen|
        invariant |replies| == |seen| && k == |UpTo(done, asked, keep, j)|
        invariant Saved() == DeskAfterAll(before, UpTo(done, asked, keep, j), clock)
      {
        var r := seen[j];
        if j != keep && r.order == seen[keep].order && r.state.Submitted? && r.approval.Some? {
          Withdraw(j, r, clock(k), clock(k + 1));
          k := k + 2;
          OneWithdrawn(before, done, asked, keep, j, clock);
        } else {
          NoneWithdrawn(done, asked, keep, j);
        }
      }
    }
  }
}
