/** Which of an order's replies stands in the end: the one whose quote was recorded last, and so
    not always the newest. */
module QuotesNewest {
  import opened Wrappers
  import opened Approvals
  import opened ApprovalRuns
  import opened ApprovalStore
  import opened Quotes
  import opened QuotesLive
  import opened QuotesCrash

  predicate Withdrawing(w: World) {
    w.todo != [] && (w.todo[0].Deny? || (w.todo[0].Put? && w.todo[0].reply.state.Superseded?))
  }

  /** The replies, with the withdrawals under way done. */
  function Standing(w: World): (replies: seq<Reply>)
    ensures |replies| == |w.replies|
  {
    if Withdrawing(w) then Written(w.replies, w.todo) else w.replies
  }

  /** This step records the quote of a reply to this order. */
  predicate RecordsFor(w: World, step: Step, order: string) {
    step.Act? && w.todo != [] && w.todo[0].Put? && w.todo[0].reply.state.Submitted? && w.todo[0].reply.order == order
  }

  function OneRecord(w: World, step: Step, order: string): seq<nat> {
    if RecordsFor(w, step, order) then [w.todo[0].at] else []
  }

  /** The replies to an order whose quotes were recorded, in that order. */
  ghost function RecordedBy(w: World, steps: seq<Step>, order: string): seq<nat>
    requires Quotes.Run(w, steps).Some?
    decreases |steps|
  {
    if steps == [] then []
    else OneRecord(w, steps[0], order) + RecordedBy(Take(w, steps[0]), steps[1..], order)
  }

  // ----- one step

  /** What a step does to the replies that stand. */
  predicate Moves(before: seq<Reply>, after: seq<Reply>) {
    && |before| <= |after|
    && (forall k | 0 <= k < |before| :: after[k].order == before[k].order)
    && (forall k | 0 <= k < |before| && !before[k].state.Waiting? :: !after[k].state.Waiting?)
  }

  predicate SameStand(before: seq<Reply>, after: seq<Reply>) {
    forall k | 0 <= k < |after| :: after[k].state.Submitted? <==> k < |before| && before[k].state.Submitted?
  }

  /** Reply `i` stands for its order now, and it alone. */
  predicate StandsAlone(before: seq<Reply>, after: seq<Reply>, i: nat) {
    && i < |before| == |after| && before[i].state.Waiting? && after[i].state.Submitted?
    && forall k | 0 <= k < |after| ::
         after[k].state.Submitted? <==> if before[k].order == before[i].order then k == i else before[k].state.Submitted?
  }

  predicate StepStands(w: World, step: Step)
    requires Able(w, step)
  {
    var before, after := Standing(w), Standing(Take(w, step));
    && Moves(before, after)
    && if step.Act? && w.todo[0].Put? && w.todo[0].reply.state.Submitted?
       then StandsAlone(before, after, w.todo[0].at) && w.todo[0].reply.order == before[w.todo[0].at].order
       else SameStand(before, after)
  }

  lemma RecordStands(w: World, clock: Clock, i: nat, id: Id)
    requires ToRecord(w, i, id)
    ensures Able(w, Act(clock)) && StepStands(w, Act(clock))
  {
    RecordGoesOn(w, clock, i, id);
    var next := Take(w, Act(clock));
    WithdrawsAll(next, i);
    assert next.replies == w.replies[i := SubmittedAs(w.replies[i], id)];
    forall k | 0 <= k < |w.replies| && k != i ensures Older(next.replies, i, k) == Older(w.replies, i, k) {
    }
  }

  lemma WithdrawsAll(w: World, i: nat)
    requires ToWithdraw(w, i)
    ensures forall k | 0 <= k < |w.replies| ::
      Standing(w)[k] == if Older(w.replies, i, k) then w.replies[k].(state := Superseded) else w.replies[k]
  {
    Withdrawn(w.replies, w.replies, {}, i, |w.replies|);
    if w.todo == [] {
      NoneOlder(w.replies, i, |w.replies|);
    } else {
      var j := FirstWithdrawal(w.replies, i, |w.replies|);
    }
  }

  lemma WithdrawStands(w: World, clock: Clock, i: nat)
    requires ToWithdraw(w, i) && w.todo != []
    ensures Able(w, Act(clock)) && StepStands(w, Act(clock))
  {
    var j := FirstWithdrawal(w.replies, i, |w.replies|);
    var next := Take(w, Act(clock));
    assert next.todo[0] == w.todo[1] == Put(j, w.replies[j].(state := Superseded));
    assert Standing(next) == Standing(w);
    WithdrawsAll(w, i);
  }

  lemma MarkStands(w: World, clock: Clock, i: nat, j: nat)
    requires ToMark(w, i, j)
    ensures Able(w, Act(clock)) && StepStands(w, Act(clock))
  {
    MarkGoesOn(w, clock, i, j);
    var next := Take(w, Act(clock));
    WithdrawsAll(next, i);
    if next.todo != [] {
      var m := FirstWithdrawal(next.replies, i, |next.replies|);
    }
    assert w.todo[1..] == next.todo;
    assert Standing(w) == Written(next.replies, next.todo) == Standing(next);
  }

  lemma ParkStands(w: World, clock: Clock, i: nat, id: Id)
    requires ToPark(w, i, id) && id !in w.queue.stories
    ensures Able(w, Act(clock)) && StepStands(w, Act(clock))
  {
    ActPark(w, id, RefOf(w.replies[i]), clock);
    Tail(Park(id, RefOf(w.replies[i])), Record(w.replies, i, id), AllWithdrawals(w.replies, i));
    assert Standing(Take(w, Act(clock))) == w.replies == Standing(w);
  }

  lemma ActStands(w: World, clock: Clock)
    requires Phase(w) && Able(w, Act(clock))
    ensures StepStands(w, Act(clock))
  {
    if OnlyRecords(w) && LiveNow(w) {
      RecordsStand(w, clock);
    } else if i: nat, id: Id :| ToPark(w, i, id) {
      ParkStands(w, clock, i, id);
    } else if i: nat, id: Id :| ToRecord(w, i, id) {
      RecordStands(w, clock, i, id);
    } else if i: nat :| ToWithdraw(w, i) {
      WithdrawStands(w, clock, i);
    } else {
      var i: nat, j: nat :| ToMark(w, i, j);
      MarkStands(w, clock, i, j);
    }
  }

  lemma RecordsStand(w: World, clock: Clock)
    requires OnlyRecords(w) && LiveNow(w) && w.todo != []
    ensures Able(w, Act(clock)) && StepStands(w, Act(clock))
  {
    RecordsGoOn(w, clock);
  }

  lemma TakeStands(w: World, step: Step)
    requires Quotes.Inv(w) && LiveInv(w) && Phase(w) && Able(w, step) && (step.Crash? ==> !HalfDone(w))
    ensures StepStands(w, step)
  {
    match step {
      case Act(clock) => ActStands(w, clock);
      case Handle(i, reading) => HandleStands(w, i, reading);
      case _ =>
    }
  }

  lemma HandleStands(w: World, i: nat, reading: Reading)
    requires LiveInv(w) && Able(w, Handle(i, reading))
    ensures StepStands(w, Handle(i, reading))
  {
    var todo := Take(w, Handle(i, reading)).todo;
    assert todo[0].Park? || (todo[0].Put? && !todo[0].reply.state.Superseded?);
  }

  // ----- every run

  /** Reply `k` stands at the end if it is the last on the list, or stood before and nothing of
      its order is on the list. */
  predicate EndsAs(before: seq<Reply>, after: seq<Reply>, list: seq<nat>, k: nat)
    requires k < |after|
  {
    after[k].state.Submitted? <==> if list == [] then k < |before| && before[k].state.Submitted? else list[|list| - 1] == k
  }

  lemma OneStepEarlier(w: World, step: Step, after: seq<Reply>, list: seq<nat>, k: nat)
    requires Able(w, step) && StepStands(w, step) && Moves(Standing(Take(w, step)), after) && k < |after|
    requires EndsAs(Standing(Take(w, step)), after, list, k)
    ensures Moves(Standing(w), after) && EndsAs(Standing(w), after, OneRecord(w, step, after[k].order) + list, k)
  {
    var before, mid := Standing(w), Standing(Take(w, step));
    forall j | 0 <= j < |before| ensures after[j].order == before[j].order && (!before[j].state.Waiting? ==> !after[j].state.Waiting?) {
      assert mid[j].order == before[j].order;
    }
    if list == [] && k < |mid| {
      assert k < |before| ==> mid[k].order == before[k].order == after[k].order;
    }
  }

  lemma {:induction false} RunStands(w: World, steps: seq<Step>, k: nat)
    requires Quotes.Inv(w) && LiveInv(w) && Phase(w) && Quotes.Run(w, steps).Some? && CrashesInTime(w, steps)
    requires k < |Standing(Quotes.Run(w, steps).value)|
    ensures var before, after := Standing(w), Standing(Quotes.Run(w, steps).value);
      Moves(before, after) && EndsAs(before, after, RecordedBy(w, steps, after[k].order), k)
    decreases |steps|
  {
    if steps != [] {
      var after := Standing(Quotes.Run(w, steps).value);
      TakeKeepsInv(w, steps[0]);
      TakeKeepsPhase(w, steps[0]);
      TakeStands(w, steps[0]);
      RunStands(Take(w, steps[0]), steps[1..], k);
      OneStepEarlier(w, steps[0], after, RecordedBy(Take(w, steps[0]), steps[1..], after[k].order), k);
    }
  }

  predicate IsLast(list: seq<nat>, k: nat) { list != [] && list[|list| - 1] == k }

  /** In every run whose crashes leave nothing half done, whenever no reply is being handled: a
      reply is submitted if and only if its quote is the last one recorded for its order. */
  lemma LastRecordedStands(steps: seq<Step>, k: nat)
    requires Quotes.Run(START, steps).Some? && CrashesInTime(START, steps)
    requires Quotes.Run(START, steps).value.todo == [] && k < |Quotes.Run(START, steps).value.replies|
    ensures var reply := Quotes.Run(START, steps).value.replies[k];
      reply.state.Submitted? <==> IsLast(RecordedBy(START, steps, reply.order), k)
  {
    StartIsFine();
    RunStands(START, steps, k);
    assert Standing(START) == [];
  }

  /** Each reply is listed once, and only one that had waited. */
  predicate ListedOnce(before: seq<Reply>, after: seq<Reply>, order: string, list: seq<nat>) {
    && (forall a | 0 <= a < |list| :: list[a] < |after| && after[list[a]].order == order)
    && (forall a | 0 <= a < |list| :: list[a] < |before| ==> before[list[a]].state.Waiting?)
    && (forall a, b | 0 <= a < b < |list| :: list[a] != list[b])
  }

  lemma OneListedEarlier(w: World, step: Step, after: seq<Reply>, order: string, list: seq<nat>)
    requires Able(w, step) && StepStands(w, step) && Moves(Standing(Take(w, step)), after)
    requires ListedOnce(Standing(Take(w, step)), after, order, list)
    ensures ListedOnce(Standing(w), after, order, OneRecord(w, step, order) + list)
  {
    var before, mid := Standing(w), Standing(Take(w, step));
    if RecordsFor(w, step, order) {
      var i := w.todo[0].at;
      assert mid[i].state.Submitted? && before[i].order == order == mid[i].order == after[i].order;
      assert i !in list;
    }
  }

  lemma {:induction false} RunListsOnce(w: World, steps: seq<Step>, order: string)
    requires Quotes.Inv(w) && LiveInv(w) && Phase(w) && Quotes.Run(w, steps).Some? && CrashesInTime(w, steps)
    ensures var before, after := Standing(w), Standing(Quotes.Run(w, steps).value);
      Moves(before, after) && ListedOnce(before, after, order, RecordedBy(w, steps, order))
    decreases |steps|
  {
    if steps != [] {
      var next, after := Take(w, steps[0]), Standing(Quotes.Run(w, steps).value);
      TakeKeepsInv(w, steps[0]);
      TakeKeepsPhase(w, steps[0]);
      TakeStands(w, steps[0]);
      RunListsOnce(next, steps[1..], order);
      OneListedEarlier(w, steps[0], after, order, RecordedBy(next, steps[1..], order));
      MovesOn(Standing(w), Standing(next), after);
    }
  }

  lemma MovesOn(before: seq<Reply>, mid: seq<Reply>, after: seq<Reply>)
    requires Moves(before, mid) && Moves(mid, after)
    ensures Moves(before, after)
  {
    forall k | 0 <= k < |before| ensures after[k].order == before[k].order && (!before[k].state.Waiting? ==> !after[k].state.Waiting?) {
      assert mid[k].order == before[k].order;
    }
  }

  /** An older reply's quote was recorded after the quote of reply `n`. */
  predicate OlderCameAfter(list: seq<nat>, n: nat) { exists a, b :: 0 <= a < b < |list| && list[a] == n && list[b] < n }

  /** The newest of the replies to an order that were quoted stands in the end if and only if no
      older one, still waiting to be handled when it was recorded, was quoted after it. */
  lemma NewestStandsExactly(steps: seq<Step>, order: string, n: nat)
    requires Quotes.Run(START, steps).Some? && CrashesInTime(START, steps) && Quotes.Run(START, steps).value.todo == []
    requires var list := RecordedBy(START, steps, order); n in list && forall a | 0 <= a < |list| :: list[a] <= n
    ensures var w := Quotes.Run(START, steps).value;
      && n < |w.replies| && w.replies[n].order == order
      && (w.replies[n].state.Submitted? <==> !OlderCameAfter(RecordedBy(START, steps, order), n))
  {
    ListedFromStart(steps, order);
    LastRecordedStands(steps, n);
    LastIsNewest(RecordedBy(START, steps, order), n);
  }

  lemma ListedFromStart(steps: seq<Step>, order: string)
    requires Quotes.Run(START, steps).Some? && CrashesInTime(START, steps) && Quotes.Run(START, steps).value.todo == []
    ensures ListedOnce([], Quotes.Run(START, steps).value.replies, order, RecordedBy(START, steps, order))
  {
    StartIsFine();
    RunListsOnce(START, steps, order);
  }

  lemma LastIsNewest(list: seq<nat>, n: nat)
    requires n in list && (forall a | 0 <= a < |list| :: list[a] <= n)
    requires forall a, b | 0 <= a < b < |list| :: list[a] != list[b]
    ensures IsLast(list, n) <==> !OlderCameAfter(list, n)
  {
    var at :| 0 <= at < |list| && list[at] == n;
    if at < |list| - 1 {
      assert list[at] != list[|list| - 1];
    }
  }

  // ----- a run in which the older one wins

  /** Scrooge could not be asked about the order: the reply is tried again later. */
  lemma NotNow(w: World, i: nat, clock: Clock) returns (steps: seq<Step>, next: World)
    requires Quotes.Inv(w) && w.todo == [] && i < |w.replies| && w.replies[i].state.Waiting? && w.replies[i].tries == 0
    requires !w.replies[i].noContent && w.replies[i].readable && FoundIn(w.queue.rows, WorkOf(w.replies[i])) == []
    ensures Quotes.Run(w, steps) == Some(next) && CrashFree(steps) && Quotes.Inv(next)
    ensures next == w.(replies := w.replies[i := w.replies[i].(tries := 1)])
  {
    steps := [Handle(i, OrderDown), Act(clock)];
    var tried := w.replies[i].(tries := 1);
    var between := Take(w, steps[0]);
    assert between.todo == [Put(i, tried)] + [] == [Put(i, tried)];
    ActPut(between, i, tried, clock);
    next := Take(between, Act(clock));
    TakeKeepsInv(w, steps[0]);
    TakeKeepsInv(between, steps[1]);
    FirstStep(w, steps, between);
    FirstStep(between, steps[1..], next);
  }

  /** A reply still waiting, after a run with no crash, has nothing parked. */
  lemma NothingParked(steps: seq<Step>, i: nat)
    requires Quotes.Run(START, steps).Some? && CrashFree(steps) && Quotes.Run(START, steps).value.todo == []
    requires i < |Quotes.Run(START, steps).value.replies| && Quotes.Run(START, steps).value.replies[i].state.Waiting?
    ensures var w := Quotes.Run(START, steps).value; FoundIn(w.queue.rows, WorkOf(w.replies[i])) == []
  {
    CrashFreeIsInTime(START, steps);
    OneQuotePerOrder(steps);
    var w := Quotes.Run(START, steps).value;
    LiveNowIs(w);
    assert w.(todo := []) == w;
    FoundCounts(w.queue.rows, RefOf(w.replies[i]));
  }

  predicate Ready(reply: Reply, order: string) {
    reply.order == order && reply.state.Waiting? && !reply.noContent && reply.readable
  }

  lemma FirstNotNow(order: string) returns (steps: seq<Step>, w: World)
    ensures Quotes.Run(START, steps) == Some(w) && CrashFree(steps) && Quotes.Inv(w) && w.todo == [] && w.queue.rows == []
    ensures |w.replies| == 1 && Ready(w.replies[0], order)
  {
    var first, asked := AnotherReply(START, order);
    var second, next := NotNow(asked, 0, CALM);
    RunOn(START, first, second);
    steps, w := first + second, next;
  }

  lemma SecondQuoted(order: string) returns (steps: seq<Step>, w: World)
    ensures Quotes.Run(START, steps) == Some(w) && CrashFree(steps) && Quotes.Inv(w) && w.todo == [] && KeptAt(w.queue.rows, 0)
    ensures |w.replies| == 2 && Ready(w.replies[0], order)
    ensures w.replies[1].order == order && w.replies[1].state.Submitted? && w.replies[1].approval.Some?
  {
    var first, one := FirstNotNow(order);
    var second, two := AnotherReply(one, order);
    assert two.replies[0] == two.replies[..1][0];
    RunOn(START, first, second);
    var third, next, id := Quoted(two, 1, 0);
    RunOn(START, first + second, third);
    steps, w := first + second + third, next;
  }

  /** The first reply cannot be handled at once; the second is quoted; then the first is tried
      again, and it is the second that is withdrawn. No crash is needed. */
  lemma OlderWins(order: string) returns (steps: seq<Step>, w: World)
    ensures Quotes.Run(START, steps) == Some(w) && CrashFree(steps) && w.todo == []
    ensures |w.replies| == 2 && w.replies[0].order == w.replies[1].order == order
    ensures w.replies[0].state.Submitted? && w.replies[1].state.Superseded?
  {
    var early, before := SecondQuoted(order);
    NothingParked(early, 0);
    var late, next, id := Quoted(before, 0, 0);
    RunOn(START, early, late);
    steps, w := early + late, next;
  }
}
