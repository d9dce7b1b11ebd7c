/** Consolidation gets on: how many attempts it takes to work a backlog off, and that a model
    that is merely away costs the turns nothing. */
module ConsolidationProgress {
  import opened Wrappers
  import opened TurnStore
  import opened Consolidation

  predicate Ascending(s: seq<Id>) { forall i, j | 0 <= i < j < |s| :: s[i] < s[j] }

  lemma {:induction false} SameMembersSame(s: seq<Id>, t: seq<Id>)
    requires Ascending(s) && Ascending(t) && forall id: Id :: id in s <==> id in t
    ensures s == t
  {
    if t != [] {
      HasFirst(t);
    }
    if s != [] {
      HasFirst(s);
      assert s[0] in t && t[0] in s;
      assert s[0] == t[0];
      forall id: Id ensures id in s[1..] <==> id in t[1..] {
        TailMembers(s, id);
        TailMembers(t, id);
      }
      SameMembersSame(s[1..], t[1..]);
      assert s == [s[0]] + s[1..] && t == [t[0]] + t[1..];
    }
  }

  lemma HasFirst(s: seq<Id>)
    requires s != []
    ensures s[0] in s
  {
  }

  lemma TailMembers(s: seq<Id>, id: Id)
    requires s != [] && Ascending(s)
    ensures id in s[1..] <==> id in s && id != s[0]
  {
    if id in s && id != s[0] {
      var i :| 0 <= i < |s| && s[i] == id;
      assert s[1..][i - 1] == id;
    }
  }

  lemma InPrefix(s: seq<Id>, n: nat, i: nat)
    requires n <= |s| && i < |s|
    ensures i < n ==> s[i] in s[..n]
  {
    if i < n {
      assert s[..n][i] == s[i];
    }
  }

  lemma AfterPrefix(s: seq<Id>, n: nat, id: Id)
    requires n <= |s| && Ascending(s)
    ensures id in s[n..] <==> id in s && id !in s[..n]
  {
    if id in s && id !in s[..n] {
      var i :| 0 <= i < |s| && s[i] == id;
      InPrefix(s, n, i);
      assert s[n..][i - n] == id;
    }
    if id in s[n..] {
      var i :| 0 <= i < |s| - n && s[n..][i] == id;
      forall j | 0 <= j < n ensures s[..n][j] != id {
        assert s[j] < s[n + i];
      }
    }
  }

  /** Rows may be added, and the chunk's turns retired: what waits then is the rest. */
  lemma RestWaits(store: Store, after: Store, ns: string, n: nat)
    requires Below(store.rows.Keys, store.next) && Below(after.rows.Keys, after.next)
    requires n <= |Waiting(store, ns)|
    requires forall id: Id :: Waits(after, ns, id) <==> Waits(store, ns, id) && id !in Waiting(store, ns)[..n]
    ensures Waiting(after, ns) == Waiting(store, ns)[n..]
  {
    var w := Waiting(store, ns);
    WaitingIs(store, ns, store.next);
    WaitingIs(after, ns, after.next);
    forall id: Id ensures id in Waiting(after, ns) <==> id in w[n..] {
      AfterPrefix(w, n, id);
    }
    SameMembersSame(Waiting(after, ns), w[n..]);
  }

  predicate Sound(store: Store) { Below(store.rows.Keys, store.next) }

  // ----- what transactions do to a namespace's backlog and its failures

  predicate IsFailure(attempt: Attempt) { attempt.outcome.Failed? || attempt.outcome.Declined? }

  predicate Takes(tx: Tx, ns: string, id: Id) {
    match tx
    case Fold(n, ids, _, _, _, _) => n == ns && id in ids
    case FoldNothing(n, ids) => n == ns && id in ids
    case Poison(n, ids) => n == ns && id in ids
    case Note(_) => false
  }

  function Fails(tx: Tx, ns: string, start: Id): nat {
    if tx.Note? && Concerns(tx.attempt, ns, start) && IsFailure(tx.attempt) then 1 else 0
  }

  predicate TakenBy(txs: seq<Tx>, ns: string, id: Id) {
    txs != [] && (TakenBy(txs[..|txs| - 1], ns, id) || Takes(txs[|txs| - 1], ns, id))
  }

  function FailsIn(txs: seq<Tx>, ns: string, start: Id): nat {
    if txs == [] then 0 else FailsIn(txs[..|txs| - 1], ns, start) + Fails(txs[|txs| - 1], ns, start)
  }

  lemma RetiredWaits(store: Store, ns: string, ids: seq<Id>, mark: Mark, n: string)
    requires Sound(store) && !mark.Unmarked?
    ensures var after := Retired(store, ns, ids, mark);
      && Sound(after)
      && forall id: Id :: Waits(after, n, id) <==> Waits(store, n, id) && !(n == ns && id in ids)
  {
    var after := Retired(store, ns, ids, mark);
    assert after.rows.Keys == store.rows.Keys;
  }

  lemma FoldedWaits(store: Store, tx: Tx, n: string)
    requires tx.Fold? && Sound(store)
    ensures var after := Commit(store, tx);
      && Sound(after) && after.next >= store.next && after.attempts == store.attempts
      && forall id: Id :: Waits(after, n, id) <==> Waits(store, n, id) && !Takes(tx, n, id)
  {
    var episode := AddRow(store, Row(tx.now, tx.ns, Episode, tx.summary, true, Unmarked, None));
    var facts := AddFacts(episode, tx.ns, tx.facts, tx.now, tx.factRetention);
    FactsDoNotWait(episode, tx.ns, tx.facts, tx.now, tx.factRetention, n);
    FactsGrow(episode, tx.ns, tx.facts, tx.now, tx.factRetention);
    RetiredWaits(facts, tx.ns, tx.ids, FoldedInto(store.next), n);
    forall id: Id ensures Waits(facts, n, id) <==> Waits(store, n, id) {
      assert Waits(episode, n, id) <==> Waits(store, n, id);
    }
    assert Commit(store, tx) == Retired(facts, tx.ns, tx.ids, FoldedInto(store.next));
  }

  lemma {:induction false} FactsGrow(store: Store, ns: string, facts: seq<string>, now: Time, retention: Time)
    ensures AddFacts(store, ns, facts, now, retention).next >= store.next
    ensures AddFacts(store, ns, facts, now, retention).attempts == store.attempts
    decreases |facts|
  {
    if facts != [] {
      FactsGrow(store, ns, facts[..|facts| - 1], now, retention);
    }
  }

  lemma NotedBad(store: Store, note: Attempt, ns: string, start: Id)
    ensures Bad(Commit(store, Note(note)).attempts, ns, start) == Bad(store.attempts, ns, start) + Fails(Note(note), ns, start)
  {
    assert (store.attempts + [note])[..|store.attempts|] == store.attempts;
  }

  lemma TxEffect(store: Store, tx: Tx, ns: string)
    requires Sound(store)
    ensures var after := Commit(store, tx);
      && Sound(after) && after.next >= store.next
      && (forall id: Id :: Waits(after, ns, id) <==> Waits(store, ns, id) && !Takes(tx, ns, id))
      && (forall start: Id :: Bad(after.attempts, ns, start) == Bad(store.attempts, ns, start) + Fails(tx, ns, start))
  {
    match tx
    case Fold(_, _, _, _, _, _) => FoldedWaits(store, tx, ns);
    case FoldNothing(n, ids) => RetiredWaits(store, n, ids, NothingKept, ns);
    case Poison(n, ids) => RetiredWaits(store, n, ids, Poisoned, ns);
    case Note(note) =>
      forall start: Id ensures Bad(Commit(store, tx).attempts, ns, start) == Bad(store.attempts, ns, start) + Fails(tx, ns, start) {
        NotedBad(store, note, ns, start);
      }
  }

  lemma {:induction false} TxsEffect(store: Store, txs: seq<Tx>, ns: string)
    requires Sound(store)
    ensures var after := CommitAll(store, txs);
      && Sound(after) && after.next >= store.next
      && (forall id: Id :: Waits(after, ns, id) <==> Waits(store, ns, id) && !TakenBy(txs, ns, id))
      && (forall start: Id :: Bad(after.attempts, ns, start) == Bad(store.attempts, ns, start) + FailsIn(txs, ns, start))
  {
    if txs != [] {
      TxsEffect(store, txs[..|txs| - 1], ns);
      TxEffect(CommitAll(store, txs[..|txs| - 1]), txs[|txs| - 1], ns);
    }
  }

  // ----- one attempt

  /** The process may die after `done` transactions. */
  function UpTo(txs: seq<Tx>, done: nat): seq<Tx> { if done <= |txs| then txs[..done] else txs }

  function AfterFinish(store: Store, ns: string, chunk: seq<Id>, answer: Answer, now: Time, retention: Time, done: nat): Store
    requires chunk != []
  {
    CommitAll(store, UpTo(TxsFor(ns, chunk, Bad(store.attempts, ns, chunk[0]), answer, now, retention), done))
  }

  /** An attempt that counts: any but one at which the model was merely away. */
  predicate Counts(answer: Answer) { answer != Raises(true) }

  predicate IsRefusal(answer: Answer) { answer == Raises(false) || answer.NoOutput? }

  /** Turns leave the backlog for good. */
  predicate TakesTurns(bad: nat, answer: Answer, done: nat) {
    if answer.Summary? then done >= 1 else IsRefusal(answer) && bad + 1 >= POISON_AFTER && done >= 2
  }

  /** All that the attempt had to write is written. */
  predicate Whole(ns: string, chunk: seq<Id>, bad: nat, answer: Answer, done: nat)
    requires chunk != []
  {
    done >= |TxsFor(ns, chunk, bad, answer, 0, 0)|
  }

  /** A list of three and its beginnings, one by one. */
  lemma Unrolled(txs: seq<Tx>, ns: string, id: Id)
    ensures TakenBy([], ns, id) == false && FailsIn([], ns, id) == 0
    ensures |txs| == 1 ==> TakenBy(txs, ns, id) == Takes(txs[0], ns, id) && FailsIn(txs, ns, id) == Fails(txs[0], ns, id)
    ensures |txs| == 2 ==>
      && TakenBy(txs, ns, id) == (Takes(txs[0], ns, id) || Takes(txs[1], ns, id))
      && FailsIn(txs, ns, id) == Fails(txs[0], ns, id) + Fails(txs[1], ns, id)
    ensures |txs| == 3 ==>
      && TakenBy(txs, ns, id) == (Takes(txs[0], ns, id) || Takes(txs[1], ns, id) || Takes(txs[2], ns, id))
      && FailsIn(txs, ns, id) == Fails(txs[0], ns, id) + Fails(txs[1], ns, id) + Fails(txs[2], ns, id)
  {
    if |txs| == 2 {
      assert txs[..1] == [txs[0]];
    } else if |txs| == 3 {
      assert txs[..2][..1] == [txs[0]];
    }
  }

  /** What the transactions of an attempt do, as far as it gets. */
  lemma UpToDoes(ns: string, chunk: seq<Id>, bad: nat, answer: Answer, now: Time, retention: Time, done: nat, n: string, id: Id)
    requires chunk != []
    ensures var txs := UpTo(TxsFor(ns, chunk, bad, answer, now, retention), done);
      && (TakenBy(txs, n, id) <==> n == ns && id in chunk && TakesTurns(bad, answer, done))
      && FailsIn(txs, n, id) == if n == ns && id == chunk[0] && IsRefusal(answer) && done >= 1 then 1 else 0
  {
    Unrolled(UpTo(TxsFor(ns, chunk, bad, answer, now, retention), done), n, id);
  }

  /** What one attempt at any first turns comes to, wherever the process dies: the chunk leaves
      the backlog, or one more failure of the chunk is on record, or nothing changes but the
      log. Other namespaces are not touched. */
  lemma AttemptOutcome(store: Store, ns: string, chunk: seq<Id>, answer: Answer, now: Time, retention: Time, done: nat, n: string)
    requires Sound(store) && chunk != [] && chunk <= Waiting(store, ns)
    ensures var after, bad := AfterFinish(store, ns, chunk, answer, now, retention, done), Bad(store.attempts, ns, chunk[0]);
      && Sound(after) && after.next >= store.next
      && Waiting(after, n) == (if n == ns && TakesTurns(bad, answer, done) then Waiting(store, n)[|chunk|..] else Waiting(store, n))
      && forall start: Id :: Bad(after.attempts, n, start) ==
           Bad(store.attempts, n, start) + if n == ns && start == chunk[0] && IsRefusal(answer) && done >= 1 then 1 else 0
  {
    var after, bad := AfterFinish(store, ns, chunk, answer, now, retention, done), Bad(store.attempts, ns, chunk[0]);
    var txs := UpTo(TxsFor(ns, chunk, bad, answer, now, retention), done);
    TxsEffect(store, txs, n);
    forall id: Id
      ensures TakenBy(txs, n, id) <==> n == ns && id in chunk && TakesTurns(bad, answer, done)
      ensures FailsIn(txs, n, id) == if n == ns && id == chunk[0] && IsRefusal(answer) && done >= 1 then 1 else 0
    {
      UpToDoes(ns, chunk, bad, answer, now, retention, done, n, id);
    }
    RestWaits(store, after, n, if n == ns && TakesTurns(bad, answer, done) then |chunk| else 0);
  }

  // ----- the measure

  /** Nothing is on record against any turn but the oldest that waits. */
  ghost predicate Clean(store: Store, ns: string) {
    && Sound(store)
    && forall id: Id | (Waits(store, ns, id) && id != Oldest(store, ns)) || id >= store.next :: Bad(store.attempts, ns, id) == 0
  }

  function Oldest(store: Store, ns: string): Id {
    if Waiting(store, ns) == [] then store.next else Waiting(store, ns)[0]
  }

  function Spent(bad: nat): nat { if bad < POISON_AFTER then bad else POISON_AFTER - 1 }

  /** What is left of the worst case: four attempts for each waiting turn, less those spent on
      the oldest chunk. */
  function Left(store: Store, ns: string): int {
    var w := Waiting(store, ns);
    if w == [] then 0 else POISON_AFTER * |w| - Spent(Bad(store.attempts, ns, w[0]))
  }

  /** Every attempt that is not merely unavailable brings (waiting turns, failures the oldest
      chunk has left) down, lexicographically - unless the process dies before all is written;
      an unavailable one changes neither. */
  lemma AttemptsProgress(store: Store, ns: string, chunk: seq<Id>, answer: Answer, now: Time, retention: Time, done: nat)
    requires Clean(store, ns) && chunk != [] && chunk <= Waiting(store, ns)
    ensures var after, w := AfterFinish(store, ns, chunk, answer, now, retention, done), Waiting(store, ns);
      var left, bad := Waiting(after, ns), Bad(store.attempts, ns, w[0]);
      && Clean(after, ns)
      && (Counts(answer) && Whole(ns, chunk, bad, answer, done) ==>
            || |left| < |w|
            || (left == w && Bad(after.attempts, ns, w[0]) == bad + 1 < POISON_AFTER))
      && (!Counts(answer) ==> left == w && Bad(after.attempts, ns, w[0]) == bad)
      && Left(after, ns) <= Left(store, ns) - (if Counts(answer) && Whole(ns, chunk, bad, answer, done) then 1 else 0)
  {
    AttemptOutcome(store, ns, chunk, answer, now, retention, done, ns);
    var after, bad := AfterFinish(store, ns, chunk, answer, now, retention, done), Bad(store.attempts, ns, chunk[0]);
    assert chunk[0] == Waiting(store, ns)[0];
    RestIsClean(store, after, ns, if TakesTurns(bad, answer, done) then |chunk| else 0, if IsRefusal(answer) && done >= 1 then 1 else 0);
  }

  lemma RestIsClean(store: Store, after: Store, ns: string, n: nat, more: nat)
    requires Clean(store, ns) && Sound(after) && after.next >= store.next
    requires Waiting(store, ns) != [] && n <= |Waiting(store, ns)| && Waiting(after, ns) == Waiting(store, ns)[n..]
    requires forall start: Id ::
      Bad(after.attempts, ns, start) == Bad(store.attempts, ns, start) + if start == Waiting(store, ns)[0] then more else 0
    ensures Clean(after, ns)
    ensures 0 < n < |Waiting(store, ns)| ==> Bad(after.attempts, ns, Waiting(after, ns)[0]) == 0
  {
    var w, left := Waiting(store, ns), Waiting(after, ns);
    WaitingIs(store, ns, store.next);
    WaitingIs(after, ns, after.next);
    assert w[0] in w;
    forall id: Id | (Waits(after, ns, id) && id != Oldest(after, ns)) || id >= after.next ensures Bad(after.attempts, ns, id) == 0 {
      if Waits(after, ns, id) {
        LaterWaits(w, n, id);
      }
    }
    if 0 < n < |w| {
      assert left[0] == w[n] && w[n] in w;
    }
  }

  lemma LaterWaits(w: seq<Id>, n: nat, id: Id)
    requires Ascending(w) && n <= |w| && id in w[n..]
    ensures id in w && (id == w[0] ==> n == 0)
  {
    AfterPrefix(w, n, id);
    if n > 0 {
      assert w[..n][0] == w[0];
    }
  }

  // ----- whole runs

  /** The record is clean, and a fold under way has the first of the waiting turns in hand. */
  ghost predicate Orderly(w: World, ns: string) {
    Clean(w.store, ns) && (ns in w.busy ==> InHand(w.store, ns, w.busy[ns]))
  }

  ghost predicate InHand(store: Store, ns: string, busy: Busy) {
    busy.chunk != [] && busy.chunk <= Waiting(store, ns) && busy.bad == Bad(store.attempts, ns, busy.chunk[0])
  }

  predicate IsAttempt(step: Step, ns: string) { step.Finish? && step.ns == ns && Counts(step.answer) }

  function Written(step: Step, ns: string): nat { if step.WriteTurn? && step.ns == ns then 1 else 0 }

  function Counted(step: Step, ns: string): nat { if IsAttempt(step, ns) then 1 else 0 }

  /** An attempt that the process's death cut off. */
  function CutOff(w: World, step: Step, ns: string): nat
    requires Able(w, step)
  {
    if IsAttempt(step, ns) && !Whole(ns, w.busy[ns].chunk, w.busy[ns].bad, step.answer, step.done) then 1 else 0
  }

  lemma {:induction false} SameBelow(store: Store, after: Store, ns: string, n: nat)
    requires forall id: Id | id < n :: Waits(after, ns, id) <==> Waits(store, ns, id)
    ensures WaitingBelow(after, ns, n) == WaitingBelow(store, ns, n)
  {
    if n > 0 {
      SameBelow(store, after, ns, n - 1);
    }
  }

  /** A new row is one more waiting turn, the newest, or none. */
  lemma AddedWaits(store: Store, row: Row, ns: string)
    requires Clean(store, ns)
    ensures var after := AddRow(store, row);
      && Clean(after, ns) && Waiting(store, ns) <= Waiting(after, ns)
      && |Waiting(after, ns)| == |Waiting(store, ns)| + if row.kind.Message? && row.active && row.ns == ns then 1 else 0
  {
    var after := AddRow(store, row);
    WaitingIs(store, ns, store.next);
    WaitingIs(after, ns, after.next);
    SameBelow(store, after, ns, store.next);
  }

  lemma PurgedKeeps(store: Store, clock: Time, retention: Time, ns: string)
    requires Clean(store, ns)
    ensures var after := Purged(store, clock, retention);
      Clean(after, ns) && Waiting(after, ns) == Waiting(store, ns) && after.attempts == store.attempts
  {
    var after := Purged(store, clock, retention);
    SameWaits(store, clock, retention);
    SameBelow(store, after, ns, store.next);
  }

  lemma ReadKeepsOrder(w: World, step: Step, ns: string)
    requires Orderly(w, ns) && step.Read? && Able(w, step)
    ensures Orderly(Take(w, step), ns)
  {
  }

  lemma FinishSpends(w: World, step: Step, ns: string)
    requires Orderly(w, ns) && step.Finish? && Orderly(w, step.ns) && Able(w, step)
    ensures var next := Take(w, step);
      && Orderly(next, ns)
      && Left(next.store, ns) + Counted(step, ns) <= Left(w.store, ns) + CutOff(w, step, ns)
  {
    var chunk := w.busy[step.ns].chunk;
    assert Take(w, step).store == AfterFinish(w.store, step.ns, chunk, step.answer, step.now, step.factRetention, step.done);
    if step.ns == ns {
      AttemptsProgress(w.store, ns, chunk, step.answer, step.now, step.factRetention, step.done);
    } else {
      AttemptOutcome(w.store, step.ns, chunk, step.answer, step.now, step.factRetention, step.done, ns);
      WaitingIs(w.store, ns, w.store.next);
      var after := Take(w, step).store;
      WaitingIs(after, ns, after.next);
    }
  }

  /** No step brings more than four attempts with it for each turn it writes, and every attempt
      uses one up, unless it was cut off. */
  lemma StepSpends(w: World, step: Step, ns: string)
    requires (forall n :: Orderly(w, n)) && Able(w, step)
    ensures Orderly(Take(w, step), ns)
    ensures Left(Take(w, step).store, ns) + Counted(step, ns) <= Left(w.store, ns) + POISON_AFTER * Written(step, ns) + CutOff(w, step, ns)
  {
    assert Orderly(w, ns);
    match step
    case WriteTurn(n, text, ts) => WriteSpends(w, Row(ts, n, Message, text, true, Unmarked, None), ns);
    case WriteOther(row) => WriteSpends(w, row, ns);
    case Read(_, _, _, _) => ReadKeepsOrder(w, step, ns);
    case Finish(n, _, _, _, _) =>
      assert Orderly(w, n);
      FinishSpends(w, step, ns);
    case Purge(clock, retention) => PurgedKeeps(w.store, clock, retention, ns);
    case Crash =>
  }

  lemma WriteSpends(w: World, row: Row, ns: string)
    requires Orderly(w, ns)
    ensures var next := w.(store := AddRow(w.store, row));
      && Orderly(next, ns)
      && Left(next.store, ns) <= Left(w.store, ns) + if row.kind.Message? && row.active && row.ns == ns then POISON_AFTER else 0
  {
    AddedWaits(w.store, row, ns);
  }

  function AllWritten(steps: seq<Step>, ns: string): nat {
    if steps == [] then 0 else Written(steps[0], ns) + AllWritten(steps[1..], ns)
  }

  function AllCounted(steps: seq<Step>, ns: string): nat {
    if steps == [] then 0 else Counted(steps[0], ns) + AllCounted(steps[1..], ns)
  }

  ghost function AllCutOff(w: World, steps: seq<Step>, ns: string): nat
    requires Run(w, steps).Some?
    decreases |steps|
  {
    if steps == [] then 0 else CutOff(w, steps[0], ns) + AllCutOff(Take(w, steps[0]), steps[1..], ns)
  }

  lemma {:induction false} RunSpends(w: World, steps: seq<Step>, ns: string)
    requires (forall n :: Orderly(w, n)) && Run(w, steps).Some?
    ensures var end := Run(w, steps).value;
      && (forall n :: Orderly(end, n))
      && Left(end.store, ns) + AllCounted(steps, ns) <= Left(w.store, ns) + POISON_AFTER * AllWritten(steps, ns) + AllCutOff(w, steps, ns)
    decreases |steps|
  {
    if steps != [] {
      var next := Take(w, steps[0]);
      forall n ensures Orderly(next, n) {
        StepSpends(w, steps[0], n);
      }
      StepSpends(w, steps[0], ns);
      RunSpends(next, steps[1..], ns);
    }
  }

  lemma LeftIs(store: Store, ns: string)
    ensures var w := Waiting(store, ns);
      0 <= Left(store, ns) <= POISON_AFTER * |w| && (Left(store, ns) == 0 <==> w == [])
  {
  }

  /** In every run, with whatever written, failing and dying in between: the attempts made at a
      namespace - not counting those the model was away for, however many - are at most four
      for each turn waiting at first or written since, and one for each that a death cut off;
      and if there are that many, nothing is left waiting. */
  lemma BacklogDrains(w: World, steps: seq<Step>, ns: string)
    requires (forall n :: Orderly(w, n)) && Run(w, steps).Some?
    ensures var most := POISON_AFTER * (|Waiting(w.store, ns)| + AllWritten(steps, ns)) + AllCutOff(w, steps, ns);
      && AllCounted(steps, ns) <= most
      && (AllCounted(steps, ns) == most ==> Waiting(Run(w, steps).value.store, ns) == [])
  {
    RunSpends(w, steps, ns);
    LeftIs(w.store, ns);
    LeftIs(Run(w, steps).value.store, ns);
  }

  /** ... and every state of every run from the empty store is such a `w`. */
  lemma EveryRunIsOrderly(steps: seq<Step>, ns: string)
    requires Run(START, steps).Some?
    ensures Orderly(Run(START, steps).value, ns)
    ensures AllCounted(steps, ns) <= POISON_AFTER * AllWritten(steps, ns) + AllCutOff(START, steps, ns)
  {
    forall n ensures Orderly(START, n) {
    }
    RunSpends(START, steps, ns);
    BacklogDrains(START, steps, ns);
    assert Waiting(START.store, ns) == [] by {
      WaitingIs(START.store, ns, 1);
    }
  }

  // ----- as the consolidator commits it

  function AfterAttempt(store: Store, ns: string, budget: nat, answer: Answer, now: Time, retention: Time): Store
    requires Waiting(store, ns) != []
  {
    var chunk := Chunk(store, ns, budget);
    CommitAll(store, TxsFor(ns, chunk, Bad(store.attempts, ns, chunk[0]), answer, now, retention))
  }

  lemma CommitTwo(store: Store, a: Tx, b: Tx)
    ensures CommitAll(store, [a, b]) == Commit(Commit(store, a), b)
    ensures CommitAll(store, [a]) == Commit(store, a)
  {
    assert [a][..0] == [];
    assert CommitAll(store, [a]) == Commit(CommitAll(store, [a][..0]), a);
    assert [a, b][..1] == [a];
  }

  lemma CommitThree(store: Store, a: Tx, b: Tx, c: Tx)
    ensures CommitAll(store, [a, b, c]) == Commit(Commit(Commit(store, a), b), c)
  {
    CommitTwo(store, a, b);
    assert [a, b, c][..2] == [a, b];
  }
}
