/** What the rules of TurnStore.dfy and Consolidation.dfy come to, in terms of the rows, the log
    of attempts and the length of the text alone. */
module ConversationMeaning {
  import opened Wrappers
  import opened TurnStore
  import opened Consolidation
  import opened ConsolidationProgress

  // ----- the backoff

  /** A minute after the first failure, twice as long after each further one, six hours at most. */
  lemma {:induction false} BackoffMeans(failures: nat)
    ensures Backoff(0) == 0 && Backoff(1) == 60
    ensures failures > 0 ==> Backoff(failures + 1) == if 2 * Backoff(failures) < 21_600 then 2 * Backoff(failures) else 21_600
  {
    assert Doubled(0) == 1;
    if failures > 0 {
      assert Doubled(failures) == 2 * Doubled(failures - 1);
    }
  }

  // ----- the failures on record

  predicate IsAgainst(a: Attempt, ns: string, start: Id) {
    a.ns == ns && a.chunkStart == start && (a.outcome == Failed || a.outcome == Declined || a.outcome == Unavailable)
  }

  /** The attempts on record that failed at the chunk starting here, the model's absences
      included; and those for which the turns had to answer. */
  function Against(attempts: seq<Attempt>, ns: string, start: Id): set<nat> {
    set i: nat | i < |attempts| && IsAgainst(attempts[i], ns, start)
  }

  function Charged(attempts: seq<Attempt>, ns: string, start: Id): set<nat> {
    set i: nat | i < |attempts| && IsAgainst(attempts[i], ns, start) && attempts[i].outcome != Unavailable
  }

  lemma OneMoreAgainst(attempts: seq<Attempt>, last: Attempt, ns: string, start: Id)
    ensures |Against(attempts + [last], ns, start)| == |Against(attempts, ns, start)| + if IsAgainst(last, ns, start) then 1 else 0
  {
    assert Against(attempts + [last], ns, start) ==
      Against(attempts, ns, start) + if IsAgainst(last, ns, start) then {|attempts|} else {};
  }

  lemma OneMoreCharged(attempts: seq<Attempt>, last: Attempt, ns: string, start: Id)
    ensures |Charged(attempts + [last], ns, start)| ==
      |Charged(attempts, ns, start)| + if IsAgainst(last, ns, start) && last.outcome != Unavailable then 1 else 0
  {
    assert Charged(attempts + [last], ns, start) ==
      Charged(attempts, ns, start) + if IsAgainst(last, ns, start) && last.outcome != Unavailable then {|attempts|} else {};
  }

  lemma {:induction false} FailuresMean(attempts: seq<Attempt>, ns: string, start: Id)
    ensures Failures(attempts, ns, start) == |Against(attempts, ns, start)|
    ensures Bad(attempts, ns, start) == |Charged(attempts, ns, start)|
  {
    if attempts != [] {
      var front, last := attempts[..|attempts| - 1], attempts[|attempts| - 1];
      FailuresMean(front, ns, start);
      OneMoreAgainst(front, last, ns, start);
      OneMoreCharged(front, last, ns, start);
      assert front + [last] == attempts;
    }
  }

  lemma {:induction false} LastFailureMeans(attempts: seq<Attempt>, ns: string, start: Id)
    ensures var last, failed := LastFailure(attempts, ns, start), Against(attempts, ns, start);
      && (last.None? <==> failed == {})
      && (forall i | i in failed :: last.Some? && attempts[i].ts <= last.value)
      && (last.Some? ==> exists i :: i in failed && attempts[i].ts == last.value)
  {
    if attempts != [] {
      var at := |attempts| - 1;
      var front := attempts[..at];
      LastFailureMeans(front, ns, start);
      forall i: nat | i < at ensures front[i] == attempts[i] {
      }
      var failed := Against(attempts, ns, start);
      assert failed == Against(front, ns, start) + if IsAgainst(attempts[at], ns, start) then {at} else {};
      var before := LastFailure(front, ns, start);
      if before.Some? {
        var i :| i in Against(front, ns, start) && front[i].ts == before.value;
        assert i in failed && attempts[i].ts == before.value;
      }
    }
  }

  // ----- the chunk

  predicate IsTurn(store: Store, ns: string, id: Id) {
    id in store.rows && store.rows[id].kind == Message && store.rows[id].active && store.rows[id].ns == ns
  }

  /** The turns that wait, in the order they were written. */
  lemma WaitingMeans(store: Store, ns: string)
    requires Sound(store)
    ensures forall id: Id :: id in Waiting(store, ns) <==> IsTurn(store, ns, id)
    ensures forall i, j | 0 <= i < j < |Waiting(store, ns)| :: Waiting(store, ns)[i] < Waiting(store, ns)[j]
  {
    WaitingIs(store, ns, store.next);
  }

  /** The turns as one text, a line each. */
  function Transcript(store: Store, turns: seq<Id>): string
    requires forall id | id in turns :: id in store.rows
  {
    if turns == [] then "" else Transcript(store, turns[..|turns| - 1]) + store.rows[turns[|turns| - 1]].text + "\n"
  }

  lemma {:induction false} CostIsLength(store: Store, turns: seq<Id>)
    requires forall id | id in turns :: id in store.rows
    ensures Cost(store, turns) == |Transcript(store, turns)|
  {
    if turns != [] {
      CostIsLength(store, turns[..|turns| - 1]);
    }
  }

  /** A fold takes the oldest turns: as many as have no more than four characters for each token
      it may send, a newline after each turn counted, and always one. */
  lemma ChunkMeans(store: Store, ns: string, tokens: nat)
    requires Waiting(store, ns) != []
    ensures forall id | id in Waiting(store, ns) :: id in store.rows
    ensures var turns, chunk := Waiting(store, ns), Chunk(store, ns, tokens * CHARS_PER_TOKEN);
      && chunk != [] && chunk <= turns
      && (|chunk| > 1 ==> |Transcript(store, chunk)| <= 4 * tokens)
      && (|chunk| < |turns| ==> |Transcript(store, turns[..|chunk| + 1])| > 4 * tokens)
  {
    WaitingIs(store, ns, store.next);
    var turns, chunk := Waiting(store, ns), Chunk(store, ns, tokens * CHARS_PER_TOKEN);
    forall id | id in chunk || (|chunk| < |turns| && id in turns[..|chunk| + 1]) ensures id in turns {
    }
    CostIsLength(store, chunk);
    if |chunk| < |turns| {
      CostIsLength(store, turns[..|chunk| + 1]);
    }
  }

  // ----- when a fold is due

  /** Enough turns wait, and since each failed attempt at the oldest of them the backoff after
      that many failures has passed. */
  lemma DueMeans(store: Store, ns: string, minTurns: int, clock: Time)
    ensures Due(store, ns, minTurns, clock) <==>
      && Waiting(store, ns) != [] && |Waiting(store, ns)| >= minTurns
      && var failed := Against(store.attempts, ns, Waiting(store, ns)[0]);
         forall i | i in failed :: store.attempts[i].ts + Backoff(|failed|) <= clock
  {
    if Waiting(store, ns) != [] {
      var start := Waiting(store, ns)[0];
      FailuresMean(store.attempts, ns, start);
      LastFailureMeans(store.attempts, ns, start);
      if LastFailure(store.attempts, ns, start).Some? {
        var i :| i in Against(store.attempts, ns, start) && store.attempts[i].ts == LastFailure(store.attempts, ns, start).value;
        assert Against(store.attempts, ns, start) != {};
      }
    }
  }

  // ----- what an attempt leaves

  /** The row as it is once the turns `ids` of the namespace are marked. */
  function Marked(store: Store, ns: string, ids: seq<Id>, mark: Mark, id: Id): Row
    requires id in store.rows
  {
    if id in ids && IsTurn(store, ns, id) then store.rows[id].(active := false, mark := mark) else store.rows[id]
  }

  predicate OnlyMarks(before: Store, after: Store, ns: string, ids: seq<Id>, mark: Mark) {
    && after.rows.Keys == before.rows.Keys && after.next == before.next
    && forall id | id in before.rows :: after.rows[id] == Marked(before, ns, ids, mark, id)
  }

  /** One episode, the facts after it, each with the time it lasts, and the turns marked with the
      episode; nothing else. */
  ghost predicate Folds(before: Store, after: Store, ns: string, ids: seq<Id>, summary: string, facts: seq<string>, now: Time, lasts: Time) {
    && after.next == before.next + 1 + |facts|
    && (forall id: Id :: id in after.rows <==> id in before.rows || before.next <= id < after.next)
    && (forall id | id in before.rows :: after.rows[id] == Marked(before, ns, ids, FoldedInto(before.next), id))
    && before.next in after.rows && after.rows[before.next] == Row(now, ns, Episode, summary, true, Unmarked, None)
    && forall k | 0 <= k < |facts| :: IsFactRow(after, before.next + 1 + k, ns, facts[k], now, lasts)
  }

  predicate IsFactRow(store: Store, id: Id, ns: string, text: string, now: Time, lasts: Time) {
    id in store.rows && store.rows[id] == Row(now, ns, Fact, text, true, Unmarked, Some(now + lasts))
  }

  ghost predicate FactsAdded(before: Store, after: Store, ns: string, facts: seq<string>, now: Time, lasts: Time) {
    && after.next == before.next + |facts| && after.attempts == before.attempts
    && (forall id: Id :: id in after.rows <==> id in before.rows || before.next <= id < after.next)
    && (forall id | id in before.rows :: after.rows[id] == before.rows[id])
    && (forall k | 0 <= k < |facts| :: IsFactRow(after, before.next + k, ns, facts[k], now, lasts))
  }

  lemma {:induction false} FactsMean(store: Store, ns: string, facts: seq<string>, now: Time, lasts: Time)
    requires Sound(store)
    ensures FactsAdded(store, AddFacts(store, ns, facts, now, lasts), ns, facts, now, lasts)
    decreases |facts|
  {
    if facts != [] {
      var front := facts[..|facts| - 1];
      FactsMean(store, ns, front, now, lasts);
      var before, after := AddFacts(store, ns, front, now, lasts), AddFacts(store, ns, facts, now, lasts);
      forall k | 0 <= k < |facts| ensures IsFactRow(after, store.next + k, ns, facts[k], now, lasts) {
        if k < |front| {
          assert IsFactRow(before, store.next + k, ns, front[k], now, lasts);
        }
      }
    }
  }

  lemma RetiredMeans(store: Store, ns: string, ids: seq<Id>, mark: Mark)
    ensures OnlyMarks(store, Retired(store, ns, ids, mark), ns, ids, mark)
    ensures Retired(store, ns, ids, mark).attempts == store.attempts
  {
  }

  lemma FoldsFrom(before: Store, written: Store, after: Store, ns: string, ids: seq<Id>, summary: string, facts: seq<string>, now: Time, lasts: Time)
    requires Sound(before) && Folds(before, written, ns, [], summary, facts, now, lasts)
    requires OnlyMarks(written, after, ns, ids, FoldedInto(before.next))
    ensures Folds(before, after, ns, ids, summary, facts, now, lasts)
  {
    forall k | 0 <= k < |facts| ensures IsFactRow(after, before.next + 1 + k, ns, facts[k], now, lasts) {
      assert IsFactRow(written, before.next + 1 + k, ns, facts[k], now, lasts);
    }
  }

  lemma EpisodeThenFacts(store: Store, episode: Store, written: Store, ns: string, summary: string, facts: seq<string>, now: Time, lasts: Time)
    requires Sound(store) && episode == AddRow(store, Row(now, ns, Episode, summary, true, Unmarked, None))
    requires FactsAdded(episode, written, ns, facts, now, lasts)
    ensures Folds(store, written, ns, [], summary, facts, now, lasts)
  {
    forall k | 0 <= k < |facts| ensures IsFactRow(written, store.next + 1 + k, ns, facts[k], now, lasts) {
      assert IsFactRow(written, episode.next + k, ns, facts[k], now, lasts);
    }
  }

  lemma FoldMeans(store: Store, ns: string, ids: seq<Id>, summary: string, facts: seq<string>, now: Time, lasts: Time)
    requires Sound(store)
    ensures var after := Commit(store, Fold(ns, ids, summary, facts, now, lasts));
      Folds(store, after, ns, ids, summary, facts, now, lasts) && after.attempts == store.attempts
  {
    var episode := AddRow(store, Row(now, ns, Episode, summary, true, Unmarked, None));
    FactsMean(episode, ns, facts, now, lasts);
    var written := AddFacts(episode, ns, facts, now, lasts);
    EpisodeThenFacts(store, episode, written, ns, summary, facts, now, lasts);
    RetiredMeans(written, ns, ids, FoldedInto(store.next));
    FoldsFrom(store, written, Retired(written, ns, ids, FoldedInto(store.next)), ns, ids, summary, facts, now, lasts);
  }

  lemma CommitFirst(store: Store, txs: seq<Tx>)
    ensures CommitAll(store, []) == store
    ensures |txs| > 0 ==> CommitAll(store, txs[..1]) == Commit(store, txs[0])
    ensures |txs| > 1 ==> CommitAll(store, txs[..2]) == Commit(Commit(store, txs[0]), txs[1])
    ensures |txs| > 2 ==> CommitAll(store, txs[..3]) == Commit(Commit(Commit(store, txs[0]), txs[1]), txs[2])
  {
    if |txs| > 0 {
      assert txs[..1][..0] == [];
    }
    if |txs| > 1 {
      assert txs[..2][..1] == txs[..1];
    }
    if |txs| > 2 {
      assert txs[..3][..2] == txs[..2];
    }
  }

  function Noted(now: Time, ns: string, outcome: Outcome, chunk: seq<Id>): Attempt
    requires chunk != []
  {
    Attempt(now, ns, outcome, chunk[0])
  }

  lemma TwoTxs(store: Store, tx: Tx, note: Attempt, done: nat)
    requires done > 0
    ensures CommitAll(store, UpTo([tx, Note(note)], done)) ==
      if done == 1 then Commit(store, tx) else Commit(store, tx).(attempts := Commit(store, tx).attempts + [note])
  {
    CommitFirst(store, [tx, Note(note)]);
    assert [tx, Note(note)][..2] == [tx, Note(note)];
  }

  lemma SummaryMeans(store: Store, ns: string, chunk: seq<Id>, answer: Answer, now: Time, lasts: Time, done: nat)
    requires Sound(store) && chunk != [] && answer.Summary? && done > 0
    ensures var after := AfterFinish(store, ns, chunk, answer, now, lasts, done);
      && (if answer.summary == "" then OnlyMarks(store, after, ns, chunk, NothingKept)
          else Folds(store, after, ns, chunk, answer.summary, answer.facts, now, lasts))
      && after.attempts == store.attempts
           + if done == 1 then [] else [Noted(now, ns, if answer.summary == "" then Empty else Folded, chunk)]
  {
    if answer.summary == "" {
      TwoTxs(store, FoldNothing(ns, chunk), Noted(now, ns, Empty, chunk), done);
      RetiredMeans(store, ns, chunk, NothingKept);
    } else {
      FoldedMeans(store, ns, chunk, answer.summary, answer.facts, now, lasts, done);
    }
  }

  lemma FoldedMeans(store: Store, ns: string, chunk: seq<Id>, summary: string, facts: seq<string>, now: Time, lasts: Time, done: nat)
    requires Sound(store) && chunk != [] && summary != "" && done > 0
    ensures var after := AfterFinish(store, ns, chunk, Summary(summary, facts), now, lasts, done);
      && Folds(store, after, ns, chunk, summary, facts, now, lasts)
      && after.attempts == store.attempts + if done == 1 then [] else [Noted(now, ns, Folded, chunk)]
  {
    TwoTxs(store, Fold(ns, chunk, summary, facts, now, lasts), Noted(now, ns, Folded, chunk), done);
    FoldMeans(store, ns, chunk, summary, facts, now, lasts);
    FoldsStands(store, Commit(store, Fold(ns, chunk, summary, facts, now, lasts)), Noted(now, ns, Folded, chunk), ns, chunk, summary, facts, now, lasts);
  }

  lemma FoldsStands(before: Store, after: Store, note: Attempt, ns: string, ids: seq<Id>, summary: string, facts: seq<string>, now: Time, lasts: Time)
    requires Folds(before, after, ns, ids, summary, facts, now, lasts)
    ensures Folds(before, after.(attempts := after.attempts + [note]), ns, ids, summary, facts, now, lasts)
  {
    forall k | 0 <= k < |facts| ensures IsFactRow(after.(attempts := after.attempts + [note]), before.next + 1 + k, ns, facts[k], now, lasts) {
      assert IsFactRow(after, before.next + 1 + k, ns, facts[k], now, lasts);
    }
  }

  lemma RefusalMeans(store: Store, ns: string, chunk: seq<Id>, answer: Answer, now: Time, lasts: Time, done: nat)
    requires Sound(store) && chunk != [] && !answer.Summary? && answer != Raises(true) && done > 0
    ensures var after := AfterFinish(store, ns, chunk, answer, now, lasts, done);
      var poisons := |Charged(store.attempts, ns, chunk[0])| >= 3;
      && (if poisons && done > 1 then OnlyMarks(store, after, ns, chunk, Poisoned)
          else after.rows == store.rows && after.next == store.next)
      && after.attempts == store.attempts + [Noted(now, ns, if answer.NoOutput? then Declined else Failed, chunk)]
           + if poisons && done > 2 then [Noted(now, ns, PoisonedChunk, chunk)] else []
  {
    FailuresMean(store.attempts, ns, chunk[0]);
    var txs := TxsFor(ns, chunk, Bad(store.attempts, ns, chunk[0]), answer, now, lasts);
    CommitFirst(store, txs);
    assert txs[..|txs|] == txs;
    var noted := Commit(store, txs[0]);
    assert noted == store.(attempts := store.attempts + [Noted(now, ns, if answer.NoOutput? then Declined else Failed, chunk)]);
    if |txs| > 1 {
      assert OnlyMarks(store, Commit(noted, txs[1]), ns, chunk, Poisoned);
    }
  }

  /** What an attempt at a chunk leaves when the process dies after `done` transactions, or not
      at all. A model that is away is noted, and no more. A failure is noted; the fourth for
      which the turns answer marks them poisoned, and that is noted. An empty summary marks
      the turns, and only then is it noted; so does any other once it is written down. */
  lemma AttemptMeans(store: Store, ns: string, chunk: seq<Id>, answer: Answer, now: Time, lasts: Time, done: nat)
    requires Sound(store) && chunk != []
    ensures var after := AfterFinish(store, ns, chunk, answer, now, lasts, done);
      var poisons := |Charged(store.attempts, ns, chunk[0])| >= 3;
      if done == 0 then after == store
      else match answer
        case Raises(true) => after == store.(attempts := store.attempts + [Noted(now, ns, Unavailable, chunk)])
        case Summary(summary, facts) =>
          && (if summary == "" then OnlyMarks(store, after, ns, chunk, NothingKept)
              else Folds(store, after, ns, chunk, summary, facts, now, lasts))
          && after.attempts == store.attempts
               + if done == 1 then [] else [Noted(now, ns, if summary == "" then Empty else Folded, chunk)]
        case _ =>
          && (if poisons && done > 1 then OnlyMarks(store, after, ns, chunk, Poisoned)
              else after.rows == store.rows && after.next == store.next)
          && after.attempts == store.attempts + [Noted(now, ns, if answer.NoOutput? then Declined else Failed, chunk)]
               + if poisons && done > 2 then [Noted(now, ns, PoisonedChunk, chunk)] else []
  {
    CommitFirst(store, TxsFor(ns, chunk, Bad(store.attempts, ns, chunk[0]), answer, now, lasts));
    if done > 0 {
      match answer
      case Raises(true) =>
      case Summary(_, _) => SummaryMeans(store, ns, chunk, answer, now, lasts, done);
      case _ => RefusalMeans(store, ns, chunk, answer, now, lasts, done);
    }
  }

  /** An attempt that nothing cuts off, at the oldest turns the budget allows. */
  lemma WholeAttempt(store: Store, ns: string, budget: nat, answer: Answer, now: Time, lasts: Time)
    requires Waiting(store, ns) != []
    ensures AfterAttempt(store, ns, budget, answer, now, lasts) == AfterFinish(store, ns, Chunk(store, ns, budget), answer, now, lasts, 3)
  {
    var chunk := Chunk(store, ns, budget);
    var txs := TxsFor(ns, chunk, Bad(store.attempts, ns, chunk[0]), answer, now, lasts);
    assert |txs| == 3 ==> txs[..3] == txs;
  }

  // ----- retention

  /** A time the store itself recorded. */
  ghost predicate Recorded(store: Store, t: Time) {
    || (exists id :: id in store.rows && store.rows[id].ts == t)
    || (exists i :: 0 <= i < |store.attempts| && store.attempts[i].ts == t)
  }

  /** Past by the clock, and past by a time the store recorded and a day more. */
  ghost predicate Past(store: Store, clock: Time, t: Time) { t < clock && exists m :: Recorded(store, m) && t < m + 86_400 }

  /** What retention deletes: the turns that are marked and were written longer ago than turns
      are kept, and the facts that expired. */
  ghost predicate Goes(store: Store, clock: Time, kept: Time, row: Row) {
    || (row.kind == Message && !row.active && row.mark != Unmarked && Past(store, clock, row.ts + kept))
    || (row.kind == Fact && row.expires.Some? && Past(store, clock, row.expires.value))
  }

  lemma NewestMeans(store: Store)
    ensures Newest(store).None? ==> forall t :: !Recorded(store, t)
    ensures Newest(store).Some? ==> Recorded(store, Newest(store).value) && forall t | Recorded(store, t) :: t <= Newest(store).value
  {
    var times := (set id | id in store.rows :: store.rows[id].ts) + (set i | 0 <= i < |store.attempts| :: store.attempts[i].ts);
    forall t ensures t in times <==> Recorded(store, t) {
    }
  }

  lemma PurgeMeans(store: Store, clock: Time, kept: Time)
    ensures var after := Purged(store, clock, kept);
      && after.next == store.next && after.attempts == store.attempts
      && (forall id: Id :: id in after.rows <==> id in store.rows && !Goes(store, clock, kept, store.rows[id]))
      && forall id | id in after.rows :: after.rows[id] == store.rows[id]
  {
    NewestMeans(store);
    var after := Purged(store, clock, kept);
    if Newest(store).Some? {
      forall t ensures Past(store, clock, t) <==> t < RetentionNow(store, clock).value {
      }
      forall id: Id | id in store.rows ensures id in after.rows <==> !Goes(store, clock, kept, store.rows[id]) {
        var row := store.rows[id];
        assert Past(store, clock, row.ts + kept) <==> row.ts + kept < RetentionNow(store, clock).value;
      }
    }
  }
}
