/** Folding conversations into memory as they scroll out (src/pionir/consolidate.py): what one
    attempt does, and where every turn ever written is, in every run of every namespace. */
module Consolidation {
  import opened Wrappers
  import opened TurnStore

  const CHARS_PER_TOKEN := 4
  const BACKOFF_FIRST: Time := 60
  const BACKOFF_MAX: Time := 6 * 3600
  const POISON_AFTER := 4

  function Doubled(n: nat): nat { if n == 0 then 1 else 2 * Doubled(n - 1) }

  function Backoff(failures: nat): Time {
    if failures == 0 then 0
    else
      var wait := BACKOFF_FIRST * Doubled(failures - 1);
      if wait < BACKOFF_MAX then wait else BACKOFF_MAX
  }

  // ----- the chunk

  /** What the turns cost: their text and a newline each. */
  function Cost(store: Store, turns: seq<Id>): nat
    requires forall id | id in turns :: id in store.rows
  {
    if turns == [] then 0 else Cost(store, turns[..|turns| - 1]) + |store.rows[turns[|turns| - 1]].text| + 1
  }

  /** The oldest turns that fit the budget, and always at least one. */
  predicate IsChunk(store: Store, turns: seq<Id>, budget: nat, n: nat)
    requires forall id | id in turns :: id in store.rows
  {
    && 1 <= n <= |turns|
    && (n > 1 ==> Cost(store, turns[..n]) <= budget)
    && (n < |turns| ==> Cost(store, turns[..n + 1]) > budget)
  }

  function ChunkSize(store: Store, turns: seq<Id>, budget: nat, n: nat): (size: nat)
    requires forall id | id in turns :: id in store.rows
    requires 1 <= n <= |turns| && (n > 1 ==> Cost(store, turns[..n]) <= budget)
    ensures IsChunk(store, turns, budget, size)
    decreases |turns| - n
  {
    if n < |turns| && Cost(store, turns[..n + 1]) <= budget then ChunkSize(store, turns, budget, n + 1) else n
  }

  /** Costs only grow, so the rule picks one size. */
  lemma {:induction false} CostGrows(store: Store, turns: seq<Id>, m: nat, n: nat)
    requires forall id | id in turns :: id in store.rows
    requires m < n <= |turns|
    ensures Cost(store, turns[..m]) < Cost(store, turns[..n])
    decreases n
  {
    assert turns[..n][..n - 1] == turns[..n - 1];
    assert turns[..n][n - 1] == turns[n - 1];
    if m < n - 1 {
      CostGrows(store, turns, m, n - 1);
    }
  }

  lemma ChunkIsUnique(store: Store, turns: seq<Id>, budget: nat, m: nat, n: nat)
    requires forall id | id in turns :: id in store.rows
    requires IsChunk(store, turns, budget, m) && IsChunk(store, turns, budget, n)
    ensures m == n
  {
    if m < n {
      if m + 1 < n {
        CostGrows(store, turns, m + 1, n);
      }
    } else if n < m {
      if n + 1 < m {
        CostGrows(store, turns, n + 1, m);
      }
    }
  }

  function Chunk(store: Store, ns: string, budget: nat): (chunk: seq<Id>)
    requires Waiting(store, ns) != []
    ensures chunk != [] && chunk <= Waiting(store, ns)
  {
    WaitingIs(store, ns, store.next);
    var turns := Waiting(store, ns);
    turns[..ChunkSize(store, turns, budget, 1)]
  }

  // ----- one attempt

  datatype Answer = Raises(transient: bool) | NoOutput | Summary(summary: string, facts: seq<string>)

  /** The summary and the facts come stripped; an empty summary is a valid answer. */
  function TxsFor(ns: string, chunk: seq<Id>, bad: nat, answer: Answer, now: Time, factRetention: Time): seq<Tx>
    requires chunk != []
  {
    match answer
    case Raises(true) => [Note(Attempt(now, ns, Unavailable, chunk[0]))]
    case Raises(false) => FailedTxs(ns, chunk, Failed, bad + 1, now)
    case NoOutput => FailedTxs(ns, chunk, Declined, bad + 1, now)
    case Summary(summary, facts) =>
      if summary == "" then [FoldNothing(ns, chunk), Note(Attempt(now, ns, Empty, chunk[0]))]
      else [Fold(ns, chunk, summary, facts, now, factRetention), Note(Attempt(now, ns, Folded, chunk[0]))]
  }

  function FailedTxs(ns: string, chunk: seq<Id>, outcome: Outcome, failures: nat, now: Time): seq<Tx>
    requires chunk != []
  {
    [Note(Attempt(now, ns, outcome, chunk[0]))]
    + if failures >= POISON_AFTER then [Poison(ns, chunk), Note(Attempt(now, ns, PoisonedChunk, chunk[0]))] else []
  }

  /** Enough turns wait, and their oldest chunk is not backing off. */
  predicate Due(store: Store, ns: string, minTurns: int, clock: Time) {
    var turns := Waiting(store, ns);
    && |turns| >= minTurns && turns != []
    && !BackingOff(store.attempts, ns, turns[0], clock)
  }

  /** Nothing waits, and that was said to be enough: there is no chunk to look at. */
  predicate NothingToRead(store: Store, ns: string, minTurns: int) { Waiting(store, ns) == [] && minTurns <= 0 }

  predicate BackingOff(attempts: seq<Attempt>, ns: string, start: Id, clock: Time) {
    var failures, last := Failures(attempts, ns, start), LastFailure(attempts, ns, start);
    failures > 0 && last.Some? && clock < last.value + Backoff(failures)
  }

  // ----- every run: where each turn is

  /** A namespace's fold under way: the chunk it read, and its failures so far. */
  datatype Busy = Busy(chunk: seq<Id>, bad: nat)

  /** A deleted turn, as the retention found it. */
  datatype Gone = Gone(row: Row, cutoff: Time)

  /** The store, the folds under way, every turn ever written and those deleted. */
  datatype World = World(store: Store, busy: map<string, Busy>, turns: map<Id, string>, gone: map<Id, Gone>)

  const START := World(Store(map[], 1, []), map[], map[], map[])

  datatype Step =
    | WriteTurn(ns: string, text: string, ts: Time)
    | WriteOther(row: Row)
    | Read(ns: string, budget: nat, minTurns: int, clock: Time)
    | Finish(ns: string, answer: Answer, now: Time, factRetention: Time, done: nat)   // the process may die after `done` transactions
    | Purge(clock: Time, turnRetention: Time)
    | Crash

  predicate Able(w: World, step: Step) {
    match step
    case WriteOther(row) => !row.kind.Message?
    case Read(ns, _, minTurns, clock) => ns !in w.busy && Due(w.store, ns, minTurns, clock)
    case Finish(ns, _, _, _, _) => ns in w.busy && w.busy[ns].chunk != []
    case _ => true
  }

  ghost function Take(w: World, step: Step): World
    requires Able(w, step)
  {
    match step
    case WriteTurn(ns, text, ts) =>
      w.(store := AddRow(w.store, Row(ts, ns, Message, text, true, Unmarked, None)), turns := w.turns[w.store.next := ns])
    case WriteOther(row) => w.(store := AddRow(w.store, row))
    case Read(ns, budget, _, _) =>
      var chunk := Chunk(w.store, ns, budget);
      w.(busy := w.busy[ns := Busy(chunk, Bad(w.store.attempts, ns, chunk[0]))])
    case Finish(ns, answer, now, retention, done) =>
      var txs := TxsFor(ns, w.busy[ns].chunk, w.busy[ns].bad, answer, now, retention);
      w.(store := CommitAll(w.store, if done <= |txs| then txs[..done] else txs), busy := w.busy - {ns})
    case Purge(clock, retention) =>
      var store := Purged(w.store, clock, retention);
      w.(store := store, gone := w.gone + Deleted(w.store, store, clock, retention))
    case Crash => w.(busy := map[])
  }

  ghost function Deleted(before: Store, after: Store, clock: Time, retention: Time): map<Id, Gone> {
    match RetentionNow(before, clock)
    case None => map[]
    case Some(now) =>
      map id | id in before.rows && id !in after.rows && before.rows[id].kind.Message? :: Gone(before.rows[id], now - retention)
  }

  ghost function Run(w: World, steps: seq<Step>): Option<World>
    decreases |steps|
  {
    if steps == [] then Some(w)
    else if Able(w, steps[0]) then Run(Take(w, steps[0]), steps[1..])
    else None
  }

  /** The fate of a turn. */
  datatype Fate = IsWaiting | IsFolded(episode: Id) | IsEmpty | IsPoisoned | IsDeleted(mark: Mark) | IsLost

  function FateOf(w: World, id: Id): Fate {
    if id in w.store.rows then
      if w.store.rows[id].active then IsWaiting
      else match w.store.rows[id].mark
        case FoldedInto(e) => IsFolded(e)
        case NothingKept => IsEmpty
        case Poisoned => IsPoisoned
        case Unmarked => IsLost
    else if id in w.gone then IsDeleted(w.gone[id].row.mark)
    else IsLost
  }

  predicate IsEpisode(store: Store, ns: string, id: Id) {
    id in store.rows && store.rows[id].kind.Episode? && store.rows[id].ns == ns
  }

  predicate MarkOk(store: Store, ns: string, mark: Mark) { mark.FoldedInto? ==> IsEpisode(store, ns, mark.episode) }

  /** Where one turn may be: in the table, waiting and unmarked, or retired with a mark, in which
      case a fold's episode exists; or deleted, after it was marked and past its retention. */
  ghost predicate TurnOk(w: World, id: Id)
    requires id in w.turns
  {
    var ns := w.turns[id];
    if id in w.store.rows then
      var row := w.store.rows[id];
      && row.kind.Message? && row.ns == ns
      && (row.active <==> row.mark.Unmarked?) && MarkOk(w.store, ns, row.mark)
    else
      && id in w.gone && !w.gone[id].row.active && !w.gone[id].row.mark.Unmarked? && MarkOk(w.store, ns, w.gone[id].row.mark)
      && w.gone[id].row.ts < w.gone[id].cutoff
  }

  ghost predicate Inv(w: World) {
    && Below(w.turns.Keys, w.store.next) && Below(w.store.rows.Keys, w.store.next)
    && (forall id | id in w.turns :: TurnOk(w, id))
    && (forall id | id in w.store.rows && w.store.rows[id].kind.Message? :: id in w.turns)
    && (forall ns :: NewestWait(w, ns))
    && (forall ns | ns in w.busy :: IsOldest(w.store, ns, w.busy[ns].chunk))
  }

  predicate Below(ids: set<Id>, n: nat) { forall id | id in ids :: id < n }

  /** The turns that wait are the last ones written. */
  ghost predicate NewestWait(w: World, ns: string) {
    forall i, j | i in w.turns && j in w.turns && w.turns[i] == ns && w.turns[j] == ns && i < j && Waits(w.store, ns, i) ::
      Waits(w.store, ns, j)
  }

  /** The chunk is exactly the waiting turns up to its last one. */
  ghost predicate IsOldest(store: Store, ns: string, chunk: seq<Id>) {
    chunk != [] && forall id :: id in chunk <==> Waits(store, ns, id) && id <= chunk[|chunk| - 1]
  }

  // ----- every transaction keeps it

  lemma AddRowKeeps(w: World, row: Row)
    requires Inv(w) && !row.kind.Message?
    ensures Inv(w.(store := AddRow(w.store, row)))
  {
    var next := w.(store := AddRow(w.store, row));
    forall id | id in w.turns ensures TurnOk(next, id) {
      assert TurnOk(w, id);
    }
    forall ns ensures NewestWait(next, ns) {
      assert NewestWait(w, ns);
    }
    forall ns | ns in w.busy ensures IsOldest(next.store, ns, w.busy[ns].chunk) {
      assert IsOldest(w.store, ns, w.busy[ns].chunk);
    }
  }

  lemma {:induction false} AddFactsKeeps(w: World, ns: string, facts: seq<string>, now: Time, retention: Time)
    requires Inv(w)
    ensures Inv(w.(store := AddFacts(w.store, ns, facts, now, retention)))
    ensures forall id | id in w.store.rows :: id in AddFacts(w.store, ns, facts, now, retention).rows
              && AddFacts(w.store, ns, facts, now, retention).rows[id] == w.store.rows[id]
    decreases |facts|
  {
    if facts != [] {
      var front := facts[..|facts| - 1];
      AddFactsKeeps(w, ns, front, now, retention);
      AddRowKeeps(w.(store := AddFacts(w.store, ns, front, now, retention)),
                  Row(now, ns, Fact, facts[|facts| - 1], true, Unmarked, Some(now + retention)));
    }
  }

  /** Retiring the oldest waiting turns, with a mark, leaves the newest ones waiting. */
  lemma RetiredKeeps(w: World, ns: string, chunk: seq<Id>, mark: Mark)
    requires Inv(w) && ns !in w.busy && IsOldest(w.store, ns, chunk)
    requires !mark.Unmarked? && MarkOk(w.store, ns, mark)
    ensures Inv(w.(store := Retired(w.store, ns, chunk, mark)))
  {
    var next := w.(store := Retired(w.store, ns, chunk, mark));
    forall id | id in w.turns ensures TurnOk(next, id) {
      assert TurnOk(w, id);
    }
    forall n ensures NewestWait(next, n) {
      assert NewestWait(w, n);
      forall i, j | i in w.turns && j in w.turns && w.turns[i] == n && w.turns[j] == n && i < j && Waits(next.store, n, i)
        ensures Waits(next.store, n, j)
      {
        assert Waits(w.store, n, i);
        assert Waits(w.store, n, j);
      }
    }
    forall n | n in w.busy ensures IsOldest(next.store, n, w.busy[n].chunk) {
      assert IsOldest(w.store, n, w.busy[n].chunk);
      forall id ensures id in w.busy[n].chunk <==> Waits(next.store, n, id) && id <= w.busy[n].chunk[|w.busy[n].chunk| - 1] {
        assert Waits(next.store, n, id) <==> Waits(w.store, n, id);
      }
    }
  }

  lemma SameOldest(before: Store, after: Store, ns: string, chunk: seq<Id>)
    requires IsOldest(before, ns, chunk) && forall id :: Waits(after, ns, id) <==> Waits(before, ns, id)
    ensures IsOldest(after, ns, chunk)
  {
  }

  lemma FoldKeeps(w: World, tx: Tx)
    requires Inv(w) && tx.Fold? && tx.ns !in w.busy && IsOldest(w.store, tx.ns, tx.ids)
    ensures Inv(w.(store := Commit(w.store, tx)))
  {
    var episode := w.(store := AddRow(w.store, Row(tx.now, tx.ns, Episode, tx.summary, true, Unmarked, None)));
    AddRowKeeps(w, Row(tx.now, tx.ns, Episode, tx.summary, true, Unmarked, None));
    var facts := episode.(store := AddFacts(episode.store, tx.ns, tx.facts, tx.now, tx.factRetention));
    AddFactsKeeps(episode, tx.ns, tx.facts, tx.now, tx.factRetention);
    FactsDoNotWait(episode.store, tx.ns, tx.facts, tx.now, tx.factRetention, tx.ns);
    SameOldest(w.store, facts.store, tx.ns, tx.ids);
    RetiredKeeps(facts, tx.ns, tx.ids, FoldedInto(w.store.next));
  }

  lemma {:induction false} FactsDoNotWait(store: Store, ns: string, facts: seq<string>, now: Time, retention: Time, n: string)
    requires Below(store.rows.Keys, store.next)
    ensures forall id :: Waits(AddFacts(store, ns, facts, now, retention), n, id) <==> Waits(store, n, id)
    ensures Below(AddFacts(store, ns, facts, now, retention).rows.Keys, AddFacts(store, ns, facts, now, retention).next)
    decreases |facts|
  {
    if facts != [] {
      FactsDoNotWait(store, ns, facts[..|facts| - 1], now, retention, n);
    }
  }

  /** What the consolidator's transactions are: at most one of them touches turns. */
  predicate Shape(ns: string, chunk: seq<Id>, txs: seq<Tx>) {
    && |txs| <= 3
    && forall k | 0 <= k < |txs| ::
         match txs[k]
         case Note(_) => true
         case Fold(n, ids, _, _, _, _) => k == 0 && n == ns && ids == chunk && |txs| == 2
         case FoldNothing(n, ids) => k == 0 && n == ns && ids == chunk && |txs| == 2
         case Poison(n, ids) => k == 1 && n == ns && ids == chunk && txs[0].Note? && |txs| == 3
  }

  lemma TxsShape(ns: string, chunk: seq<Id>, bad: nat, answer: Answer, now: Time, retention: Time)
    requires chunk != []
    ensures Shape(ns, chunk, TxsFor(ns, chunk, bad, answer, now, retention))
  {
  }

  lemma NoteKeeps(w: World, attempt: Attempt)
    requires Inv(w)
    ensures Inv(w.(store := Commit(w.store, Note(attempt))))
  {
    var next := w.(store := Commit(w.store, Note(attempt)));
    forall id | id in w.turns ensures TurnOk(next, id) {
      assert TurnOk(w, id);
    }
    forall ns ensures NewestWait(next, ns) {
      assert NewestWait(w, ns);
    }
    forall ns | ns in w.busy ensures IsOldest(next.store, ns, w.busy[ns].chunk) {
      SameOldest(w.store, next.store, ns, w.busy[ns].chunk);
    }
  }

  lemma {:induction false} PrefixKeeps(w: World, ns: string, chunk: seq<Id>, txs: seq<Tx>, n: nat)
    requires Inv(w) && ns !in w.busy && IsOldest(w.store, ns, chunk) && Shape(ns, chunk, txs) && n <= |txs|
    ensures Inv(w.(store := CommitAll(w.store, txs[..n])))
    ensures (forall k | 0 <= k < n :: txs[k].Note?) ==> CommitAll(w.store, txs[..n]).rows == w.store.rows
  {
    if n == 0 {
      assert CommitAll(w.store, txs[..0]) == w.store;
    } else {
      PrefixKeeps(w, ns, chunk, txs, n - 1);
      var before, tx := w.(store := CommitAll(w.store, txs[..n - 1])), txs[n - 1];
      assert txs[..n][..n - 1] == txs[..n - 1];
      match tx
      case Note(a) => NoteKeeps(before, a);
      case Fold(_, _, _, _, _, _) =>
        assert before.store == w.store;
        FoldKeeps(before, tx);
      case FoldNothing(_, _) =>
        assert before.store == w.store;
        RetiredKeeps(before, ns, chunk, NothingKept);
      case Poison(_, _) =>
        SameOldest(w.store, before.store, ns, chunk);
        RetiredKeeps(before, ns, chunk, Poisoned);
    }
  }

  // ----- every step keeps it

  lemma ReadKeeps(w: World, step: Step)
    requires Inv(w) && step.Read? && Able(w, step)
    ensures Inv(Take(w, step))
  {
    var next, ns := Take(w, step), step.ns;
    WaitingIs(w.store, ns, w.store.next);
    var turns, chunk := Waiting(w.store, ns), Chunk(w.store, ns, step.budget);
    var last := chunk[|chunk| - 1];
    assert chunk == turns[..|chunk|];
    forall id ensures id in chunk <==> Waits(w.store, ns, id) && id <= last {
      if Waits(w.store, ns, id) && id <= last {
        assert id in turns;
        var k :| 0 <= k < |turns| && turns[k] == id;
        assert k < |chunk|;
        assert chunk[k] == id;
      }
    }
    forall id | id in w.turns ensures TurnOk(next, id) {
      assert TurnOk(w, id);
    }
    forall n ensures NewestWait(next, n) {
      assert NewestWait(w, n);
    }
  }

  lemma FinishKeeps(w: World, step: Step)
    requires Inv(w) && step.Finish? && Able(w, step)
    ensures Inv(Take(w, step))
  {
    var ns := step.ns;
    var chunk := w.busy[ns].chunk;
    var free := w.(busy := w.busy - {ns});
    FreeKeeps(w, ns);
    TxsShape(ns, chunk, w.busy[ns].bad, step.answer, step.now, step.factRetention);
    var txs := TxsFor(ns, chunk, w.busy[ns].bad, step.answer, step.now, step.factRetention);
    var n := if step.done <= |txs| then step.done else |txs|;
    PrefixKeeps(free, ns, chunk, txs, n);
    assert txs[..|txs|] == txs;
  }

  lemma FreeKeeps(w: World, ns: string)
    requires Inv(w)
    ensures Inv(w.(busy := w.busy - {ns}))
  {
    var next := w.(busy := w.busy - {ns});
    forall id | id in w.turns ensures TurnOk(next, id) {
      assert TurnOk(w, id);
    }
    forall n ensures NewestWait(next, n) {
      assert NewestWait(w, n);
    }
  }

  lemma WriteKeeps(w: World, ns: string, text: string, ts: Time)
    requires Inv(w)
    ensures Inv(Take(w, WriteTurn(ns, text, ts)))
  {
    var next := Take(w, WriteTurn(ns, text, ts));
    forall id | id in next.turns ensures TurnOk(next, id) {
      assert id in w.turns ==> TurnOk(w, id);
    }
    forall n ensures NewestWait(next, n) {
      assert NewestWait(w, n);
    }
    forall n | n in w.busy ensures IsOldest(next.store, n, w.busy[n].chunk) {
      var chunk := w.busy[n].chunk;
      assert chunk[|chunk| - 1] in chunk;
      assert IsOldest(w.store, n, chunk);
      assert forall id | id != w.store.next :: Waits(next.store, n, id) <==> Waits(w.store, n, id);
    }
  }

  /** However the clock jumps, retention deletes no turn that waits. */
  lemma PurgeKeeps(w: World, clock: Time, retention: Time)
    requires Inv(w)
    ensures Inv(Take(w, Purge(clock, retention)))
    ensures forall ns, id | Waits(w.store, ns, id) :: Waits(Purged(w.store, clock, retention), ns, id)
  {
    var next := Take(w, Purge(clock, retention));
    forall id | id in w.turns ensures TurnOk(next, id) {
      PurgedTurn(w, clock, retention, id);
    }
    SameWaits(w.store, clock, retention);
    forall n ensures NewestWait(next, n) {
      assert NewestWait(w, n);
    }
    forall n | n in w.busy ensures IsOldest(next.store, n, w.busy[n].chunk) {
      SameOldest(w.store, next.store, n, w.busy[n].chunk);
    }
  }

  lemma SameWaits(store: Store, clock: Time, retention: Time)
    ensures forall ns, id :: Waits(Purged(store, clock, retention), ns, id) <==> Waits(store, ns, id)
  {
  }

  lemma PurgedTurn(w: World, clock: Time, retention: Time, id: Id)
    requires id in w.turns && TurnOk(w, id)
    ensures TurnOk(Take(w, Purge(clock, retention)), id)
  {
    MarkStays(w.store, clock, retention, w.turns[id]);
  }

  lemma MarkStays(store: Store, clock: Time, retention: Time, ns: string)
    ensures forall mark | MarkOk(store, ns, mark) :: MarkOk(Purged(store, clock, retention), ns, mark)
  {
  }

  lemma TakeKeepsInv(w: World, step: Step)
    requires Inv(w) && Able(w, step)
    ensures Inv(Take(w, step))
  {
    match step
    case WriteTurn(ns, text, ts) => WriteKeeps(w, ns, text, ts);
    case WriteOther(row) => AddRowKeeps(w, row);
    case Read(_, _, _, _) => ReadKeeps(w, step);
    case Finish(_, _, _, _, _) => FinishKeeps(w, step);
    case Purge(clock, retention) => PurgeKeeps(w, clock, retention);
    case Crash =>
      var next := Take(w, step);
      forall id | id in w.turns ensures TurnOk(next, id) {
        assert TurnOk(w, id);
      }
      forall n ensures NewestWait(next, n) {
        assert NewestWait(w, n);
      }
  }

  lemma {:induction false} RunKeepsInv(w: World, steps: seq<Step>)
    requires Inv(w) && Run(w, steps).Some?
    ensures Inv(Run(w, steps).value)
    decreases |steps|
  {
    if steps != [] {
      TakeKeepsInv(w, steps[0]);
      RunKeepsInv(Take(w, steps[0]), steps[1..]);
    }
  }

  /** No turn is ever lost: in every run, with one consolidator for each namespace, every turn
      ever written waits, or is folded into an episode that exists, or is marked empty or
      poisoned, or was deleted after such a mark and past its retention; and the turns of a
      namespace that wait are its newest ones. */
  lemma EveryTurnHasAPlace(steps: seq<Step>, id: Id)
    requires Run(START, steps).Some? && id in Run(START, steps).value.turns
    ensures var w := Run(START, steps).value;
      var ns := w.turns[id];
      && !FateOf(w, id).IsLost?
      && (FateOf(w, id).IsFolded? ==> IsEpisode(w.store, ns, FateOf(w, id).episode))
      && (FateOf(w, id).IsDeleted? ==>
            && !FateOf(w, id).mark.Unmarked? && MarkOk(w.store, ns, FateOf(w, id).mark)
            && w.gone[id].row.ts < w.gone[id].cutoff)
      && (FateOf(w, id).IsWaiting? ==> forall later | later in w.turns && later > id && w.turns[later] == ns :: FateOf(w, later).IsWaiting?)
  {
    RunKeepsInv(START, steps);
    var w := Run(START, steps).value;
    assert TurnOk(w, id);
    if FateOf(w, id).IsWaiting? {
      assert NewestWait(w, w.turns[id]);
      assert Waits(w.store, w.turns[id], id);
    }
  }
}
