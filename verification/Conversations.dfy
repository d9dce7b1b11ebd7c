/** The store and the consolidator as objects: `Cortex` commits the transactions of TurnStore.dfy
    in place, and `Consolidator` makes one attempt at a time, exactly when one is due. */
module Conversations {
  import opened Wrappers
  import opened TurnStore
  import opened Consolidation
  import opened ConsolidationProgress

  class Cortex {
    var rows: map<Id, Row>
    var next: Id
    var attempts: seq<Attempt>

    function Value(): Store
      reads this
    {
      Store(rows, next, attempts)
    }

    constructor ()
      ensures Value() == START.store
    {
      rows, next, attempts := map[], 1, [];
    }

    method Insert(row: Row) returns (id: Id)
      modifies this
      ensures id == old(next) && Value() == AddRow(old(Value()), row)
    {
      id := next;
      rows := rows[next := row];
      next := next + 1;
    }

    /** The waiting turns of the namespace, ORDER BY id. */
    method Messages(ns: string) returns (turns: seq<Id>)
      ensures turns == Waiting(Value(), ns)
    {
      turns := [];
      for id := 0 to next
        invariant turns == WaitingBelow(Value(), ns, id)
      {
        if id in rows && rows[id].kind.Message? && rows[id].active && rows[id].ns == ns {
          turns := turns + [id];
        }
      }
    }

    method ChunkFailures(ns: string, start: Id) returns (failures: nat, last: Option<Time>, bad: nat)
      ensures failures == Failures(attempts, ns, start) && bad == Bad(attempts, ns, start)
      ensures last == LastFailure(attempts, ns, start)
    {
      failures, last, bad := 0, None, 0;
      for i := 0 to |attempts|
        invariant failures == Failures(attempts[..i], ns, start) && bad == Bad(attempts[..i], ns, start)
        invariant last == LastFailure(attempts[..i], ns, start)
      {
        var a := attempts[i];
        assert attempts[..i + 1][..i] == attempts[..i];
        if a.ns == ns && a.chunkStart == start && (a.outcome.Failed? || a.outcome.Declined? || a.outcome.Unavailable?) {
          failures := failures + 1;
          if last.None? || last.value <= a.ts {
            last := Some(a.ts);
          }
          if !a.outcome.Unavailable? {
            bad := bad + 1;
          }
        }
      }
      assert attempts[..|attempts|] == attempts;
    }

    method NoteConsolidation(attempt: Attempt)
      modifies this
      ensures Value() == Commit(old(Value()), Note(attempt))
    {
      attempts := attempts + [attempt];
    }

    method Retire(ns: string, ids: seq<Id>, mark: Mark)
      modifies this
      ensures Value() == Retired(old(Value()), ns, ids, mark)
    {
      rows := map id | id in rows ::
        if id in ids && rows[id].kind.Message? && rows[id].active && rows[id].ns == ns
        then rows[id].(active := false, mark := mark) else rows[id];
    }

    /** One episode, its facts, and the turns retired, together. */
    method FoldTurns(ns: string, ids: seq<Id>, summary: string, facts: seq<string>, now: Time, factRetention: Time) returns (episode: Id)
      modifies this
      ensures Value() == Commit(old(Value()), Fold(ns, ids, summary, facts, now, factRetention))
      ensures episode == old(next)
    {
      episode := Insert(Row(now, ns, Episode, summary, true, Unmarked, None));
      ghost var before := Value();
      for i := 0 to |facts|
        invariant Value() == AddFacts(before, ns, facts[..i], now, factRetention)
      {
        assert facts[..i + 1][..i] == facts[..i];
        var id := Insert(Row(now, ns, Fact, facts[i], true, Unmarked, Some(now + factRetention)));
      }
      assert facts[..|facts|] == facts;
      Retire(ns, ids, FoldedInto(episode));
    }

    /** The newest time in either table. */
    method NewestTime() returns (newest: Option<Time>)
      ensures newest == Newest(Value())
    {
      newest := None;
      var left := rows.Keys;
      while left != {}
        invariant left <= rows.Keys
        invariant newest.None? <==> left == rows.Keys
        invariant newest.Some? ==> exists id :: id in rows && rows[id].ts == newest.value
        invariant forall id | id in rows && id !in left :: newest.Some? && rows[id].ts <= newest.value
        decreases |left|
      {
        var id :| id in left;
        left := left - {id};
        if newest.None? || newest.value < rows[id].ts {
          newest := Some(rows[id].ts);
        }
      }
      for i := 0 to |attempts|
        invariant newest.None? ==> rows == map[] && i == 0
        invariant newest.Some? ==> newest.value in Times(Value())
        invariant forall id | id in rows :: newest.Some? && rows[id].ts <= newest.value
        invariant forall j | 0 <= j < i :: newest.Some? && attempts[j].ts <= newest.value
      {
        assert attempts[i].ts in Times(Value());
        if newest.None? || newest.value < attempts[i].ts {
          newest := Some(attempts[i].ts);
        }
      }
      NewestIs(Value(), newest);
    }

    /** Retention. */
    method Purge(clock: Time, turnRetention: Time)
      modifies this
      ensures Value() == Purged(old(Value()), clock, turnRetention)
    {
      var newest := NewestTime();
      if newest.None? {
        return;
      }
      var now := if clock > newest.value + PURGE_CLOCK_SLACK then newest.value + PURGE_CLOCK_SLACK else clock;
      rows := map id | id in rows && !Purgeable(rows[id], now, turnRetention) :: rows[id];
    }
  }

  ghost function Times(store: Store): set<Time> {
    (set id | id in store.rows :: store.rows[id].ts) + (set i | 0 <= i < |store.attempts| :: store.attempts[i].ts)
  }

  lemma NewestIs(store: Store, newest: Option<Time>)
    requires newest.None? ==> store.rows == map[] && store.attempts == []
    requires newest.Some? ==> newest.value in Times(store)
    requires forall id | id in store.rows :: newest.Some? && store.rows[id].ts <= newest.value
    requires forall j | 0 <= j < |store.attempts| :: newest.Some? && store.attempts[j].ts <= newest.value
    ensures newest == Newest(store)
  {
  }

  class Consolidator {
    const cortex: Cortex
    const chunkTokens: nat

    constructor (cortex: Cortex, chunkTokens: nat)
      ensures this.cortex == cortex && this.chunkTokens == chunkTokens
    {
      this.cortex, this.chunkTokens := cortex, chunkTokens;
    }

    /** `_chunk`. */
    method Oldest(turns: seq<Id>) returns (chunk: seq<Id>)
      requires turns != [] && forall id | id in turns :: id in cortex.rows
      ensures chunk <= turns && IsChunk(cortex.Value(), turns, chunkTokens * CHARS_PER_TOKEN, |chunk|)
    {
      var budget := chunkTokens * CHARS_PER_TOKEN;
      var used, n := 0, 0;
      while n < |turns| && !(n > 0 && used + |cortex.rows[turns[n]].text| + 1 > budget)
        invariant n <= |turns| && used == Cost(cortex.Value(), turns[..n])
        invariant n > 1 ==> used <= budget
      {
        assert turns[..n + 1][..n] == turns[..n];
        used := used + |cortex.rows[turns[n]].text| + 1;
        n := n + 1;
      }
      if n < |turns| {
        assert turns[..n + 1][..n] == turns[..n];
      }
      chunk := turns[..n];
    }

    method ReadChunk(ns: string, turns: seq<Id>) returns (chunk: seq<Id>)
      requires turns == Waiting(cortex.Value(), ns) && turns != []
      ensures chunk == Chunk(cortex.Value(), ns, chunkTokens * CHARS_PER_TOKEN)
    {
      WaitingIs(cortex.Value(), ns, cortex.next);
      chunk := Oldest(turns);
      var budget := chunkTokens * CHARS_PER_TOKEN;
      ChunkIsUnique(cortex.Value(), turns, budget, |chunk|, ChunkSize(cortex.Value(), turns, budget, 1));
    }

    /** None: an IndexError. */
    method IsDue(ns: string, minTurns: int, clock: Time) returns (due: Option<bool>)
      ensures due.None? <==> NothingToRead(cortex.Value(), ns, minTurns)
      ensures due.Some? ==> due.value == Due(cortex.Value(), ns, minTurns, clock)
    {
      var turns := cortex.Messages(ns);
      if |turns| < minTurns {
        return Some(false);
      }
      if turns == [] {
        return None;
      }
      var chunk := ReadChunk(ns, turns);
      var failures, last, bad := cortex.ChunkFailures(ns, chunk[0]);
      due := Some(!(failures > 0 && last.Some? && clock < last.value + Backoff(failures)));
    }

    /** One attempt: the distiller is called exactly when a fold is due, and `answer` is what it
        then says. None: an IndexError. */
    method Consolidate(ns: string, minTurns: int, clock: Time, answer: Answer, now: Time, factRetention: Time)
      returns (called: Option<bool>)
      modifies cortex
      ensures called.None? <==> NothingToRead(old(cortex.Value()), ns, minTurns)
      ensures called == Some(true) <==> Due(old(cortex.Value()), ns, minTurns, clock)
      ensures called == Some(true) ==>
        && Waiting(old(cortex.Value()), ns) != []
        && cortex.Value() == AfterAttempt(old(cortex.Value()), ns, chunkTokens * CHARS_PER_TOKEN, answer, now, factRetention)
      ensures called != Some(true) ==> cortex.Value() == old(cortex.Value())
    {
      var turns := cortex.Messages(ns);
      if |turns| < minTurns {
        return Some(false);
      }
      if turns == [] {
        return None;
      }
      var chunk := ReadChunk(ns, turns);
      var failures, last, bad := cortex.ChunkFailures(ns, chunk[0]);
      if failures > 0 && last.Some? && clock < last.value + Backoff(failures) {
        return Some(false);
      }
      called := Some(true);
      Answered(ns, chunk, bad, answer, now, factRetention);
    }

    method Answered(ns: string, chunk: seq<Id>, bad: nat, answer: Answer, now: Time, factRetention: Time)
      requires chunk != []
      modifies cortex
      ensures cortex.Value() == CommitAll(old(cortex.Value()), TxsFor(ns, chunk, bad, answer, now, factRetention))
    {
      ghost var before := cortex.Value();
      match answer {
        case Raises(transient) =>
          if transient {
            cortex.NoteConsolidation(Attempt(now, ns, Unavailable, chunk[0]));
            CommitTwo(before, Note(Attempt(now, ns, Unavailable, chunk[0])), Note(Attempt(now, ns, Unavailable, chunk[0])));
          } else {
            Fail(ns, chunk, Failed, bad + 1, now);
          }
        case NoOutput =>
          Fail(ns, chunk, Declined, bad + 1, now);
        case Summary(summary, facts) =>
          if summary == "" {
            cortex.Retire(ns, chunk, NothingKept);
            cortex.NoteConsolidation(Attempt(now, ns, Empty, chunk[0]));
            CommitTwo(before, FoldNothing(ns, chunk), Note(Attempt(now, ns, Empty, chunk[0])));
          } else {
            var episode := cortex.FoldTurns(ns, chunk, summary, facts, now, factRetention);
            cortex.NoteConsolidation(Attempt(now, ns, Folded, chunk[0]));
            CommitTwo(before, Fold(ns, chunk, summary, facts, now, factRetention), Note(Attempt(now, ns, Folded, chunk[0])));
          }
      }
    }

    /** `_failed`. */
    method Fail(ns: string, chunk: seq<Id>, outcome: Outcome, failures: nat, now: Time)
      requires chunk != []
      modifies cortex
      ensures cortex.Value() == CommitAll(old(cortex.Value()), FailedTxs(ns, chunk, outcome, failures, now))
    {
      ghost var before := cortex.Value();
      var note := Attempt(now, ns, outcome, chunk[0]);
      cortex.NoteConsolidation(note);
      CommitTwo(before, Note(note), Note(note));
      if failures >= POISON_AFTER {
        cortex.Retire(ns, chunk, Poisoned);
        cortex.NoteConsolidation(Attempt(now, ns, PoisonedChunk, chunk[0]));
        CommitThree(before, Note(note), Poison(ns, chunk), Note(Attempt(now, ns, PoisonedChunk, chunk[0])));
        assert FailedTxs(ns, chunk, outcome, failures, now) == [Note(note), Poison(ns, chunk), Note(Attempt(now, ns, PoisonedChunk, chunk[0]))];
      } else {
        assert FailedTxs(ns, chunk, outcome, failures, now) == [Note(note)];
      }
    }
  }
}
