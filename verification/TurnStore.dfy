/** The tables of src/pionir/cortex.py that hold a conversation, and the transactions that fold
    its raw turns away. `memories` is a map from id to row; ids are never used twice. */
module TurnStore {
  import opened Wrappers

  type Id = nat
  type Time = int     // seconds

  const DAY: Time := 86_400
  const PURGE_CLOCK_SLACK: Time := DAY

  datatype Kind = Message | Episode | Fact | Other

  /** `folded_into` with an episode, `folded_into` 0, `poisoned`. */
  datatype Mark = Unmarked | FoldedInto(episode: Id) | NothingKept | Poisoned

  datatype Row = Row(ts: Time, ns: string, kind: Kind, text: string, active: bool, mark: Mark, expires: Option<Time>)

  datatype Outcome = Folded | Empty | Declined | Failed | Unavailable | PoisonedChunk

  datatype Attempt = Attempt(ts: Time, ns: string, outcome: Outcome, chunkStart: Id)

  datatype Store = Store(rows: map<Id, Row>, next: Id, attempts: seq<Attempt>)

  // ----- reads

  predicate Waits(store: Store, ns: string, id: Id) {
    id in store.rows && store.rows[id].kind.Message? && store.rows[id].active && store.rows[id].ns == ns
  }

  /** `memories(namespace, kind="message", limit=None)`: the waiting turns, oldest first. */
  function WaitingBelow(store: Store, ns: string, n: nat): seq<Id> {
    if n == 0 then []
    else WaitingBelow(store, ns, n - 1) + if Waits(store, ns, n - 1) then [n - 1] else []
  }

  function Waiting(store: Store, ns: string): seq<Id> { WaitingBelow(store, ns, store.next) }

  lemma {:induction false} WaitingIs(store: Store, ns: string, n: nat)
    ensures var w := WaitingBelow(store, ns, n);
      && (forall id: Id :: id in w <==> id < n && Waits(store, ns, id))
      && (forall i, j | 0 <= i < j < |w| :: w[i] < w[j])
      && |w| <= n
  {
    if n > 0 {
      WaitingIs(store, ns, n - 1);
      var front, w := WaitingBelow(store, ns, n - 1), WaitingBelow(store, ns, n);
      forall i | 0 <= i < |front| ensures front[i] < n - 1 {
        assert front[i] in front;
      }
    }
  }

  predicate Concerns(a: Attempt, ns: string, start: Id) { a.ns == ns && a.chunkStart == start }

  predicate CountsAsFailure(o: Outcome) { o.Failed? || o.Declined? || o.Unavailable? }

  /** `chunk_failures`: every failed attempt at the chunk starting here, the last one's time,
      and how many of them were not transient. */
  function Failures(attempts: seq<Attempt>, ns: string, start: Id): nat {
    if attempts == [] then 0
    else
      var a := attempts[|attempts| - 1];
      Failures(attempts[..|attempts| - 1], ns, start) + if Concerns(a, ns, start) && CountsAsFailure(a.outcome) then 1 else 0
  }

  function Bad(attempts: seq<Attempt>, ns: string, start: Id): nat {
    if attempts == [] then 0
    else
      var a := attempts[|attempts| - 1];
      Bad(attempts[..|attempts| - 1], ns, start) + if Concerns(a, ns, start) && (a.outcome.Failed? || a.outcome.Declined?) then 1 else 0
  }

  function LastFailure(attempts: seq<Attempt>, ns: string, start: Id): Option<Time> {
    if attempts == [] then None
    else
      var a, before := attempts[|attempts| - 1], LastFailure(attempts[..|attempts| - 1], ns, start);
      if !(Concerns(a, ns, start) && CountsAsFailure(a.outcome)) then before
      else if before.Some? && before.value > a.ts then before
      else Some(a.ts)
  }

  // ----- transactions

  function AddRow(store: Store, row: Row): Store {
    store.(rows := store.rows[store.next := row], next := store.next + 1)
  }

  function AddFacts(store: Store, ns: string, facts: seq<string>, now: Time, retention: Time): Store {
    if facts == [] then store
    else AddRow(AddFacts(store, ns, facts[..|facts| - 1], now, retention),
                Row(now, ns, Fact, facts[|facts| - 1], true, Unmarked, Some(now + retention)))
  }

  /** UPDATE memories SET active=0 ... WHERE namespace=? AND kind='message' AND active=1 AND id IN (...) */
  function Retired(store: Store, ns: string, ids: seq<Id>, mark: Mark): Store {
    store.(rows := map id | id in store.rows ::
             if id in ids && Waits(store, ns, id) then store.rows[id].(active := false, mark := mark) else store.rows[id])
  }

  datatype Tx =
    | Fold(ns: string, ids: seq<Id>, summary: string, facts: seq<string>, now: Time, factRetention: Time)
    | FoldNothing(ns: string, ids: seq<Id>)
    | Poison(ns: string, ids: seq<Id>)
    | Note(attempt: Attempt)

  function Commit(store: Store, tx: Tx): Store {
    match tx
    case Fold(ns, ids, summary, facts, now, retention) =>
      var episode := AddRow(store, Row(now, ns, Episode, summary, true, Unmarked, None));
      Retired(AddFacts(episode, ns, facts, now, retention), ns, ids, FoldedInto(store.next))
    case FoldNothing(ns, ids) => Retired(store, ns, ids, NothingKept)
    case Poison(ns, ids) => Retired(store, ns, ids, Poisoned)
    case Note(attempt) => store.(attempts := store.attempts + [attempt])
  }

  function CommitAll(store: Store, txs: seq<Tx>): Store {
    if txs == [] then store else Commit(CommitAll(store, txs[..|txs| - 1]), txs[|txs| - 1])
  }

  // ----- retention

  /** The newest thing the store itself recorded. */
  ghost function Newest(store: Store): (newest: Option<Time>)
  {
    var times := set id | id in store.rows :: store.rows[id].ts;
    var tried := set i | 0 <= i < |store.attempts| :: store.attempts[i].ts;
    var all := times + tried;
    if t :| t in all then Some(Greatest(all, t)) else None
  }

  predicate IsGreatest(times: set<Time>, t: Time) { t in times && forall u | u in times :: u <= t }

  ghost function Greatest(times: set<Time>, some: Time): (t: Time)
    requires some in times
    ensures IsGreatest(times, t)
  {
    GreatestExists(times, some);
    var t :| IsGreatest(times, t);
    t
  }

  lemma {:induction false} GreatestExists(times: set<Time>, some: Time)
    requires some in times
    ensures exists t :: IsGreatest(times, t)
  {
    var rest := times - {some};
    assert times == rest + {some};
    if t :| t in rest {
      GreatestExists(rest, t);
      var r :| IsGreatest(rest, r);
      assert IsGreatest(times, if r <= some then some else r);
    } else {
      assert IsGreatest(times, some);
    }
  }

  /** The time retention goes by: never more than a day past the store's own newest write. */
  ghost function RetentionNow(store: Store, clock: Time): Option<Time> {
    var newest := Newest(store);
    if newest.None? then None
    else if clock > newest.value + PURGE_CLOCK_SLACK then Some(newest.value + PURGE_CLOCK_SLACK)
    else Some(clock)
  }

  predicate Purgeable(row: Row, now: Time, turnRetention: Time) {
    || (row.kind.Message? && !row.active && row.ts < now - turnRetention && !row.mark.Unmarked?)
    || (row.kind.Fact? && row.expires.Some? && row.expires.value < now)
  }

  ghost function Purged(store: Store, clock: Time, turnRetention: Time): Store {
    match RetentionNow(store, clock)
    case None => store
    case Some(now) => store.(rows := map id | id in store.rows && !Purgeable(store.rows[id], now, turnRetention) :: store.rows[id])
  }
}
