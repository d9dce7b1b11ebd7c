/** The Discord gate of src/pionir/discord_gate.py, as far as approvals and the daily digest
    go: it posts previews and digest cards to a channel that may refuse, fail or leave it in
    doubt, follows what the owner reacts, saves its record, and may die at any call or save.

    Every method is proved to take only steps of DigestMachine (`Traced`), so whatever
    Discord, the owner and the approvals queue do, `DigestMachine.EveryRunIsSafe` holds of
    everything the gate ever does. What one pass over a planned run achieves is in the
    contracts of `TryPart` and `ContinueRun`. */
module DigestGate {
  import opened Wrappers
  import opened DigestRecord
  import opened DigestMachine
  import DigestPages

  /** How a call (or a save) went. A refusal is an answer Discord gave; `Gone` is its 404. */
  datatype Outcome = Ok | Refused | Gone | Transport | Crash {
    predicate IsFailure() { !Ok? }
    function PropagateFailure(): Outcome { this }
    predicate IsRefusal() { Refused? || Gone? }
  }

  // ----- what the owner's reactions say (`_card_decision`, `_owner_decision`)

  /** The items approved on a card: those still open to approval that the owner - nobody
      else - marked with their number or with ✅, and none at all when the owner put a ❌ on
      the card or no owner is configured. */
  method CardDecision(owner: Option<nat>, items: seq<Id>, reactions: seq<Reaction>, open: set<Id>)
    returns (chosen: seq<Id>)
    ensures forall a :: a in chosen <==>
      && owner.Some? && a in items && a in open
      && !OwnerRefused(owner.value, reactions) && OwnerChose(owner.value, items, reactions, a)
  {
    if owner.None? {
      return [];
    }
    var picked: set<Id> := {};
    var refused := false;
    for i := 0 to |reactions|
      invariant refused <==> OwnerRefused(owner.value, reactions[..i])
      invariant forall a :: a in picked <==> a in open && OwnerChose(owner.value, items, reactions[..i], a)
    {
      var reaction := reactions[i];
      ghost var before := picked;
      assert reactions[..i + 1] == reactions[..i] + [reaction];
      var numbered := Numbered(items, reaction.emoji);
      var targets := if reaction.emoji.Approve? then open
                     else if numbered.Some? && numbered.value in open then {numbered.value} else {};
      if reaction.Counted() && owner.value in reaction.users {
        if reaction.emoji.Deny? {
          refused := true;
        } else {
          picked := picked + targets;
        }
      }
      forall a ensures a in picked <==> a in open && OwnerChose(owner.value, items, reactions[..i + 1], a) {
        var now := reactions[..i + 1];
        if OwnerChose(owner.value, items, reactions[..i], a) {
          var j :| 0 <= j < i && reactions[..i][j].By(owner.value)
            && (reactions[..i][j].emoji.Approve? || Numbered(items, reactions[..i][j].emoji) == Some(a));
          assert now[j] == reactions[..i][j];
        }
        if a in picked && a !in before {
          assert now[i] == reaction;
        }
      }
    }
    assert reactions[..|reactions|] == reactions;
    if refused {
      return [];
    }
    chosen := [];
    for i := 0 to |items|
      invariant forall a :: a in chosen <==> a in items[..i] && a in picked
    {
      if items[i] in picked {
        chosen := chosen + [items[i]];
      }
    }
  }

  datatype Choice = Denies | Approves

  /** The owner's answer on a preview, if he gave one: both at once is his refusal. */
  method OwnerDecision(owner: Option<nat>, reactions: seq<Reaction>) returns (choice: Option<Choice>)
    ensures choice == Some(Denies) <==> OwnerDenies(owner, reactions)
    ensures choice == Some(Approves) <==> OwnerApproves(owner, reactions)
  {
    if owner.None? {
      return None;
    }
    var denied, approved := false, false;
    for i := 0 to |reactions|
      invariant denied <==> OwnerRefused(owner.value, reactions[..i])
      invariant approved <==> OwnerMarked(owner.value, reactions[..i])
    {
      var reaction := reactions[i];
      assert reactions[..i + 1] == reactions[..i] + [reaction];
      if reaction.Counted() && owner.value in reaction.users {
        if reaction.emoji.Deny? {
          denied := true;
        } else if reaction.emoji.Approve? {
          approved := true;
        }
      }
      MarksGrow(owner.value, reactions[..i], reaction);
    }
    assert reactions[..|reactions|] == reactions;
    choice := if denied then Some(Denies) else if approved then Some(Approves) else None;
  }

  lemma MarksGrow(owner: nat, reactions: seq<Reaction>, more: Reaction)
    ensures OwnerRefused(owner, reactions + [more]) <==> OwnerRefused(owner, reactions) || (more.emoji.Deny? && more.By(owner))
    ensures OwnerMarked(owner, reactions + [more]) <==> OwnerMarked(owner, reactions) || (more.emoji.Approve? && more.By(owner))
  {
    var all := reactions + [more];
    assert all[|reactions|] == more && forall i | 0 <= i < |reactions| :: all[i] == reactions[i];
    if OwnerRefused(owner, reactions) {
      var i :| 0 <= i < |reactions| && reactions[i].emoji.Deny? && reactions[i].By(owner);
      assert all[i].emoji.Deny? && all[i].By(owner);
    }
    if OwnerMarked(owner, reactions) {
      var i :| 0 <= i < |reactions| && reactions[i].By(owner) && reactions[i].emoji.Approve?;
      assert all[i].By(owner) && all[i].emoji.Approve?;
    }
  }

  // ----- the gate

  lemma NextRow(before: Log, after: Log, from: nat, items: seq<Id>, i: nat)
    requires i < |items| && |before| == from + i && RowsRead(before, from, items[..i])
    requires |after| == |before| + 1 && before <= after && after[|before|].RowRead? && after[|before|].id == items[i]
    ensures RowsRead(after, from, items[..i + 1])
    ensures ReadWaiting(after, from, items[..i + 1]) ==
      ReadWaiting(before, from, items[..i]) + if after[|before|].status.Waiting? then {items[i]} else {}
  {
    OneMoreRow(before[from..], after[|before|], items[..i], items[i]);
    assert before[from..from + i] == before[from..];
    assert after[from..from + i + 1] == before[from..] + [after[|before|]];
    assert items[..i + 1] == items[..i] + [items[i]];
  }

  lemma CardWasNotRead(owner: Option<nat>, log: Log, from: nat, key: Key, card: Card, open: set<Id>)
    requires |log| == from + |card.items| && RowsRead(log, from, card.items)
    requires ReadWaiting(log, from, card.items) == {} || card.supersededBy.Some?
    ensures CardFollowed(owner, log, from, key, card, open)
  {
  }

  lemma CardWasGone(owner: Option<nat>, rows: Log, log: Log, from: nat, q: nat, key: Key, card: Card, open: set<Id>)
    requires |rows| == from + |card.items| && RowsRead(rows, from, card.items) && card.supersededBy.None?
    requires |rows| <= q < |log| && log[q] == CardReposted(key) && Quiet(rows, log)
    ensures CardFollowed(owner, log, from, key, card, open)
  {
    SameRows(rows, log, from, card.items);
  }

  lemma CardWasRead(owner: Option<nat>, rows: Log, read: Log, log: Log, from: nat, q: nat, key: Key, card: Card, open: set<Id>)
    requires |rows| == from + |card.items| && RowsRead(rows, from, card.items) && card.supersededBy.None? && rows <= read
    requires ReadWaiting(rows, from, card.items) != {}
    requires ReadAndAnswered(owner, read, |rows|, q, key, card.items, ReadWaiting(rows, from, card.items) * open) && Quiet(read, log)
    ensures CardFollowed(owner, log, from, key, card, open)
  {
    SameRows(rows, log, from, card.items);
    QuietKeepsRead(owner, read, log, |rows|, q, key, card.items, ReadWaiting(rows, from, card.items) * open);
  }

  lemma QuietKeepsFollowed(owner: Option<nat>, before: Log, after: Log, from: nat, key: Key, card: Card, open: set<Id>)
    requires CardFollowed(owner, before, from, key, card, open) && Quiet(before, after)
    ensures CardFollowed(owner, after, from, key, card, open)
  {
    SameRows(before, after, from, card.items);
    var at, waiting := from + |card.items|, ReadWaiting(before, from, card.items);
    assert forall p | 0 <= p < |before| :: after[p] == before[p];
    if waiting != {} && card.supersededBy.None? {
      if q :| at <= q < |before| && ReadAndAnswered(owner, before, at, q, key, card.items, waiting * open) {
        QuietKeepsRead(owner, before, after, at, q, key, card.items, waiting * open);
      } else {
        var q :| at <= q < |before| && before[q] == CardReposted(key) && forall p | at <= p < |before| :: Minor(before[p]);
        assert after[q] == CardReposted(key);
      }
    }
  }

  lemma AnsweredSince(owner: Option<nat>, start: Log, before: Log, after: Log, q: nat, id: Id, whole: bool, batched: bool)
    requires Quiet(start, before) && before <= after && PreviewAnswered(owner, after, |before|, q, id, whole, batched)
    ensures PreviewAnswered(owner, after, |start|, q, id, whole, batched)
  {
    assert forall p | 0 <= p < |before| :: after[p] == before[p];
  }

  lemma StillGone(start: Log, before: Log, after: Log, id: Id)
    requires Quiet(start, before) && Undecided(before, after)
    ensures Undecided(start, after)
    ensures PreviewGone(id) in after[|before|..] ==> PreviewGone(id) in after[|start|..]
  {
    assert forall p | 0 <= p < |before| :: after[p] == before[p];
    assert after[|start|..] == after[|start|..|before|] + after[|before|..];
  }

  /** What is read of a preview on top of what was answered. */
  lemma LookKeeps(owner: Option<nat>, before: Log, after: Log, from: nat, key: Key)
    requires after != [] && Quiet(before, after[..|after| - 1]) && from <= |before| && Answered(owner, before, from, key)
    requires !after[|after| - 1].CardRead?
    ensures Answered(owner, after[..|after| - 1], from, key)
    ensures forall id :: LookedFor(after[..|after| - 1], from, id) <==> LookedFor(before, from, id)
    ensures LastRead(after) == LastRead(before)
  {
    QuietKeepsAnswered(owner, before, after[..|after| - 1], from, key);
    StillLastRead(before, after[..|after| - 1]);
  }

  lemma {:induction false} StillLastRead(before: Log, after: Log)
    requires Quiet(before, after)
    ensures LastRead(after) == LastRead(before)
    decreases |after|
  {
    if |before| < |after| {
      StillLastRead(before, after[..|after| - 1]);
    } else {
      assert before == after;
    }
  }

  lemma AfterUnread(owner: Option<nat>, before: Log, after: Log, from: nat, key: Key, id: Id)
    requires after != [] && Quiet(before, after[..|after| - 1]) && after[|after| - 1] == Unread(id)
    requires from <= |before| && Answered(owner, before, from, key)
    ensures Answered(owner, after, from, key)
    ensures forall other :: LookedFor(after, from, other) <==> LookedFor(before, from, other) || other == id
  {
    QuietKeepsAnswered(owner, before, after[..|after| - 1], from, key);
    UnreadKeepsAnswered(owner, after[..|after| - 1], from, key, id);
    assert after[..|after| - 1] + [Unread(id)] == after;
  }

  lemma AfterDecision(owner: Option<nat>, before: Log, looked: Log, after: Log, from: nat, key: Key)
    requires looked != [] && Quiet(before, looked[..|looked| - 1]) && looked[|looked| - 1].Looked?
    requires Quiet(looked + [DecisionOn(owner, key, looked[|looked| - 1])], after)
    requires from <= |before| && Answered(owner, before, from, key)
    ensures Answered(owner, after, from, key) && LastRead(after) == LastRead(before)
    ensures forall id :: LookedFor(after, from, id) <==> LookedFor(before, from, id) || id == looked[|looked| - 1].id
  {
    var front, look := looked[..|looked| - 1], looked[|looked| - 1];
    var decided := looked + [DecisionOn(owner, key, look)];
    assert front + [look] == looked;
    QuietKeepsAnswered(owner, before, front, from, key);
    DecisionKeepsAnswered(owner, front, from, key, look);
    QuietKeepsAnswered(owner, decided, after, from, key);
    StillLastRead(before, front);
    assert decided[..|looked|] == looked && looked[..|front|] == front;
    assert LastRead(decided) == LastRead(looked) == LastRead(front);
    StillLastRead(decided, after);
  }

  lemma OneDecided(before: Log, after: Log, e: Event)
    requires Quiet(before + [e], after)
    ensures Decided(after, |before|, e) && before <= after
  {
    assert (before + [e])[|before|] == e && before + [e] <= after;
    assert after[..|before|] == before;
  }

  lemma LooksStay(start: Log, looked: Log, after: Log)
    requires looked != [] && Quiet(start, looked[..|looked| - 1]) && looked <= after
    ensures after[|looked| - 1] == looked[|looked| - 1]
    ensures forall p | |start| <= p < |looked| - 1 :: Minor(after[p])
  {
    forall p | |start| <= p < |looked| - 1 ensures Minor(after[p]) {
      assert after[p] == looked[..|looked| - 1][p];
    }
  }

  lemma ReadThenAnswered(owner: Option<nat>, start: Log, read: Log, after: Log, key: Key, items: seq<Id>, open: set<Id>, chosen: seq<Id>)
    requires read != [] && Quiet(start, read[..|read| - 1]) && read <= after
    requires var last := read[|read| - 1];
      && last.CardRead? && last.key == key && last.items == items
      && forall a :: a in chosen <==> a in open && OwnerPicks(owner, items, last.reactions, a)
    requires Answered(owner, after, |read|, key) && LookedForAll(after, |read|, chosen)
    ensures ReadAndAnswered(owner, after, |start|, |read| - 1, key, items, open)
  {
    LooksStay(start, read, after);
  }

  predicate Begun(log: Log, from: nat, key: Key) { exists p | from <= p < |log| :: log[p] == CardBegun(key) }

  lemma BegunStays(before: Log, after: Log, from: nat, key: Key)
    requires before <= after && from <= |before| < |after| && after[|before|] == CardBegun(key)
    ensures Begun(after, from, key)
    ensures forall other | Begun(before, from, other) :: Begun(after, from, other)
  {
    forall other | Begun(before, from, other) ensures Begun(after, from, other) {
      var p :| from <= p < |before| && before[p] == CardBegun(other);
      assert after[p] == CardBegun(other);
    }
  }

  lemma AllBegunStays(cards: map<Key, Card>, before: Log, after: Log, from: nat)
    requires before <= after && AllBegun(cards, before, from)
    ensures AllBegun(cards, after, from)
  {
    forall key | key in cards && !cards[key].final ensures Begun(after, from, key) {
      var p :| from <= p < |before| && before[p] == CardBegun(key);
      assert after[p] == CardBegun(key);
    }
  }

  /** Every card not final had its turn. */
  predicate AllBegun(cards: map<Key, Card>, log: Log, from: nat) {
    forall key | key in cards && !cards[key].final :: Begun(log, from, key)
  }

  /** The item's preview had its turn, or was up whole. */
  predicate ItemServed(before: DigestRun, after: DigestRun, entries: map<Id, Entry>, id: Id, owed: bool) {
    Served(before, after, Preview(id), owed) || (id in entries && entries[id] == Entry(true, false, false))
  }

  predicate FirstServed(before: DigestRun, after: DigestRun, pending: seq<Id>, entries: map<Id, Entry>, items: seq<Id>, n: nat, owed: bool)
    requires n <= |items|
  {
    forall k | 0 <= k < n && items[k] in pending :: ItemServed(before, after, entries, items[k], owed)
  }

  lemma OneMoreServed(before: DigestRun, was: DigestRun, after: DigestRun, pending: seq<Id>,
                      shown: map<Id, Entry>, entries: map<Id, Entry>, items: seq<Id>, n: nat, over: bool, owed: bool)
    requires n < |items| && Distinct(items) && FirstServed(before, was, pending, shown, items, n, owed)
    requires Advances(before, was) && OnlyPart(was, after, Preview(items[n]))
    requires if over then Settles(after, Preview(items[n])) else RefusedAgain(was, after, Preview(items[n]))
    requires entries - {items[n]} == shown - {items[n]}
    ensures FirstServed(before, after, pending, entries, items, n + 1, owed || !over)
  {
    AlsoServed(before, was, after, Preview(items[n]), over, owed);
    forall k | 0 <= k < n && items[k] in pending ensures ItemServed(before, after, entries, items[k], owed || !over) {
      assert ItemServed(before, was, shown, items[k], owed);
      assert items[k] in shown - {items[n]} <==> items[k] in entries - {items[n]};
    }
  }

  predicate ItemsServed(before: DigestRun, after: DigestRun, pending: seq<Id>, entries: map<Id, Entry>, owed: bool) {
    forall id | id in before.items && id in pending :: ItemServed(before, after, entries, id, owed)
  }

  predicate PagesServed(before: DigestRun, after: DigestRun, n: nat, owed: bool) {
    forall index | 1 <= index <= n :: Served(before, after, Page(index), owed)
  }

  /** One more part has had its turn; those that had theirs keep what came of it. */
  lemma AlsoServed(before: DigestRun, was: DigestRun, after: DigestRun, part: Part, over: bool, owed: bool)
    requires Advances(before, was) && OnlyPart(was, after, part)
    requires if over then Settles(after, part) else RefusedAgain(was, after, part)
    ensures Served(before, after, part, owed || !over)
    ensures forall p | Served(before, was, p, owed) :: Served(before, after, p, owed || !over)
  {
    ServedNow(before, was, after, part, over);
    forall p | Served(before, was, p, owed) ensures Served(before, after, p, owed || !over) {
      if p != part {
        ServedStays(before, was, after, p, owed);
      }
    }
  }

  /** What a pass's last two stages did, and the first two left alone, is the pass's. */
  lemma PassServes(run0: DigestRun, run2: DigestRun, run3: DigestRun, run4: DigestRun, owing: Option<Part>, pending: seq<Id>,
                   entries: map<Id, Entry>, owed3: bool, owed4: bool, owed: bool)
    requires Advances(run0, run2) && Advances(run2, run3) && Stage(run3, run4, Paging, owing) && (owed3 || owed4 ==> owed)
    requires ItemsServed(run2, run3, pending, entries, owed3) && PagesServed(run3, run4, |run4.pages|, owed4)
    ensures ItemsServed(run0, run4, pending, entries, owed) && PagesServed(run0, run4, |run4.pages|, owed)
  {
    AdvancesChain(run0, run2, run3);
    forall id | id in run0.items && id in pending ensures ItemServed(run0, run4, entries, id, owed) {
      assert ItemServed(run2, run3, entries, id, owed3);
      if Served(run2, run3, Preview(id), owed3) {
        ServedBefore(run0, run2, run3, Preview(id), owed3);
        assert SameStanding(run3, run4, Preview(id));
        ServedStays(run0, run3, run4, Preview(id), owed3);
      }
    }
    forall index | 1 <= index <= |run4.pages| ensures Served(run0, run4, Page(index), owed) {
      ServedBefore(run0, run3, run4, Page(index), owed4);
    }
  }

  class DiscordGate {
    const owner: Option<nat>
    const batched: Id -> bool      // the row waits for the digest
    const needsImage: Id -> bool   // a capability whose image the owner must see
    const layout: DigestPages.Layout
    const reportChunks: nat        // the longest report of expired items, in messages

    var entries: map<Id, Entry>
    var digest: DigestState
    var disk: Saved
    var up: bool                   // false from a crash until the gate is started again
    var runsPlanned: nat           // stands for uuid4: a run's id is never used twice
    var settled: set<Id>           // the queue's: approvals no longer pending or running

    ghost var following: Option<Following>
    ghost var inFlight: Option<InFlight>
    ghost var log: Log
    ghost var trace: seq<Step>

    ghost function Here(): World
      reads this
    {
      World(owner, entries, digest, disk, up, runsPlanned, settled, following, inFlight, log)
    }

    /** Everything so far was a run of the machine. */
    ghost predicate Traced()
      reads this
    {
      Run(owner, trace) == Some(Here())
    }

    ghost predicate Ready()
      reads this
    {
      Traced() && up && inFlight.None?
    }

    /** What every piece of work leaves, however it ended. */
    twostate predicate Went(r: Outcome)
      reads this
    {
      && Traced() && inFlight.None? && (up <==> !r.Crash?)
      && following == (if up then old(following) else None)
      && old(settled) <= settled && old(log) <= log
    }

    constructor (owner: Option<nat>, batched: Id -> bool, needsImage: Id -> bool, layout: DigestPages.Layout, reportChunks: nat)
      ensures Ready() && following.None? && Here() == Start(owner)
    {
      this.owner, this.batched, this.needsImage, this.layout, this.reportChunks := owner, batched, needsImage, layout, reportChunks;
      entries, digest, disk := NOTHING.entries, NOTHING.digest, NOTHING;
      up, runsPlanned, settled := true, 0, {};
      log, trace, following, inFlight := [], [], None, None;
    }

    lemma Onward(step: Step)
      requires Traced() && Enabled(Here(), step)
      ensures Run(owner, trace + [step]) == Some(Take(Here(), step))
    {
      assert (trace + [step])[..|trace|] == trace;
    }

    // ----- the world outside

    ghost method Occurs(e: Event)
      requires Ready() && Enabled(Here(), Happen(e))
      modifies `log, `trace
      ensures Ready() && log == old(log) + [e]
    {
      ghost var next := Take(Here(), Happen(e));
      Onward(Happen(e));
      log, trace := log + [e], trace + [Happen(e)];
      assert Here() == next;
    }

    /** The process dies here; a card in flight is lost track of. */
    method Die()
      requires Traced() && up
      modifies `up, `following, `inFlight, `log, `trace
      ensures Traced() && !up && inFlight.None? && following.None?
      ensures old(log) <= log && (old(inFlight).None? ==> log == old(log))
    {
      Onward(CrashNow);
      trace := trace + [CrashNow];
      if inFlight.Some? {
        log := log + [CardInterrupted(inFlight.value.key)];
      }
      up, following, inFlight := false, None, None;
    }

    /** The process is started again and reads its record. */
    method Reload()
      requires Traced() && !up && inFlight.None?
      modifies `entries, `digest, `up, `trace
      ensures Ready() && Saved(entries, digest) == disk
    {
      Onward(Restart);
      trace := trace + [Restart];
      entries, digest, up := disk.entries, disk.digest, true;
    }

    /** A call to Discord. It may be refused, fail, or never return; when it fails without an
        answer the channel may or may not have it. */
    method Call(ghost e: Event) returns (r: Outcome)
      requires Ready() && Enabled(Here(), Happen(e))
      modifies `log, `up, `following, `trace, `inFlight
      ensures Went(r)
      ensures log == old(log) || log == old(log) + [e]
      ensures r.Ok? ==> log == old(log) + [e]
      ensures r.IsRefusal() ==> log == old(log)
    {
      r := AnyOutcome();
      var delivered: bool := *;
      if r.Ok? || (!r.IsRefusal() && delivered) {
        Occurs(e);
      }
      if r.Crash? {
        Die();
      }
    }

    /** `_approvals.get(a)["status"]`. Anyone may be settling approvals meanwhile; what is
        settled stays so (the approval queue's own invariant). */
    method StatusOf(a: Id) returns (s: Status)
      requires Ready()
      modifies `settled, `log, `trace
      ensures Ready() && old(settled) <= settled && log == old(log) + [RowRead(a, s)]
      ensures s.Over? <==> a in settled
    {
      var more: set<Id> := *;
      Onward(Settle(more));
      settled, trace := settled + more, trace + [Settle(more)];
      var running: bool := *;
      s := if a in settled then Over else if running then Running else Waiting;
      Occurs(RowRead(a, s));
    }

    /** `_approvals.pending()`: some approvals still waiting, each once. */
    method Pending() returns (ids: seq<Id>)
      requires Ready()
      modifies `log, `trace
      ensures Ready() && log == old(log) + [PendingRead(ids)]
      ensures Distinct(ids) && forall a | a in ids :: a !in settled
    {
      var rows: seq<Id> := *;
      ids := [];
      for i := 0 to |rows|
        invariant Distinct(ids) && forall a | a in ids :: a !in settled
      {
        if rows[i] !in settled && rows[i] !in ids {
          ids := ids + [rows[i]];
        }
      }
      Occurs(PendingRead(ids));
    }

    /** `_save`: one atomic replace of the whole record. */
    method Save() returns (r: Outcome)
      requires Ready()
      modifies `disk, `log, `up, `following, `trace, `inFlight
      ensures Went(r) && (r.Ok? || r.Crash?) && log == old(log)
    {
      if * {
        Onward(SaveAll);
        disk, trace := Saved(entries, digest), trace + [SaveAll];
        if * {
          return Ok;
        }
      }
      Die();
      r := Crash;
    }

    method AnyOutcome() returns (r: Outcome) {
      var i := AnyNat();
      return if i == 0 then Ok else if i == 1 then Refused else if i == 2 then Gone else if i == 3 then Transport else Crash;
    }

    method AnyNat() returns (n: nat) {
      var i: int := *;
      n := if i < 0 then 0 else i;
    }

    // ----- previews

    /** `self._entries[id] = entry`. */
    method Remember(id: Id, entry: Entry)
      requires Ready() && Enabled(Here(), Store(id, entry))
      modifies `entries, `trace
      ensures Ready() && entries == old(entries)[id := entry]
    {
      ghost var next := Take(Here(), Store(id, entry));
      Onward(Store(id, entry));
      entries, trace := entries[id := entry], trace + [Store(id, entry)];
      assert Here() == next;
    }

    method AddReactions() returns (r: Outcome)
      requires Ready()
      modifies `log, `up, `disk, `following, `trace, `inFlight
      ensures Went(r) && Quiet(old(log), log)
    {
      if owner.None? {
        return Ok;
      }
      :- Call(Other);
      :- Call(Other);
      r := Save();
    }

    /** ... under `_guard`: a refusal is noted and does not stop the pass. */
    method TryReactions() returns (r: Outcome)
      requires Ready()
      modifies `log, `up, `disk, `following, `trace, `inFlight
      ensures Went(r) && Quiet(old(log), log) && !r.IsRefusal()
    {
      r := AddReactions();
      if r.IsRefusal() {
        r := Ok;
      }
    }

    /** Discord's 404 for a card, or for another message. */
    ghost method FoundGone(card: Option<Key>)
      requires Ready()
      modifies `log, `trace
      ensures Ready() && log == old(log) + [if card.Some? then CardGone(card.value) else Other]
    {
      Occurs(if card.Some? then CardGone(card.value) else Other);
    }

    /** `_edit`, of a card or of another message; one that is deleted is posted again. */
    method Edit(ghost card: Option<Key>) returns (r: Outcome)
      requires Ready()
      modifies `log, `up, `disk, `following, `trace, `inFlight
      ensures Went(r) && Quiet(old(log), log)
    {
      if * {
        return Ok;  // it already shows that
      }
      r := Call(Other);
      if r.Gone? {
        FoundGone(card);
        r := Call(if card.Some? then CardReposted(card.value) else Other);
      }
      :- r;
      r := Save();
    }

    /** The first message of a preview, with its image when it has one to show. Whether the
        image is up is what Discord made of it. */
    method PostHead(id: Id, chunks: nat) returns (r: Outcome, image: bool)
      requires Ready()
      modifies `log, `up, `following, `trace, `inFlight
      ensures Went(r) && Undecided(old(log), log) && old(log) <= log
      ensures r.Ok? ==> log == old(log) + [Head(id, chunks, image)]
      ensures !needsImage(id) ==> image
    {
      image := !needsImage(id);
      var rendered: bool := *;  // the image could be rendered and inspected
      if needsImage(id) && rendered {
        r := Call(Head(id, chunks, true));
        if !r.IsRefusal() {
          return r, true;
        }
      }
      r := Call(Head(id, chunks, image));
    }

    /** The later chunks, in order; done only when every one is up. */
    method PostRest(id: Id, more: nat, ghost head: nat) returns (r: Outcome)
      requires Ready() && head < |log| && log[head].Head? && log[head].id == id && log[head].chunks == more + 1
      modifies `log, `up, `following, `trace, `inFlight
      ensures Went(r) && Undecided(old(log), log) && old(log) <= log
      ensures r.Ok? ==> TextUpFrom(log, id, head)
    {
      for k := 0 to more
        invariant Ready() && following == old(following) && Undecided(old(log), log)
        invariant forall n: nat | 1 <= n <= k :: Chunk(id, head, n) in log
      {
        :- Call(Chunk(id, head, k + 1));
      }
      return Ok;
    }

    /** `_post`: a preview, all its chunks, recorded at once as incomplete and as complete
        only after the last one. */
    method Post(id: Id) returns (r: Outcome)
      requires Ready()
      modifies `entries, `log, `up, `disk, `following, `trace, `inFlight
      ensures Went(r) && Undecided(old(log), log)
      ensures old(entries.Keys) <= entries.Keys && entries - {id} == old(entries) - {id}
      ensures r.Ok? ==> id in entries && PostedWhole(log, |old(log)|, id, entries[id])
    {
      ghost var head := |log|;
      var more := AnyNat();  // chunks after the first
      var image :- PostHead(id, more + 1);
      Remember(id, Entry(false, !image, false));
      :- Save();
      r := PostWhole(id, more, image, head);
    }

    /** The image could not be shown; only said when it was tried and refused. */
    method Warn() returns (r: Outcome)
      requires Ready()
      modifies `log, `up, `following, `trace, `inFlight
      ensures Went(r) && Quiet(old(log), log)
    {
      var refused: bool := *;
      r := Ok;
      if refused {
        r := Call(Other);
      }
    }

    /** ... the rest of it, after its first message. */
    method PostWhole(id: Id, more: nat, image: bool, ghost head: nat) returns (r: Outcome)
      requires Ready() && head < |log| && log[head] == Head(id, more + 1, image)
      modifies `entries, `log, `up, `disk, `following, `trace, `inFlight
      ensures Went(r) && Undecided(old(log), log)
      ensures old(entries.Keys) <= entries.Keys && entries - {id} == old(entries) - {id}
      ensures r.Ok? ==> entries == old(entries)[id := Entry(true, !image, false)] && TextUpFrom(log, id, head)
    {
      if !image {
        :- Warn();
      }
      :- PostRest(id, more, head);
      Remember(id, Entry(true, !image, false));
      :- Save();
      ghost var before := log;
      r := AddReactions();
      TextStays(before, log, id, head);
    }

    method RepostPreview(id: Id) returns (r: Outcome)
      requires Ready()
      modifies `entries, `log, `up, `disk, `following, `trace, `inFlight
      ensures Went(r) && Undecided(old(log), log)
      ensures old(entries.Keys) <= entries.Keys && entries - {id} == old(entries) - {id}
      ensures r.Ok? ==> id in entries && PostedWhole(log, |old(log)|, id, entries[id])
    {
      r := Edit(None);
      if !r.IsRefusal() {
        :- r;
      }
      r := Post(id);
    }

    /** `_settle_view`. */
    method SettleView(id: Id, s: Status) returns (r: Outcome)
      requires Ready() && id in entries
      modifies `entries, `log, `up, `disk, `following, `trace, `inFlight
      ensures Went(r) && Quiet(old(log), log)
      ensures entries.Keys == old(entries.Keys)
      ensures r.Ok? && s.Over? ==> entries[id].final
    {
      r := Ok;
      :- Edit(None);
      if s.Over? {
        StillSeen(id);
        Remember(id, entries[id].(final := true));
        :- Save();
      }
      return Ok;
    }

    lemma StillSeen(id: Id)
      requires Ready() && id in entries
      ensures Enabled(Here(), Store(id, entries[id].(final := true)))
    {
      EveryRunIsSafe(owner, trace);
      assert entries[id].complete ==> TextUp(log, id);
    }

    /** `_answer`: the owner's decision, taken as the step `how`, goes to the approval; then
        its preview shows it. */
    method Answer(id: Id, ghost how: Step) returns (r: Outcome)
      requires Ready() && id in entries
      requires how == Happen(Denied(id)) || how == ApproveFromCard(id) || how == ApproveOnPreview(id, batched(id))
      requires Enabled(Here(), how)
      modifies `entries, `settled, `log, `up, `disk, `following, `trace, `inFlight
      ensures Went(r) && Quiet(Take(old(Here()), how).log, log)
      ensures entries.Keys == old(entries.Keys)
    {
      Onward(how);
      log, trace := Take(Here(), how).log, trace + [how];
      if * {
        return Ok;  // the approve or deny call itself failed; logged
      }
      :- Save();
      var s := StatusOf(id);
      r := SettleView(id, s);
    }

    /** All of it reached the owner; a batched item's image too. */
    predicate Whole(entry: Entry, batched: bool) { entry.complete && (batched ==> !entry.attachFailed) }

    /** `_follow`: a preview that is still open. */
    method Follow(id: Id) returns (r: Outcome, ghost q: Option<nat>)
      requires Ready() && id in entries
      modifies `entries, `settled, `log, `up, `disk, `following, `trace, `inFlight
      ensures Went(r)
      ensures old(entries.Keys) <= entries.Keys
      ensures |old(log)| < |log| && log[|old(log)|].RowRead? && log[|old(log)|].id == id
      ensures r.Ok? && q.Some? ==>
        PreviewAnswered(owner, log, |old(log)|, q.value, id,
                        old(entries)[id].complete && (batched(id) ==> !old(entries)[id].attachFailed), batched(id))
      ensures r.Ok? && q.None? ==>
        || !log[|old(log)|].status.Waiting? || PreviewGone(id) in log[|old(log)|..]
        || (!old(entries)[id].complete && !batched(id))
      ensures r.Ok? && q.None? ==> Undecided(old(log), log)
      ensures r.Ok? && log[|old(log)|].status.Over? ==> entries[id].final
    {
      q := None;
      var s := StatusOf(id);
      if !s.Waiting? {
        r := SettleView(id, s);
        return;
      }
      ghost var before := log;
      r, q := FollowWaiting(id);
      if r.Ok? && q.Some? {
        AnsweredSince(owner, old(log), before, log, q.value, id, Whole(old(entries)[id], batched(id)), batched(id));
      } else if r.Ok? {
        StillGone(old(log), before, log, id);
      }
    }

    /** ... and waits: is its message still there, and has all of it gone up? */
    method FollowWaiting(id: Id) returns (r: Outcome, ghost q: Option<nat>)
      requires Ready() && id in entries
      modifies `entries, `settled, `log, `up, `disk, `following, `trace, `inFlight
      ensures Went(r)
      ensures old(entries.Keys) <= entries.Keys
      ensures r.Ok? && q.Some? ==>
        PreviewAnswered(owner, log, |old(log)|, q.value, id, Whole(old(entries)[id], batched(id)), batched(id))
      ensures r.Ok? && q.None? ==> PreviewGone(id) in log[|old(log)|..] || (!old(entries)[id].complete && !batched(id))
      ensures r.Ok? && q.None? ==> Undecided(old(log), log)
    {
      q := None;
      r := Call(Other);
      if r.Gone? {
        r := PostAgain(id);
        return;
      }
      :- r;
      if !entries[id].complete && !batched(id) {
        r := RepostPreview(id);
        return;
      }
      ghost var before, at := log, 0;
      r, at := ReadAnswer(id);
      q := Some(at);
      if r.Ok? {
        AnsweredSince(owner, old(log), before, log, at, id, Whole(old(entries)[id], batched(id)), batched(id));
      }
    }

    /** A preview deleted in Discord is posted again. */
    method PostAgain(id: Id) returns (r: Outcome)
      requires Ready()
      modifies `entries, `log, `up, `disk, `following, `trace, `inFlight
      ensures Went(r) && Undecided(old(log), log) && PreviewGone(id) in log[|old(log)|..]
      ensures old(entries.Keys) <= entries.Keys && entries - {id} == old(entries) - {id}
      ensures r.Ok? ==> id in entries && PostedWhole(log, |old(log)|, id, entries[id])
    {
      Occurs(PreviewGone(id));
      ghost var gone := log;
      r := Post(id);
      assert log[|old(log)|] == gone[|old(log)|];
      assert log[|old(log)|..][0] == PreviewGone(id);
    }

    /** ... whose message is there: what has the owner answered on it? */
    method ReadPreview(id: Id) returns (r: Outcome, choice: Option<Choice>)
      requires Ready() && id in entries
      modifies `log, `up, `disk, `following, `trace, `inFlight
      ensures Went(r)
      ensures r.Ok? ==> JustLooked(log, id) && Quiet(old(log), log[..|log| - 1])
      ensures r.Ok? ==> (choice == Some(Denies) <==> OwnerDenies(owner, log[|log| - 1].reactions))
      ensures r.Ok? ==> (choice == Some(Approves) <==> OwnerApproves(owner, log[|log| - 1].reactions))
    {
      choice := None;
      if * {
        :- TryReactions();
      }
      if * {
        :- Edit(None);
      }
      var reactions: seq<Reaction> := *;
      ghost var before := log;
      :- Call(Looked(id, reactions));
      assert log[..|log| - 1] == before;
      choice := OwnerDecision(owner, reactions);
      r := Ok;
    }

    method ReadAnswer(id: Id) returns (r: Outcome, ghost q: nat)
      requires Ready() && id in entries
      modifies `entries, `settled, `log, `up, `disk, `following, `trace, `inFlight
      ensures Went(r) && entries.Keys == old(entries.Keys)
      ensures r.Ok? ==> PreviewAnswered(owner, log, |old(log)|, q, id, Whole(old(entries)[id], batched(id)), batched(id))
    {
      q := 0;
      var choice :- ReadPreview(id);
      ghost var looked := log;
      q := |log| - 1;
      r := Ok;
      if choice == Some(Denies) {
        r := Answer(id, Happen(Denied(id)));
        OneDecided(looked, log, Denied(id));
      } else if choice == Some(Approves) && Whole(entries[id], batched(id)) {
        r := Answer(id, ApproveOnPreview(id, batched(id)));
        OneDecided(looked, log, ApprovedOnPreview(id, batched(id)));
      }  // never approved blind; a rejection still works
      LooksStay(old(log), looked, log);
    }

    // ----- digest cards

    /** One row of the card being followed; what is not over may be approved later on. */
    method ReadRow(key: Key, a: Id) returns (s: Status)
      requires Ready() && key in digest.cards && a in digest.cards[key].items && following.Some? && following.value.key == key
      modifies `settled, `following, `log, `trace
      ensures Ready() && following.Some? && following.value.key == key && old(settled) <= settled
      ensures log == old(log) + [RowRead(a, s)] && (s.Over? ==> a in settled)
      ensures old(following).value.waiting <= following.value.waiting && (s.Waiting? ==> a in following.value.waiting)
    {
      s := StatusOf(a);
      if !s.Over? {
        Onward(SeeWaiting(a));
        following := Some(following.value.(waiting := following.value.waiting + {a}));
        trace := trace + [SeeWaiting(a)];
      }
    }

    /** The rows of the card being followed: which still wait, and whether none is open. */
    method ReadRows(key: Key, items: seq<Id>) returns (waiting: set<Id>, allOver: bool)
      requires Ready() && key in digest.cards && items == digest.cards[key].items
      requires following.Some? && following.value.key == key
      modifies `settled, `following, `log, `trace
      ensures Ready() && following.Some? && following.value.key == key && old(settled) <= settled
      ensures Quiet(old(log), log) && |log| == |old(log)| + |items| && RowsRead(log, |old(log)|, items)
      ensures waiting == ReadWaiting(log, |old(log)|, items) && waiting <= following.value.waiting
      ensures allOver ==> AllSettled(items, settled)
    {
      waiting, allOver := {}, true;
      for i := 0 to |items|
        invariant Ready() && following.Some? && following.value.key == key && old(settled) <= settled
        invariant Quiet(old(log), log) && |log| == |old(log)| + i && RowsRead(log, |old(log)|, items[..i])
        invariant waiting == ReadWaiting(log, |old(log)|, items[..i]) && waiting <= following.value.waiting
        invariant allOver ==> AllSettled(items[..i], settled)
      {
        assert items[..i + 1] == items[..i] + [items[i]];
        ghost var before := log;
        var s := ReadRow(key, items[i]);
        NextRow(before, log, |old(log)|, items, i);
        if s.Waiting? {
          waiting := waiting + {items[i]};
        }
        allOver := allOver && s.Over?;
      }
      assert items[..|items|] == items;
    }

    /** `_preview_verdict`: is the owner's ❌ on the item's preview now? None if it cannot
        be read. */
    method PreviewDenied(id: Id) returns (r: Outcome, denied: Option<bool>)
      requires Ready()
      modifies `log, `up, `following, `trace, `inFlight
      ensures Went(r)
      ensures r.Ok? ==> log != [] && Quiet(old(log), log[..|log| - 1])
      ensures r.Ok? && denied.None? ==> log[|log| - 1] == Unread(id)
      ensures r.Ok? && denied.Some? ==> JustLooked(log, id) && denied.value == OwnerDenies(owner, log[|log| - 1].reactions)
    {
      denied := None;
      r := Call(Other);
      if r.IsRefusal() {
        Occurs(Unread(id));
        assert log[..|log| - 1] == old(log);
        return Ok, None;
      }
      :- r;
      var reactions: seq<Reaction> := *;
      ghost var before := log;
      :- Call(Looked(id, reactions));
      assert log[..|log| - 1] == before;
      var choice := OwnerDecision(owner, reactions);
      return Ok, Some(choice == Some(Denies));
    }

    /** The items chosen on one card, each after its preview is read again. */
    method AnswerChosen(key: Key, chosen: seq<Id>) returns (r: Outcome)
      requires Ready() && key in digest.cards && digest.cards[key].supersededBy.None?
      requires following.Some? && following.value.key == key
      requires forall a | a in chosen ::
        a in digest.cards[key].approvable && a in entries && a in following.value.waiting && Picked(owner, log, key, a)
      modifies `entries, `settled, `log, `up, `disk, `following, `trace, `inFlight
      ensures Went(r)
      ensures r.Ok? ==> Answered(owner, log, |old(log)|, key) && LookedForAll(log, |old(log)|, chosen)
    {
      for i := 0 to |chosen|
        invariant Ready() && following == old(following) && entries.Keys == old(entries.Keys)
        invariant old(settled) <= settled && old(log) <= log
        invariant Answered(owner, log, |old(log)|, key) && LookedForAll(log, |old(log)|, chosen[..i])
        invariant LastRead(log) == LastRead(old(log))
      {
        assert chosen[..i + 1] == chosen[..i] + [chosen[i]];
        :- AnswerOne(key, chosen[i], |old(log)|);
      }
      assert chosen[..|chosen|] == chosen;
      return Ok;
    }

    /** One item picked on the card: decided as its preview says now, or left if that cannot be
        read. */
    method AnswerOne(key: Key, a: Id, ghost from: nat) returns (r: Outcome)
      requires Ready() && key in digest.cards && digest.cards[key].supersededBy.None?
      requires following.Some? && following.value.key == key && from <= |log| && Answered(owner, log, from, key)
      requires a in digest.cards[key].approvable && a in entries && a in following.value.waiting && Picked(owner, log, key, a)
      modifies `entries, `settled, `log, `up, `disk, `following, `trace, `inFlight
      ensures Went(r) && entries.Keys == old(entries.Keys)
      ensures r.Ok? ==> Answered(owner, log, from, key) && LastRead(log) == LastRead(old(log))
      ensures r.Ok? ==> forall id :: LookedFor(log, from, id) <==> LookedFor(old(log), from, id) || id == a
    {
      var denied :- PreviewDenied(a);
      ghost var looked := log;
      LookKeeps(owner, old(log), looked, from, key);
      if denied.None? {
        AfterUnread(owner, old(log), looked, from, key, a);
        return Ok;
      }
      if denied.value {
        r := Answer(a, Happen(Denied(a)));
      } else {
        r := Answer(a, ApproveFromCard(a));
      }
      AfterDecision(owner, old(log), looked, log, from, key);
    }

    /** `card["final"] = True`. */
    method Finish(key: Key)
      requires Ready() && key in digest.cards && AllSettled(digest.cards[key].items, settled)
      modifies `digest, `trace
      ensures Ready() && digest.run == old(digest.run)
      ensures digest.cards == old(digest.cards)[key := old(digest.cards)[key].(final := true)]
    {
      Onward(FinishCard(key));
      digest := digest.(cards := digest.cards[key := digest.cards[key].(final := true)]);
      trace := trace + [FinishCard(key)];
    }

    /** `_follow_card`. */
    method FollowDigestCard(key: Key) returns (r: Outcome)
      requires Ready() && key in digest.cards && following.None?
      modifies `entries, `digest, `settled, `log, `up, `disk, `following, `trace, `inFlight
      ensures Went(r)
      ensures digest.run == old(digest.run) && digest.cards.Keys == old(digest.cards.Keys)
      ensures forall other | other in digest.cards && other != key :: digest.cards[other] == old(digest.cards)[other]
      ensures |old(log)| < |log| && log[|old(log)|] == CardBegun(key)
      ensures r.Ok? ==> CardFollowed(owner, log, |old(log)| + 1, key, old(digest).cards[key], FromCard(old(digest).cards[key], old(entries)))
    {
      Occurs(CardBegun(key));
      Onward(DigestMachine.FollowCard(key));
      following, trace := Some(Following(key, {})), trace + [DigestMachine.FollowCard(key)];
      r := AnswerCard(key);
      if !r.Crash? {
        Onward(LeaveCard);
        following, trace := None, trace + [LeaveCard];
      }
    }

    method AnswerCard(key: Key) returns (r: Outcome)
      requires Ready() && key in digest.cards && following.Some? && following.value.key == key
      modifies `entries, `digest, `settled, `log, `up, `disk, `following, `trace, `inFlight
      ensures Traced() && inFlight.None? && (up <==> !r.Crash?) && old(settled) <= settled && old(log) <= log
      ensures !up ==> following.None?
      ensures digest.run == old(digest.run) && digest.cards.Keys == old(digest.cards.Keys)
      ensures forall other | other in digest.cards && other != key :: digest.cards[other] == old(digest.cards)[other]
      ensures r.Ok? ==> CardFollowed(owner, log, |old(log)|, key, old(digest).cards[key], FromCard(old(digest).cards[key], old(entries)))
    {
      var card := digest.cards[key];
      var waiting, allOver := ReadRows(key, card.items);
      ghost var rows, open := log, FromCard(card, entries);
      if waiting == {} || card.supersededBy.Some? {
        CardWasNotRead(owner, rows, |old(log)|, key, card, open);
      } else {
        var reposted;
        r, reposted, allOver := ReadWaitingCard(key, card, waiting, allOver, |old(log)|, open);
        :- r;
        if reposted {
          return Ok;
        }
      }
      ghost var before := log;
      r := ShowStanding(key, allOver);
      QuietKeepsFollowed(owner, before, log, |old(log)|, key, card, open);
    }

    /** ... of a card that counts and has an item waiting. */
    method ReadWaitingCard(key: Key, card: Card, waiting: set<Id>, over: bool, ghost from: nat, ghost open: set<Id>)
      returns (r: Outcome, reposted: bool, allOver: bool)
      requires Ready() && key in digest.cards && card == digest.cards[key] && card.supersededBy.None?
      requires following.Some? && following.value.key == key && waiting <= following.value.waiting
      requires |log| == from + |card.items| && RowsRead(log, from, card.items) && waiting == ReadWaiting(log, from, card.items) && waiting != {}
      requires open == FromCard(card, entries) && (over ==> AllSettled(card.items, settled))
      modifies `entries, `settled, `log, `up, `disk, `following, `trace, `inFlight
      ensures Traced() && inFlight.None? && (up <==> !r.Crash?) && old(settled) <= settled && old(log) <= log
      ensures if up then following.Some? && following.value.key == key else following.None?
      ensures r.Ok? ==> CardFollowed(owner, log, from, key, card, open)
      ensures allOver ==> AllSettled(card.items, settled)
    {
      allOver := over;
      ghost var rows := log;
      var answered; ghost var q;
      r, reposted, answered, q := ReadCard(key, card, waiting);
      :- r;
      if reposted {
        CardWasGone(owner, rows, log, from, q, key, card, open);
        return Ok, true, over;
      }
      ghost var read := log;
      if answered {
        var later;
        later, allOver := ReadRows(key, card.items);
      }
      CardWasRead(owner, rows, read, log, from, q, key, card, open);
    }

    /** The card shows how its items stand; once none is open it is not followed again. */
    method ShowStanding(key: Key, allOver: bool) returns (r: Outcome)
      requires Ready() && key in digest.cards && (allOver ==> AllSettled(digest.cards[key].items, settled))
      modifies `digest, `log, `up, `disk, `following, `trace, `inFlight
      ensures Went(r) && Quiet(old(log), log)
      ensures digest.run == old(digest.run) && digest.cards.Keys == old(digest.cards.Keys)
      ensures digest.cards == old(digest.cards)[key := digest.cards[key]]
      ensures digest.cards[key] == old(digest.cards)[key].(final := old(digest.cards)[key].final || allOver)
    {
      if allOver {
        Finish(key);
      }
      :- Edit(Some(key));
      if allOver {
        :- Save();
      }
      return Ok;
    }

    method RepostCard(key: Key) returns (r: Outcome, ghost q: nat)
      requires Ready()
      modifies `log, `up, `disk, `following, `trace, `inFlight
      ensures Went(r)
      ensures r.Ok? ==> |old(log)| <= q < |log| && log[q] == CardReposted(key) && Quiet(old(log), log)
    {
      FoundGone(Some(key));
      q := |log|;
      :- Call(CardReposted(key));
      :- Save();
      r := TryReactions();
    }

    /** The message of a card that counts and the reactions on it. A card deleted in Discord is
        posted again instead. */
    method FetchCard(key: Key, card: Card) returns (r: Outcome, reposted: bool, reactions: seq<Reaction>, ghost q: nat)
      requires Ready() && key in digest.cards && card == digest.cards[key]
      modifies `log, `up, `disk, `following, `trace, `inFlight
      ensures Went(r)
      ensures r.Ok? && reposted ==> |old(log)| <= q < |log| && log[q] == CardReposted(key) && Quiet(old(log), log)
      ensures r.Ok? && !reposted ==>
        q + 1 == |log| && log[q] == CardRead(key, card.items, reactions) && Quiet(old(log), log[..q])
    {
      reposted, reactions, q := false, *, 0;
      r := Call(Other);
      if r.Gone? {
        r, q := RepostCard(key);
        return r, true, reactions, q;
      }
      :- r;
      if * {
        :- TryReactions();
      }
      q := |log|;
      ghost var before := log;
      r := Call(CardRead(key, card.items, reactions));
      assert r.Ok? ==> log[..q] == before;
    }

    /** ... read, and answered. */
    method ReadCard(key: Key, card: Card, waiting: set<Id>) returns (r: Outcome, reposted: bool, answered: bool, ghost q: nat)
      requires Ready() && key in digest.cards && card == digest.cards[key] && card.supersededBy.None?
      requires following.Some? && following.value.key == key && waiting <= following.value.waiting
      modifies `entries, `settled, `log, `up, `disk, `following, `trace, `inFlight
      ensures Went(r)
      ensures r.Ok? && reposted ==> |old(log)| <= q < |log| && log[q] == CardReposted(key) && Quiet(old(log), log)
      ensures r.Ok? && !reposted ==>
        ReadAndAnswered(owner, log, |old(log)|, q, key, card.items, waiting * FromCard(card, old(entries)))
    {
      answered := false;
      var reactions: seq<Reaction>;
      r, reposted, reactions, q := FetchCard(key, card);
      :- r;
      if reposted {
        return;
      }
      var open := waiting * FromCard(card, entries);
      var chosen := CardDecision(owner, card.items, reactions, open);
      ghost var read := log;
      r := AnswerChosen(key, chosen);
      answered := chosen != [];
      if r.Ok? {
        ReadThenAnswered(owner, old(log), read, log, key, card.items, open, chosen);
      }
    }

    /** The items that may be approved from the card. */
    function FromCard(card: Card, entries: map<Id, Entry>): (open: set<Id>)
      ensures forall a :: a in open <==> a in card.approvable && a in entries && entries[a].complete && !entries[a].attachFailed
    {
      set a | a in card.approvable && Approvable(entries, a)
    }

    // ----- a planned run

    /** A run is owed work, and older cards that count are only those not yet superseded. */
    ghost predicate Owing()
      reads this
    {
      && Ready() && following.None? && digest.run.Some? && !digest.run.value.complete
      && TriesOk(digest.run.value) && Distinct(digest.run.value.items)
    }

    /** What a piece of work on the run leaves of it. */
    twostate predicate KeepsRun()
      reads this
    {
      && digest.run.Some? && old(digest.run).Some?
      && digest.run.value.(posted := {}) == old(digest.run).value.(posted := {})
      && old(digest.run).value.posted <= digest.run.value.posted
      && (OthersDown(old(digest)) ==> OthersDown(digest))
      && OwnCardsOnly(old(digest), digest)
    }

    method SetRun(run: DigestRun)
      requires Ready() && digest.run.Some? && SamePlan(digest.run.value, run) && TriesOk(run)
      modifies `digest, `trace
      ensures Ready() && digest == old(digest).(run := Some(run))
    {
      Onward(Note(run));
      digest, trace := digest.(run := Some(run)), trace + [Note(run)];
    }

    /** `card["superseded_by"] = day`, saved at once. */
    method MarkSuperseded(key: Key) returns (r: Outcome)
      requires Owing() && key in digest.cards
      modifies `digest, `disk, `log, `up, `following, `trace, `inFlight
      ensures Went(r) && (r.Ok? || r.Crash?)
      ensures r.Ok? ==> digest == old(digest).(cards := old(digest).cards[key :=
                old(digest).cards[key].(supersededBy := Some(old(digest).run.value.day))])
    {
      if * {
        Onward(DigestMachine.SupersedeCard(key));
        digest := digest.(cards := digest.cards[key := digest.cards[key].(supersededBy := Some(digest.run.value.day))]);
        disk, trace := Saved(entries, digest), trace + [DigestMachine.SupersedeCard(key)];
        if * {
          return Ok;
        }
      }
      Die();
      r := Crash;
    }

    /** `_show_card`. */
    method ShowCard(ghost key: Key) returns (r: Outcome)
      requires Ready()
      modifies `log, `up, `disk, `following, `trace, `inFlight
      ensures Went(r)
    {
      r := Edit(Some(key));
    }

    /** The card goes to the channel. */
    method Send(index: nat) returns (r: Outcome)
      requires Owing() && Enabled(Here(), SendCard(index))
      modifies `log, `up, `following, `trace, `inFlight
      ensures Traced() && following.None? && (up <==> !r.Crash?) && old(log) <= log
      ensures r.Ok? ==> inFlight == Take(old(Here()), SendCard(index)).inFlight && log == old(log) + [CardUp(Key(digest.run.value.id, index))]
      ensures !r.Ok? ==> inFlight.None?
    {
      r := AnyOutcome();
      var delivered: bool := *;
      if r.Ok? || (!r.IsRefusal() && delivered) {
        Onward(SendCard(index));
        ghost var next := Take(Here(), SendCard(index));
        log, inFlight, trace := next.log, next.inFlight, trace + [SendCard(index)];
        if r.Transport? {
          Onward(LoseCard);
          log, trace := log + [CardInterrupted(inFlight.value.key)], trace + [LoseCard];
          inFlight := None;
        }
      }
      if r.Crash? {
        Die();
      }
    }

    /** The card that just went up is recorded, and the record saved at once. */
    method Record(key: Key, card: Card) returns (r: Outcome)
      requires Traced() && up && following.None? && inFlight == Some(InFlight(key, card)) && digest.run.Some?
      modifies `digest, `disk, `log, `up, `following, `trace, `inFlight
      ensures Went(r) && (r.Ok? || r.Crash?)
      ensures r.Ok? ==> digest == DigestState(old(digest).cards[key := card],
                Some(old(digest).run.value.(posted := old(digest).run.value.posted + {key.index})))
      ensures r.Ok? ==> log == old(log) + [CardSaved(key)]
    {
      if * {
        Onward(RecordCard);
        var run := digest.run.value;
        digest := DigestState(digest.cards[key := card], Some(run.(posted := run.posted + {key.index})));
        disk, log, trace := Saved(entries, digest), log + [CardSaved(key)], trace + [RecordCard];
        inFlight := None;
        if * {
          return Ok;
        }
      }
      Die();
      r := Crash;
    }

    /** The card is up with the page's items, of which those may be approved whose whole preview
        is up, and it is recorded. */
    ghost predicate CardPosted(key: Key, page: seq<Id>, from: nat)
      reads this
    {
      && from + 1 < |log| && log[from] == CardUp(key) && log[from + 1] == CardSaved(key)
      && key in digest.cards && digest.cards[key].items == page && Live(digest.cards[key])
      && forall a :: a in digest.cards[key].approvable <==>
           a in page && a in entries && entries[a].complete && !entries[a].attachFailed
    }

    method PostAndRecord(index: nat, key: Key, card: Card) returns (r: Outcome)
      requires Owing() && OthersDown(digest) && 1 <= index <= |digest.run.value.pages| && index !in digest.run.value.posted
      requires key == Key(digest.run.value.id, index) && card.items == PageOf(digest.run.value, index) && Live(card)
      requires forall a :: a in card.approvable <==> a in card.items && Approvable(entries, a)
      modifies `digest, `log, `up, `disk, `following, `trace, `inFlight
      ensures Went(r)
      ensures !r.Ok? && !r.Crash? ==> digest == old(digest)
      ensures r.Ok? ==> log == old(log) + [CardUp(key), CardSaved(key)]
      ensures r.Ok? ==> digest == DigestState(old(digest).cards[key := card],
                Some(old(digest).run.value.(posted := old(digest).run.value.posted + {index})))
    {
      assert card.approvable == set a | a in PageOf(digest.run.value, index) && Approvable(entries, a);
      :- Send(index);
      r := Record(key, card);
    }

    /** `_post_card`. */
    method PostCard(index: nat) returns (r: Outcome)
      requires Owing() && OthersDown(digest) && 1 <= index <= |digest.run.value.pages|
      modifies `digest, `log, `up, `disk, `following, `trace, `inFlight
      ensures Went(r)
      ensures r.Crash? || KeepsRun()
      ensures index in old(digest).run.value.posted ==> r.Ok? && log == old(log) && digest == old(digest)
      ensures r.Ok? ==> index in digest.run.value.posted
      ensures r.Ok? && index !in old(digest).run.value.posted ==> CardPosted(Key(digest.run.value.id, index), PageOf(digest.run.value, index), |old(log)|)
      ensures r.Ok? && index !in old(digest).run.value.posted ==> digest.cards.Keys == old(digest).cards.Keys + {Key(digest.run.value.id, index)}
    {
      var run := digest.run.value;
      if index in run.posted {
        return Ok;  // posted before a restart: never twice
      }
      var key := Key(run.id, index);
      var page := PageOf(run, index);
      var card := Card(page, set a | a in page && Approvable(entries, a), false, None);
      :- PostAndRecord(index, key, card);
      r := TryReactions();
    }

    /** The work of one part. */
    method Work(part: Part) returns (r: Outcome)
      requires Owing()
      requires part.Page? ==> OthersDown(digest) && 1 <= part.index <= |digest.run.value.pages|
      modifies `entries, `digest, `log, `up, `disk, `following, `trace, `inFlight
      ensures Went(r)
      ensures r.Crash? || KeepsRun()
      ensures !part.Page? ==> digest == old(digest)
      ensures r.Ok? && part.Page? ==> part.index in digest.run.value.posted
      ensures if part.Preview? then entries - {part.id} == old(entries) - {part.id} else entries == old(entries)
      ensures r.Ok? && part.Preview? ==> part.id in entries && PostedWhole(log, |old(log)|, part.id, entries[part.id])
    {
      match part {
        case Supersede(key) => r := ShowCard(key);
        case ExpiredReport(_) => r := Call(Other);
        case Preview(id) =>
          if id !in entries || entries[id].final {
            r := Post(id);
          } else {
            r := RepostPreview(id);
          }
        case Page(index) => r := PostCard(index);
      }
    }

    /** `_digest_alert`: said in the channel, if Discord takes it. */
    method Alert() returns (r: Outcome)
      requires Ready()
      modifies `log, `up, `disk, `following, `trace, `inFlight
      ensures Went(r) && !r.IsRefusal()
    {
      r := Ok;
      :- Save();
      r := Call(Other);
      if r.IsRefusal() {
        r := Ok;
      }
    }

    /** A part's outcome is recorded and saved. */
    method Recorded(run: DigestRun) returns (r: Outcome)
      requires Ready() && digest.run.Some? && SamePlan(digest.run.value, run) && TriesOk(run)
      modifies `digest, `disk, `log, `up, `following, `trace, `inFlight
      ensures Went(r) && (r.Ok? || r.Crash?)
      ensures digest == old(digest).(run := Some(run))
    {
      SetRun(run);
      r := Save();
    }

    /** ... and what recording it would leave of the run. */
    method WorkOn(part: Part) returns (r: Outcome)
      requires Owing() && !Settles(digest.run.value, part)
      requires part.Page? ==> OthersDown(digest) && 1 <= part.index <= |digest.run.value.pages|
      modifies `entries, `digest, `log, `up, `disk, `following, `trace, `inFlight
      ensures Went(r)
      ensures r.Crash? || KeepsRun()
      ensures !part.Page? ==> digest == old(digest)
      ensures if part.Preview? then entries - {part.id} == old(entries) - {part.id} else entries == old(entries)
      ensures r.Ok? && part.Preview? ==> part.id in entries && PostedWhole(log, |old(log)|, part.id, entries[part.id])
      ensures !r.Crash? ==> TriesOk(digest.run.value) && OnlyPart(old(digest).run.value, digest.run.value, part)
      ensures !r.Crash? ==> var next := PartRefused(digest.run.value, part);
        && OnlyPart(old(digest).run.value, next, part) && TriesOk(next)
        && (if Settles(next, part) then Tries(next, part) == 3 else RefusedAgain(old(digest).run.value, next, part) && Tries(next, part) < 3)
      ensures r.Ok? ==> var next := PartDone(digest.run.value, part);
        OnlyPart(old(digest).run.value, next, part) && TriesOk(next) && Settles(next, part)
    {
      ghost var before := digest.run.value;
      r := Work(part);
      if !r.Crash? {
        PartRecorded(before, digest.run.value, part);
      }
    }

    /** `_part`: done now or before, or given up (true); or refused and still owed (false). A
        part recorded as done or given up is not worked on again. */
    method TryPart(part: Part) returns (r: Outcome, over: bool)
      requires Owing()
      requires part.Page? ==> OthersDown(digest) && 1 <= part.index <= |digest.run.value.pages|
      modifies `entries, `digest, `log, `up, `disk, `following, `trace, `inFlight
      ensures Went(r) && !r.IsRefusal()
      ensures !r.Crash? ==> Owing() && (OthersDown(old(digest)) ==> OthersDown(digest))
      ensures !r.Crash? ==> OnlyPart(old(digest).run.value, digest.run.value, part) && OwnCardsOnly(old(digest), digest)
      ensures !part.Page? && !r.Crash? ==> digest.cards == old(digest).cards
      ensures r.Ok? ==> if over then Settles(digest.run.value, part)
                        else RefusedAgain(old(digest).run.value, digest.run.value, part)
      ensures Settles(old(digest).run.value, part) ==> r.Ok? && over && log == old(log) && digest == old(digest)
      ensures r.Ok? && !Settles(old(digest).run.value, part) && part !in digest.run.value.done ==>
        (part in digest.run.value.gaveUp <==> Tries(digest.run.value, part) == 3)
      ensures if part.Preview? then entries - {part.id} == old(entries) - {part.id} else entries == old(entries)
      ensures r.Ok? && part.Preview? && part in digest.run.value.done && part !in old(digest).run.value.done ==>
        part.id in entries && PostedWhole(log, |old(log)|, part.id, entries[part.id])
    {
      over := true;
      if part in digest.run.value.done || part in digest.run.value.gaveUp {
        return Ok, true;
      }
      r := WorkOn(part);
      if r.Crash? || r.Transport? {
        return;
      }
      var run := digest.run.value;
      if r.IsRefusal() {
        r, over := NoteRefusal(run, part);
        return;
      }
      r := Recorded(PartDone(run, part));
    }

    /** One more refusal of the part, the owner told if it was the last. */
    method NoteRefusal(run: DigestRun, part: Part) returns (r: Outcome, over: bool)
      requires Ready() && digest.run == Some(run) && SamePlan(run, PartRefused(run, part)) && TriesOk(PartRefused(run, part))
      modifies `digest, `disk, `log, `up, `following, `trace, `inFlight
      ensures Went(r) && !r.IsRefusal()
      ensures digest == old(digest).(run := Some(PartRefused(run, part)))
      ensures over <==> part in PartRefused(run, part).gaveUp
    {
      over := part in PartRefused(run, part).gaveUp;
      :- Recorded(PartRefused(run, part));
      r := Ok;
      if over {
        r := Alert();
      }
    }

    /** ... as the next part of a stage of the pass. */
    method TryStage(part: Part, ghost before: DigestRun, ghost owing: Option<Part>) returns (r: Outcome, over: bool)
      requires Owing() && OthersDown(digest) && Stage(before, digest.run.value, KindOf(part), owing) && owing != Some(part)
      requires part.Page? ==> 1 <= part.index <= |digest.run.value.pages|
      modifies `entries, `digest, `log, `up, `disk, `following, `trace, `inFlight
      ensures Went(r) && !r.IsRefusal()
      ensures r.Ok? ==> Owing() && OthersDown(digest) && OwnCardsOnly(old(digest), digest)
      ensures r.Ok? ==> OnlyPart(old(digest).run.value, digest.run.value, part)
      ensures r.Ok? ==> Stage(before, digest.run.value, KindOf(part), if over then owing else Some(part))
      ensures r.Ok? ==> if over then Settles(digest.run.value, part)
                        else RefusedAgain(old(digest).run.value, digest.run.value, part)
      ensures if part.Preview? then entries - {part.id} == old(entries) - {part.id} else entries == old(entries)
    {
      ghost var was := digest.run.value;
      r, over := TryPart(part);
      if r.Ok? {
        StageStep(before, was, digest.run.value, KindOf(part), owing, part, over);
      }
    }

    /** A card of an earlier run stops counting, in the record; then that is shown on it. */
    method SupersedeOne(key: Key) returns (r: Outcome, over: bool)
      requires Owing() && key in digest.cards && key.run != digest.run.value.id
      modifies `entries, `digest, `log, `up, `disk, `following, `trace, `inFlight
      ensures Went(r) && !r.IsRefusal()
      ensures r.Ok? ==> Owing() && OnlyPart(old(digest).run.value, digest.run.value, Supersede(key))
      ensures r.Ok? ==> key in digest.cards && !Live(digest.cards[key]) && digest.cards == old(digest).cards[key := digest.cards[key]]
      ensures r.Ok? && !over ==> RefusedAgain(old(digest).run.value, digest.run.value, Supersede(key))
    {
      over := true;
      if Live(digest.cards[key]) {
        :- MarkSuperseded(key);
      }
      if digest.cards[key].supersededBy == Some(digest.run.value.day) {
        r, over := TryPart(Supersede(key));
        return;
      }
      return Ok, true;
    }

    /** Older cards stop counting, in the record, before anything else is done; showing it on
        them is a part like any other. */
    method SupersedeOlder() returns (r: Outcome, owed: bool, ghost owing: Option<Part>)
      requires Owing()
      modifies `entries, `digest, `log, `up, `disk, `following, `trace, `inFlight
      ensures Went(r) && !r.IsRefusal()
      ensures r.Ok? ==> Owing() && Stage(old(digest).run.value, digest.run.value, Superseding, owing)
      ensures r.Ok? ==> OthersDown(digest)
      ensures r.Ok? ==> (owed <==> owing.Some?) && OwnCardsOnly(old(digest), digest)
      ensures owing.Some? ==> IsPart(old(digest), reportChunks, owing.value)
    {
      owed, owing := false, None;
      ghost var before := digest.run.value;
      var todo := digest.cards.Keys;
      while todo != {}
        invariant Owing() && following == old(following) && old(settled) <= settled && old(log) <= log && digest.cards.Keys == old(digest.cards.Keys)
        invariant todo <= digest.cards.Keys && Stage(before, digest.run.value, Superseding, owing)
        invariant forall key | key in digest.cards && key !in todo && key.run != before.id :: !Live(digest.cards[key])
        invariant owing.Some? ==> owing.value.Supersede? && owing.value.key !in todo && IsPart(old(digest), reportChunks, owing.value)
        invariant owed <==> owing.Some?
      {
        var key :| key in todo;
        if key.run != digest.run.value.id {
          ghost var was := digest.run.value;
          var over :- SupersedeOne(key);
          StageStep(before, was, digest.run.value, Superseding, owing, Supersede(key), over);
          if !over {
            owed, owing := true, Some(Supersede(key));
          }
        }
        todo := todo - {key};
      }
      return Ok, owed, owing;
    }

    /** The report of items that expired unanswered, chunk by chunk, in order. */
    method ReportExpired(owedBefore: bool) returns (r: Outcome, owed: bool, ghost owing: Option<Part>)
      requires Owing() && OthersDown(digest)
      modifies `entries, `digest, `log, `up, `disk, `following, `trace, `inFlight
      ensures Went(r) && !r.IsRefusal()
      ensures r.Ok? ==> Owing() && Stage(old(digest).run.value, digest.run.value, Reporting, owing)
      ensures r.Ok? ==> OthersDown(digest)
      ensures r.Ok? ==> (owed <==> owing.Some?) && OwnCardsOnly(old(digest), digest)
      ensures owing.Some? ==> IsPart(old(digest), reportChunks, owing.value)
    {
      owed, owing := false, None;
      ghost var before := digest.run.value;
      if digest.run.value.expiredPosted {
        return Ok, false, None;
      }
      var chunks := AnyNat();
      chunks := if chunks < reportChunks then chunks else reportChunks;
      var number := 1;
      while number <= chunks
        invariant Owing() && OthersDown(digest) && following == old(following) && old(settled) <= settled && old(log) <= log && OwnCardsOnly(old(digest), digest)
        invariant Stage(before, digest.run.value, Reporting, owing) && owing.None? && !owed
      {
        var over :- TryStage(ExpiredReport(number), before, owing);
        if !over {
          owed, owing := true, Some(ExpiredReport(number));
        }
        if !over || ExpiredReport(number) in digest.run.value.gaveUp {
          break;  // a later chunk waits for this one, or would be refused the same way
        }
        number := number + 1;
      }
      if !owed && !owedBefore {
        :- NoteReported();
      }
      return Ok, owed, owing;
    }

    method NoteReported() returns (r: Outcome)
      requires Owing()
      modifies `digest, `disk, `log, `up, `following, `trace, `inFlight
      ensures Went(r) && (r.Ok? || r.Crash?)
      ensures digest == old(digest).(run := Some(old(digest).run.value.(expiredPosted := true)))
      ensures forall p :: SameStanding(old(digest).run.value, digest.run.value, p)
    {
      r := Recorded(digest.run.value.(expiredPosted := true));
    }

    /** Every item's full preview: posted, or posted again when not all of it got through. */
    method PostPreviews() returns (r: Outcome, owed: bool, ghost owing: Option<Part>)
      requires Owing() && OthersDown(digest)
      modifies `entries, `digest, `log, `up, `disk, `following, `trace, `inFlight
      ensures Went(r) && !r.IsRefusal()
      ensures r.Ok? ==> Owing() && Stage(old(digest).run.value, digest.run.value, Previewing, owing)
      ensures r.Ok? ==> OthersDown(digest)
      ensures r.Ok? ==> (owed <==> owing.Some?) && OwnCardsOnly(old(digest), digest)
      ensures owing.Some? ==> IsPart(old(digest), reportChunks, owing.value)
      ensures |old(log)| < |log| && log[|old(log)|].PendingRead?
      ensures r.Ok? ==> ItemsServed(old(digest).run.value, digest.run.value, log[|old(log)|].ids, entries, owed)
    {
      owed, owing := false, None;
      ghost var before := digest.run.value;
      var items := digest.run.value.items;
      var pending := Pending();
      for i := 0 to |items|
        invariant |old(log)| < |log| && log[|old(log)|] == PendingRead(pending)
        invariant Owing() && OthersDown(digest) && following == old(following) && old(settled) <= settled && old(log) <= log && OwnCardsOnly(old(digest), digest)
        invariant Stage(before, digest.run.value, Previewing, owing)
        invariant FirstServed(before, digest.run.value, pending, entries, items, i, owed)
        invariant owing.Some? ==> owing.value.Preview? && owing.value.id in items[..i]
        invariant owed <==> owing.Some?
      {
        var id := items[i];
        if id in pending && (id !in entries || entries[id].final || entries[id].attachFailed || !entries[id].complete) {
          ghost var was, shown := digest.run.value, entries;
          var over :- TryStage(Preview(id), before, owing);
          OneMoreServed(before, was, digest.run.value, pending, shown, entries, items, i, over, owed);
          if !over {
            owed, owing := true, Some(Preview(id));
          }
        }
      }
      return Ok, owed, owing;
    }

    /** The cards themselves. */
    method PostPages() returns (r: Outcome, owed: bool, ghost owing: Option<Part>)
      requires Owing() && OthersDown(digest)
      modifies `entries, `digest, `log, `up, `disk, `following, `trace, `inFlight
      ensures Went(r) && !r.IsRefusal()
      ensures r.Ok? ==> Owing() && Stage(old(digest).run.value, digest.run.value, Paging, owing)
      ensures r.Ok? ==> OthersDown(digest)
      ensures r.Ok? ==> (owed <==> owing.Some?) && OwnCardsOnly(old(digest), digest)
      ensures owing.Some? ==> IsPart(old(digest), reportChunks, owing.value)
      ensures entries == old(entries)
      ensures r.Ok? ==> PagesServed(old(digest).run.value, digest.run.value, |digest.run.value.pages|, owed)
    {
      owed, owing := false, None;
      ghost var before := digest.run.value;
      for i := 0 to |digest.run.value.pages|
        invariant Owing() && OthersDown(digest) && following == old(following) && old(settled) <= settled && old(log) <= log && OwnCardsOnly(old(digest), digest)
        invariant Stage(before, digest.run.value, Paging, owing)
        invariant entries == old(entries)
        invariant PagesServed(before, digest.run.value, i, owed)
        invariant owing.Some? ==> owing.value.Page? && owing.value.index <= i
        invariant owed <==> owing.Some?
      {
        ghost var was := digest.run.value;
        var over :- TryStage(Page(i + 1), before, owing);
        AlsoServed(before, was, digest.run.value, Page(i + 1), over, owed);
        if !over {
          owed, owing := true, Some(Page(i + 1));
        }
      }
      return Ok, owed, owing;
    }

    method Complete() returns (r: Outcome)
      requires Owing()
      modifies `digest, `log, `up, `disk, `following, `trace, `inFlight
      ensures Went(r) && !r.IsRefusal()
      ensures r.Ok? ==> digest == old(digest).(run := Some(old(digest).run.value.(complete := true)))
    {
      var run := digest.run.value;
      Onward(CompleteRun);
      digest := digest.(run := Some(run.(complete := true)));
      log, trace := log + [RunComplete(run.id)], trace + [CompleteRun];
      r := Save();
    }

    /** `_continue_run`: what the planned run still owes, part by part. It ends complete, or
        owing only parts of which at least one was refused once more in this very pass, or
        cut short by a failure that was no refusal - and nothing done is ever undone. */
    method ContinueRun() returns (r: Outcome, owed: bool)
      requires Owing()
      modifies `entries, `digest, `log, `up, `disk, `following, `trace, `inFlight
      ensures Went(r) && !r.IsRefusal()
      ensures r.Ok? ==> digest.run.Some? && Advances(old(digest).run.value, digest.run.value)
      ensures r.Ok? ==> (digest.run.value.complete <==> !owed)
      ensures r.Ok? && owed ==> Owing()
      ensures r.Ok? && owed ==> OwnCardsOnly(old(digest), digest) && exists part |
        IsPart(old(digest), reportChunks, part) :: RefusedAgain(old(digest).run.value, digest.run.value, part)
      ensures r.Ok? ==> PagesServed(old(digest).run.value, digest.run.value, |digest.run.value.pages|, owed)
      ensures r.Ok? ==> exists at | |old(log)| <= at < |log| && log[at].PendingRead? ::
        ItemsServed(old(digest).run.value, digest.run.value, log[at].ids, entries, owed)
    {
      owed := true;
      ghost var run0 := digest.run.value;
      var owed1, owing1 :- SupersedeOlder();
      ghost var run1 := digest.run.value;
      var owed2, owing2 :- ReportExpired(owed1);
      ghost var run2 := digest.run.value;
      ghost var at := |log|;
      var owed3, owing3 :- PostPreviews();
      ghost var run3 := digest.run.value;
      var owed4, owing4 :- PostPages();
      ghost var part := StillOwed(run0, run1, run2, run3, digest.run.value, owing1, owing2, owing3, owing4);
      ghost var run4, pending := digest.run.value, log[at].ids;
      owed := owed1 || owed2 || owed3 || owed4;
      AdvancesChain(run0, run1, run2);
      PassServes(run0, run2, run3, run4, owing4, pending, entries, owed3, owed4, owed);
      if owed {
        return Ok, true;
      }
      r := Complete();
    }

    /** A planned run finishes: the tries its parts have left fall with every pass that leaves
        it owing, so passes that reach Discord end, and they end with the run complete. */
    method FinishRun() returns (r: Outcome)
      requires Owing()
      modifies `entries, `digest, `log, `up, `disk, `following, `trace, `inFlight
      ensures Traced() && !r.IsRefusal()
      ensures r.Ok? ==> digest.run.Some? && digest.run.value.complete && digest.run.value.id == old(digest).run.value.id
    {
      ghost var parts := ListParts(digest, reportChunks);
      var owed := true;
      while owed
        invariant Traced() && digest.run.Some? && digest.run.value.id == old(digest).run.value.id
        invariant if owed then Owing() && Lists(parts, digest, reportChunks) else digest.run.value.complete
        decreases if owed then 1 + AllTriesLeft(digest.run.value, parts) else 0
      {
        ghost var before := digest.run.value;
        AtMostThreeEach(before, parts);
        r, owed := ContinueRun();
        :- r;
        if owed {
          TriesFall(before, digest.run.value, parts);
          AtMostThreeEach(digest.run.value, parts);
        }
      }
      return Ok;
    }

    // ----- the digest tick and the poll

    lemma RunIsOk()
      requires Ready() && digest.run.Some?
      ensures TriesOk(digest.run.value) && Distinct(digest.run.value.items)
    {
      EveryRunIsSafe(owner, trace);
    }

    /** The ids that wait for the digest, in order. */
    function Batched(ids: seq<Id>): seq<Id> {
      if ids == [] then [] else Batched(ids[..|ids| - 1]) + if batched(ids[|ids| - 1]) then [ids[|ids| - 1]] else []
    }

    /** A new run: of what waited for the digest, on cards as full as they go. */
    predicate Planned(run: DigestRun, id: nat, day: nat, pending: seq<Id>) {
      && run.id == id && run.day == day && run.items == Batched(pending)
      && DigestPages.Splits(layout, run.items, run.pages) && DigestPages.Full(layout, run.pages)
    }

    /** `_start_run`: planned, and saved, before anything is posted. */
    method StartRun(day: nat) returns (r: Outcome)
      requires Ready() && following.None? && (digest.run.Some? ==> digest.run.value.complete)
      modifies `entries, `digest, `runsPlanned, `log, `up, `disk, `following, `trace, `inFlight
      ensures Went(r) && !r.IsRefusal()
      ensures |old(log)| < |log| && log[|old(log)|].PendingRead?
      ensures r.Ok? ==> digest.run.Some? && Planned(digest.run.value, old(runsPlanned), day, log[|old(log)|].ids)
    {
      var run := NewRun(day);
      ghost var read := log;
      :- Plan(run);
      RunIsOk();
      var owed;
      r, owed := ContinueRun();
      assert log[|read| - 1] == read[|read| - 1];
    }

    method NewRun(day: nat) returns (run: DigestRun)
      requires Ready()
      modifies `log, `trace
      ensures Ready() && |log| == |old(log)| + 1 && old(log) <= log && log[|old(log)|].PendingRead?
      ensures Planned(run, runsPlanned, day, log[|old(log)|].ids) && Distinct(run.items)
      ensures run.posted == {} && run.done == {} && run.gaveUp == {} && run.tries == map[] && !run.complete
    {
      var pending := Pending();
      var items: seq<Id> := [];
      for i := 0 to |pending|
        invariant Distinct(items) && forall a | a in items :: a in pending[..i]
        invariant items == Batched(pending[..i])
      {
        assert pending[i] !in pending[..i];
        assert pending[..i + 1][..i] == pending[..i];
        if batched(pending[i]) {
          items := items + [pending[i]];
        }
      }
      assert pending[..|pending|] == pending;
      var pages := DigestPages.Pack(layout, items);
      var nothingExpired: bool := *;
      run := DigestRun(runsPlanned, day, items, pages, {}, nothingExpired, {}, map[], {}, false);
    }

    method Plan(run: DigestRun) returns (r: Outcome)
      requires Ready() && Enabled(Here(), PlanRun(run))
      modifies `digest, `runsPlanned, `log, `up, `disk, `following, `trace, `inFlight
      ensures Went(r) && (r.Ok? || r.Crash?)
      ensures r.Ok? ==> digest == old(digest).(run := Some(run))
    {
      if * {
        ghost var next := Take(Here(), PlanRun(run));
        Onward(PlanRun(run));
        digest := digest.(run := Some(run));
        disk, runsPlanned, trace := Saved(entries, digest), runsPlanned + 1, trace + [PlanRun(run)];
        assert Here() == next;
        if * {
          return Ok;
        }
      }
      Die();
      r := Crash;
    }

    /** Every open card in turn; a refusal ends that card's turn only. */
    method FollowCards() returns (r: Outcome)
      requires Ready() && following.None?
      modifies `entries, `digest, `settled, `log, `up, `disk, `following, `trace, `inFlight
      ensures Went(r) && !r.IsRefusal() && digest.run == old(digest.run)
      ensures r.Ok? ==> AllBegun(old(digest.cards), log, |old(log)|)
    {
      var todo := digest.cards.Keys;
      while todo != {}
        invariant Ready() && following.None? && old(settled) <= settled && old(log) <= log && digest.run == old(digest.run)
        invariant todo <= digest.cards.Keys == old(digest.cards.Keys)
        invariant forall key | key in todo :: digest.cards[key] == old(digest.cards)[key]
        invariant forall key | key in digest.cards && key !in todo && !old(digest.cards)[key].final :: Begun(log, |old(log)|, key)
      {
        var key :| key in todo;
        if !digest.cards[key].final {
          ghost var before := log;
          r := FollowDigestCard(key);
          BegunStays(before, log, |old(log)|, key);
          if !r.IsRefusal() {
            :- r;
          }
        }
        todo := todo - {key};
      }
      r := Ok;
    }

    /** `_digest_tick`: the open cards first; then the planned run, if it is not complete; a
        new one only when there is none left to finish. */
    method DigestTick(due: Option<nat>) returns (r: Outcome)
      requires Ready() && following.None?
      modifies this
      ensures Went(r) && !r.IsRefusal()
      ensures r.Ok? ==> AllBegun(old(digest.cards), log, |old(log)|)
      ensures r.Ok? && old(digest.run).Some? && !old(digest.run).value.complete ==>
        digest.run.Some? && Advances(old(digest.run).value, digest.run.value)
      ensures r.Ok? && due.Some? && (old(digest.run).None? || old(digest.run).value.complete) ==>
        digest.run.Some? && digest.run.value.id == old(runsPlanned) && digest.run.value.day == due.value
    {
      r := FollowCards();
      :- r;
      ghost var followed := log;
      if digest.run.Some? && !digest.run.value.complete {
        RunIsOk();
        var owed;
        r, owed := ContinueRun();
      } else if due.Some? {
        r := StartRun(due.value);
      }
      AllBegunStays(old(digest.cards), followed, log, |old(log)|);
    }

    /** `run_once`: one poll. It never raises; whatever went wrong is tried again later. */
    method RunOnce(due: Option<nat>) returns (r: Outcome)
      requires Ready() && following.None?
      modifies this
      ensures Went(r)
    {
      var pending := Pending();
      var justPosted: set<Id> := {};
      for i := 0 to |pending|
        invariant Ready() && following.None? && old(settled) <= settled && old(log) <= log
      {
        if pending[i] !in entries && !batched(pending[i]) {
          justPosted := justPosted + {pending[i]};
          r := Post(pending[i]);
          if !r.IsRefusal() {
            :- r;
          }
        }
      }
      var todo := entries.Keys - justPosted;
      while todo != {}
        invariant Ready() && following.None? && old(settled) <= settled && old(log) <= log && todo <= entries.Keys
      {
        var id :| id in todo;
        if !entries[id].final {
          ghost var q;
          r, q := Follow(id);
          if !r.IsRefusal() {
            :- r;
          }
        }
        todo := todo - {id};
      }
      r := DigestTick(due);
    }

    /** The gate's whole life: polls, deaths between and during them, restarts. Nothing it
        ever does breaks the rules. */
    method Lifetime(polls: nat)
      requires Ready() && following.None?
      modifies this
      ensures Traced() && NeverBlind(owner, log) && OneRunAtATime(log) && PostedOnce(log) && PostingsBounded(log)
      ensures OneLiveRun(disk.digest.cards)
    {
      for i := 0 to polls
        invariant Traced() && inFlight.None? && following.None?
      {
        if !up {
          Reload();
        } else if * {
          Die();
        } else {
          var due: bool := *;
          var day := AnyNat();
          var r := RunOnce(if due then Some(day) else None);
        }
      }
      EveryRunIsSafe(owner, trace);
    }
  }
}
