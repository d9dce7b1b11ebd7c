/** Every step the digest gate and the world around it can take, and the proof that no run of
    them, however Discord, the owner, the queue and crashes interleave, breaks the rules of
    DigestRecord. The gate itself (DigestGate.dfy) is proved to take only these steps. */
module DigestMachine {
  import opened Wrappers
  import opened DigestRecord

  /** The card `_follow_card` is at, and the items it has read as waiting so far. */
  datatype Following = Following(key: Key, waiting: set<Id>)

  datatype InFlight = InFlight(key: Key, card: Card)

  /** The gate's memory (while it is up) and its saved record; the approvals settled for
      good; and the log. `runsPlanned` stands for uuid4: no run id is used twice. */
  datatype World = World(
    owner: Option<nat>, entries: map<Id, Entry>, digest: DigestState, disk: Saved, up: bool, runsPlanned: nat,
    settled: set<Id>, following: Option<Following>, inFlight: Option<InFlight>, log: Log)

  function Start(owner: Option<nat>): World {
    World(owner, map[], NOTHING.digest, NOTHING, true, 0, {}, None, None, [])
  }

  datatype Step =
    | Settle(more: set<Id>)           // approvals are approved, denied, expire: anywhere, any time
    | Happen(e: Event)                // a call that only reads, posts or edits
    | Store(id: Id, entry: Entry)     // self._entries[id] = entry
    | SaveAll                         // self._save()
    | CrashNow
    | Restart
    | ApproveOnPreview(id: Id, batched: bool)
    | FollowCard(key: Key)
    | SeeWaiting(a: Id)
    | ApproveFromCard(a: Id)
    | LeaveCard
    | FinishCard(key: Key)
    | PlanRun(run: DigestRun)         // ... and save
    | SupersedeCard(key: Key)         // ... and save
    | SendCard(index: nat)
    | RecordCard                      // ... and save
    | LoseCard                        // no answer to the send, or none the gate could use
    | Note(run: DigestRun)            // bookkeeping of parts
    | CompleteRun

  predicate Approvable(entries: map<Id, Entry>, a: Id) {
    a in entries && entries[a].complete && !entries[a].attachFailed
  }

  /** Older cards no longer count. */
  predicate OthersDown(digest: DigestState) {
    digest.run.Some? && forall key | key in digest.cards && key.run != digest.run.value.id :: !Live(digest.cards[key])
  }

  function PageOf(run: DigestRun, index: nat): seq<Id>
    requires 1 <= index <= |run.pages|
  {
    run.pages[index - 1]
  }

  predicate SamePlan(before: DigestRun, after: DigestRun) {
    && after.id == before.id && after.items == before.items && after.pages == before.pages
    && after.posted == before.posted && after.complete == before.complete
  }

  /** When a step can be taken: what the code has just checked, read or been told. */
  ghost predicate Enabled(w: World, step: Step) {
    match step
    case Settle(_) => true
    case CrashNow => w.up
    case Restart => !w.up
    case RecordCard => w.up && w.inFlight.Some? && w.digest.run.Some?
    case LoseCard => w.up && w.inFlight.Some?
    case Happen(e) =>
      && w.up && w.inFlight.None?
      && (e.Head? || e.Chunk? || e.RowRead? || e.PendingRead? || e.Looked? || e.Unread? || e.PreviewGone? || e.CardBegun? || e.CardRead? || e.Denied?
          || e.CardGone? || e.CardReposted? || e.Other?)
      && (e.RowRead? ==> (e.status.Over? <==> e.id in w.settled))
      && (e.CardRead? ==> e.key in w.digest.cards && e.items == w.digest.cards[e.key].items)
      && (e.Denied? ==> JustLooked(w.log, e.id) && OwnerDenies(w.owner, w.log[|w.log| - 1].reactions))
      && (e.CardReposted? ==> w.log != [] && w.log[|w.log| - 1] == CardGone(e.key))
    case Store(id, entry) =>
      w.up && w.inFlight.None? &&
      (entry.complete ==> TextUp(w.log, id) && (!entry.attachFailed ==> SeenInFull(w.log, id)))
    case SaveAll => w.up && w.inFlight.None?
    case ApproveOnPreview(id, batched) =>
      && w.up && w.inFlight.None? && id in w.entries && w.entries[id].complete && (batched ==> !w.entries[id].attachFailed)
      && JustLooked(w.log, id) && OwnerApproves(w.owner, w.log[|w.log| - 1].reactions)
    case FollowCard(key) => w.up && w.inFlight.None? && key in w.digest.cards
    case SeeWaiting(a) =>
      w.up && w.following.Some? && w.following.value.key in w.digest.cards
      && a in w.digest.cards[w.following.value.key].items && a !in w.settled
    case ApproveFromCard(a) =>
      && w.up && w.inFlight.None? && w.following.Some? && w.following.value.key in w.digest.cards
      && a in w.following.value.waiting
      && w.digest.cards[w.following.value.key].supersededBy.None?
      && a in w.digest.cards[w.following.value.key].approvable
      && JustLooked(w.log, a) && !OwnerDenies(w.owner, w.log[|w.log| - 1].reactions)
      && Picked(w.owner, w.log, w.following.value.key, a)
    case LeaveCard => w.up
    case FinishCard(key) => w.up && w.inFlight.None? && key in w.digest.cards && AllSettled(w.digest.cards[key].items, w.settled)
    case PlanRun(run) =>
      && w.up && w.inFlight.None? && w.following.None?
      && (w.digest.run.Some? ==> w.digest.run.value.complete)
      && run.id == w.runsPlanned && run.posted == {} && run.tries == map[] && !run.complete && Distinct(run.items)
    case SupersedeCard(key) =>
      w.up && w.inFlight.None? && w.following.None? && key in w.digest.cards && w.digest.run.Some?
    case SendCard(index) =>
      && w.up && w.inFlight.None? && w.following.None? && OthersDown(w.digest)
      && !w.digest.run.value.complete && 1 <= index <= |w.digest.run.value.pages| && index !in w.digest.run.value.posted
    case Note(run) =>
      w.up && w.inFlight.None? && w.digest.run.Some? && SamePlan(w.digest.run.value, run) && TriesOk(run)
    case CompleteRun => w.up && w.inFlight.None? && w.digest.run.Some?
  }

  function Take(w: World, step: Step): World
    requires Enabled(w, step)
  {
    match step
    case Settle(more) => w.(settled := w.settled + more)
    case Happen(e) => w.(log := w.log + [e])
    case Store(id, entry) => w.(entries := w.entries[id := entry])
    case SaveAll => w.(disk := Saved(w.entries, w.digest))
    case CrashNow =>
      w.(up := false, following := None, inFlight := None,
         log := if w.inFlight.Some? then w.log + [CardInterrupted(w.inFlight.value.key)] else w.log)
    case Restart => w.(entries := w.disk.entries, digest := w.disk.digest, up := true)
    case ApproveOnPreview(id, batched) => w.(log := w.log + [ApprovedOnPreview(id, batched)])
    case FollowCard(key) => w.(following := Some(Following(key, {})))
    case SeeWaiting(a) => w.(following := Some(w.following.value.(waiting := w.following.value.waiting + {a})))
    case ApproveFromCard(a) => w.(log := w.log + [ApprovedFromCard(a, w.following.value.key)])
    case LeaveCard => w.(following := None)
    case FinishCard(key) => w.(digest := w.digest.(cards := w.digest.cards[key := w.digest.cards[key].(final := true)]))
    case PlanRun(run) =>
      var digest := w.digest.(run := Some(run));
      w.(digest := digest, disk := Saved(w.entries, digest), runsPlanned := w.runsPlanned + 1)
    case SupersedeCard(key) =>
      var digest := w.digest.(cards := w.digest.cards[key := w.digest.cards[key].(supersededBy := Some(w.digest.run.value.day))]);
      w.(digest := digest, disk := Saved(w.entries, digest))
    case SendCard(index) =>
      var run := w.digest.run.value;
      var key := Key(run.id, index);
      var page := PageOf(run, index);
      w.(inFlight := Some(InFlight(key, Card(page, set a | a in page && Approvable(w.entries, a), false, None))),
         log := w.log + [CardUp(key)])
    case RecordCard =>
      var flight := w.inFlight.value;
      var run := w.digest.run.value;
      var digest := DigestState(w.digest.cards[flight.key := flight.card],
                                Some(run.(posted := run.posted + {flight.key.index})));
      w.(digest := digest, disk := Saved(w.entries, digest), inFlight := None, log := w.log + [CardSaved(flight.key)])
    case LoseCard => w.(inFlight := None, log := w.log + [CardInterrupted(w.inFlight.value.key)])
    case Note(run) => w.(digest := w.digest.(run := Some(run)))
    case CompleteRun =>
      var run := w.digest.run.value;
      w.(digest := w.digest.(run := Some(run.(complete := true))), log := w.log + [RunComplete(run.id)])
  }

  /** The world after a run of steps, or nothing if one of them could not be taken. */
  ghost function Run(owner: Option<nat>, steps: seq<Step>): Option<World> {
    if steps == [] then Some(Start(owner))
    else match Run(owner, steps[..|steps| - 1])
      case None => None
      case Some(w) => if Enabled(w, steps[|steps| - 1]) then Some(Take(w, steps[|steps| - 1])) else None
  }

  // ----- the invariant

  ghost predicate NoNewerCard(log: Log, key: Key) {
    forall p: nat {:trigger CardAt(log, p)} | CardAt(log, p) :: log[p].key.run <= key.run
  }

  function FlightKey(w: World): Option<Key> { if w.inFlight.Some? then Some(w.inFlight.value.key) else None }

  /** A card that has gone up and is not recorded yet belongs to the current run, shows only
      what the owner could see, and has not been recorded before. */
  ghost predicate FlightOk(w: World, flight: InFlight) {
    && w.up && OthersDown(w.digest) && w.following.None?
    && !w.digest.run.value.complete && flight.key.run == w.digest.run.value.id
    && flight.key.index !in w.digest.run.value.posted
    && Shown(w.log, flight.key, flight.card.approvable) && Live(flight.card)
  }

  ghost predicate Inv(w: World) {
    && LogOk(w.owner, w.log, FlightKey(w))
    && Good(w.disk.entries, w.disk.digest, w.log, w.settled)
    && (w.up ==> Good(w.entries, w.digest, w.log, w.settled) && Behind(w.disk.digest, w.digest))
    && (w.inFlight.Some? ==> FlightOk(w, w.inFlight.value))
    && (w.disk.digest.run.Some? ==> w.disk.digest.run.value.id < w.runsPlanned)
    && FollowingOk(w)
  }

  /** While the card followed has an item that waits, no newer card has gone up, unless it is
      superseded already. */
  ghost predicate FollowingOk(w: World) {
    w.following.Some? && w.following.value.waiting != {} ==>
      && w.up && w.following.value.key in w.digest.cards
      && (w.digest.cards[w.following.value.key].supersededBy.None? ==> NoNewerCard(w.log, w.following.value.key))
  }

  /** Anything but a card going up, or being recorded, may be added to the log. */
  lemma LogStepKeepsInv(w: World, e: Event)
    requires Inv(w) && !e.CardUp? && !e.CardSaved?
    requires e.ApprovedFromCard? ==> JustifiedApproval(w.owner, w.log + [e], |w.log|)
    requires e.ApprovedOnPreview? ==> JustifiedOnPreview(w.owner, w.log + [e], |w.log|)
    requires e.Denied? ==> JustifiedDenial(w.owner, w.log + [e], |w.log|)
    requires e.CardReposted? ==> w.log != [] && w.log[|w.log| - 1] == CardGone(e.key)
    ensures Inv(w.(log := w.log + [e]))
  {
    var more := w.log + [e];
    GoodGrows(w.disk.entries, w.disk.digest, w.log, e, w.settled);
    if w.up {
      GoodGrows(w.entries, w.digest, w.log, e, w.settled);
    }
    NeverBlindGrows(w.owner, w.log, e);
    OneRunGrows(w.log, e);
    RepostsGrow(w.log, e);
    PostedOnceGrows(w.log, e, FlightKey(w));
    if w.inFlight.Some? {
      ShownGrows(w.log, e, w.inFlight.value.key, w.inFlight.value.card.approvable);
    }
    forall p: nat | CardAt(more, p) ensures CardAt(w.log, p) && more[p] == w.log[p] {
    }
  }

  lemma SettleKeepsInv(w: World, more: set<Id>)
    requires Inv(w)
    ensures Inv(Take(w, Settle(more)))
  {
    SettledGrows(w.disk.entries, w.disk.digest, w.log, w.settled, w.settled + more);
    if w.up {
      SettledGrows(w.entries, w.digest, w.log, w.settled, w.settled + more);
    }
  }

  /** The preview was up in full before the card. */
  lemma SeenBeforeCard(w: World, key: Key, a: Id)
    requires Inv(w) && w.up && key in w.digest.cards && a in w.digest.cards[key].approvable
    ensures exists q: nat :: q < |w.log| && w.log[q] == CardUp(key) && SeenInFull(w.log[..q], a)
  {
    assert Shown(w.log, key, w.digest.cards[key].approvable);
    var q: nat :| q < |w.log| && w.log[q] == CardUp(key)
      && forall b | b in w.digest.cards[key].approvable :: SeenInFull(w.log[..q], b);
  }

  lemma JustifiedOnTop(owner: Option<nat>, log: Log, key: Key, a: Id)
    requires JustLooked(log, a) && !OwnerDenies(owner, log[|log| - 1].reactions) && Picked(owner, log, key, a)
    requires exists q: nat :: q < |log| && log[q] == CardUp(key) && SeenInFull(log[..q], a)
    requires NoNewerCard(log, key)
    ensures JustifiedApproval(owner, log + [ApprovedFromCard(a, key)], |log|)
  {
    var more := log + [ApprovedFromCard(a, key)];
    var q: nat :| q < |log| && log[q] == CardUp(key) && SeenInFull(log[..q], a);
    assert more[..|log|] == log;
    assert more[q] == CardUp(key) && more[..q] == log[..q];
    forall p: nat | p < |log| && CardAt(more, p) ensures more[p].key.run <= key.run {
      assert CardAt(log, p);
    }
  }

  /** An approval from a card, once the preview has been read again, is justified. */
  lemma ApprovalIsJustified(w: World, a: Id)
    requires Inv(w) && Enabled(w, ApproveFromCard(a))
    ensures JustifiedApproval(w.owner, w.log + [ApprovedFromCard(a, w.following.value.key)], |w.log|)
  {
    var key := w.following.value.key;
    SeenBeforeCard(w, key, a);
    NoneNewer(w, a);
    JustifiedOnTop(w.owner, w.log, key, a);
  }

  lemma NoneNewer(w: World, a: Id)
    requires FollowingOk(w) && w.following.Some? && a in w.following.value.waiting
    requires w.following.value.key in w.digest.cards && w.digest.cards[w.following.value.key].supersededBy.None?
    ensures NoNewerCard(w.log, w.following.value.key)
  {
  }

  lemma SendKeepsInv(w: World, index: nat)
    requires Inv(w) && Enabled(w, SendCard(index))
    ensures Inv(Take(w, SendCard(index)))
  {
    var next := Take(w, SendCard(index));
    var e := CardUp(next.inFlight.value.key);
    var approvable := next.inFlight.value.card.approvable;
    forall k | k in w.digest.cards && k.run < e.key.run ensures StandsDown(w.digest.cards[k], w.settled) {
    }
    EntriesGrow(w.entries, w.log, e);
    CardsGrow(w.digest.cards, w.log, e, w.settled);
    RunGrows(w.digest.run, w.log, e);
    forall k | k in w.disk.digest.cards && k.run < e.key.run ensures StandsDown(w.disk.digest.cards[k], w.settled) {
      assert StandsDown(w.digest.cards[k], w.settled);
    }
    EntriesGrow(w.disk.entries, w.log, e);
    CardsGrow(w.disk.digest.cards, w.log, e, w.settled);
    RunGrows(w.disk.digest.run, w.log, e);
    NeverBlindGrows(w.owner, w.log, e);
    OneRunGrows(w.log, e);
    RepostsGrow(w.log, e);
    PostedOnceGrows(w.log, e, None);
    assert next.log[|w.log|] == e && next.log[..|w.log|] == w.log;
    assert Shown(next.log, e.key, approvable);
  }

  lemma NewCardIsOk(w: World)
    requires Inv(w) && Enabled(w, RecordCard)
    ensures var next := Take(w, RecordCard);
      CardsOk(next.digest.cards, w.log, w.settled) && OneLiveRun(next.digest.cards)
  {
    var next := Take(w, RecordCard);
    forall key, p: nat | key in next.digest.cards && CardAt(w.log, p) && key.run < w.log[p].key.run
      ensures StandsDown(next.digest.cards[key], w.settled)
    {
      if key != w.inFlight.value.key {
        assert StandsDown(w.digest.cards[key], w.settled);
      }
    }
  }

  lemma NewCardRunIsOk(w: World)
    requires Inv(w) && Enabled(w, RecordCard)
    ensures Count(w.log, CardSaved(w.inFlight.value.key)) == 0
    ensures RunOk(Take(w, RecordCard).digest.run, w.log)
  {
    PostedOk(w.digest.run.value, w.log, w.inFlight.value.key.index);
  }

  lemma PostedOk(run: DigestRun, log: Log, index: nat)
    requires RunOk(Some(run), log) && index !in run.posted
    ensures Count(log, CardSaved(Key(run.id, index))) == 0
    ensures RunOk(Some(run.(posted := run.posted + {index})), log)
  {
    var next := run.(posted := run.posted + {index});
    assert forall part :: Tries(next, part) == Tries(run, part);
  }

  lemma RecordKeepsInv(w: World)
    requires Inv(w) && Enabled(w, RecordCard)
    ensures Inv(Take(w, RecordCard))
  {
    var next := Take(w, RecordCard);
    var e := CardSaved(w.inFlight.value.key);
    NewCardIsOk(w);
    NewCardRunIsOk(w);
    EntriesGrow(w.entries, w.log, e);
    CardsGrow(next.digest.cards, w.log, e, w.settled);
    RunGrows(next.digest.run, w.log, e);
    assert Good(next.entries, next.digest, next.log, next.settled);
    NeverBlindGrows(w.owner, w.log, e);
    OneRunGrows(w.log, e);
    RepostsGrow(w.log, e);
    PostedOnceGrows(w.log, e, FlightKey(w));
    assert LogOk(next.owner, next.log, None);
    assert Behind(next.digest, next.digest);
  }

  lemma CompleteRunIsOk(w: World)
    requires Inv(w) && Enabled(w, CompleteRun)
    ensures RunOk(Take(w, CompleteRun).digest.run, Take(w, CompleteRun).log)
  {
    var next := Take(w, CompleteRun);
    var run, e := w.digest.run.value, RunComplete(w.digest.run.value.id);
    RunGrows(w.digest.run, w.log, e);
    forall p: nat | CardAt(next.log, p) ensures CompleteAfter(next.log, p, next.log[p].key.run) {
      assert CardAt(w.log, p);
      if w.log[p].key.run < run.id {
        assert CompleteAfter(w.log, p, w.log[p].key.run);
      }
      CompleteGrows(w.log, e, p, w.log[p].key.run);
    }
    assert forall part :: Tries(next.digest.run.value, part) == Tries(run, part);
  }

  lemma CompleteKeepsInv(w: World)
    requires Inv(w) && Enabled(w, CompleteRun)
    ensures Inv(Take(w, CompleteRun))
  {
    CompleteRunIsOk(w);
    var next := Take(w, CompleteRun);
    LogStepKeepsInv(w, RunComplete(w.digest.run.value.id));
    var between := w.(log := next.log);
    assert Inv(between) && next == between.(digest := next.digest);
    assert Good(next.entries, next.digest, next.log, next.settled);
    assert Behind(next.disk.digest, next.digest);
  }

  lemma PlanKeepsInv(w: World, run: DigestRun)
    requires Inv(w) && Enabled(w, PlanRun(run))
    ensures Inv(Take(w, PlanRun(run)))
  {
    var next := Take(w, PlanRun(run));
    assert RunOk(w.digest.run, w.log);
    forall p: nat | CardAt(w.log, p)
      ensures w.log[p].key.run < run.id && CompleteAfter(w.log, p, w.log[p].key.run)
    {
      assert w.digest.run.value.id < w.runsPlanned;
    }
    forall part ensures Tries(run, part) == 0 {
    }
    assert RunOk(next.digest.run, w.log);
  }

  lemma StepKeepsInv(w: World, step: Step)
    requires Inv(w) && Enabled(w, step)
    ensures Inv(Take(w, step))
  {
    match step
    case Settle(more) => SettleKeepsInv(w, more);
    case Happen(e) => HappenKeepsInv(w, e);
    case ApproveOnPreview(id, batched) => OnPreviewKeepsInv(w, id, batched);
    case ApproveFromCard(a) =>
      ApprovalIsJustified(w, a);
      LogStepKeepsInv(w, ApprovedFromCard(a, w.following.value.key));
    case LoseCard => LoseKeepsInv(w);
    case CrashNow =>
      if w.inFlight.Some? {
        LoseKeepsInv(w);
      }
    case SendCard(index) => SendKeepsInv(w, index);
    case RecordCard => RecordKeepsInv(w);
    case CompleteRun => CompleteKeepsInv(w);
    case PlanRun(run) => PlanKeepsInv(w, run);
    case Store(id, entry) => StoreKeepsInv(w, id, entry);
    case SaveAll => SaveKeepsInv(w);
    case Restart => RestartKeepsInv(w);
    case FinishCard(key) => FinishKeepsInv(w, key);
    case SupersedeCard(key) => SupersedeKeepsInv(w, key);
    case Note(run) => NoteKeepsInv(w, run);
    case _ => FollowingKeepsInv(w, step);
  }

  lemma HappenKeepsInv(w: World, e: Event)
    requires Inv(w) && Enabled(w, Happen(e))
    ensures Inv(Take(w, Happen(e)))
  {
    var more := w.log + [e];
    assert more[..|w.log|] == w.log;
    LogStepKeepsInv(w, e);
  }

  lemma OnPreviewKeepsInv(w: World, id: Id, batched: bool)
    requires Inv(w) && Enabled(w, ApproveOnPreview(id, batched))
    ensures Inv(Take(w, ApproveOnPreview(id, batched)))
  {
    var e := ApprovedOnPreview(id, batched);
    assert (w.log + [e])[..|w.log|] == w.log;
    assert w.entries[id].complete;
    LogStepKeepsInv(w, e);
  }

  lemma LoseKeepsInv(w: World)
    requires Inv(w) && Enabled(w, LoseCard)
    ensures Inv(Take(w, LoseCard))
  {
    var e := CardInterrupted(w.inFlight.value.key);
    LogStepKeepsInv(w, e);
    PostedOnceGrows(w.log, e, FlightKey(w));
  }

  lemma StoreKeepsInv(w: World, id: Id, entry: Entry)
    requires Inv(w) && Enabled(w, Store(id, entry))
    ensures Inv(Take(w, Store(id, entry)))
  {
  }

  lemma SaveKeepsInv(w: World)
    requires Inv(w) && Enabled(w, SaveAll)
    ensures Inv(Take(w, SaveAll))
  {
  }

  lemma RestartKeepsInv(w: World)
    requires Inv(w) && Enabled(w, Restart)
    ensures Inv(Take(w, Restart))
  {
  }

  lemma FollowingKeepsInv(w: World, step: Step)
    requires Inv(w) && Enabled(w, step) && (step.FollowCard? || step.SeeWaiting? || step.LeaveCard?)
    ensures Inv(Take(w, step))
  {
  }

  lemma FinishKeepsInv(w: World, key: Key)
    requires Inv(w) && Enabled(w, FinishCard(key))
    ensures Inv(Take(w, FinishCard(key)))
  {
    var closed := w.digest.cards[key].(final := true);
    GoodClosed(w.entries, w.digest, key, closed, w.log, w.settled);
    BehindClosed(w.disk.digest, w.digest, key, closed);
    FinishKeepsFollowing(w, key);
    var next := Take(w, FinishCard(key));
    assert Good(next.entries, next.digest, next.log, next.settled) && Behind(next.disk.digest, next.digest);
  }

  lemma FinishKeepsFollowing(w: World, key: Key)
    requires FollowingOk(w) && Enabled(w, FinishCard(key))
    ensures FollowingOk(Take(w, FinishCard(key)))
  {
    var next := Take(w, FinishCard(key));
    assert forall k | k in w.digest.cards :: k in next.digest.cards && next.digest.cards[k].supersededBy == w.digest.cards[k].supersededBy;
  }

  lemma SupersedeKeepsInv(w: World, key: Key)
    requires Inv(w) && Enabled(w, SupersedeCard(key))
    ensures Inv(Take(w, SupersedeCard(key)))
  {
    GoodClosed(w.entries, w.digest, key, w.digest.cards[key].(supersededBy := Some(w.digest.run.value.day)), w.log, w.settled);
    var next := Take(w, SupersedeCard(key));
    assert Behind(next.disk.digest, next.digest);
  }

  lemma NoteKeepsInv(w: World, run: DigestRun)
    requires Inv(w) && Enabled(w, Note(run))
    ensures Inv(Take(w, Note(run)))
  {
    var next := Take(w, Note(run));
    assert RunOk(next.digest.run, w.log);
    assert Good(next.entries, next.digest, next.log, next.settled);
    assert Behind(next.disk.digest, next.digest);
  }

  lemma {:induction false} SameOwner(owner: Option<nat>, steps: seq<Step>)
    requires Run(owner, steps).Some?
    ensures Run(owner, steps).value.owner == owner
  {
    if steps != [] {
      SameOwner(owner, steps[..|steps| - 1]);
    }
  }

  /** Whatever happens, in whatever order: nothing is ever approved blind, or approved or denied
      without the owner's word, just read; one run posts at a time, each card goes up once, plus
      once per interruption and once for each time it was found deleted, and all live cards - in
      memory and in the saved record - belong to one run. */
  lemma {:induction false} EveryRunIsSafe(owner: Option<nat>, steps: seq<Step>)
    requires Run(owner, steps).Some?
    ensures var w := Run(owner, steps).value;
      && Inv(w) && w.owner == owner
      && NeverBlind(owner, w.log) && OneRunAtATime(w.log)
      && (w.inFlight.None? ==> PostedOnce(w.log) && PostingsBounded(w.log))
      && RepostedWhenGone(w.log)
      && OneLiveRun(w.disk.digest.cards) && (w.up ==> OneLiveRun(w.digest.cards))
  {
    SameOwner(owner, steps);
    if steps != [] {
      EveryRunIsSafe(owner, steps[..|steps| - 1]);
      StepKeepsInv(Run(owner, steps[..|steps| - 1]).value, steps[|steps| - 1]);
    } else {
      assert Inv(Start(owner));
    }
    if Run(owner, steps).value.inFlight.None? {
      PostingsAreBounded(Run(owner, steps).value.log);
    }
  }
}
