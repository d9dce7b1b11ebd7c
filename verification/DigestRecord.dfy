/** The daily digest of src/pionir/discord_gate.py, as values: what the gate keeps and saves,
    what has happened so far in the channel and to the approvals, and the invariants that tie
    the two together. DigestGate.dfy has the gate itself. */
module DigestRecord {
  import opened Wrappers
  import DigestPages

  type Id = nat

  /** One digest card: which run posted it, as which page. Run ids grow with time. */
  datatype Key = Key(run: nat, index: nat)

  /** `_entries[id]`: an item's own preview message. */
  datatype Entry = Entry(complete: bool, attachFailed: bool, final: bool)

  datatype Card = Card(items: seq<Id>, approvable: set<Id>, final: bool, supersededBy: Option<nat>)

  /** The names `_part` records its work under. */
  datatype Part =
    | Supersede(key: Key)
    | ExpiredReport(number: nat)
    | Preview(id: Id)
    | Page(index: nat)

  datatype DigestRun = DigestRun(
    id: nat, day: nat, items: seq<Id>, pages: seq<seq<Id>>,
    posted: set<nat>, expiredPosted: bool,
    done: set<Part>, tries: map<Part, nat>, gaveUp: set<Part>, complete: bool)

  /** `_dstate`. */
  datatype DigestState = DigestState(cards: map<Key, Card>, run: Option<DigestRun>)

  datatype Saved = Saved(entries: map<Id, Entry>, digest: DigestState)

  const NOTHING := Saved(map[], DigestState(map[], None))

  const PART_TRIES := 3

  // ----- what the owner's reactions say

  datatype Emoji = Approve | Deny | Number(n: nat) | AnotherEmoji

  /** `count` and `me` come with the message; `users` is the page of reactors then fetched. */
  datatype Reaction = Reaction(emoji: Emoji, count: int, me: bool, users: seq<nat>) {
    predicate Counted() { count - (if me then 1 else 0) > 0 }
    predicate By(owner: nat) { Counted() && owner in users }
  }

  /** The item a keycap stands for on a card, if any. */
  function Numbered(items: seq<Id>, emoji: Emoji): Option<Id> {
    if emoji.Number? && 1 <= emoji.n <= |items| && emoji.n <= DigestPages.DIGEST_MAX_ITEMS then Some(items[emoji.n - 1]) else None
  }

  predicate OwnerRefused(owner: nat, reactions: seq<Reaction>) {
    exists i | 0 <= i < |reactions| :: reactions[i].emoji.Deny? && reactions[i].By(owner)
  }

  predicate OwnerChose(owner: nat, items: seq<Id>, reactions: seq<Reaction>, a: Id) {
    exists i | 0 <= i < |reactions| :: reactions[i].By(owner)
      && (reactions[i].emoji.Approve? || Numbered(items, reactions[i].emoji) == Some(a))
  }

  predicate OwnerMarked(owner: nat, reactions: seq<Reaction>) {
    exists i | 0 <= i < |reactions| :: reactions[i].By(owner) && reactions[i].emoji.Approve?
  }

  /** On a card: the owner - nobody else - marked the item, by its number or with ✅, and refused
      nothing. */
  predicate OwnerPicks(owner: Option<nat>, items: seq<Id>, reactions: seq<Reaction>, a: Id) {
    owner.Some? && a in items && !OwnerRefused(owner.value, reactions) && OwnerChose(owner.value, items, reactions, a)
  }

  /** On a preview: his ❌ wins over his ✅. */
  predicate OwnerDenies(owner: Option<nat>, reactions: seq<Reaction>) {
    owner.Some? && OwnerRefused(owner.value, reactions)
  }

  predicate OwnerApproves(owner: Option<nat>, reactions: seq<Reaction>) {
    owner.Some? && !OwnerRefused(owner.value, reactions) && OwnerMarked(owner.value, reactions)
  }

  /** The owner's own count on a reaction, beyond the gate's. */
  predicate ReactedWith(owner: nat, r: Reaction, emoji: Emoji) {
    r.emoji == emoji && owner in r.users && (if r.me then r.count >= 2 else r.count >= 1)
  }

  /** Picked means: on the card, his ❌ nowhere, and his ✅ or one of the keycaps one to ten that
      stands at the item's place. */
  lemma PicksMeans(owner: Option<nat>, items: seq<Id>, reactions: seq<Reaction>, a: Id)
    ensures OwnerPicks(owner, items, reactions, a) <==>
      && owner.Some? && a in items
      && (forall i | 0 <= i < |reactions| :: !ReactedWith(owner.value, reactions[i], Deny))
      && exists i | 0 <= i < |reactions| ::
           || ReactedWith(owner.value, reactions[i], Approve)
           || exists n | 1 <= n <= 10 && n <= |items| :: items[n - 1] == a && ReactedWith(owner.value, reactions[i], Number(n))
  {
    if OwnerPicks(owner, items, reactions, a) {
      var i :| 0 <= i < |reactions| && reactions[i].By(owner.value)
        && (reactions[i].emoji.Approve? || Numbered(items, reactions[i].emoji) == Some(a));
      if !reactions[i].emoji.Approve? {
        var n := reactions[i].emoji.n;
        assert 1 <= n <= 10 && n <= |items| && items[n - 1] == a && ReactedWith(owner.value, reactions[i], Number(n));
      }
    }
  }

  /** ... and on a preview, ❌ denies and ✅ alone approves. */
  lemma AnswersMean(owner: Option<nat>, reactions: seq<Reaction>)
    ensures OwnerDenies(owner, reactions) <==> owner.Some? && exists i | 0 <= i < |reactions| :: ReactedWith(owner.value, reactions[i], Deny)
    ensures OwnerApproves(owner, reactions) <==>
      && owner.Some? && (exists i | 0 <= i < |reactions| :: ReactedWith(owner.value, reactions[i], Approve))
      && !OwnerDenies(owner, reactions)
  {
    if owner.Some? && OwnerRefused(owner.value, reactions) {
      var i :| 0 <= i < |reactions| && reactions[i].emoji.Deny? && reactions[i].By(owner.value);
      assert ReactedWith(owner.value, reactions[i], Deny);
    }
    if owner.Some? && OwnerMarked(owner.value, reactions) {
      var i :| 0 <= i < |reactions| && reactions[i].By(owner.value) && reactions[i].emoji.Approve?;
      assert ReactedWith(owner.value, reactions[i], Approve);
    }
  }

  datatype Status = Waiting | Running | Over

  // ----- what has happened

  datatype Event =
    | Head(id: Id, chunks: nat, image: bool)  // a preview's first message; image: nothing to show, or shown
    | Chunk(id: Id, head: nat, number: nat)   // a later message of the preview begun at log position `head`
    | RowRead(id: Id, status: Status)         // the queue was asked where the approval stands
    | PendingRead(ids: seq<Id>)               // ... and which approvals wait
    | Looked(id: Id, reactions: seq<Reaction>)  // the preview's reactions were read
    | Unread(id: Id)                          // ... or could not be
    | PreviewGone(id: Id)                     // Discord answered that the preview is deleted
    | CardBegun(key: Key)                     // the card's turn in this pass
    | CardRead(key: Key, items: seq<Id>, reactions: seq<Reaction>)
    | ApprovedFromCard(id: Id, key: Key)
    | ApprovedOnPreview(id: Id, batched: bool)
    | Denied(id: Id)
    | CardUp(key: Key)                        // the channel has the card
    | CardSaved(key: Key)                     // ... and the gate has recorded it
    | CardInterrupted(key: Key)               // a crash or an ambiguous failure came in between
    | CardGone(key: Key)                      // Discord answered that the card is deleted
    | CardReposted(key: Key)                  // its text went up again
    | RunComplete(run: nat)
    | Other                                   // any other call: a read, an edit, a reaction, a report

  type Log = seq<Event>

  ghost predicate TextUpFrom(log: Log, id: Id, head: nat) {
    && head < |log| && log[head].Head? && log[head].id == id
    && forall k: nat | 1 <= k < log[head].chunks :: Chunk(id, head, k) in log
  }

  /** Every chunk of one posting of the preview is up. */
  ghost predicate TextUp(log: Log, id: Id) {
    exists head: nat :: TextUpFrom(log, id, head)
  }

  /** Every chunk of one posting is up, and its image when the item has one. */
  ghost predicate SeenInFull(log: Log, id: Id) {
    exists head: nat :: TextUpFrom(log, id, head) && log[head].image
  }

  ghost predicate CompleteAfter(log: Log, p: nat, run: nat) {
    exists s :: p < s < |log| && log[s] == RunComplete(run)
  }

  function Count(log: Log, e: Event): nat {
    if log == [] then 0 else Count(log[..|log| - 1], e) + if log[|log| - 1] == e then 1 else 0
  }

  predicate CardAt(log: Log, p: nat) { p < |log| && log[p].CardUp? }
  predicate FromCardAt(log: Log, p: nat) { p < |log| && log[p].ApprovedFromCard? }
  predicate RepostAt(log: Log, p: nat) { p < |log| && log[p].CardReposted? }
  predicate OnPreviewAt(log: Log, p: nat) { p < |log| && log[p].ApprovedOnPreview? }

  predicate DeniedAt(log: Log, p: nat) { p < |log| && log[p].Denied? }

  /** The card read last. */
  function LastRead(log: Log): Option<Event> {
    if log == [] then None
    else if log[|log| - 1].CardRead? then Some(log[|log| - 1])
    else LastRead(log[..|log| - 1])
  }

  /** The last card read is this one, and the owner picked the item on it. */
  predicate Picked(owner: Option<nat>, log: Log, key: Key, id: Id) {
    var read := LastRead(log);
    read.Some? && read.value.CardRead? && read.value.key == key && OwnerPicks(owner, read.value.items, read.value.reactions, id)
  }

  /** The last thing done was to read the item's preview. */
  predicate JustLooked(log: Log, id: Id) { log != [] && log[|log| - 1].Looked? && log[|log| - 1].id == id }

  // ----- what must hold of the log, whatever happened

  /** Never approved blind, and never without the owner. An item approved from a digest card had
      its whole preview up before that card; the card was the last one read, and on it the owner
      had picked the item; the preview was re-read just before and carried no ❌ of his; and no
      card of a newer digest had gone up (not even one the gate lost track of). */
  ghost predicate JustifiedApproval(owner: Option<nat>, log: Log, p: nat)
    requires FromCardAt(log, p)
  {
    && JustLooked(log[..p], log[p].id) && !OwnerDenies(owner, log[p - 1].reactions)
    && Picked(owner, log[..p], log[p].key, log[p].id)
    && (exists q: nat :: q < p && log[q] == CardUp(log[p].key) && SeenInFull(log[..q], log[p].id))
    && (forall q: nat {:trigger CardAt(log, q)} | q < p && CardAt(log, q) :: log[q].key.run <= log[p].key.run)
  }

  ghost predicate JustifiedOnPreview(owner: Option<nat>, log: Log, p: nat)
    requires OnPreviewAt(log, p)
  {
    && JustLooked(log[..p], log[p].id) && OwnerApproves(owner, log[p - 1].reactions)
    && TextUp(log[..p], log[p].id) && (log[p].batched ==> SeenInFull(log[..p], log[p].id))
  }

  /** Denied only on the owner's ❌, just read on the item's preview. */
  predicate JustifiedDenial(owner: Option<nat>, log: Log, p: nat)
    requires DeniedAt(log, p)
  {
    JustLooked(log[..p], log[p].id) && OwnerDenies(owner, log[p - 1].reactions)
  }

  ghost predicate NeverBlind(owner: Option<nat>, log: Log) {
    && (forall p: nat {:trigger FromCardAt(log, p)} | FromCardAt(log, p) :: JustifiedApproval(owner, log, p))
    && (forall p: nat {:trigger OnPreviewAt(log, p)} | OnPreviewAt(log, p) :: JustifiedOnPreview(owner, log, p))
    && (forall p: nat {:trigger DeniedAt(log, p)} | DeniedAt(log, p) :: JustifiedDenial(owner, log, p))
  }

  /** No card of a later run before the earlier run that posted one is complete. */
  ghost predicate OneRunAtATime(log: Log) {
    forall p: nat, q: nat {:trigger CardAt(log, p), CardAt(log, q)}
      | p < q && CardAt(log, p) && CardAt(log, q) && log[p].key.run < log[q].key.run ::
      CompleteAfter(log[..q], p, log[p].key.run)
  }

  /** A page's card goes up once, and at most once more for every crash or ambiguous
      failure between its sending and its save. */
  ghost predicate PostedOnce(log: Log) { PostedOnceBut(log, None) }

  /** ... while the one card in flight has gone up and is not recorded yet. */
  ghost predicate PostedOnceBut(log: Log, inFlight: Option<Key>) {
    forall key: Key ::
      && Count(log, CardUp(key)) <= Count(log, CardSaved(key)) + Count(log, CardInterrupted(key))
                                    + (if inFlight == Some(key) then 1 else 0)
      && Count(log, CardSaved(key)) <= 1
  }

  /** A card is posted again only when Discord has just answered that it is deleted. */
  ghost predicate RepostedWhenGone(log: Log) {
    forall p: nat {:trigger RepostAt(log, p)} | RepostAt(log, p) :: p > 0 && log[p - 1] == CardGone(log[p].key)
  }

  ghost predicate LogOk(owner: Option<nat>, log: Log, inFlight: Option<Key>) {
    NeverBlind(owner, log) && OneRunAtATime(log) && PostedOnceBut(log, inFlight) && RepostedWhenGone(log)
  }

  /** Every posting of a card there is: the first, one for each interruption between its
      sending and its save, and one for each time it was found deleted. */
  ghost predicate PostingsBounded(log: Log) {
    forall key: Key ::
      Count(log, CardUp(key)) + Count(log, CardReposted(key)) <= 1 + Count(log, CardInterrupted(key)) + Count(log, CardGone(key))
  }

  lemma {:induction false} RepostsAreCounted(log: Log, key: Key)
    requires RepostedWhenGone(log)
    ensures Count(log, CardReposted(key)) <= Count(log, CardGone(key))
    ensures log != [] && log[|log| - 1] == CardGone(key) ==> Count(log, CardReposted(key)) < Count(log, CardGone(key))
  {
    if log != [] {
      var front := log[..|log| - 1];
      forall p: nat | RepostAt(front, p) ensures p > 0 && front[p - 1] == CardGone(front[p].key) {
        assert RepostAt(log, p);
      }
      RepostsAreCounted(front, key);
      assert RepostAt(log, |log| - 1) ==> front != [] && front[|front| - 1] == CardGone(log[|log| - 1].key);
    }
  }

  lemma PostingsAreBounded(log: Log)
    requires PostedOnce(log) && RepostedWhenGone(log)
    ensures PostingsBounded(log)
  {
    forall key: Key
      ensures Count(log, CardUp(key)) + Count(log, CardReposted(key)) <= 1 + Count(log, CardInterrupted(key)) + Count(log, CardGone(key))
    {
      RepostsAreCounted(log, key);
    }
  }

  lemma RepostsGrow(log: Log, e: Event)
    requires RepostedWhenGone(log)
    requires e.CardReposted? ==> log != [] && log[|log| - 1] == CardGone(e.key)
    ensures RepostedWhenGone(log + [e])
  {
    var more := log + [e];
    forall p: nat | RepostAt(more, p) ensures p > 0 && more[p - 1] == CardGone(more[p].key) {
      assert p < |log| ==> RepostAt(log, p);
    }
  }

  // ----- what following a card, or a preview, comes to

  predicate IsDecision(e: Event) { e.ApprovedFromCard? || e.ApprovedOnPreview? || e.Denied? }

  /** Nothing of the owner's was read and nothing decided. */
  predicate Minor(e: Event) { e.Other? || e.RowRead? || e.PendingRead? || e.CardGone? || e.CardReposted? }

  predicate Quiet(before: Log, after: Log) { before <= after && forall p | |before| <= p < |after| :: Minor(after[p]) }

  /** What a preview's own reactions make of an item picked on a card. */
  function DecisionOn(owner: Option<nat>, key: Key, look: Event): Event
    requires look.Looked?
  {
    if OwnerDenies(owner, look.reactions) then Denied(look.id) else ApprovedFromCard(look.id, key)
  }

  /** From `from` on each preview looked at is decided at once, as its reactions say, and nothing
      else is decided or read. */
  predicate Answered(owner: Option<nat>, log: Log, from: nat, key: Key) {
    && (forall p | from <= p < |log| && log[p].Looked? :: p + 1 < |log| && log[p + 1] == DecisionOn(owner, key, log[p]))
    && (forall p | from <= p < |log| && IsDecision(log[p]) :: from < p && log[p - 1].Looked?)
    && (forall p | from <= p < |log| :: !log[p].CardRead?)
  }

  predicate LookedFor(log: Log, from: nat, id: Id) {
    exists p | from <= p < |log| :: log[p] == Unread(id) || (log[p].Looked? && log[p].id == id)
  }

  /** Looked at, or for: exactly these. */
  ghost predicate LookedForAll(log: Log, from: nat, ids: seq<Id>) { forall id :: LookedFor(log, from, id) <==> id in ids }

  lemma QuietKeepsAnswered(owner: Option<nat>, before: Log, after: Log, from: nat, key: Key)
    requires Quiet(before, after) && from <= |before| && Answered(owner, before, from, key)
    ensures Answered(owner, after, from, key)
    ensures forall id :: LookedFor(after, from, id) <==> LookedFor(before, from, id)
  {
    assert forall p | 0 <= p < |before| :: after[p] == before[p];
    forall id | LookedFor(before, from, id) ensures LookedFor(after, from, id) {
      var p :| from <= p < |before| && (before[p] == Unread(id) || (before[p].Looked? && before[p].id == id));
      assert after[p] == before[p];
    }
  }

  lemma DecisionKeepsAnswered(owner: Option<nat>, log: Log, from: nat, key: Key, look: Event)
    requires from <= |log| && Answered(owner, log, from, key) && look.Looked?
    ensures var more := log + [look] + [DecisionOn(owner, key, look)];
      && Answered(owner, more, from, key)
      && forall id :: LookedFor(more, from, id) <==> LookedFor(log, from, id) || id == look.id
  {
    var more := log + [look] + [DecisionOn(owner, key, look)];
    assert forall p | 0 <= p < |log| :: more[p] == log[p];
    assert more[|log|] == look;
    forall id | LookedFor(log, from, id) ensures LookedFor(more, from, id) {
      var p :| from <= p < |log| && (log[p] == Unread(id) || (log[p].Looked? && log[p].id == id));
      assert more[p] == log[p];
    }
  }

  lemma UnreadKeepsAnswered(owner: Option<nat>, log: Log, from: nat, key: Key, id: Id)
    requires from <= |log| && Answered(owner, log, from, key)
    ensures Answered(owner, log + [Unread(id)], from, key)
    ensures forall other :: LookedFor(log + [Unread(id)], from, other) <==> LookedFor(log, from, other) || other == id
  {
    var more := log + [Unread(id)];
    assert forall p | 0 <= p < |log| :: more[p] == log[p];
    assert more[|log|] == Unread(id);
    forall other | LookedFor(log, from, other) ensures LookedFor(more, from, other) {
      var p :| from <= p < |log| && (log[p] == Unread(other) || (log[p].Looked? && log[p].id == other));
      assert more[p] == log[p];
    }
  }

  /** The card was read at `q`, and the open items its owner had picked on it - they and no
      others - were looked at and decided. */
  ghost predicate ReadAndAnswered(owner: Option<nat>, log: Log, from: nat, q: nat, key: Key, items: seq<Id>, open: set<Id>) {
    && from <= q < |log| && (forall p | from <= p < q :: Minor(log[p]))
    && log[q].CardRead? && log[q].key == key && log[q].items == items
    && Answered(owner, log, q + 1, key)
    && forall id :: LookedFor(log, q + 1, id) <==> id in open && OwnerPicks(owner, items, log[q].reactions, id)
  }

  lemma QuietKeepsRead(owner: Option<nat>, before: Log, after: Log, from: nat, q: nat, key: Key, items: seq<Id>, open: set<Id>)
    requires Quiet(before, after) && ReadAndAnswered(owner, before, from, q, key, items, open)
    ensures ReadAndAnswered(owner, after, from, q, key, items, open)
  {
    QuietKeepsAnswered(owner, before, after, q + 1, key);
    assert forall p | 0 <= p < |before| :: after[p] == before[p];
  }

  predicate RowsOf(rows: Log, items: seq<Id>) {
    |rows| == |items| && forall i | 0 <= i < |items| :: rows[i].RowRead? && rows[i].id == items[i]
  }

  /** The items whose approvals were read as waiting. */
  function WaitingOf(rows: Log, items: seq<Id>): set<Id>
    requires RowsOf(rows, items)
  {
    set i | 0 <= i < |items| && rows[i].status.Waiting? :: items[i]
  }

  predicate RowsRead(log: Log, from: nat, items: seq<Id>) {
    from + |items| <= |log| && RowsOf(log[from..from + |items|], items)
  }

  function ReadWaiting(log: Log, from: nat, items: seq<Id>): set<Id>
    requires RowsRead(log, from, items)
  {
    WaitingOf(log[from..from + |items|], items)
  }

  lemma OneMoreRow(rows: Log, row: Event, items: seq<Id>, id: Id)
    requires RowsOf(rows, items) && row.RowRead? && row.id == id
    ensures RowsOf(rows + [row], items + [id])
    ensures WaitingOf(rows + [row], items + [id]) == WaitingOf(rows, items) + if row.status.Waiting? then {id} else {}
  {
    var more, all := rows + [row], items + [id];
    forall a | a in WaitingOf(rows, items) ensures a in WaitingOf(more, all) {
      var k :| 0 <= k < |items| && rows[k].status.Waiting? && items[k] == a;
      assert more[k].status.Waiting? && all[k] == a;
    }
    if row.status.Waiting? {
      assert more[|rows|].status.Waiting? && all[|rows|] == id;
    }
    forall a | a in WaitingOf(more, all) ensures a in WaitingOf(rows, items) || (row.status.Waiting? && a == id) {
      var k :| 0 <= k < |all| && more[k].status.Waiting? && all[k] == a;
      if k < |rows| {
        assert rows[k].status.Waiting? && items[k] == a;
      }
    }
  }

  lemma SameRows(before: Log, after: Log, from: nat, items: seq<Id>)
    requires before <= after && RowsRead(before, from, items)
    ensures RowsRead(after, from, items) && ReadWaiting(after, from, items) == ReadWaiting(before, from, items)
  {
    assert after[from..from + |items|] == before[from..from + |items|];
  }

  /** Nothing was decided. */
  predicate Undecided(before: Log, after: Log) { before <= after && forall p | |before| <= p < |after| :: !IsDecision(after[p]) }

  /** What following a card comes to: its rows are read; if one waits and the card counts, it is
      read and answered, or found gone; otherwise nothing is decided. `open` are the items that
      may be approved from it. */
  ghost predicate CardFollowed(owner: Option<nat>, log: Log, from: nat, key: Key, card: Card, open: set<Id>) {
    && RowsRead(log, from, card.items)
    && (var at, waiting := from + |card.items|, ReadWaiting(log, from, card.items);
        if waiting == {} || card.supersededBy.Some? then forall p | at <= p < |log| :: Minor(log[p])
        else
          || (exists q | at <= q < |log| :: log[q] == CardReposted(key) && forall p | at <= p < |log| :: Minor(log[p]))
          || (exists q | at <= q < |log| :: ReadAndAnswered(owner, log, at, q, key, card.items, waiting * open)))
  }

  /** What following a preview comes to, once its reactions are read: his ❌ denies it, his ✅
      approves it if all of it reached him, and nothing else does either. */
  predicate PreviewAnswered(owner: Option<nat>, log: Log, from: nat, q: nat, id: Id, whole: bool, batched: bool) {
    && from <= q < |log| && (forall p | from <= p < q :: Minor(log[p]))
    && log[q].Looked? && log[q].id == id
    && if OwnerDenies(owner, log[q].reactions) then Decided(log, q + 1, Denied(id))
       else if OwnerApproves(owner, log[q].reactions) && whole then Decided(log, q + 1, ApprovedOnPreview(id, batched))
       else q + 1 == |log|
  }

  predicate Decided(log: Log, at: nat, e: Event) { at < |log| && log[at] == e && forall p | at < p < |log| :: Minor(log[p]) }

  // ----- what must hold of a copy of the gate's record (in memory or on disk)

  predicate Live(card: Card) { !card.final && card.supersededBy.None? }

  predicate AllSettled(items: seq<Id>, settled: set<Id>) { forall a | a in items :: a in settled }

  ghost predicate EntriesOk(entries: map<Id, Entry>, log: Log) {
    forall id | id in entries && entries[id].complete ::
      TextUp(log, id) && (!entries[id].attachFailed ==> SeenInFull(log, id))
  }

  /** The card went up after everything that may be approved from it. */
  ghost predicate Shown(log: Log, key: Key, approvable: set<Id>) {
    exists p: nat :: p < |log| && log[p] == CardUp(key) && forall a | a in approvable :: SeenInFull(log[..p], a)
  }

  predicate StandsDown(card: Card, settled: set<Id>) {
    card.supersededBy.Some? || AllSettled(card.items, settled)
  }

  ghost predicate CardsOk(cards: map<Key, Card>, log: Log, settled: set<Id>) {
    && (forall key | key in cards :: Shown(log, key, cards[key].approvable))
    && (forall key | key in cards && cards[key].final :: AllSettled(cards[key].items, settled))
    && (forall key, p: nat {:trigger cards[key], CardAt(log, p)} | key in cards && CardAt(log, p) && key.run < log[p].key.run ::
          StandsDown(cards[key], settled))
  }

  /** All live cards belong to one run. */
  predicate OneLiveRun(cards: map<Key, Card>) {
    forall k1, k2 | k1 in cards && k2 in cards && Live(cards[k1]) && Live(cards[k2]) :: k1.run == k2.run
  }

  function Tries(run: DigestRun, part: Part): nat { if part in run.tries then run.tries[part] else 0 }

  ghost predicate RunOk(run: Option<DigestRun>, log: Log) {
    && (forall p: nat {:trigger CardAt(log, p)} | CardAt(log, p) ::
          && run.Some? && log[p].key.run <= run.value.id
          && (log[p].key.run < run.value.id || run.value.complete ==> CompleteAfter(log, p, log[p].key.run)))
    && (forall key: Key | Count(log, CardSaved(key)) > 0 ::
          run.Some? && (key.run < run.value.id || (key.run == run.value.id && key.index in run.value.posted)))
    && (run.Some? ==> TriesOk(run.value) && Distinct(run.value.items))
  }

  ghost predicate TriesOk(run: DigestRun) { forall part | part !in run.gaveUp :: Tries(run, part) < PART_TRIES }

  predicate Distinct(items: seq<Id>) { forall i, j | 0 <= i < j < |items| :: items[i] != items[j] }

  ghost predicate Good(entries: map<Id, Entry>, digest: DigestState, log: Log, settled: set<Id>) {
    && EntriesOk(entries, log)
    && CardsOk(digest.cards, log, settled)
    && OneLiveRun(digest.cards)
    && RunOk(digest.run, log)
  }

  /** The saved record may be behind the one in memory, but never on what must be durable:
      the run, the cards posted, and that a card was superseded. */
  ghost predicate Behind(disk: DigestState, mem: DigestState) {
    && disk.run.Some? == mem.run.Some?
    && (mem.run.Some? ==>
          && disk.run.value.id == mem.run.value.id && disk.run.value.posted <= mem.run.value.posted
          && (disk.run.value.complete ==> mem.run.value.complete))
    && disk.cards.Keys <= mem.cards.Keys
    && (forall key | key in disk.cards :: disk.cards[key].items == mem.cards[key].items)
    && (forall key | key in disk.cards && mem.cards[key].supersededBy.Some? :: disk.cards[key].supersededBy.Some?)
  }

  // ----- appending to the log

  lemma SeenGrows(log: Log, e: Event, id: Id)
    ensures TextUp(log, id) ==> TextUp(log + [e], id)
    ensures SeenInFull(log, id) ==> SeenInFull(log + [e], id)
  {
    forall head: nat | TextUpFrom(log, id, head) ensures TextUpFrom(log + [e], id, head) {
      assert (log + [e])[head] == log[head];
    }
    if TextUp(log, id) {
      var head: nat :| TextUpFrom(log, id, head);
      assert TextUpFrom(log + [e], id, head);
    }
    if SeenInFull(log, id) {
      var head: nat :| TextUpFrom(log, id, head) && log[head].image;
      assert TextUpFrom(log + [e], id, head) && (log + [e])[head].image;
    }
  }

  lemma CountGrows(log: Log, e: Event, x: Event)
    ensures Count(log + [e], x) == Count(log, x) + if e == x then 1 else 0
  {
    assert (log + [e])[..|log|] == log;
  }

  lemma TextStays(before: Log, after: Log, id: Id, head: nat)
    requires before <= after && TextUpFrom(before, id, head)
    ensures TextUpFrom(after, id, head)
  {
    assert forall p | 0 <= p < |before| :: after[p] == before[p];
    forall k: nat | 1 <= k < after[head].chunks ensures Chunk(id, head, k) in after {
      assert Chunk(id, head, k) in before;
    }
  }

  /** All of it went up since `from`, and the record says so; of the image too. */
  ghost predicate PostedWhole(log: Log, from: nat, id: Id, entry: Entry) {
    exists head | from <= head < |log| :: TextUpFrom(log, id, head) && entry == Entry(true, !log[head].image, false)
  }

  lemma PrefixStays(log: Log, e: Event)
    ensures forall q: nat | q <= |log| :: (log + [e])[..q] == log[..q]
  {
  }

  lemma CompleteGrows(log: Log, e: Event, p: nat, run: nat)
    requires CompleteAfter(log, p, run) || (p < |log| && e == RunComplete(run))
    ensures CompleteAfter(log + [e], p, run)
  {
    if CompleteAfter(log, p, run) {
      var s :| p < s < |log| && log[s] == RunComplete(run);
      assert (log + [e])[s] == RunComplete(run);
    } else {
      assert (log + [e])[|log|] == RunComplete(run);
    }
  }

  lemma NeverBlindGrows(owner: Option<nat>, log: Log, e: Event)
    requires NeverBlind(owner, log)
    requires e.ApprovedFromCard? ==> JustifiedApproval(owner, log + [e], |log|)
    requires e.ApprovedOnPreview? ==> JustifiedOnPreview(owner, log + [e], |log|)
    requires e.Denied? ==> JustifiedDenial(owner, log + [e], |log|)
    ensures NeverBlind(owner, log + [e])
  {
    var more := log + [e];
    PrefixStays(log, e);
    forall p: nat | FromCardAt(more, p) ensures JustifiedApproval(owner, more, p) {
      if p < |log| {
        StaysJustified(owner, log, e, p);
      }
    }
    forall p: nat | OnPreviewAt(more, p) ensures JustifiedOnPreview(owner, more, p) {
      assert p < |log| ==> OnPreviewAt(log, p) && JustifiedOnPreview(owner, log, p);
    }
    forall p: nat | DeniedAt(more, p) ensures JustifiedDenial(owner, more, p) {
      assert p < |log| ==> DeniedAt(log, p) && JustifiedDenial(owner, log, p);
    }
  }

  lemma StaysJustified(owner: Option<nat>, log: Log, e: Event, p: nat)
    requires NeverBlind(owner, log) && p < |log| && FromCardAt(log, p)
    ensures JustifiedApproval(owner, log + [e], p)
  {
    var more := log + [e];
    PrefixStays(log, e);
    assert JustifiedApproval(owner, log, p) && more[p] == log[p] && more[..p] == log[..p];
    var q: nat :| q < p && log[q] == CardUp(log[p].key) && SeenInFull(log[..q], log[p].id);
    assert more[q] == CardUp(more[p].key) && more[..q] == log[..q];
    forall q: nat | q < p && CardAt(more, q) ensures more[q].key.run <= more[p].key.run {
      assert CardAt(log, q);
    }
  }

  lemma OneRunGrows(log: Log, e: Event)
    requires OneRunAtATime(log)
    requires e.CardUp? ==> forall p: nat {:trigger CardAt(log, p)} | CardAt(log, p) && log[p].key.run < e.key.run ::
      CompleteAfter(log, p, log[p].key.run)
    ensures OneRunAtATime(log + [e])
  {
    var more := log + [e];
    PrefixStays(log, e);
    assert more[..|log|] == log;
    forall p: nat, q: nat | p < q && CardAt(more, p) && CardAt(more, q) && more[p].key.run < more[q].key.run
      ensures CompleteAfter(more[..q], p, more[p].key.run)
    {
      assert CardAt(log, p);
      if q < |log| {
        assert CardAt(log, q) && CompleteAfter(log[..q], p, log[p].key.run);
      }
    }
  }

  lemma PostedOnceGrows(log: Log, e: Event, inFlight: Option<Key>)
    requires PostedOnceBut(log, inFlight)
    requires e.CardUp? ==> inFlight.None?
    requires e.CardSaved? ==> Count(log, e) == 0
    ensures PostedOnceBut(log + [e], if e.CardUp? then Some(e.key) else inFlight)
    ensures (e.CardSaved? || e.CardInterrupted?) && inFlight == Some(e.key) ==> PostedOnce(log + [e])
  {
    var more := log + [e];
    var flown := if e.CardUp? then Some(e.key) else inFlight;
    forall key: Key
      ensures Count(more, CardUp(key)) <= Count(more, CardSaved(key)) + Count(more, CardInterrupted(key)) + (if flown == Some(key) then 1 else 0)
      ensures Count(more, CardSaved(key)) <= 1
      ensures (e.CardSaved? || e.CardInterrupted?) && inFlight == Some(e.key) ==>
        Count(more, CardUp(key)) <= Count(more, CardSaved(key)) + Count(more, CardInterrupted(key))
    {
      CountsGrow(log, e, key);
    }
  }

  lemma CountsGrow(log: Log, e: Event, key: Key)
    ensures Count(log + [e], CardUp(key)) == Count(log, CardUp(key)) + if e == CardUp(key) then 1 else 0
    ensures Count(log + [e], CardSaved(key)) == Count(log, CardSaved(key)) + if e == CardSaved(key) then 1 else 0
    ensures Count(log + [e], CardInterrupted(key)) == Count(log, CardInterrupted(key)) + if e == CardInterrupted(key) then 1 else 0
  {
    CountGrows(log, e, CardUp(key));
    CountGrows(log, e, CardSaved(key));
    CountGrows(log, e, CardInterrupted(key));
  }

  lemma EntriesGrow(entries: map<Id, Entry>, log: Log, e: Event)
    requires EntriesOk(entries, log)
    ensures EntriesOk(entries, log + [e])
  {
    forall id | id in entries && entries[id].complete
      ensures TextUp(log + [e], id) && (!entries[id].attachFailed ==> SeenInFull(log + [e], id))
    {
      SeenGrows(log, e, id);
    }
  }

  lemma ShownGrows(log: Log, e: Event, key: Key, approvable: set<Id>)
    requires Shown(log, key, approvable)
    ensures Shown(log + [e], key, approvable)
  {
    var p: nat :| p < |log| && log[p] == CardUp(key) && forall a | a in approvable :: SeenInFull(log[..p], a);
    PrefixStays(log, e);
    assert (log + [e])[p] == CardUp(key) && (log + [e])[..p] == log[..p];
  }

  lemma CardsGrow(cards: map<Key, Card>, log: Log, e: Event, settled: set<Id>)
    requires CardsOk(cards, log, settled)
    requires e.CardUp? ==> forall key | key in cards && key.run < e.key.run :: StandsDown(cards[key], settled)
    ensures CardsOk(cards, log + [e], settled)
  {
    forall key | key in cards ensures Shown(log + [e], key, cards[key].approvable) {
      ShownGrows(log, e, key, cards[key].approvable);
    }
    forall key, p: nat | key in cards && CardAt(log + [e], p) && key.run < (log + [e])[p].key.run
      ensures StandsDown(cards[key], settled)
    {
      if p < |log| {
        assert CardAt(log, p) && cards[key] == cards[key];
      }
    }
  }

  lemma RunGrows(run: Option<DigestRun>, log: Log, e: Event)
    requires RunOk(run, log)
    requires e.CardUp? ==> run.Some? && e.key.run == run.value.id && !run.value.complete
    requires e.CardSaved? ==> run.Some? && e.key.run == run.value.id && e.key.index in run.value.posted
    ensures RunOk(run, log + [e])
  {
    var more := log + [e];
    forall p: nat | CardAt(more, p)
      ensures run.Some? && more[p].key.run <= run.value.id
      ensures more[p].key.run < run.value.id || run.value.complete ==> CompleteAfter(more, p, more[p].key.run)
    {
      assert p < |log| ==> CardAt(log, p);
      if p < |log| && (log[p].key.run < run.value.id || run.value.complete) {
        CompleteGrows(log, e, p, log[p].key.run);
      }
    }
    forall key: Key | Count(more, CardSaved(key)) > 0
      ensures run.Some? && (key.run < run.value.id || (key.run == run.value.id && key.index in run.value.posted))
    {
      CountGrows(log, e, CardSaved(key));
    }
  }

  lemma GoodGrows(entries: map<Id, Entry>, digest: DigestState, log: Log, e: Event, settled: set<Id>)
    requires Good(entries, digest, log, settled)
    requires !e.CardUp? && !e.CardSaved?
    ensures Good(entries, digest, log + [e], settled)
  {
    EntriesGrow(entries, log, e);
    CardsGrow(digest.cards, log, e, settled);
    RunGrows(digest.run, log, e);
  }

  /** More approvals settle: nothing that held of them stops holding. */
  lemma SettledGrows(entries: map<Id, Entry>, digest: DigestState, log: Log, settled: set<Id>, more: set<Id>)
    requires Good(entries, digest, log, settled) && settled <= more
    ensures Good(entries, digest, log, more)
  {
    forall key, p: nat | key in digest.cards && CardAt(log, p) && key.run < log[p].key.run
      ensures StandsDown(digest.cards[key], more)
    {
      assert StandsDown(digest.cards[key], settled);
    }
  }

  /** A card is marked final, or superseded. */
  lemma CardClosed(cards: map<Key, Card>, key: Key, closed: Card, log: Log, settled: set<Id>)
    requires CardsOk(cards, log, settled) && OneLiveRun(cards) && key in cards
    requires closed.items == cards[key].items && closed.approvable == cards[key].approvable
    requires closed.final ==> AllSettled(closed.items, settled)
    requires cards[key].supersededBy.Some? ==> closed.supersededBy.Some?
    requires Live(closed) ==> Live(cards[key])
    ensures CardsOk(cards[key := closed], log, settled) && OneLiveRun(cards[key := closed])
  {
    var next := cards[key := closed];
    forall k, p: nat | k in next && CardAt(log, p) && k.run < log[p].key.run
      ensures StandsDown(next[k], settled)
    {
      assert StandsDown(cards[k], settled);
    }
  }

  lemma GoodClosed(entries: map<Id, Entry>, digest: DigestState, key: Key, closed: Card, log: Log, settled: set<Id>)
    requires Good(entries, digest, log, settled) && key in digest.cards
    requires closed.items == digest.cards[key].items && closed.approvable == digest.cards[key].approvable
    requires closed.final ==> AllSettled(closed.items, settled)
    requires digest.cards[key].supersededBy.Some? ==> closed.supersededBy.Some?
    requires Live(closed) ==> Live(digest.cards[key])
    ensures Good(entries, digest.(cards := digest.cards[key := closed]), log, settled)
  {
    CardClosed(digest.cards, key, closed, log, settled);
  }

  lemma BehindClosed(disk: DigestState, mem: DigestState, key: Key, closed: Card)
    requires Behind(disk, mem) && key in mem.cards
    requires closed.items == mem.cards[key].items && closed.supersededBy == mem.cards[key].supersededBy
    ensures Behind(disk, mem.(cards := mem.cards[key := closed]))
  {
  }

  // ----- progress

  /** One pass over a run only ever adds to what is recorded. */
  ghost predicate Advances(before: DigestRun, after: DigestRun) {
    && after.id == before.id && after.day == before.day && after.items == before.items && after.pages == before.pages
    && before.posted <= after.posted && before.done <= after.done && before.gaveUp <= after.gaveUp
    && NewPagesPosted(before, after)
    && forall part :: Tries(before, part) <= Tries(after, part)
  }

  /** A page is recorded as done only when its card is recorded as posted. */
  predicate NewPagesPosted(before: DigestRun, after: DigestRun) {
    forall part | part in after.done && part.Page? :: part in before.done || part.index in after.posted
  }

  predicate Settles(run: DigestRun, part: Part) { part in run.done || part in run.gaveUp }

  predicate SameStanding(before: DigestRun, after: DigestRun, part: Part) {
    Tries(after, part) == Tries(before, part) && (Settles(after, part) <==> Settles(before, part))
  }

  /** The part was refused once more and is still owed. */
  predicate RefusedAgain(before: DigestRun, after: DigestRun, part: Part) {
    !Settles(after, part) && Tries(after, part) > Tries(before, part)
  }

  /** A pass has done the part or given it up; or, if it leaves anything owed, been refused it
      once more. */
  predicate Served(before: DigestRun, after: DigestRun, part: Part, owed: bool) {
    Settles(after, part) || (owed && RefusedAgain(before, after, part))
  }

  lemma ServedNow(before: DigestRun, mid: DigestRun, after: DigestRun, part: Part, over: bool)
    requires Advances(before, mid) && if over then Settles(after, part) else RefusedAgain(mid, after, part)
    ensures Served(before, after, part, !over)
  {
    assert Tries(before, part) <= Tries(mid, part);
  }

  lemma ServedStays(before: DigestRun, mid: DigestRun, after: DigestRun, part: Part, owed: bool)
    requires Served(before, mid, part, owed) && Advances(mid, after) && SameStanding(mid, after, part)
    ensures Served(before, after, part, owed)
  {
  }

  lemma ServedBefore(before: DigestRun, mid: DigestRun, after: DigestRun, part: Part, owed: bool)
    requires Advances(before, mid) && Served(mid, after, part, owed)
    ensures Served(before, after, part, owed)
  {
    assert Tries(before, part) <= Tries(mid, part);
  }

  datatype Kind = Superseding | Reporting | Previewing | Paging

  function KindOf(part: Part): Kind {
    match part
    case Supersede(_) => Superseding
    case ExpiredReport(_) => Reporting
    case Preview(_) => Previewing
    case Page(_) => Paging
  }

  /** Nothing but this part moved. */
  ghost predicate OnlyPart(before: DigestRun, after: DigestRun, part: Part) {
    Advances(before, after) && forall p | p != part :: SameStanding(before, after, p)
  }

  /** One stage of a pass: it moved only its own kind of parts, and `owing`, if any, is one
      it was refused and still owes. */
  ghost predicate Stage(before: DigestRun, after: DigestRun, kind: Kind, owing: Option<Part>) {
    && Advances(before, after)
    && (forall p | KindOf(p) != kind :: SameStanding(before, after, p))
    && (owing.Some? ==> KindOf(owing.value) == kind && RefusedAgain(before, after, owing.value))
  }

  lemma StageStep(before: DigestRun, mid: DigestRun, after: DigestRun, kind: Kind, owing: Option<Part>, part: Part, over: bool)
    requires Stage(before, mid, kind, owing) && OnlyPart(mid, after, part) && KindOf(part) == kind
    requires owing != Some(part)
    requires !over ==> RefusedAgain(mid, after, part)
    ensures Stage(before, after, kind, if over then owing else Some(part))
  {
    AdvancesChain(before, mid, after);
    forall p | KindOf(p) != kind ensures SameStanding(before, after, p) {
      assert SameStanding(before, mid, p) && SameStanding(mid, after, p);
    }
    assert Tries(before, part) <= Tries(mid, part);
    if owing.Some? {
      assert SameStanding(mid, after, owing.value);
    }
  }

  /** A part refused in one stage is still refused when the pass ends. */
  lemma StillOwed(run0: DigestRun, run1: DigestRun, run2: DigestRun, run3: DigestRun, run4: DigestRun,
                  a: Option<Part>, b: Option<Part>, c: Option<Part>, d: Option<Part>) returns (part: Part)
    requires Stage(run0, run1, Superseding, a) && Stage(run1, run2, Reporting, b)
    requires Stage(run2, run3, Previewing, c) && Stage(run3, run4, Paging, d)
    ensures Advances(run0, run4)
    ensures a.Some? || b.Some? || c.Some? || d.Some? ==>
              Some(part) in {a, b, c, d} && RefusedAgain(run0, run4, part)
  {
    AdvancesChain(run0, run1, run2);
    AdvancesChain(run0, run2, run3);
    AdvancesChain(run0, run3, run4);
    part := Page(0);
    if a.Some? || b.Some? || c.Some? || d.Some? {
      part := if d.Some? then d.value else if c.Some? then c.value else if b.Some? then b.value else a.value;
      assert Tries(run0, part) <= Tries(run1, part) <= Tries(run2, part) <= Tries(run3, part) <= Tries(run4, part);
      assert KindOf(part) != Reporting ==> SameStanding(run1, run2, part);
      assert KindOf(part) != Previewing ==> SameStanding(run2, run3, part);
      assert KindOf(part) != Paging ==> SameStanding(run3, run4, part);
      assert RefusedAgain(run0, run4, part);
    }
  }

  lemma AdvancesChain(a: DigestRun, b: DigestRun, c: DigestRun)
    requires Advances(a, b) && Advances(b, c)
    ensures Advances(a, c)
  {
    forall part ensures Tries(a, part) <= Tries(c, part) {
      assert Tries(a, part) <= Tries(b, part);
    }
  }

  /** The part's work is done: recorded, never to be repeated. */
  function PartDone(run: DigestRun, part: Part): DigestRun { run.(done := run.done + {part}) }

  /** Discord refused the part: once more, or for the last time. */
  function PartRefused(run: DigestRun, part: Part): DigestRun {
    var counted := run.(tries := run.tries[part := Tries(run, part) + 1]);
    if Tries(run, part) + 1 < PART_TRIES then counted else counted.(gaveUp := run.gaveUp + {part})
  }

  /** From before the work of a part to after it is recorded. */
  lemma PartRecorded(before: DigestRun, worked: DigestRun, part: Part)
    requires TriesOk(before) && !Settles(before, part)
    requires worked.(posted := {}) == before.(posted := {}) && before.posted <= worked.posted
    ensures TriesOk(worked)
    ensures var next := PartDone(worked, part);
      (part.Page? ==> part.index in worked.posted) ==> OnlyPart(before, next, part) && TriesOk(next) && Settles(next, part)
    ensures var next := PartRefused(worked, part);
      && OnlyPart(before, next, part) && TriesOk(next)
      && (if Settles(next, part) then Tries(next, part) == 3 else RefusedAgain(before, next, part) && Tries(next, part) < 3)
  {
    forall p ensures SameStanding(before, worked, p) {
    }
    forall p | p != part ensures SameStanding(worked, PartDone(worked, part), p) && SameStanding(worked, PartRefused(worked, part), p) {
    }
    forall p ensures Tries(worked, p) <= Tries(PartRefused(worked, part), p) {
    }
    forall p ensures Tries(worked, p) == Tries(PartDone(worked, part), p) {
    }
    assert part !in worked.gaveUp && Tries(worked, part) < PART_TRIES;
  }

  function TriesLeft(run: DigestRun, part: Part): int {
    if Settles(run, part) then 0 else PART_TRIES - Tries(run, part)
  }

  function AllTriesLeft(run: DigestRun, parts: seq<Part>): int {
    if parts == [] then 0 else TriesLeft(run, parts[0]) + AllTriesLeft(run, parts[1..])
  }

  lemma {:induction false} TriesFall(before: DigestRun, after: DigestRun, parts: seq<Part>)
    requires Advances(before, after)
    requires TriesOk(before)
    requires TriesOk(after)
    ensures 0 <= AllTriesLeft(after, parts) <= AllTriesLeft(before, parts)
    ensures (exists part | part in parts :: RefusedAgain(before, after, part)) ==>
              AllTriesLeft(after, parts) < AllTriesLeft(before, parts)
  {
    if parts != [] {
      TriesFall(before, after, parts[1..]);
      assert Tries(before, parts[0]) <= Tries(after, parts[0]);
      forall part | part in parts && RefusedAgain(before, after, part)
        ensures AllTriesLeft(after, parts) < AllTriesLeft(before, parts)
      {
        assert part == parts[0] || part in parts[1..];
      }
    }
  }

  /** The parts a run can ever have. A report of expired items has at most `reports` chunks. */
  predicate IsPart(digest: DigestState, reports: nat, part: Part)
    requires digest.run.Some?
  {
    match part
    case Supersede(key) => key in digest.cards && key.run != digest.run.value.id
    case ExpiredReport(number) => number <= reports
    case Preview(id) => id in digest.run.value.items
    case Page(index) => index <= |digest.run.value.pages|
  }

  ghost predicate Lists(parts: seq<Part>, digest: DigestState, reports: nat)
    requires digest.run.Some?
  {
    forall part | IsPart(digest, reports, part) :: part in parts
  }

  /** Only the run's own cards were added. */
  predicate OwnCardsOnly(before: DigestState, after: DigestState)
    requires after.run.Some?
  {
    forall key | key in after.cards && key !in before.cards :: key.run == after.run.value.id
  }

  lemma {:induction false} ListSupersedes(keys: set<Key>) returns (parts: seq<Part>)
    ensures forall key | key in keys :: Supersede(key) in parts
  {
    parts := [];
    if keys != {} {
      var key :| key in keys;
      parts := ListSupersedes(keys - {key});
      parts := parts + [Supersede(key)];
    }
  }

  /** They are finitely many. */
  lemma ListParts(digest: DigestState, reports: nat) returns (parts: seq<Part>)
    requires digest.run.Some?
    ensures Lists(parts, digest, reports)
  {
    var supersedes := ListSupersedes(digest.cards.Keys);
    var run := digest.run.value;
    var chunks := seq(reports + 1, n requires 0 <= n => ExpiredReport(n));
    var previews := seq(|run.items|, i requires 0 <= i < |run.items| => Preview(run.items[i]));
    var pages := seq(|run.pages| + 1, i requires 0 <= i => Page(i));
    parts := supersedes + chunks + previews + pages;
    forall part | IsPart(digest, reports, part) ensures part in parts {
      match part
      case Supersede(_) => assert part in supersedes;
      case ExpiredReport(number) => assert chunks[number] == part;
      case Preview(id) =>
        var i :| 0 <= i < |run.items| && run.items[i] == id;
        assert previews[i] == part;
      case Page(index) => assert pages[index] == part;
    }
  }

  lemma {:induction false} AtMostThreeEach(run: DigestRun, parts: seq<Part>)
    requires TriesOk(run)
    ensures 0 <= AllTriesLeft(run, parts) <= 3 * |parts|
  {
    if parts != [] {
      AtMostThreeEach(run, parts[1..]);
    }
  }
}
