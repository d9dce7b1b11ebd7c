/** Shared lessons (src/pionir/cortex.py): one row for each lesson, with a count of how often it
    was seen; the migration that collapsed the duplicates, and its undo. The table is its rows
    in id order; a row carries the key that makes two lessons the same. */
module Lessons {
  import opened Wrappers

  type Time = int
  const BURST: Time := 86_400

  datatype Meta = Meta(seen: Option<int>, lastSeen: Option<Time>, burstStart: Option<Time>, burst: Option<int>,
                       deduped: Option<int>, mergedInto: Option<nat>)

  datatype Lesson = Lesson(id: nat, ts: Time, key: string, active: bool, meta: Meta)

  type Table = seq<Lesson>

  function OrElse<T>(o: Option<T>, default: T): T { if o.Some? then o.value else default }

  function Seen(l: Lesson): int { OrElse(l.meta.seen, 1) }

  // ----- one more sighting

  predicate Is(l: Lesson, key: string) { l.active && l.key == key }

  function FirstWith(t: Table, key: string): (i: nat)
    ensures i <= |t| && (i < |t| ==> Is(t[i], key))
    ensures forall j | 0 <= j < i :: !Is(t[j], key)
  {
    if t == [] then 0
    else
      var i := FirstWith(t[..|t| - 1], key);
      if i < |t| - 1 || Is(t[|t| - 1], key) then i else |t|
  }

  function Recurred(l: Lesson, now: Time): Lesson {
    var m := l.meta;
    var counted := m.(seen := Some(Seen(l) + 1), lastSeen := Some(now));
    l.(meta := if now - OrElse(m.burstStart, 0) > BURST then counted.(burstStart := Some(now), burst := Some(1))
               else counted.(burst := Some(OrElse(m.burst, 0) + 1)))
  }

  function NewLesson(id: nat, key: string, now: Time): Lesson {
    Lesson(id, now, key, true, Meta(Some(1), Some(now), Some(now), Some(0), None, None))
  }

  /** `record_lesson`: counted on the row that has it, or written as a new one. */
  function Recorded(t: Table, id: nat, key: string, now: Time): Table {
    var i := FirstWith(t, key);
    if i < |t| then t[i := Recurred(t[i], now)] else t + [NewLesson(id, key, now)]
  }

  // ----- duplicates collapsed

  /** The places of the active rows with this key, below `n`. */
  function Group(t: Table, key: string, n: nat): (g: seq<nat>)
    requires n <= |t|
    ensures forall k | 0 <= k < |g| :: g[k] < n
  {
    if n == 0 then [] else Group(t, key, n - 1) + if Is(t[n - 1], key) then [n - 1] else []
  }

  function Times(t: Table, g: seq<nat>): seq<Time>
    requires forall k | 0 <= k < |g| :: g[k] < |t|
  {
    if g == [] then [] else Times(t, g[..|g| - 1]) + [t[g[|g| - 1]].ts]
  }

  function Max(times: seq<Time>): Time
    requires times != []
  {
    if |times| == 1 then times[0]
    else
      var m := Max(times[..|times| - 1]);
      if times[|times| - 1] > m then times[|times| - 1] else m
  }

  function Min(times: seq<Time>): Time {
    if times == [] then 0
    else if |times| == 1 then times[0]
    else
      var m := Min(times[..|times| - 1]);
      if times[|times| - 1] < m then times[|times| - 1] else m
  }

  function Since(times: seq<Time>, from: Time): seq<Time> {
    if times == [] then []
    else Since(times[..|times| - 1], from) + if times[|times| - 1] >= from then [times[|times| - 1]] else []
  }

  function Merged(l: Lesson, times: seq<Time>): Lesson
    requires times != []
  {
    var last := Max(times);
    var recent := Since(times, last - BURST);
    l.(meta := l.meta.(seen := Some(|times|), lastSeen := Some(last), burstStart := Some(Min(recent)),
                       burst := Some(|recent| - 1), deduped := Some(|times| - 1)))
  }

  function RetiredInto(l: Lesson, keep: nat): Lesson { l.(active := false, meta := l.meta.(mergedInto := Some(keep))) }

  lemma {:induction false} GroupCounts(t: Table, key: string, n: nat)
    requires n <= |t|
    ensures forall i | 0 <= i < n :: Is(t[i], key) <==> i in Group(t, key, n)
    ensures forall k, m | 0 <= k < m < |Group(t, key, n)| :: Group(t, key, n)[k] < Group(t, key, n)[m]
  {
    if n > 0 {
      GroupCounts(t, key, n - 1);
      var front, g := Group(t, key, n - 1), Group(t, key, n);
      forall i | 0 <= i < n ensures Is(t[i], key) <==> i in g {
        if i == n - 1 && !Is(t[i], key) {
          assert g == front;
        }
      }
    }
  }

  lemma {:induction false} TimesLength(t: Table, g: seq<nat>)
    requires forall k | 0 <= k < |g| :: g[k] < |t|
    ensures |Times(t, g)| == |g|
  {
    if g != [] {
      TimesLength(t, g[..|g| - 1]);
    }
  }

  /** What the migration leaves at one place. */
  function DedupedAt(t: Table, i: nat): Lesson
    requires i < |t|
  {
    var g := Group(t, t[i].key, |t|);
    TimesLength(t, g);
    if !t[i].active || |g| <= 1 then t[i]
    else if g[0] == i then Merged(t[i], Times(t, g))
    else RetiredInto(t[i], t[g[0]].id)
  }

  function DedupedTo(t: Table, n: nat): (r: Table)
    requires n <= |t|
    ensures |r| == n && forall i | 0 <= i < n :: r[i] == DedupedAt(t, i)
  {
    if n == 0 then [] else DedupedTo(t, n - 1) + [DedupedAt(t, n - 1)]
  }

  /** `_dedupe_lessons`: the oldest row of each group carries the count, the others are retired. */
  function Deduped(t: Table): (r: Table)
    ensures |r| == |t| && forall i | 0 <= i < |t| :: r[i] == DedupedAt(t, i)
  {
    DedupedTo(t, |t|)
  }

  function UndoneAt(l: Lesson): Lesson {
    if !l.active && l.meta.mergedInto.Some? then l.(active := true, meta := l.meta.(mergedInto := None)) else l
  }

  function Undone(t: Table): (r: Table)
    ensures |r| == |t| && forall i | 0 <= i < |t| :: r[i] == UndoneAt(t[i])
  {
    if t == [] then [] else Undone(t[..|t| - 1]) + [UndoneAt(t[|t| - 1])]
  }

  // ----- one active row for each lesson

  predicate OneEach(t: Table) { forall i, j | 0 <= i < j < |t| && t[i].active && t[j].active :: t[i].key != t[j].key }

  lemma RecordedKeepsOneEach(t: Table, id: nat, key: string, now: Time)
    requires OneEach(t)
    ensures OneEach(Recorded(t, id, key, now))
  {
  }

  lemma DedupedIsOneEach(t: Table)
    ensures OneEach(Deduped(t))
  {
    var r := Deduped(t);
    forall i, j | 0 <= i < j < |t| && r[i].active && r[j].active ensures r[i].key != r[j].key {
      var g := Group(t, t[i].key, |t|);
      GroupCounts(t, t[i].key, |t|);
      GroupCounts(t, t[j].key, |t|);
      if t[i].key == t[j].key {
        assert i in g && j in g;
        NotBothFirst(g, i, j);
      }
    }
  }

  lemma NotBothFirst(g: seq<nat>, i: nat, j: nat)
    requires i != j && i in g && j in g
    ensures |g| > 1 && !(g[0] == i && g[0] == j)
  {
    var a :| 0 <= a < |g| && g[a] == i;
    var b :| 0 <= b < |g| && g[b] == j;
  }

  // ----- sums

  function Sum(f: nat -> int, n: nat): int { if n == 0 then 0 else Sum(f, n - 1) + f(n - 1) }

  lemma {:induction false} SumPointwise(f: nat -> int, g: nat -> int, h: nat -> int, n: nat)
    requires forall i: nat | i < n :: h(i) == f(i) + g(i)
    ensures Sum(h, n) == Sum(f, n) + Sum(g, n)
  {
    if n > 0 {
      SumPointwise(f, g, h, n - 1);
    }
  }

  lemma {:induction false} SumOfNone(f: nat -> int, n: nat)
    requires forall i: nat | i < n :: f(i) >= 0
    ensures Sum(f, n) >= 0
    ensures Sum(f, n) == 0 <==> forall i: nat | i < n :: f(i) == 0
  {
    if n > 0 {
      SumOfNone(f, n - 1);
    }
  }

  // ----- every sighting counted

  function SeenAt(t: Table): nat -> int { (i: nat) => if i < |t| && t[i].active then Seen(t[i]) else 0 }

  /** What the active lessons say was seen, all in all. */
  function Total(t: Table): int { Sum(SeenAt(t), |t|) }

  predicate Positive(t: Table) { forall i | 0 <= i < |t| && t[i].active :: Seen(t[i]) >= 1 }

  lemma {:induction false} SumAgrees(f: nat -> int, g: nat -> int, n: nat)
    requires forall i: nat | i < n :: f(i) == g(i)
    ensures Sum(f, n) == Sum(g, n)
  {
    if n > 0 {
      SumAgrees(f, g, n - 1);
    }
  }

  lemma {:induction false} SumButOne(f: nat -> int, g: nat -> int, n: nat, at: nat, more: int)
    requires forall i: nat | i < n :: g(i) == f(i) + if i == at then more else 0
    ensures Sum(g, n) == Sum(f, n) + if at < n then more else 0
  {
    if n > 0 {
      SumButOne(f, g, n - 1, at, more);
    }
  }

  /** A sighting adds one, whatever the table looks like. */
  lemma RecordedCounts(t: Table, id: nat, key: string, now: Time)
    ensures Total(Recorded(t, id, key, now)) == Total(t) + 1
    ensures Positive(t) ==> Positive(Recorded(t, id, key, now))
  {
    var r, i := Recorded(t, id, key, now), FirstWith(t, key);
    if i < |t| {
      SumButOne(SeenAt(t), SeenAt(r), |t|, i, 1);
    } else {
      SumAgrees(SeenAt(t), SeenAt(r), |t|);
    }
  }

  datatype Sighting = Sighting(id: nat, key: string, now: Time)

  function AllRecorded(t: Table, sightings: seq<Sighting>): Table {
    if sightings == [] then t
    else
      var s := sightings[|sightings| - 1];
      Recorded(AllRecorded(t, sightings[..|sightings| - 1]), s.id, s.key, s.now)
  }

  /** After the migration and any number of sightings: one active row for each lesson, and the
      counts sum to what they were after the migration and one for each sighting since. */
  lemma {:induction false} EverySightingCounts(t: Table, sightings: seq<Sighting>)
    ensures OneEach(AllRecorded(Deduped(t), sightings))
    ensures Total(AllRecorded(Deduped(t), sightings)) == Total(Deduped(t)) + |sightings|
  {
    if sightings == [] {
      DedupedIsOneEach(t);
    } else {
      var front, s := sightings[..|sightings| - 1], sightings[|sightings| - 1];
      EverySightingCounts(t, front);
      RecordedKeepsOneEach(AllRecorded(Deduped(t), front), s.id, s.key, s.now);
      RecordedCounts(AllRecorded(Deduped(t), front), s.id, s.key, s.now);
    }
  }

  // ----- what the migration itself counts

  predicate IsFirst(t: Table, i: nat)
    requires i < |t|
  {
    t[i].active && FirstWith(t, t[i].key) == i
  }

  function Ones(t: Table): nat -> int { (i: nat) => if i < |t| && t[i].active then 1 else 0 }

  /** Each group's size, at its first row. */
  function Sizes(t: Table, n: nat): nat -> int
    requires n <= |t|
  {
    (i: nat) => if i < n && IsFirst(t, i) then |Group(t, t[i].key, n)| else 0
  }

  function FirstsOf(t: Table, key: string): nat -> int { (i: nat) => if i < |t| && IsFirst(t, i) && t[i].key == key then 1 else 0 }

  lemma {:induction false} OneFirst(t: Table, key: string, n: nat)
    requires n <= |t|
    ensures Sum(FirstsOf(t, key), n) == if FirstWith(t, key) < n then 1 else 0
  {
    if n > 0 {
      OneFirst(t, key, n - 1);
    }
  }

  /** The group sizes, each counted once, add up to the active rows. */
  lemma {:induction false} SizesAddUp(t: Table, n: nat)
    requires n <= |t|
    ensures Sum(Sizes(t, n), n) == Sum(Ones(t), n)
  {
    if n > 0 {
      SizesAddUp(t, n - 1);
      if t[n - 1].active {
        SizesWithOne(t, n - 1);
      } else {
        SumAgrees(Sizes(t, n), Sizes(t, n - 1), n - 1);
      }
    }
  }

  /** An active row makes its group one larger, at the group's first row. */
  lemma SizesWithOne(t: Table, last: nat)
    requires last < |t| && t[last].active
    ensures Sum(Sizes(t, last + 1), last + 1) == Sum(Sizes(t, last), last) + 1
  {
    var n, key := last + 1, t[last].key;
    OneFirst(t, key, n);
    SumPointwise(Sizes(t, last), FirstsOf(t, key), Sizes(t, n), last);
    if IsFirst(t, last) {
      EmptyBefore(t, key, last);
    }
  }

  lemma {:induction false} EmptyBefore(t: Table, key: string, n: nat)
    requires n <= FirstWith(t, key)
    ensures Group(t, key, n) == []
  {
    if n > 0 {
      EmptyBefore(t, key, n - 1);
    }
  }

  lemma FirstOfGroup(t: Table, i: nat)
    requires i < |t| && t[i].active
    ensures var g := Group(t, t[i].key, |t|);
      g != [] && (g[0] == i <==> IsFirst(t, i)) && (|g| == 1 ==> IsFirst(t, i))
  {
    var g, first := Group(t, t[i].key, |t|), FirstWith(t, t[i].key);
    GroupCounts(t, t[i].key, |t|);
    assert i in g && first in g && g[0] in g;
    assert Is(t[g[0]], t[i].key);
    var k :| 0 <= k < |g| && g[k] == first;
    var m :| 0 <= m < |g| && g[m] == i;
  }

  /** How much more than once the members of duplicate groups had been seen. */
  function Excess(t: Table): nat -> int {
    (i: nat) => if i < |t| && t[i].active && |Group(t, t[i].key, |t|)| > 1 then Seen(t[i]) - 1 else 0
  }

  /** The migration counts the rows of a group, not what they had counted: it loses exactly the
      recurrences that were on record within the groups it collapses. */
  lemma DedupedLoses(t: Table)
    ensures Total(Deduped(t)) == Total(t) - Sum(Excess(t), |t|)
  {
    var r, n := Deduped(t), |t|;
    SizesAddUp(t, n);
    forall i: nat | i < n ensures SeenAt(t)(i) + Sizes(t, n)(i) == SeenAt(r)(i) + Ones(t)(i) + Excess(t)(i) {
      LostAt(t, i);
    }
    SumBalances(SeenAt(t), Sizes(t, n), SeenAt(r), Ones(t), Excess(t), n);
  }

  lemma LostAt(t: Table, i: nat)
    requires i < |t|
    ensures SeenAt(t)(i) + Sizes(t, |t|)(i) == SeenAt(Deduped(t))(i) + Ones(t)(i) + Excess(t)(i)
  {
    assert Deduped(t)[i] == DedupedAt(t, i);
    if t[i].active {
      FirstOfGroup(t, i);
      TimesLength(t, Group(t, t[i].key, |t|));
    }
  }

  lemma {:induction false} SumBalances(a: nat -> int, b: nat -> int, c: nat -> int, d: nat -> int, e: nat -> int, n: nat)
    requires forall i: nat | i < n :: a(i) + b(i) == c(i) + d(i) + e(i)
    ensures Sum(a, n) + Sum(b, n) == Sum(c, n) + Sum(d, n) + Sum(e, n)
  {
    if n > 0 {
      SumBalances(a, b, c, d, e, n - 1);
    }
  }

  /** So the total survives if and only if every row of a duplicate group had been seen once. */
  lemma DedupedKeepsTotal(t: Table)
    requires Positive(t)
    ensures Total(Deduped(t)) <= Total(t)
    ensures Total(Deduped(t)) == Total(t) <==>
      forall i | 0 <= i < |t| && t[i].active && |Group(t, t[i].key, |t|)| > 1 :: Seen(t[i]) == 1
  {
    DedupedLoses(t);
    SumOfNone(Excess(t), |t|);
    if Sum(Excess(t), |t|) == 0 {
      forall i | 0 <= i < |t| && t[i].active && |Group(t, t[i].key, |t|)| > 1 ensures Seen(t[i]) == 1 {
        assert Excess(t)(i) == 0;
      }
    }
  }

  /** Two copies of one lesson, and the lesson seen again before they are collapsed - which
      counts on the first copy: three sightings, of which two are left. */
  lemma RecurredThenMigrated(key: string)
    ensures var twice := [NewLesson(1, key, 0), NewLesson(2, key, 0)];
      var again := Recorded(twice, 3, key, 0);
      Total(again) == 3 && Total(Deduped(again)) == 2
  {
    var twice := [NewLesson(1, key, 0), NewLesson(2, key, 0)];
    RecordedCounts(twice, 3, key, 0);
    assert Sum(SeenAt(twice), 2) == Sum(SeenAt(twice), 1) + 1;
    assert Sum(SeenAt(twice), 1) == Sum(SeenAt(twice), 0) + 1;
    var again := Recorded(twice, 3, key, 0);
    assert FirstWith(twice, key) == 0;
    assert again[0].active && again[1].active && again[0].key == key && again[1].key == key;
    GroupCounts(again, key, 2);
    assert 0 in Group(again, key, 2) && 1 in Group(again, key, 2);
    NotBothFirst(Group(again, key, 2), 0, 1);
    DedupedLoses(again);
    assert Seen(again[0]) == 2 && Seen(again[1]) == 1;
    assert Excess(again)(0) == 1 && Excess(again)(1) == 0;
    assert Sum(Excess(again), 2) == Sum(Excess(again), 1) + 0;
    assert Sum(Excess(again), 1) == Sum(Excess(again), 0) + 1;
  }

  // ----- and back again

  predicate UnmergedIfActive(t: Table) { forall i | 0 <= i < |t| && t[i].active :: t[i].meta.mergedInto.None? }

  predicate Unmerged(t: Table) { forall i | 0 <= i < |t| :: t[i].meta.mergedInto.None? }

  predicate SameButCounts(l: Lesson, original: Lesson) {
    l == original.(meta := original.meta.(seen := l.meta.seen, lastSeen := l.meta.lastSeen, burstStart := l.meta.burstStart,
                                          burst := l.meta.burst, deduped := l.meta.deduped))
  }

  function SightingsOf(sightings: seq<Sighting>, key: string): nat {
    if sightings == [] then 0
    else SightingsOf(sightings[..|sightings| - 1], key) + if sightings[|sightings| - 1].key == key then 1 else 0
  }

  /** Sightings change the counts of active rows, each of its own lesson's, and add active rows. */
  lemma {:induction false} SightingsGoWhereTheyBelong(t: Table, sightings: seq<Sighting>)
    requires OneEach(t)
    ensures var r := AllRecorded(t, sightings);
      && OneEach(r) && |t| <= |r|
      && (forall i | 0 <= i < |t| :: if t[i].active then
            SameButCounts(r[i], t[i]) && Seen(r[i]) == Seen(t[i]) + SightingsOf(sightings, t[i].key) else r[i] == t[i])
      && (forall i | |t| <= i < |r| :: r[i].active && r[i].meta.mergedInto.None?)
  {
    if sightings != [] {
      var front, s := sightings[..|sightings| - 1], sightings[|sightings| - 1];
      SightingsGoWhereTheyBelong(t, front);
      OneSighting(AllRecorded(t, front), s);
    }
  }

  lemma OneSighting(t: Table, s: Sighting)
    requires OneEach(t)
    ensures var r := Recorded(t, s.id, s.key, s.now);
      && OneEach(r) && |t| <= |r|
      && (forall i | 0 <= i < |t| :: if t[i].active then
            SameButCounts(r[i], t[i]) && Seen(r[i]) == Seen(t[i]) + (if t[i].key == s.key then 1 else 0) else r[i] == t[i])
      && (forall i | |t| <= i < |r| :: r[i].active && r[i].meta.mergedInto.None?)
  {
    RecordedKeepsOneEach(t, s.id, s.key, s.now);
    var first := FirstWith(t, s.key);
    forall i | 0 <= i < |t| && Is(t[i], s.key) ensures i == first {
      assert first <= i;
    }
  }

  predicate SetAside(t: Table, i: nat)
    requires i < |t|
  {
    t[i].active && !DedupedAt(t, i).active
  }

  function Migrated(t: Table, sightings: seq<Sighting>): Table { AllRecorded(Deduped(t), sightings) }

  /** Undone, a row the migration retired is as it was to the last field, and one it kept differs
      in its counts only: the group's size, and the sightings since. */
  predicate Restored(t: Table, sightings: seq<Sighting>, i: nat)
    requires i < |t| <= |Migrated(t, sightings)|
  {
    var r, back := Migrated(t, sightings), Undone(Migrated(t, sightings));
    if !t[i].active && t[i].meta.mergedInto.Some? then back[i].active
    else if !t[i].active || SetAside(t, i) then back[i] == t[i]
    else
      && back[i] == r[i] && SameButCounts(back[i], t[i])
      && Seen(back[i]) == Seen(Deduped(t)[i]) + SightingsOf(sightings, t[i].key)
  }

  lemma RowRestored(t: Table, sightings: seq<Sighting>, i: nat)
    requires UnmergedIfActive(t) && i < |t|
    ensures |t| <= |Migrated(t, sightings)| && Restored(t, sightings, i)
  {
    var m, r := Deduped(t), Migrated(t, sightings);
    DedupedIsOneEach(t);
    SightingsGoWhereTheyBelong(m, sightings);
    assert m[i] == DedupedAt(t, i) && Undone(r)[i] == UndoneAt(r[i]);
  }

  /** Undoing the migration, after any sightings: every row of before is restored and the lessons
      written since stay. */
  lemma UndoRestores(t: Table, sightings: seq<Sighting>)
    requires UnmergedIfActive(t)
    ensures |t| <= |Migrated(t, sightings)|
    ensures forall i | 0 <= i < |t| :: Restored(t, sightings, i)
    ensures forall i | |t| <= i < |Migrated(t, sightings)| :: Stays(t, sightings, i)
  {
    NoFewer(t, sightings);
    forall i | 0 <= i < |t| ensures Restored(t, sightings, i) {
      RowRestored(t, sightings, i);
    }
    forall i | |t| <= i < |Migrated(t, sightings)| ensures Stays(t, sightings, i) {
      WrittenSince(t, sightings, i);
    }
  }

  predicate Stays(t: Table, sightings: seq<Sighting>, i: nat)
    requires i < |Migrated(t, sightings)|
  {
    Undone(Migrated(t, sightings))[i] == Migrated(t, sightings)[i] && Migrated(t, sightings)[i].active
  }

  /** The active lessons among the original rows are again the original ones if and only if no
      earlier migration had retired any. */
  lemma UndoRestoresActives(t: Table, sightings: seq<Sighting>)
    requires UnmergedIfActive(t)
    ensures |t| <= |Migrated(t, sightings)|
    ensures (forall i | 0 <= i < |t| :: Undone(Migrated(t, sightings))[i].active == t[i].active) <==> Unmerged(t)
  {
    UndoRestores(t, sightings);
    forall i | 0 <= i < |t|
      ensures Undone(Migrated(t, sightings))[i].active == (t[i].active || t[i].meta.mergedInto.Some?)
    {
      assert Restored(t, sightings, i);
    }
  }

  lemma WrittenSince(t: Table, sightings: seq<Sighting>, i: nat)
    requires |t| <= i < |Migrated(t, sightings)|
    ensures Stays(t, sightings, i)
  {
    DedupedIsOneEach(t);
    SightingsGoWhereTheyBelong(Deduped(t), sightings);
    assert Undone(Migrated(t, sightings))[i] == UndoneAt(Migrated(t, sightings)[i]);
  }

  /** With it the duplicates are back, if there were any: sightings since do not hide one. */
  lemma UndoRestoresDuplicates(t: Table, sightings: seq<Sighting>)
    requires Unmerged(t)
    ensures OneEach(Undone(Migrated(t, sightings))) <==> OneEach(t)
  {
    UndoRestores(t, sightings);
    var r, back := Migrated(t, sightings), Undone(Migrated(t, sightings));
    if OneEach(back) {
      forall i, j | 0 <= i < j < |t| && t[i].active && t[j].active ensures t[i].key != t[j].key {
        assert Restored(t, sightings, i) && Restored(t, sightings, j);
        assert back[i].active && back[j].active && back[i].key == t[i].key && back[j].key == t[j].key;
      }
    }
    if OneEach(t) {
      forall i | 0 <= i < |t| ensures !SetAside(t, i) {
        NoneSetAside(t, i);
      }
      EverySightingCounts(t, sightings);
      forall i | 0 <= i < |back| && back[i].active ensures back[i] == r[i] {
        assert if i < |t| then Restored(t, sightings, i) else Stays(t, sightings, i);
      }
    }
  }

  lemma NoneSetAside(t: Table, i: nat)
    requires OneEach(t) && i < |t|
    ensures !SetAside(t, i)
  {
    var g := Group(t, t[i].key, |t|);
    GroupCounts(t, t[i].key, |t|);
    if |g| > 1 {
      assert g[0] in g && g[1] in g && Is(t[g[0]], t[i].key) && Is(t[g[1]], t[i].key);
    }
  }

  /** The count a kept row has gained: its group's size for what it had counted itself. */
  function Gain(t: Table): nat -> int {
    (i: nat) => if i < |t| && IsFirst(t, i) && |Group(t, t[i].key, |t|)| > 1 then |Group(t, t[i].key, |t|)| - Seen(t[i]) else 0
  }

  function Aside(t: Table): nat -> int { (i: nat) => if i < |t| && SetAside(t, i) then Seen(t[i]) else 0 }

  /** But the kept rows keep counting their groups, so the members are counted twice: the total
      is the former one, and one for each sighting, and what the kept rows gained. */
  lemma UndoCountsTwice(t: Table, sightings: seq<Sighting>)
    requires Unmerged(t)
    ensures Total(Undone(Migrated(t, sightings))) == Total(t) + |sightings| + Sum(Gain(t), |t|)
  {
    EverySightingCounts(t, sightings);
    UndoneTotal(t, sightings);
    GainedTotal(t);
  }

  lemma UndoneTotal(t: Table, sightings: seq<Sighting>)
    requires Unmerged(t)
    ensures Total(Undone(Migrated(t, sightings))) == Total(Migrated(t, sightings)) + Sum(Aside(t), |t|)
  {
    var r, back := Migrated(t, sightings), Undone(Migrated(t, sightings));
    NoFewer(t, sightings);
    forall i: nat | i < |r| ensures SeenAt(back)(i) == SeenAt(r)(i) + Aside(t)(i) {
      BackAt(t, sightings, i);
    }
    SumPointwise(SeenAt(r), Aside(t), SeenAt(back), |r|);
    SumStops(Aside(t), |t|, |r|);
  }

  lemma NoFewer(t: Table, sightings: seq<Sighting>)
    ensures |t| <= |Migrated(t, sightings)|
  {
    DedupedIsOneEach(t);
    SightingsGoWhereTheyBelong(Deduped(t), sightings);
  }

  lemma GainedTotal(t: Table)
    ensures Total(Deduped(t)) + Sum(Aside(t), |t|) == Total(t) + Sum(Gain(t), |t|)
  {
    forall i: nat | i < |t| ensures SeenAt(Deduped(t))(i) + Aside(t)(i) == SeenAt(t)(i) + Gain(t)(i) {
      GainedAt(t, i);
    }
    SumExchanges(SeenAt(Deduped(t)), Aside(t), SeenAt(t), Gain(t), |t|);
  }

  lemma {:induction false} SumExchanges(a: nat -> int, b: nat -> int, c: nat -> int, d: nat -> int, n: nat)
    requires forall i: nat | i < n :: a(i) + b(i) == c(i) + d(i)
    ensures Sum(a, n) + Sum(b, n) == Sum(c, n) + Sum(d, n)
  {
    if n > 0 {
      SumExchanges(a, b, c, d, n - 1);
    }
  }

  lemma BackAt(t: Table, sightings: seq<Sighting>, i: nat)
    requires Unmerged(t) && i < |Migrated(t, sightings)|
    ensures SeenAt(Undone(Migrated(t, sightings)))(i) == SeenAt(Migrated(t, sightings))(i) + Aside(t)(i)
  {
    var m, r, back := Deduped(t), Migrated(t, sightings), Undone(Migrated(t, sightings));
    DedupedIsOneEach(t);
    SightingsGoWhereTheyBelong(m, sightings);
    assert back[i] == UndoneAt(r[i]);
    assert i < |t| ==> m[i] == DedupedAt(t, i);
  }

  lemma GainedAt(t: Table, i: nat)
    requires i < |t|
    ensures SeenAt(Deduped(t))(i) + Aside(t)(i) == SeenAt(t)(i) + Gain(t)(i)
  {
    assert Deduped(t)[i] == DedupedAt(t, i);
    if t[i].active {
      FirstOfGroup(t, i);
      TimesLength(t, Group(t, t[i].key, |t|));
    }
  }

  lemma {:induction false} SumStops(f: nat -> int, n: nat, m: nat)
    requires n <= m && forall i: nat | n <= i < m :: f(i) == 0
    ensures Sum(f, m) == Sum(f, n)
  {
    if n < m {
      SumStops(f, n, m - 1);
    }
  }

  /** Two copies of one lesson, collapsed and put back: two sightings, counted three times. */
  lemma UndoneCountsThree(key: string)
    ensures var twice := [NewLesson(1, key, 0), NewLesson(2, key, 0)];
      Total(twice) == 2 && Total(Undone(Migrated(twice, []))) == 3
  {
    var twice := [NewLesson(1, key, 0), NewLesson(2, key, 0)];
    assert Sum(SeenAt(twice), 2) == Sum(SeenAt(twice), 1) + 1;
    assert Sum(SeenAt(twice), 1) == Sum(SeenAt(twice), 0) + 1;
    var g := Group(twice, key, 2);
    assert Group(twice, key, 1) == [] + [0] && g == [0] + [1];
    assert FirstWith(twice[..1], key) == 0;
    assert FirstWith(twice, key) == 0;
    assert Gain(twice)(0) == 1 && Gain(twice)(1) == 0;
    assert Sum(Gain(twice), 2) == Sum(Gain(twice), 1) + 0;
    assert Sum(Gain(twice), 1) == Sum(Gain(twice), 0) + 1;
    UndoCountsTwice(twice, []);
  }

  // ----- whole runs: openings, sightings and undos in any order

  /** The table and `PRAGMA user_version`. */
  datatype Store = Store(rows: Table, version: nat)

  /** An opening may fail in its migration, which leaves the store as it was. */
  datatype Step = Open(fails: bool) | Sight(sighting: Sighting) | UndoDedupe

  function Next(store: Store, step: Step): Store {
    match step
    case Open(fails) => if store.version < 1 && !fails then Store(Deduped(store.rows), 1) else store
    case Sight(s) => store.(rows := Recorded(store.rows, s.id, s.key, s.now))
    case UndoDedupe => store.(rows := Undone(store.rows))
  }

  function Run(store: Store, steps: seq<Step>): Store {
    if steps == [] then store else Next(Run(store, steps[..|steps| - 1]), steps[|steps| - 1])
  }

  predicate Live(l: Lesson) { l.active || l.meta.mergedInto.Some? }

  /** No row has gone, been renamed or been retired for good since `t`, and before the one
      migration none is merged. */
  predicate Kept(store: Store, t: Table) {
    && |t| <= |store.rows| && UnmergedIfActive(store.rows) && (store.version < 1 ==> Unmerged(store.rows))
    && (forall i | 0 <= i < |t| ::
          && store.rows[i].id == t[i].id && store.rows[i].key == t[i].key && store.rows[i].ts == t[i].ts
          && Live(store.rows[i]) == t[i].active && (!t[i].active ==> store.rows[i] == t[i]))
    && (forall i | |t| <= i < |store.rows| :: Live(store.rows[i]))
  }

  lemma DedupedKeeps(store: Store, t: Table)
    requires Kept(store, t) && store.version < 1
    ensures Kept(Store(Deduped(store.rows), 1), t)
  {
    forall i | 0 <= i < |store.rows| ensures Deduped(store.rows)[i] == DedupedAt(store.rows, i) {
    }
  }

  lemma NextKeeps(store: Store, step: Step, t: Table)
    requires Kept(store, t)
    ensures Kept(Next(store, step), t)
  {
    match step
    case Open(fails) =>
      if store.version < 1 && !fails {
        DedupedKeeps(store, t);
      }
    case Sight(s) =>
    case UndoDedupe =>
      forall i | 0 <= i < |store.rows| ensures Undone(store.rows)[i] == UndoneAt(store.rows[i]) {
      }
  }

  /** In every run from a store that was never migrated, the migration finds nothing merged -
      so `UndoRestores` holds of it with nothing left over - and an undo at any time makes
      active exactly the lessons that were active at first and all those written since. */
  lemma {:induction false} NoLessonIsLost(t: Table, steps: seq<Step>)
    requires Unmerged(t)
    ensures var now := Run(Store(t, 0), steps);
      && Kept(now, t)
      && (forall i | 0 <= i < |t| :: Undone(now.rows)[i].active == t[i].active)
      && (forall i | |t| <= i < |now.rows| :: Undone(now.rows)[i].active)
  {
    if steps != [] {
      NoLessonIsLost(t, steps[..|steps| - 1]);
      NextKeeps(Run(Store(t, 0), steps[..|steps| - 1]), steps[|steps| - 1], t);
    }
    var now := Run(Store(t, 0), steps);
    forall i | 0 <= i < |now.rows| ensures Undone(now.rows)[i].active == Live(now.rows[i]) {
    }
  }

  // ----- the table, changed in place

  class LessonBook {
    var rows: Table

    constructor (rows: Table)
      ensures this.rows == rows
    {
      this.rows := rows;
    }

    method Record(id: nat, key: string, now: Time) returns (lesson: nat)
      modifies this
      ensures rows == Recorded(old(rows), id, key, now)
      ensures FirstWith(rows, key) < |rows| && lesson == rows[FirstWith(rows, key)].id && |old(rows)| <= |rows| && (forall i | 0 <= i < |old(rows)| :: rows[i].id == old(rows)[i].id)
    {
      var i := 0;
      while i < |rows|
        invariant i <= |rows| && forall j | 0 <= j < i :: !Is(rows[j], key)
        invariant rows == old(rows)
      {
        if rows[i].active && rows[i].key == key {
          Recur(i, now);
          FirstStays(old(rows), i, key, now);
          return rows[i].id;
        }
        i := i + 1;
      }
      rows := rows + [Lesson(id, now, key, true, Meta(Some(1), Some(now), Some(now), Some(0), None, None))];
      FirstAdded(old(rows), id, key, now);
      return id;
    }

    method Recur(i: nat, now: Time)
      requires i < |rows|
      modifies this
      ensures rows == old(rows)[i := Recurred(old(rows)[i], now)]
    {
      var m := rows[i].meta;
      m := m.(seen := Some(OrElse(m.seen, 1) + 1), lastSeen := Some(now));
      if now - OrElse(m.burstStart, 0) > BURST {
        m := m.(burstStart := Some(now), burst := Some(1));
      } else {
        m := m.(burst := Some(OrElse(m.burst, 0) + 1));
      }
      rows := rows[i := rows[i].(meta := m)];
    }

    /** The active rows by key, in id order. */
    method Groups() returns (groups: map<string, seq<nat>>)
      ensures Collected(groups, rows, |rows|)
    {
      var t := rows;
      groups := map[];
      NoneCollected(t);
      for i := 0 to |t|
        invariant Collected(groups, t, i)
      {
        if t[i].active {
          CollectsOne(groups, t, i);
          groups := WithOne(groups, t[i].key, i);
        } else {
          CollectsNone(groups, t, i);
        }
      }
    }

    /** Returns how many it retired. */
    method Dedupe() returns (retired: nat)
      modifies this
      ensures rows == Deduped(old(rows))
      ensures Actives(rows) + retired == Actives(old(rows))
    {
      retired := 0;
      ghost var before := rows;
      var groups := Groups();
      var left := groups.Keys;
      AllLeft(before, groups);
      while left != {}
        invariant left <= groups.Keys && |rows| == |before|
        invariant forall i | 0 <= i < |before| :: rows[i] == Halfway(before, left, [], i)
        invariant Actives(rows) + retired == Actives(before)
        decreases |left|
      {
        var key :| key in left;
        left := left - {key};
        var fewer := CollapseOne(before, key, groups[key], left);
        retired := retired + fewer;
      }
    }

    method CollapseOne(ghost before: Table, key: string, g: seq<nat>, ghost left: set<string>) returns (retired: nat)
      requires g == Group(before, key, |before|) && g != [] && key !in left && |rows| == |before|
      requires forall i | 0 <= i < |before| :: rows[i] == Halfway(before, left + {key}, [], i)
      modifies this
      ensures |rows| == |before|
      ensures forall i | 0 <= i < |before| :: rows[i] == Halfway(before, left, [], i)
      ensures Actives(rows) + retired == Actives(old(rows))
    {
      retired := 0;
      OneGroup(before, key, g, left);
      if |g| <= 1 {
        return;
      }
      GroupsRows(before, rows, key, g, left);
      var times := Times(rows, g);
      var keep := g[0];
      NextRow(before, key, g, left, 0);
      ActivesAt(rows, keep, Merged(rows[keep], times));
      rows := rows[keep := Merged(rows[keep], times)];
      for k := 1 to |g|
        invariant |rows| == |before| && rows[keep].id == before[keep].id
        invariant forall i | 0 <= i < |before| :: rows[i] == Halfway(before, left, g[k..], i)
        invariant Actives(rows) + retired == Actives(old(rows))
      {
        NextRow(before, key, g, left, k);
        Retire(g[k], rows[keep].id);
        retired := retired + 1;
      }
      assert g[|g|..] == [];
    }

    method Retire(i: nat, keep: nat)
      requires i < |rows| && rows[i].active
      modifies this
      ensures rows == old(rows)[i := RetiredInto(old(rows)[i], keep)] && Actives(rows) == Actives(old(rows)) - 1
    {
      ActivesAt(rows, i, RetiredInto(rows[i], keep));
      rows := rows[i := RetiredInto(rows[i], keep)];
    }

    method Undo() returns (back: nat)
      modifies this
      ensures rows == Undone(old(rows))
      ensures Actives(rows) == Actives(old(rows)) + back
    {
      ghost var before := rows;
      back := 0;
      for i := 0 to |rows|
        invariant |rows| == |before| && forall j | 0 <= j < |before| :: rows[j] == if j < i then UndoneAt(before[j]) else before[j]
        invariant Actives(rows) == Actives(before) + back
      {
        if !rows[i].active && rows[i].meta.mergedInto.Some? {
          ActivesAt(rows, i, UndoneAt(rows[i]));
          rows := rows[i := rows[i].(active := true, meta := rows[i].meta.(mergedInto := None))];
          back := back + 1;
        }
      }
    }
  }

  function Actives(t: Table): int { Sum(Ones(t), |t|) }

  lemma ActivesAt(t: Table, i: nat, l: Lesson)
    requires i < |t|
    ensures Actives(t[i := l]) == Actives(t) + (if l.active then 1 else 0) - if t[i].active then 1 else 0
  {
    SumButOne(Ones(t), Ones(t[i := l]), |t|, i, (if l.active then 1 else 0) - if t[i].active then 1 else 0);
  }

  lemma FirstStays(t: Table, i: nat, key: string, now: Time)
    requires i < |t| && FirstWith(t, key) == i
    ensures FirstWith(t[i := Recurred(t[i], now)], key) == i
  {
    var r := t[i := Recurred(t[i], now)];
    assert Is(r[i], key);
    assert !(i < FirstWith(r, key)) && !(FirstWith(r, key) < i);
  }

  lemma FirstAdded(t: Table, id: nat, key: string, now: Time)
    requires FirstWith(t, key) == |t|
    ensures FirstWith(t + [NewLesson(id, key, now)], key) == |t|
  {
    var r := t + [NewLesson(id, key, now)];
    assert Is(r[|t|], key);
    assert FirstWith(r, key) <= |t|;
  }

  function GroupIn(groups: map<string, seq<nat>>, key: string): seq<nat> { if key in groups then groups[key] else [] }

  ghost predicate Collected(groups: map<string, seq<nat>>, t: Table, n: nat)
    requires n <= |t|
  {
    && (forall key :: GroupIn(groups, key) == Group(t, key, n))
    && (forall key | key in groups :: groups[key] != [])
  }

  function WithOne(groups: map<string, seq<nat>>, key: string, i: nat): map<string, seq<nat>> {
    groups[key := GroupIn(groups, key) + [i]]
  }

  lemma NoneCollected(t: Table)
    ensures Collected(map[], t, 0)
  {
  }

  lemma CollectsOne(groups: map<string, seq<nat>>, t: Table, n: nat)
    requires n < |t| && Collected(groups, t, n) && t[n].active
    ensures Collected(WithOne(groups, t[n].key, n), t, n + 1)
  {
    var next := WithOne(groups, t[n].key, n);
    forall key ensures GroupIn(next, key) == Group(t, key, n + 1) {
      assert GroupIn(groups, key) == Group(t, key, n);
    }
  }

  lemma CollectsNone(groups: map<string, seq<nat>>, t: Table, n: nat)
    requires n < |t| && Collected(groups, t, n) && !t[n].active
    ensures Collected(groups, t, n + 1)
  {
    forall key ensures GroupIn(groups, key) == Group(t, key, n + 1) {
      assert GroupIn(groups, key) == Group(t, key, n);
    }
  }

  /** The rows while groups are being collapsed: those whose key is left, and those of `rest`,
      are as they were. */
  function Halfway(before: Table, left: set<string>, rest: seq<nat>, i: nat): Lesson
    requires i < |before|
  {
    if (before[i].active && before[i].key in left) || i in rest then before[i] else DedupedAt(before, i)
  }

  lemma AllLeft(before: Table, groups: map<string, seq<nat>>)
    requires Collected(groups, before, |before|)
    ensures forall i | 0 <= i < |before| :: before[i] == Halfway(before, groups.Keys, [], i)
  {
    forall i | 0 <= i < |before| && before[i].active ensures before[i].key in groups {
      GroupCounts(before, before[i].key, |before|);
      assert GroupIn(groups, before[i].key) == Group(before, before[i].key, |before|);
      assert i in Group(before, before[i].key, |before|);
    }
  }

  lemma OneGroup(before: Table, key: string, g: seq<nat>, left: set<string>)
    requires g == Group(before, key, |before|)
    ensures forall i | 0 <= i < |before| :: Halfway(before, left + {key}, [], i) == Halfway(before, left, g, i)
    ensures |g| == 1 ==> forall i | 0 <= i < |before| :: Halfway(before, left, g, i) == Halfway(before, left, [], i)
  {
    GroupCounts(before, key, |before|);
  }

  lemma GroupsRows(before: Table, rows: Table, key: string, g: seq<nat>, left: set<string>)
    requires g == Group(before, key, |before|) && |rows| == |before|
    requires forall i | 0 <= i < |before| :: rows[i] == Halfway(before, left, g, i)
    ensures Times(rows, g) == Times(before, g) && |Times(before, g)| == |g|
  {
    TimesLength(before, g);
    TimesAgree(before, rows, g);
  }

  /** Doing what the migration does to the next row of the group. */
  lemma NextRow(before: Table, key: string, g: seq<nat>, left: set<string>, k: nat)
    requires g == Group(before, key, |before|) && k < |g| && |g| > 1 && key !in left
    ensures forall i | 0 <= i < |before| ::
      Halfway(before, left, g[k + 1..], i) == if i == g[k] then DedupedAt(before, i) else Halfway(before, left, g[k..], i)
    ensures Halfway(before, left, g[k..], g[k]) == before[g[k]]
    ensures DedupedAt(before, g[0]) == Merged(before[g[0]], Times(before, g))
    ensures k > 0 ==> DedupedAt(before, g[k]) == RetiredInto(before[g[k]], before[g[0]].id) && g[k] != g[0]
    ensures before[g[k]].active
  {
    GroupCounts(before, key, |before|);
    GroupDedupes(before, key, g, k);
    Later(g, k);
    assert g[k] in g;
    forall i | 0 <= i < |before|
      ensures Halfway(before, left, g[k + 1..], i) == if i == g[k] then DedupedAt(before, i) else Halfway(before, left, g[k..], i)
    {
      if i != g[k] {
        SameHalfway(before, left, g[k..], g[k + 1..], i);
      }
    }
  }

  lemma SameHalfway(before: Table, left: set<string>, rest: seq<nat>, more: seq<nat>, i: nat)
    requires i < |before| && (i in rest <==> i in more)
    ensures Halfway(before, left, rest, i) == Halfway(before, left, more, i)
  {
  }

  /** What the migration leaves of the group's rows. */
  lemma GroupDedupes(before: Table, key: string, g: seq<nat>, k: nat)
    requires g == Group(before, key, |before|) && k < |g| && |g| > 1
    ensures before[g[k]].active && before[g[k]].key == key
    ensures DedupedAt(before, g[0]) == Merged(before[g[0]], Times(before, g))
    ensures k > 0 ==> DedupedAt(before, g[k]) == RetiredInto(before[g[k]], before[g[0]].id) && g[k] != g[0]
  {
    GroupCounts(before, key, |before|);
    TimesLength(before, g);
    assert g[k] in g && g[0] in g;
  }

  lemma {:induction false} TimesAgree(t: Table, u: Table, g: seq<nat>)
    requires |t| == |u| && forall k | 0 <= k < |g| :: g[k] < |t| && t[g[k]] == u[g[k]]
    ensures Times(t, g) == Times(u, g)
  {
    if g != [] {
      TimesAgree(t, u, g[..|g| - 1]);
    }
  }

  lemma Later(g: seq<nat>, k: nat)
    requires k < |g| && forall a, b | 0 <= a < b < |g| :: g[a] < g[b]
    ensures g[k] in g[k..] && g[k] !in g[k + 1..] && (forall i | i in g[k..] :: i == g[k] || i in g[k + 1..])
    ensures k > 0 ==> g[0] !in g[k..]
    ensures forall i | i in g[k + 1..] :: i in g[k..]
  {
    assert g[k..] == [g[k]] + g[k + 1..];
  }
}
