/** What the counts of Lessons.dfy come to, in terms of the sightings themselves and of the copies
    that were collapsed. */
module LessonMeaning {
  import opened Wrappers
  import opened Lessons

  // ----- sightings

  predicate Has(l: Lesson, key: string) { l.active && l.key == key }

  /** A lesson that no active row has is written, as seen once and at the start of an empty
      burst. */
  lemma NewLessonMeans(t: Table, id: nat, key: string, now: Time)
    requires forall k | 0 <= k < |t| :: !Has(t[k], key)
    ensures Recorded(t, id, key, now) ==
      t + [Lesson(id, now, key, true, Meta(Some(1), Some(now), Some(now), Some(0), None, None))]
  {
    var i := FirstWith(t, key);
    assert i < |t| ==> Has(t[i], key);
  }

  /** Any other is counted on the first row that has it, and nothing else changes. */
  lemma SightingMeans(t: Table, i: nat, id: nat, key: string, now: Time)
    requires i < |t| && Has(t[i], key) && forall k | 0 <= k < i :: !Has(t[k], key)
    ensures var r := Recorded(t, id, key, now);
      |r| == |t| && r == t[i := r[i]] && r[i] == t[i].(meta := r[i].meta) && CountsOneMore(t[i].meta, r[i].meta, now)
  {
    var first := FirstWith(t, key);
    assert Is(t[i], key) && !(i < first);
    forall k | 0 <= k < i ensures !Is(t[k], key) {
      assert !Has(t[k], key);
    }
  }

  /** One more sighting; it belongs to the burst that is on, if that began no more than a day
      ago, and begins one otherwise. */
  predicate CountsOneMore(was: Meta, is_: Meta, now: Time) {
    && is_.seen == Some(1 + if was.seen.Some? then was.seen.value else 1)
    && is_.lastSeen == Some(now) && is_.deduped == was.deduped && is_.mergedInto == was.mergedInto
    && var began := if was.burstStart.Some? then was.burstStart.value else 0;
       if now <= began + 86_400
       then is_.burstStart == was.burstStart && is_.burst == Some(1 + if was.burst.Some? then was.burst.value else 0)
       else is_.burstStart == Some(now) && is_.burst == Some(1)
  }

  /** The times at which a lesson was sighted. */
  function SightedAt(sightings: seq<Sighting>, key: string): seq<Time> {
    if sightings == [] then []
    else
      var last := sightings[|sightings| - 1];
      SightedAt(sightings[..|sightings| - 1], key) + if last.key == key then [last.now] else []
  }

  /** The burst began at the sighting `b`: since then none was more than a day later, and the
      one that begins a burst after another was. */
  predicate BurstFrom(times: seq<Time>, b: nat) {
    && b < |times| && (forall k | b < k < |times| :: times[k] <= times[b] + 86_400)
    && (b > 0 ==> exists a :: 0 <= a < b && EndsBurst(times, a, b))
  }

  predicate EndsBurst(times: seq<Time>, a: nat, b: nat)
    requires a < b < |times|
  {
    times[b] > times[a] + 86_400 && forall k | a < k < b :: times[k] <= times[a] + 86_400
  }

  /** What a lesson's row tells of its sightings. The first of all is not counted in its burst. */
  predicate Tells(l: Lesson, times: seq<Time>) {
    && times != [] && l.ts == times[0]
    && l.meta.seen == Some(|times|) && l.meta.lastSeen == Some(times[|times| - 1])
    && l.meta.deduped.None? && l.meta.mergedInto.None?
    && exists b :: 0 <= b < |times| && BurstFrom(times, b)
         && l.meta.burstStart == Some(times[b]) && l.meta.burst == Some(|times| - b - if b == 0 then 1 else 0)
  }

  lemma BurstGoesOn(times: seq<Time>, b: nat, now: Time)
    requires BurstFrom(times, b) && now <= times[b] + 86_400
    ensures BurstFrom(times + [now], b)
  {
    if b > 0 {
      var a :| 0 <= a < b && EndsBurst(times, a, b);
      assert EndsBurst(times + [now], a, b);
    }
  }

  lemma BurstBegins(times: seq<Time>, b: nat, now: Time)
    requires BurstFrom(times, b) && now > times[b] + 86_400
    ensures BurstFrom(times + [now], |times|)
  {
    assert EndsBurst(times + [now], b, |times|);
  }

  lemma TellsOneMore(l: Lesson, after: Lesson, times: seq<Time>, now: Time)
    requires Tells(l, times) && CountsOneMore(l.meta, after.meta, now) && after == l.(meta := after.meta)
    ensures Tells(after, times + [now])
  {
    var b :| 0 <= b < |times| && BurstFrom(times, b)
      && l.meta.burstStart == Some(times[b]) && l.meta.burst == Some(|times| - b - if b == 0 then 1 else 0);
    if now <= times[b] + 86_400 {
      BurstGoesOn(times, b, now);
    } else {
      BurstBegins(times, b, now);
    }
  }

  /** After any series of sightings there is one row for each lesson sighted, and it tells of all
      its sightings. */
  lemma {:induction false} RowsTell(sightings: seq<Sighting>, key: string)
    ensures var t, times := AllRecorded([], sightings), SightedAt(sightings, key);
      && OneEach(t) && (forall i | 0 <= i < |t| :: t[i].active)
      && ((exists i :: 0 <= i < |t| && t[i].key == key) <==> times != [])
      && (forall i | 0 <= i < |t| && t[i].key == key :: Tells(t[i], times))
  {
    if sightings != [] {
      var front, s := sightings[..|sightings| - 1], sightings[|sightings| - 1];
      RowsTell(front, key);
      RecordedTells(AllRecorded([], front), s, key, SightedAt(front, key));
    }
  }

  lemma RecordedTells(t: Table, s: Sighting, key: string, times: seq<Time>)
    requires OneEach(t) && (forall i | 0 <= i < |t| :: t[i].active)
    requires (exists i :: 0 <= i < |t| && t[i].key == key) <==> times != []
    requires forall i | 0 <= i < |t| && t[i].key == key :: Tells(t[i], times)
    ensures var r, more := Recorded(t, s.id, s.key, s.now), times + if s.key == key then [s.now] else [];
      && OneEach(r) && (forall i | 0 <= i < |r| :: r[i].active)
      && ((exists i :: 0 <= i < |r| && r[i].key == key) <==> more != [])
      && (forall i | 0 <= i < |r| && r[i].key == key :: Tells(r[i], more))
  {
    var r := Recorded(t, s.id, s.key, s.now);
    RecordedKeepsOneEach(t, s.id, s.key, s.now);
    var i := FirstWith(t, s.key);
    if i < |t| {
      SightingMeans(t, i, s.id, s.key, s.now);
      assert r[i].key == s.key;
      if s.key == key {
        TellsOneMore(t[i], r[i], times, s.now);
      } else {
        forall k | 0 <= k < |t| ensures r[k].key == t[k].key {
        }
        assert times + [] == times;
        assert times != [] ==> exists k :: 0 <= k < |r| && r[k].key == key;
      }
    } else {
      NewLessonMeans(t, s.id, s.key, s.now);
      assert forall k | 0 <= k < |t| :: r[k] == t[k];
      assert r[|t|].key == s.key;
      if s.key == key {
        assert times == [] && BurstFrom([s.now], 0);
        assert times + [s.now] == [s.now];
      } else {
        assert times + [] == times;
      }
    }
  }

  // ----- copies collapsed

  /** The places of the lesson's active rows. */
  function Copies(t: Table, key: string): set<nat> { set i: nat | i < |t| && t[i].active && t[i].key == key }

  function CopiesSince(t: Table, key: string, from: Time): set<nat> { set i: nat | i in Copies(t, key) && t[i].ts >= from }

  predicate IsOldest(t: Table, key: string, i: nat) { i in Copies(t, key) && forall j | j in Copies(t, key) :: i <= j }

  predicate WrittenAt(t: Table, copies: set<nat>, u: Time) { exists i :: i in copies && i < |t| && t[i].ts == u }

  predicate IsLatest(t: Table, copies: set<nat>, u: Time) {
    WrittenAt(t, copies, u) && forall i | i in copies && i < |t| :: t[i].ts <= u
  }

  predicate IsEarliest(t: Table, copies: set<nat>, u: Time) {
    WrittenAt(t, copies, u) && forall i | i in copies && i < |t| :: u <= t[i].ts
  }

  /** What the oldest of several copies becomes: seen as often as there were copies, last when
      the newest was written, in a burst of those written within a day of it. */
  predicate StandsForAll(t: Table, key: string, was: Lesson, is_: Lesson) {
    && is_ == was.(meta := is_.meta) && is_.meta.mergedInto == was.meta.mergedInto
    && is_.meta.seen == Some(|Copies(t, key)|) && is_.meta.deduped == Some(|Copies(t, key)| - 1)
    && is_.meta.lastSeen.Some? && is_.meta.burstStart.Some?
    && IsLatest(t, Copies(t, key), is_.meta.lastSeen.value)
    && IsEarliest(t, CopiesSince(t, key, is_.meta.lastSeen.value - 86_400), is_.meta.burstStart.value)
    && is_.meta.burst == Some(|CopiesSince(t, key, is_.meta.lastSeen.value - 86_400)| - 1)
  }

  lemma {:induction false} TimesAt(t: Table, g: seq<nat>)
    requires forall k | 0 <= k < |g| :: g[k] < |t|
    ensures |Times(t, g)| == |g| && forall k | 0 <= k < |g| :: Times(t, g)[k] == t[g[k]].ts
  {
    if g != [] {
      TimesAt(t, g[..|g| - 1]);
    }
  }

  lemma {:induction false} MaxIs(times: seq<Time>)
    requires times != []
    ensures Max(times) in times && forall k | 0 <= k < |times| :: times[k] <= Max(times)
  {
    if |times| > 1 {
      MaxIs(times[..|times| - 1]);
    }
  }

  lemma {:induction false} MinIs(times: seq<Time>)
    requires times != []
    ensures Min(times) in times && forall k | 0 <= k < |times| :: Min(times) <= times[k]
  {
    if |times| > 1 {
      MinIs(times[..|times| - 1]);
    }
  }

  lemma {:induction false} SinceIs(times: seq<Time>, from: Time)
    ensures forall u :: u in Since(times, from) <==> u in times && u >= from
  {
    if times != [] {
      SinceIs(times[..|times| - 1], from);
    }
  }

  lemma OneMoreTime(t: Table, g: seq<nat>, i: nat, from: Time)
    requires (forall k | 0 <= k < |g| :: g[k] < |t|) && i < |t|
    ensures Times(t, g + [i]) == Times(t, g) + [t[i].ts]
    ensures Since(Times(t, g + [i]), from) == Since(Times(t, g), from) + if t[i].ts >= from then [t[i].ts] else []
  {
    assert (g + [i])[..|g|] == g;
    assert (Times(t, g) + [t[i].ts])[..|Times(t, g)|] == Times(t, g);
  }

  function CopiesBelow(t: Table, key: string, from: Time, n: nat): set<nat>
    requires n <= |t|
  {
    set i: nat | i < n && t[i].active && t[i].key == key && t[i].ts >= from
  }

  lemma {:induction false} RecentCopies(t: Table, key: string, n: nat, from: Time)
    requires n <= |t|
    ensures |Since(Times(t, Group(t, key, n)), from)| == |CopiesBelow(t, key, from, n)|
  {
    if n > 0 {
      RecentCopies(t, key, n - 1, from);
      var last := n - 1;
      assert CopiesBelow(t, key, from, n) == CopiesBelow(t, key, from, last) + if Is(t[last], key) && t[last].ts >= from then {last} else {};
      OneMoreTime(t, Group(t, key, last), last, from);
      assert !Is(t[last], key) ==> Group(t, key, n) == Group(t, key, last);
    }
  }

  function PlacesBelow(t: Table, key: string, n: nat): set<nat>
    requires n <= |t|
  {
    set i: nat | i < n && t[i].active && t[i].key == key
  }

  lemma {:induction false} GroupSize(t: Table, key: string, n: nat)
    requires n <= |t|
    ensures |Group(t, key, n)| == |PlacesBelow(t, key, n)|
  {
    if n > 0 {
      GroupSize(t, key, n - 1);
      assert PlacesBelow(t, key, n) == PlacesBelow(t, key, n - 1) + if Is(t[n - 1], key) then {n - 1} else {};
    }
  }

  lemma CopiesAre(t: Table, key: string)
    ensures |Group(t, key, |t|)| == |Copies(t, key)|
    ensures forall i: nat :: i in Copies(t, key) <==> i in Group(t, key, |t|)
  {
    GroupCounts(t, key, |t|);
    GroupSize(t, key, |t|);
    assert Copies(t, key) == PlacesBelow(t, key, |t|);
  }

  lemma TimesOfCopies(t: Table, key: string, u: Time)
    ensures u in Times(t, Group(t, key, |t|)) <==> WrittenAt(t, Copies(t, key), u)
  {
    var g := Group(t, key, |t|);
    TimesAt(t, g);
    CopiesAre(t, key);
    if i: nat :| i in Copies(t, key) && t[i].ts == u {
      var k :| 0 <= k < |g| && g[k] == i;
      assert Times(t, g)[k] == u;
    }
    if u in Times(t, g) {
      var k :| 0 <= k < |g| && Times(t, g)[k] == u;
      assert g[k] in Copies(t, key);
    }
  }

  lemma LastOfCopies(t: Table, copies: set<nat>, times: seq<Time>)
    requires times != [] && forall u :: u in times <==> WrittenAt(t, copies, u)
    ensures IsLatest(t, copies, Max(times))
  {
    MaxIs(times);
    forall i | i in copies && i < |t| ensures t[i].ts <= Max(times) {
      assert WrittenAt(t, copies, t[i].ts);
    }
  }

  lemma FirstOfRecent(t: Table, key: string, times: seq<Time>, from: Time)
    requires forall u :: u in times <==> WrittenAt(t, Copies(t, key), u)
    requires exists u :: u in times && u >= from
    ensures IsEarliest(t, CopiesSince(t, key, from), Min(Since(times, from)))
  {
    SinceIs(times, from);
    var recent := Since(times, from);
    MinIs(recent);
    assert Min(recent) in times;
    var j: nat :| j in Copies(t, key) && j < |t| && t[j].ts == Min(recent);
    assert j in CopiesSince(t, key, from);
    forall i | i in CopiesSince(t, key, from) && i < |t| ensures Min(recent) <= t[i].ts {
      assert WrittenAt(t, Copies(t, key), t[i].ts);
    }
  }

  lemma RecentCount(t: Table, key: string, from: Time)
    ensures |Since(Times(t, Group(t, key, |t|)), from)| == |CopiesSince(t, key, from)|
  {
    RecentCopies(t, key, |t|, from);
    assert CopiesBelow(t, key, from, |t|) == CopiesSince(t, key, from);
  }

  /** The times are those of the copies. */
  ghost predicate AreTimesOf(times: seq<Time>, t: Table, key: string) {
    && times != [] && |times| == |Copies(t, key)|
    && (forall u :: u in times <==> WrittenAt(t, Copies(t, key), u))
    && (forall from :: |Since(times, from)| == |CopiesSince(t, key, from)|)
  }

  lemma TimesAre(t: Table, key: string)
    requires Group(t, key, |t|) != []
    ensures AreTimesOf(Times(t, Group(t, key, |t|)), t, key)
  {
    var times := Times(t, Group(t, key, |t|));
    TimesLength(t, Group(t, key, |t|));
    CopiesAre(t, key);
    forall u ensures u in times <==> WrittenAt(t, Copies(t, key), u) {
      TimesOfCopies(t, key, u);
    }
    forall from ensures |Since(times, from)| == |CopiesSince(t, key, from)| {
      RecentCount(t, key, from);
    }
  }

  lemma SpanOfCopies(t: Table, key: string, times: seq<Time>, last: Time)
    requires AreTimesOf(times, t, key) && last == Max(times)
    ensures IsLatest(t, Copies(t, key), last)
    ensures IsEarliest(t, CopiesSince(t, key, last - BURST), Min(Since(times, last - BURST)))
  {
    MaxIs(times);
    LastOfCopies(t, Copies(t, key), times);
    FirstOfRecent(t, key, times, last - BURST);
  }

  lemma StandsIfSo(t: Table, key: string, l: Lesson, last: Time, began: Time, copies: nat, recent: nat)
    requires IsLatest(t, Copies(t, key), last) && IsEarliest(t, CopiesSince(t, key, last - 86_400), began)
    requires copies == |Copies(t, key)| && recent == |CopiesSince(t, key, last - 86_400)|
    ensures StandsForAll(t, key, l, l.(meta := l.meta.(seen := Some(copies), lastSeen := Some(last), burstStart := Some(began),
                                                       burst := Some(recent - 1), deduped := Some(copies - 1))))
  {
  }

  lemma MergedStands(t: Table, key: string, l: Lesson, times: seq<Time>)
    requires times != [] && |times| == |Copies(t, key)| && IsLatest(t, Copies(t, key), Max(times))
    requires IsEarliest(t, CopiesSince(t, key, Max(times) - BURST), Min(Since(times, Max(times) - BURST)))
    requires |Since(times, Max(times) - BURST)| == |CopiesSince(t, key, Max(times) - BURST)|
    ensures StandsForAll(t, key, l, Merged(l, times))
  {
    var recent := Since(times, Max(times) - BURST);
    StandsIfSo(t, key, l, Max(times), Min(recent), |times|, |recent|);
  }

  lemma MergedMeans(t: Table, i: nat, times: seq<Time>)
    requires i < |t| && AreTimesOf(times, t, t[i].key)
    ensures StandsForAll(t, t[i].key, t[i], Merged(t[i], times))
  {
    SpanOfCopies(t, t[i].key, times, Max(times));
    MergedStands(t, t[i].key, t[i], times);
  }

  /** What the migration leaves: the oldest of several copies stands for all, each of the others
      is retired into it, and every other row is as it was. */
  lemma MigrationMeans(t: Table, i: nat)
    requires i < |t|
    ensures var r, copies := Deduped(t), Copies(t, t[i].key);
      && |r| == |t|
      && if !t[i].active || |copies| <= 1 then r[i] == t[i]
         else if IsOldest(t, t[i].key, i) then StandsForAll(t, t[i].key, t[i], r[i])
         else exists keep :: keep in copies && IsOldest(t, t[i].key, keep)
                && r[i] == t[i].(active := false, meta := t[i].meta.(mergedInto := Some(t[keep].id)))
  {
    var key := t[i].key;
    var g := Group(t, key, |t|);
    CopiesAre(t, key);
    assert Deduped(t)[i] == DedupedAt(t, i);
    if t[i].active && |g| > 1 {
      GroupCounts(t, key, |t|);
      assert i in Copies(t, key) && g[0] in g;
      assert IsOldest(t, key, g[0]) by {
        forall j | j in Copies(t, key) ensures g[0] <= j {
          var k :| 0 <= k < |g| && g[k] == j;
        }
      }
      if IsOldest(t, key, i) {
        assert i <= g[0] <= i;
        TimesAre(t, key);
        MergedMeans(t, i, Times(t, g));
      }
    }
  }

  /** What the undo leaves. */
  lemma UndoMeans(t: Table, i: nat)
    requires i < |t|
    ensures |Undone(t)| == |t|
    ensures Undone(t)[i] ==
      if t[i].meta.mergedInto.Some? && !t[i].active then t[i].(active := true, meta := t[i].meta.(mergedInto := None)) else t[i]
  {
    assert Undone(t)[i] == UndoneAt(t[i]);
  }
}
