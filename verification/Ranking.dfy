/** How memories are ranked for a recall: the fusion of the word ranking and the meaning ranking
    (src/pionir/cortex.py), and the read-only twin of the whole path (src/pionir/library.py).
    Scores are reals; `weight` is the recency and salience weight of a row, always positive. */
module Ranking {
  import opened Wrappers

  type Id = nat

  datatype Scored = Scored(score: real, id: Id)

  const RRF_K := 60

  // ----- a stable sort, highest score first

  predicate Descending(s: seq<Scored>) { forall i, j | 0 <= i < j < |s| :: s[i].score >= s[j].score }

  /** Before the first one that scores less. */
  function Insert(s: seq<Scored>, x: Scored): seq<Scored> {
    if s == [] || s[|s| - 1].score >= x.score then s + [x]
    else Insert(s[..|s| - 1], x) + [s[|s| - 1]]
  }

  /** `sort(key=score, reverse=True)`. */
  function Sorted(s: seq<Scored>): seq<Scored> {
    if s == [] then [] else Insert(Sorted(s[..|s| - 1]), s[|s| - 1])
  }

  lemma {:induction false} InsertHolds(s: seq<Scored>, x: Scored)
    ensures multiset(Insert(s, x)) == multiset(s) + multiset{x}
  {
    if s != [] && s[|s| - 1].score < x.score {
      var front, last := s[..|s| - 1], s[|s| - 1];
      InsertHolds(front, x);
      assert s == front + [last];
      OneMore(front, last);
      OneMore(Insert(front, x), last);
    }
  }

  lemma Appended(s: seq<Scored>, last: Scored)
    requires Descending(s) && forall i | 0 <= i < |s| :: s[i].score >= last.score
    ensures Descending(s + [last])
  {
  }

  lemma {:induction false} InsertKeeps(s: seq<Scored>, x: Scored)
    requires Descending(s)
    ensures Descending(Insert(s, x)) && multiset(Insert(s, x)) == multiset(s) + multiset{x}
  {
    InsertHolds(s, x);
    if s != [] && s[|s| - 1].score < x.score {
      var front, last := s[..|s| - 1], s[|s| - 1];
      InsertKeeps(front, x);
      var r := Insert(front, x);
      forall i | 0 <= i < |r| ensures r[i].score >= last.score {
        assert r[i] in multiset(r);
        assert r[i] in multiset(front) || r[i] == x;
      }
      Appended(r, last);
    } else {
      Appended(s, x);
    }
  }

  lemma OneMore(s: seq<Scored>, x: Scored)
    ensures multiset(s + [x]) == multiset(s) + multiset{x}
  {
  }

  lemma {:induction false} SortedSorts(s: seq<Scored>)
    ensures Descending(Sorted(s)) && multiset(Sorted(s)) == multiset(s)
  {
    if s != [] {
      var front, last := s[..|s| - 1], s[|s| - 1];
      SortedSorts(front);
      InsertKeeps(Sorted(front), last);
      OneMore(front, last);
      assert s == front + [last];
    }
  }

  /** The rows that score `v`, in order. */
  function OfScore(s: seq<Scored>, v: real): seq<Scored> {
    if s == [] then []
    else OfScore(s[..|s| - 1], v) + if s[|s| - 1].score == v then [s[|s| - 1]] else []
  }

  lemma OneMoreScore(s: seq<Scored>, x: Scored, v: real)
    ensures OfScore(s + [x], v) == OfScore(s, v) + if x.score == v then [x] else []
  {
    assert (s + [x])[..|s|] == s;
  }

  lemma {:induction false} InsertKeepsOrder(s: seq<Scored>, x: Scored, v: real)
    ensures OfScore(Insert(s, x), v) == OfScore(s + [x], v)
  {
    OneMoreScore(s, x, v);
    if s != [] && s[|s| - 1].score < x.score {
      var front, last := s[..|s| - 1], s[|s| - 1];
      InsertKeepsOrder(front, x, v);
      OneMoreScore(front, x, v);
      OneMoreScore(Insert(front, x), last, v);
    }
  }

  /** Ties stay in the order they came: of any one score, the same rows in the same order. */
  lemma {:induction false} SortedKeepsOrder(s: seq<Scored>, v: real)
    ensures OfScore(Sorted(s), v) == OfScore(s, v)
  {
    if s != [] {
      var front, last := s[..|s| - 1], s[|s| - 1];
      SortedKeepsOrder(front, v);
      InsertKeepsOrder(Sorted(front), last, v);
      OneMoreScore(Sorted(front), last, v);
    }
  }

  predicate NoTies(s: seq<Scored>) { forall i, j | 0 <= i < j < |s| :: s[i].score != s[j].score }

  lemma SameTop(s: seq<Scored>, t: seq<Scored>)
    requires Descending(s) && Descending(t) && multiset(s) == multiset(t) && NoTies(s) && s != []
    ensures t != [] && s[0] == t[0]
  {
    assert s[0] in multiset(t);
    var j :| 0 <= j < |t| && t[j] == s[0];
    assert t[0] in multiset(s);
    var i :| 0 <= i < |s| && s[i] == t[0];
    assert s[0].score == t[0].score;
    assert !(0 < i);
  }

  lemma WithoutTop(s: seq<Scored>, t: seq<Scored>)
    requires s != [] && t != [] && s[0] == t[0] && multiset(s) == multiset(t)
    ensures multiset(s[1..]) == multiset(t[1..])
  {
    assert s == [s[0]] + s[1..] && t == [t[0]] + t[1..];
    assert multiset(s[1..]) == multiset(s) - multiset{s[0]};
    assert multiset(t[1..]) == multiset(t) - multiset{t[0]};
  }

  /** Without ties there is one way to sort. */
  lemma {:induction false} SortedIsUnique(s: seq<Scored>, t: seq<Scored>)
    requires Descending(s) && Descending(t) && multiset(s) == multiset(t) && NoTies(s)
    ensures s == t
  {
    if s == [] {
      assert |multiset(t)| == 0;
    } else {
      SameTop(s, t);
      WithoutTop(s, t);
      SortedIsUnique(s[1..], t[1..]);
      assert s == [s[0]] + s[1..] && t == [t[0]] + t[1..];
    }
  }

  // ----- reciprocal rank fusion

  function Rrf(list: seq<Id>, id: Id): real {
    if list == [] then 0.0
    else Rrf(list[..|list| - 1], id) + if list[|list| - 1] == id then 1.0 / (RRF_K + |list|) as real else 0.0
  }

  /** The rows of a list after those before it, each at its first place. */
  function Joined(order: seq<Id>, list: seq<Id>): seq<Id> {
    if list == [] then order
    else
      var front := Joined(order, list[..|list| - 1]);
      if list[|list| - 1] in front then front else front + [list[|list| - 1]]
  }

  function WeighedShare(share: real, weight: real): real { share * weight }

  function ScoreOf(lexical: seq<Id>, semantic: seq<Id>, weight: Id -> real, id: Id): real {
    WeighedShare(Rrf(lexical, id) + Rrf(semantic, id), weight(id))
  }

  function Weighed(order: seq<Id>, lexical: seq<Id>, semantic: seq<Id>, weight: Id -> real): seq<Scored> {
    if order == [] then []
    else
      var id := order[|order| - 1];
      Weighed(order[..|order| - 1], lexical, semantic, weight) + [Scored(ScoreOf(lexical, semantic, weight, id), id)]
  }

  function Fused(lexical: seq<Id>, semantic: seq<Id>, weight: Id -> real): seq<Scored> {
    Sorted(Weighed(Joined(Joined([], lexical), semantic), lexical, semantic, weight))
  }

  /** The slots so far: one for each row seen, with its share. */
  ghost predicate Slots(fused: map<Id, real>, order: seq<Id>, lexical: seq<Id>, semantic: seq<Id>) {
    && (forall id :: id in fused <==> id in order)
    && (forall id | id in order :: fused[id] == Rrf(lexical, id) + Rrf(semantic, id))
    && (forall id | id !in order :: Rrf(lexical, id) == 0.0 && Rrf(semantic, id) == 0.0)
  }

  method Fuse(lexical: seq<Id>, semantic: seq<Id>, weight: Id -> real) returns (scored: seq<Scored>)
    ensures scored == Fused(lexical, semantic, weight)
  {
    var fused, order := AddRanking(map[], [], lexical, []);
    SwapSlots(fused, order, lexical);
    fused, order := AddRanking(fused, order, semantic, lexical);
    scored := Weigh(fused, order, lexical, semantic, weight);
    scored := Sorted(scored);
  }

  lemma SwapSlots(fused: map<Id, real>, order: seq<Id>, lexical: seq<Id>)
    requires Slots(fused, order, [], lexical)
    ensures Slots(fused, order, lexical, [])
  {
  }

  lemma WeighedMore(order: seq<Id>, i: nat, lexical: seq<Id>, semantic: seq<Id>, weight: Id -> real)
    requires i < |order|
    ensures Weighed(order[..i + 1], lexical, semantic, weight) ==
      Weighed(order[..i], lexical, semantic, weight) + [Scored(ScoreOf(lexical, semantic, weight, order[i]), order[i])]
  {
    var more := order[..i + 1];
    assert more[..|more| - 1] == order[..i] && more[|more| - 1] == order[i];
  }

  method Weigh(fused: map<Id, real>, order: seq<Id>, ghost lexical: seq<Id>, ghost semantic: seq<Id>, weight: Id -> real)
    returns (scored: seq<Scored>)
    requires Slots(fused, order, lexical, semantic)
    ensures scored == Weighed(order, lexical, semantic, weight)
  {
    scored := [];
    for i := 0 to |order|
      invariant scored == Weighed(order[..i], lexical, semantic, weight)
    {
      var id := order[i];
      WeighedMore(order, i, lexical, semantic, weight);
      assert id in order;
      scored := scored + [Scored(WeighedShare(fused[id], weight(id)), id)];
    }
    assert order[..|order|] == order;
  }

  /** One list: a slot for each row not seen before, and its share added. */
  method AddRanking(before: map<Id, real>, had: seq<Id>, list: seq<Id>, ghost earlier: seq<Id>)
    returns (fused: map<Id, real>, order: seq<Id>)
    requires Slots(before, had, earlier, [])
    ensures order == Joined(had, list) && Slots(fused, order, earlier, list)
  {
    fused, order := before, had;
    for i := 0 to |list|
      invariant order == Joined(had, list[..i]) && Slots(fused, order, earlier, list[..i])
    {
      var id := list[i];
      OneShare(fused, order, earlier, list, i);
      if id !in fused {
        fused := fused[id := 0.0];
        order := order + [id];
      }
      fused := fused[id := fused[id] + 1.0 / (RRF_K + i + 1) as real];
    }
    assert list[..|list|] == list;
  }

  lemma OneShare(fused: map<Id, real>, order: seq<Id>, earlier: seq<Id>, list: seq<Id>, i: nat)
    requires i < |list| && Slots(fused, order, earlier, list[..i])
    ensures var id := list[i];
      var more := if id in fused then order else order + [id];
      Slots(fused[id := (if id in fused then fused[id] else 0.0) + 1.0 / (RRF_K + i + 1) as real], more, earlier, list[..i + 1])
    ensures forall had :: order == Joined(had, list[..i]) ==>
      (if list[i] in fused then order else order + [list[i]]) == Joined(had, list[..i + 1])
  {
    assert list[..i + 1][..i] == list[..i];
  }

  // ----- fusion is sound

  predicate Distinct(ids: seq<Id>) { forall i, j | 0 <= i < j < |ids| :: ids[i] != ids[j] }

  function IdsOf(s: seq<Scored>): (ids: seq<Id>)
    ensures |ids| == |s| && forall i | 0 <= i < |s| :: ids[i] == s[i].id
  {
    if s == [] then [] else IdsOf(s[..|s| - 1]) + [s[|s| - 1].id]
  }

  lemma {:induction false} JoinedIs(order: seq<Id>, list: seq<Id>)
    requires Distinct(order)
    ensures Distinct(Joined(order, list))
    ensures forall id :: id in Joined(order, list) <==> id in order || id in list
  {
    if list != [] {
      JoinedIs(order, list[..|list| - 1]);
      assert list == list[..|list| - 1] + [list[|list| - 1]];
    }
  }

  lemma {:induction false} WeighedIs(order: seq<Id>, lexical: seq<Id>, semantic: seq<Id>, weight: Id -> real)
    ensures var w := Weighed(order, lexical, semantic, weight);
      |w| == |order| && forall i | 0 <= i < |w| :: w[i] == Scored(ScoreOf(lexical, semantic, weight, order[i]), order[i])
  {
    if order != [] {
      WeighedIs(order[..|order| - 1], lexical, semantic, weight);
    }
  }

  /** Each row of either list comes out exactly once, with its score, highest first. */
  lemma FusedIsSound(lexical: seq<Id>, semantic: seq<Id>, weight: Id -> real)
    ensures var r := Fused(lexical, semantic, weight);
      && Descending(r)
      && (forall id :: (id in lexical || id in semantic) <==> Scored(ScoreOf(lexical, semantic, weight, id), id) in r)
      && (forall i | 0 <= i < |r| :: r[i].score == ScoreOf(lexical, semantic, weight, r[i].id))
      && (forall i, j | 0 <= i < j < |r| :: r[i].id != r[j].id)
  {
    var order := Joined(Joined([], lexical), semantic);
    JoinedIs([], lexical);
    JoinedIs(Joined([], lexical), semantic);
    var w, r := Weighed(order, lexical, semantic, weight), Fused(lexical, semantic, weight);
    WeighedIs(order, lexical, semantic, weight);
    SortedSorts(w);
    forall id ensures (id in lexical || id in semantic) <==> Scored(ScoreOf(lexical, semantic, weight, id), id) in r {
      var s := Scored(ScoreOf(lexical, semantic, weight, id), id);
      assert s in r <==> s in multiset(r);
      assert s in multiset(w) <==> s in w;
      if id in order {
        var i :| 0 <= i < |order| && order[i] == id;
        assert w[i] == s;
      }
    }
    forall i | 0 <= i < |r| ensures r[i].score == ScoreOf(lexical, semantic, weight, r[i].id) {
      assert r[i] in multiset(w);
    }
    OnceEach(w, r);
  }

  lemma OnceEach(w: seq<Scored>, r: seq<Scored>)
    requires multiset(w) == multiset(r) && forall i, j | 0 <= i < j < |w| :: w[i].id != w[j].id
    ensures forall i, j | 0 <= i < j < |r| :: r[i].id != r[j].id
  {
    forall i, j | 0 <= i < j < |r| ensures r[i].id != r[j].id {
      assert r[i] in multiset(w) && r[j] in multiset(w);
      if r[i] == r[j] {
        Twice(r, i, j);
        NotTwice(w, r[i]);
      }
    }
  }

  lemma Twice(s: seq<Scored>, i: nat, j: nat)
    requires i < j < |s| && s[i] == s[j]
    ensures multiset(s)[s[i]] >= 2
  {
    assert s == s[..i] + [s[i]] + s[i + 1..j] + [s[j]] + s[j + 1..];
  }

  lemma {:induction false} NotTwice(s: seq<Scored>, x: Scored)
    requires forall i, j | 0 <= i < j < |s| :: s[i].id != s[j].id
    ensures multiset(s)[x] <= 1
  {
    if s != [] {
      NotTwice(s[1..], x);
      assert s == [s[0]] + s[1..];
      if s[0] == x {
        assert x !in s[1..];
      }
    }
  }

  // ----- what is ahead in both lists comes first

  /** `a` is in the list, and `b` is behind it or not in the list at all. */
  predicate Ahead(list: seq<Id>, a: Id, b: Id) {
    exists i :: 0 <= i < |list| && list[i] == a && forall j | 0 <= j <= i :: list[j] != b
  }

  lemma {:induction false} RrfAt(list: seq<Id>, id: Id, i: nat)
    requires Distinct(list) && i < |list| && list[i] == id
    ensures Rrf(list, id) == 1.0 / (RRF_K + i + 1) as real
  {
    var front := list[..|list| - 1];
    if i < |list| - 1 {
      RrfAt(front, id, i);
    } else {
      RrfNone(front, id);
    }
  }

  lemma {:induction false} RrfNone(list: seq<Id>, id: Id)
    requires id !in list
    ensures Rrf(list, id) == 0.0
  {
    if list != [] {
      RrfNone(list[..|list| - 1], id);
    }
  }

  lemma Smaller(x: real, y: real)
    requires 0.0 < x < y
    ensures 1.0 / x > 1.0 / y > 0.0
  {
    assert (1.0 / x) * x == 1.0 && (1.0 / y) * y == 1.0;
  }

  lemma AheadScores(list: seq<Id>, a: Id, b: Id)
    requires Distinct(list) && Ahead(list, a, b)
    ensures Rrf(list, a) > Rrf(list, b) >= 0.0
  {
    var i :| 0 <= i < |list| && list[i] == a && forall j | 0 <= j <= i :: list[j] != b;
    RrfAt(list, a, i);
    Smaller((RRF_K + i + 1) as real, (RRF_K + i + 2) as real);
    if b in list {
      var j :| 0 <= j < |list| && list[j] == b;
      RrfAt(list, b, j);
      Smaller((RRF_K + i + 1) as real, (RRF_K + j + 1) as real);
    } else {
      RrfNone(list, b);
    }
  }

  lemma Products(x: real, y: real, v: real, w: real)
    requires x > y >= 0.0 && v >= w > 0.0
    ensures x * v > y * w
  {
    assert x * v - y * w == (x - y) * v + y * (v - w);
    assert (x - y) * v > 0.0;
    assert y * (v - w) >= 0.0;
  }

  /** A row ahead of another in both lists, and weighing no less, comes out before it. */
  lemma AheadInBothComesFirst(lexical: seq<Id>, semantic: seq<Id>, weight: Id -> real, a: Id, b: Id, p: nat, q: nat)
    requires Distinct(lexical) && Distinct(semantic)
    requires Ahead(lexical, a, b) && Ahead(semantic, a, b) && weight(a) >= weight(b) > 0.0
    requires var r := Fused(lexical, semantic, weight);
      p < |r| && q < |r| && r[p].id == a && r[q].id == b
    ensures p < q
  {
    var r := Fused(lexical, semantic, weight);
    AheadScores(lexical, a, b);
    AheadScores(semantic, a, b);
    Products(Rrf(lexical, a) + Rrf(semantic, a), Rrf(lexical, b) + Rrf(semantic, b), weight(a), weight(b));
    FusedIsSound(lexical, semantic, weight);
    assert r[p].score > r[q].score;
  }

  // ----- two readers of one store

  /** The columns both readers filter by, and for each vector the model it was made with. */
  datatype Memory = Memory(active: bool, namespace: string, kind: string)

  datatype Store = Store(memories: map<Id, Memory>, vectors: map<Id, string>)

  /** What is asked: whether the query has any words, which memories may answer, and the model
      that embedded it, if one did. */
  datatype Query = Query(words: bool, namespace: Option<string>, kind: Option<string>, model: Option<string>)

  /** BM25 scores a row among the candidates it is read with. */
  datatype Scores = Scores(bm25: (set<Id>, Id) -> real, cosine: Id -> real)

  /** A SELECT without ORDER BY: the rows, each once, in whatever order. */
  ghost predicate IsScan(scan: seq<Id>, rows: set<Id>) {
    Distinct(scan) && forall id: Id :: id in scan <==> id in rows
  }

  /** The rows of a scan that score at all, in the order they were scanned. */
  function Positive(scan: seq<Id>, score: Id -> real): seq<Scored> {
    if scan == [] then []
    else
      var id := scan[|scan| - 1];
      Positive(scan[..|scan| - 1], score) + if score(id) > 0.0 then [Scored(score(id), id)] else []
  }

  function WeighedWords(lexical: seq<Scored>, weight: Id -> real): seq<Scored> {
    if lexical == [] then []
    else
      var last := lexical[|lexical| - 1];
      WeighedWords(lexical[..|lexical| - 1], weight) + [Scored(WeighedShare(last.score, weight(last.id)), last.id)]
  }

  /** Fused when there is anything to fuse, by words alone otherwise. */
  function Ranked(lexical: seq<Scored>, semantic: seq<Scored>, weight: Id -> real): seq<Scored> {
    if semantic != [] then Fused(IdsOf(lexical), IdsOf(semantic), weight) else Sorted(WeighedWords(lexical, weight))
  }

  // ----- the server's own: Cortex.recall

  /** `namespace is not None`, `kinds is not None`. */
  predicate CortexPicks(m: Memory, q: Query) {
    m.active && (q.namespace.Some? ==> m.namespace == q.namespace.value) && (q.kind.Some? ==> m.kind == q.kind.value)
  }

  function CortexCandidates(store: Store, q: Query): set<Id> {
    set id | id in store.memories && CortexPicks(store.memories[id], q)
  }

  /** `WHERE model = ? AND memory_id IN (...)` */
  function CortexVectors(store: Store, q: Query, candidates: seq<Id>): set<Id> {
    set id | id in store.vectors && q.model == Some(store.vectors[id]) && id in candidates
  }

  /** `ranked[: max(k, 0)]` */
  function CortexCut(ranked: seq<Scored>, k: int): seq<Scored> {
    if k <= 0 then [] else if k <= |ranked| then ranked[..k] else ranked
  }

  function CortexRecall(q: Query, scores: Scores, weight: Id -> real, candidates: seq<Id>, vectors: seq<Id>, k: int): seq<Scored> {
    if !q.words || candidates == [] then []
    else
      var all := set id | id in candidates;
      var lexical := Sorted(Positive(candidates, (id: Id) => scores.bm25(all, id)));
      var semantic := if q.model.None? then [] else Sorted(Positive(vectors, scores.cosine));
      CortexCut(Ranked(lexical, semantic, weight), k)
  }

  // ----- the library's own: ranked

  /** `if namespace`, `if kind`: an empty name is no name. */
  predicate LibraryPicks(m: Memory, q: Query) {
    && m.active
    && (q.namespace.Some? && q.namespace.value != "" ==> m.namespace == q.namespace.value)
    && (q.kind.Some? && q.kind.value != "" ==> m.kind == q.kind.value)
  }

  function LibraryCandidates(store: Store, q: Query): set<Id> {
    set id | id in store.memories && LibraryPicks(store.memories[id], q)
  }

  /** `WHERE model = ?`: the vectors of every memory. */
  function LibraryVectors(store: Store, q: Query): set<Id> {
    set id | id in store.vectors && q.model == Some(store.vectors[id])
  }

  /** `by_id.get(...)`, and kept if it is a candidate's. */
  function KeptOnly(vectors: seq<Id>, candidates: seq<Id>): seq<Id> {
    if vectors == [] then []
    else KeptOnly(vectors[..|vectors| - 1], candidates) + if vectors[|vectors| - 1] in candidates then [vectors[|vectors| - 1]] else []
  }

  /** `[:k]`: a negative k drops from the end. */
  function LibraryCut(ranked: seq<Scored>, k: int): seq<Scored> {
    if k < 0 then (if -k <= |ranked| then ranked[..|ranked| + k] else [])
    else if k <= |ranked| then ranked[..k] else ranked
  }

  function LibraryRanked(q: Query, scores: Scores, weight: Id -> real, candidates: seq<Id>, vectors: seq<Id>, k: int): seq<Scored> {
    if !q.words || candidates == [] then []
    else
      var all := set id | id in candidates;
      var lexical := Sorted(Positive(candidates, (id: Id) => scores.bm25(all, id)));
      var semantic := if q.model.None? then [] else Sorted(Positive(KeptOnly(vectors, candidates), scores.cosine));
      LibraryCut(Ranked(lexical, semantic, weight), k)
  }

  // ----- what they have in common

  predicate Named(q: Query) { q.namespace != Some("") && q.kind != Some("") }

  /** The two WHERE clauses pick the same rows, unless a name is empty. */
  lemma SameCandidates(store: Store, q: Query)
    requires Named(q)
    ensures CortexCandidates(store, q) == LibraryCandidates(store, q)
  {
  }

  /** ... and exactly then: an empty name the server looks for, and the library does not. */
  lemma SameCandidatesExactly(q: Query)
    ensures (forall store: Store :: CortexCandidates(store, q) == LibraryCandidates(store, q)) <==> Named(q)
  {
    if Named(q) {
      forall store: Store ensures CortexCandidates(store, q) == LibraryCandidates(store, q) {
        SameCandidates(store, q);
      }
    } else {
      var store := Store(map[0 := Memory(true, NotEmpty(q.namespace), NotEmpty(q.kind))], map[]);
      assert 0 in LibraryCandidates(store, q) && 0 !in CortexCandidates(store, q);
    }
  }

  function NotEmpty(name: Option<string>): string { if name.None? || name.value == "" then "x" else name.value }

  /** A cut at k is the same for both exactly when k is not negative, or drops everything. */
  lemma SameCut(ranked: seq<Scored>, k: int)
    ensures CortexCut(ranked, k) == LibraryCut(ranked, k) <==> k >= 0 || |ranked| <= -k
  {
    if k < 0 && |ranked| > -k {
      assert |LibraryCut(ranked, k)| == |ranked| + k;
    }
  }

  lemma {:induction false} KeptOnlyIs(vectors: seq<Id>, candidates: seq<Id>)
    requires Distinct(vectors)
    ensures Distinct(KeptOnly(vectors, candidates))
    ensures forall id: Id :: id in KeptOnly(vectors, candidates) <==> id in vectors && id in candidates
  {
    if vectors != [] {
      var front, last := vectors[..|vectors| - 1], vectors[|vectors| - 1];
      KeptOnlyIs(front, candidates);
      assert vectors == front + [last];
      assert last !in front;
    }
  }

  lemma {:induction false} PositiveIs(scan: seq<Id>, score: Id -> real, s: Scored)
    ensures multiset(Positive(scan, score))[s] == if s.score == score(s.id) && s.score > 0.0 then multiset(scan)[s.id] else 0
  {
    if scan != [] {
      PositiveIs(scan[..|scan| - 1], score, s);
      assert scan == scan[..|scan| - 1] + [scan[|scan| - 1]];
    }
  }

  lemma {:induction false} DistinctOnce(ids: seq<Id>, id: Id)
    requires Distinct(ids)
    ensures multiset(ids)[id] == if id in ids then 1 else 0
  {
    if ids != [] {
      DistinctOnce(ids[1..], id);
      assert ids == [ids[0]] + ids[1..];
      if ids[0] == id {
        assert id !in ids[1..];
      }
    }
  }

  /** Two scans of the same rows find the same scores, in some order. */
  lemma SameRowsSameScores(scan: seq<Id>, other: seq<Id>, rows: set<Id>, score: Id -> real)
    requires IsScan(scan, rows) && IsScan(other, rows)
    ensures multiset(Positive(scan, score)) == multiset(Positive(other, score))
  {
    forall s ensures multiset(Positive(scan, score))[s] == multiset(Positive(other, score))[s] {
      PositiveIs(scan, score, s);
      PositiveIs(other, score, s);
      DistinctOnce(scan, s.id);
      DistinctOnce(other, s.id);
    }
  }

  predicate Untied(rows: set<Id>, score: Id -> real) {
    forall a, b | a in rows && b in rows && a != b && score(a) > 0.0 :: score(a) != score(b)
  }

  lemma {:induction false} PositiveHas(scan: seq<Id>, score: Id -> real, k: nat)
    requires k < |Positive(scan, score)|
    ensures var s := Positive(scan, score)[k];
      s.id in scan && s.score == score(s.id) && s.score > 0.0
  {
    var front := Positive(scan[..|scan| - 1], score);
    if k < |front| {
      PositiveHas(scan[..|scan| - 1], score, k);
    }
  }

  lemma {:induction false} PositiveOnce(scan: seq<Id>, score: Id -> real)
    requires Distinct(scan)
    ensures forall i, j | 0 <= i < j < |Positive(scan, score)| :: Positive(scan, score)[i].id != Positive(scan, score)[j].id
  {
    if scan != [] {
      var front, last := scan[..|scan| - 1], scan[|scan| - 1];
      PositiveOnce(front, score);
      var p := Positive(front, score);
      forall i | 0 <= i < |p| ensures p[i].id != last {
        PositiveHas(front, score, i);
        assert last !in front;
      }
    }
  }

  lemma UntiedOnce(scan: seq<Id>, rows: set<Id>, score: Id -> real)
    requires IsScan(scan, rows) && Untied(rows, score)
    ensures NoTies(Positive(scan, score))
  {
    var p := Positive(scan, score);
    PositiveOnce(scan, score);
    forall i, j | 0 <= i < j < |p| ensures p[i].score != p[j].score {
      PositiveHas(scan, score, i);
      PositiveHas(scan, score, j);
    }
  }

  lemma SortedNoTies(s: seq<Scored>)
    requires NoTies(s)
    ensures NoTies(Sorted(s))
  {
    SortedSorts(s);
    var r := Sorted(s);
    forall i, j | 0 <= i < j < |r| ensures r[i].score != r[j].score {
      assert r[i] in multiset(s) && r[j] in multiset(s);
      if r[i] == r[j] {
        Twice(r, i, j);
        SingleIfNoTies(s, r[i]);
      }
    }
  }

  lemma {:induction false} SingleIfNoTies(s: seq<Scored>, x: Scored)
    requires NoTies(s)
    ensures multiset(s)[x] <= 1
  {
    if s != [] {
      SingleIfNoTies(s[1..], x);
      assert s == [s[0]] + s[1..];
      if s[0] == x {
        assert x !in s[1..];
      }
    }
  }

  /** Without ties the ranking does not hang on the scan. */
  lemma OneRanking(scan: seq<Id>, other: seq<Id>, rows: set<Id>, score: Id -> real)
    requires IsScan(scan, rows) && IsScan(other, rows) && Untied(rows, score)
    ensures Sorted(Positive(scan, score)) == Sorted(Positive(other, score))
  {
    SameRowsSameScores(scan, other, rows, score);
    UntiedOnce(scan, rows, score);
    SortedSorts(Positive(scan, score));
    SortedSorts(Positive(other, score));
    SortedNoTies(Positive(scan, score));
    SortedIsUnique(Sorted(Positive(scan, score)), Sorted(Positive(other, score)));
  }

  /** Every scan one reader or the other may make of the store. */
  ghost predicate Scans(store: Store, q: Query, mine: seq<Id>, mineVectors: seq<Id>, theirs: seq<Id>, theirVectors: seq<Id>) {
    && IsScan(mine, CortexCandidates(store, q)) && IsScan(mineVectors, CortexVectors(store, q, mine))
    && IsScan(theirs, LibraryCandidates(store, q)) && IsScan(theirVectors, LibraryVectors(store, q))
  }

  function Words(store: Store, q: Query, scores: Scores): Id -> real {
    (id: Id) => scores.bm25(CortexCandidates(store, q), id)
  }

  /** The candidates that have a vector the query can be compared with. */
  function Compared(store: Store, q: Query): set<Id> {
    set id | id in CortexCandidates(store, q) && id in store.vectors && q.model == Some(store.vectors[id])
  }

  predicate NoTiesIn(store: Store, q: Query, scores: Scores) {
    Untied(CortexCandidates(store, q), Words(store, q, scores)) && Untied(Compared(store, q), scores.cosine)
  }

  lemma {:induction false} SamePositive(scan: seq<Id>, f: Id -> real, g: Id -> real)
    requires forall id: Id :: f(id) == g(id)
    ensures Positive(scan, f) == Positive(scan, g)
  {
    if scan != [] {
      SamePositive(scan[..|scan| - 1], f, g);
    }
  }

  /** What either reader ranks, put in terms of the store. */
  lemma CortexRanks(store: Store, q: Query, scores: Scores, weight: Id -> real, mine: seq<Id>, vectors: seq<Id>, k: int)
    requires q.words && IsScan(mine, CortexCandidates(store, q)) && IsScan(vectors, CortexVectors(store, q, mine)) && k >= 0
    ensures IsScan(vectors, Compared(store, q))
    ensures mine != [] ==>
      CortexRecall(q, scores, weight, mine, vectors, k) ==
      CortexCut(Ranked(Sorted(Positive(mine, Words(store, q, scores))), Sorted(Positive(vectors, scores.cosine)), weight), k)
  {
    var all := set id | id in mine;
    assert all == CortexCandidates(store, q);
    SamePositive(mine, (id: Id) => scores.bm25(all, id), Words(store, q, scores));
    if q.model.None? {
      NoneIn(vectors);
    }
  }

  lemma NoneIn(scan: seq<Id>)
    requires forall id: Id :: id !in scan
    ensures scan == []
  {
    if scan != [] {
      HasFirst(scan);
    }
  }

  lemma HasFirst(scan: seq<Id>)
    requires scan != []
    ensures exists id: Id :: id in scan
  {
    assert scan[0] in scan;
  }

  lemma LibraryRanks(store: Store, q: Query, scores: Scores, weight: Id -> real, theirs: seq<Id>, vectors: seq<Id>, k: int)
    requires q.words && Named(q) && IsScan(theirs, LibraryCandidates(store, q)) && IsScan(vectors, LibraryVectors(store, q)) && k >= 0
    ensures IsScan(theirs, CortexCandidates(store, q)) && IsScan(KeptOnly(vectors, theirs), Compared(store, q))
    ensures theirs != [] ==>
      LibraryRanked(q, scores, weight, theirs, vectors, k) ==
      CortexCut(Ranked(Sorted(Positive(theirs, Words(store, q, scores))), Sorted(Positive(KeptOnly(vectors, theirs), scores.cosine)), weight), k)
  {
    SameCandidates(store, q);
    KeptOnlyIs(vectors, theirs);
    var all := set id | id in theirs;
    assert all == CortexCandidates(store, q);
    SamePositive(theirs, (id: Id) => scores.bm25(all, id), Words(store, q, scores));
    if q.model.None? {
      NoneIn(KeptOnly(vectors, theirs));
    }
    if theirs != [] {
      SameCut(Ranked(Sorted(Positive(theirs, Words(store, q, scores))), Sorted(Positive(KeptOnly(vectors, theirs), scores.cosine)), weight), k);
    }
  }

  /** The server's recall and the read-only library give the same memories with the same scores
      in the same order, however each scans the store, when no two candidates tie in words and
      no two in meaning. */
  lemma TwinsAgree(store: Store, q: Query, scores: Scores, weight: Id -> real,
                   mine: seq<Id>, mineVectors: seq<Id>, theirs: seq<Id>, theirVectors: seq<Id>, k: int)
    requires Named(q) && k >= 0 && Scans(store, q, mine, mineVectors, theirs, theirVectors) && NoTiesIn(store, q, scores)
    ensures CortexRecall(q, scores, weight, mine, mineVectors, k) == LibraryRanked(q, scores, weight, theirs, theirVectors, k)
  {
    if q.words {
      CortexRanks(store, q, scores, weight, mine, mineVectors, k);
      LibraryRanks(store, q, scores, weight, theirs, theirVectors, k);
      OneRanking(mine, theirs, CortexCandidates(store, q), Words(store, q, scores));
      OneRanking(mineVectors, KeptOnly(theirVectors, theirs), Compared(store, q), scores.cosine);
      assert mine == [] <==> theirs == [] by {
        if mine == [] {
          NoneIn(theirs);
        } else {
          HasFirst(mine);
        }
      }
    }
  }

  // ----- and exactly then

  function SwapId(id: Id, a: Id, b: Id): Id { if id == a then b else if id == b then a else id }

  function SwapIds(s: seq<Id>, a: Id, b: Id): (r: seq<Id>)
    ensures |r| == |s| && forall i | 0 <= i < |s| :: r[i] == SwapId(s[i], a, b)
  {
    if s == [] then [] else SwapIds(s[..|s| - 1], a, b) + [SwapId(s[|s| - 1], a, b)]
  }

  function SwapRows(s: seq<Scored>, a: Id, b: Id): (r: seq<Scored>)
    ensures |r| == |s| && forall i | 0 <= i < |s| :: r[i] == Scored(s[i].score, SwapId(s[i].id, a, b))
  {
    if s == [] then [] else SwapRows(s[..|s| - 1], a, b) + [Scored(s[|s| - 1].score, SwapId(s[|s| - 1].id, a, b))]
  }

  /** Sorting looks at scores only. */
  lemma {:induction false} SwapInsert(s: seq<Scored>, x: Scored, a: Id, b: Id)
    ensures Insert(SwapRows(s, a, b), Scored(x.score, SwapId(x.id, a, b))) == SwapRows(Insert(s, x), a, b)
  {
    if s != [] && s[|s| - 1].score < x.score {
      SwapInsert(s[..|s| - 1], x, a, b);
      assert SwapRows(s, a, b)[..|s| - 1] == SwapRows(s[..|s| - 1], a, b);
    }
  }

  lemma {:induction false} SwapSorted(s: seq<Scored>, a: Id, b: Id)
    ensures Sorted(SwapRows(s, a, b)) == SwapRows(Sorted(s), a, b)
  {
    if s != [] {
      SwapSorted(s[..|s| - 1], a, b);
      assert SwapRows(s, a, b)[..|s| - 1] == SwapRows(s[..|s| - 1], a, b);
      SwapInsert(Sorted(s[..|s| - 1]), s[|s| - 1], a, b);
    }
  }

  lemma {:induction false} SwapPositive(scan: seq<Id>, score: Id -> real, a: Id, b: Id)
    requires score(a) == score(b)
    ensures Positive(SwapIds(scan, a, b), score) == SwapRows(Positive(scan, score), a, b)
  {
    if scan != [] {
      SwapPositive(scan[..|scan| - 1], score, a, b);
      assert SwapIds(scan, a, b)[..|scan| - 1] == SwapIds(scan[..|scan| - 1], a, b);
    }
  }

  lemma {:induction false} SwapRrf(list: seq<Id>, a: Id, b: Id)
    ensures Rrf(SwapIds(list, a, b), a) == Rrf(list, b)
  {
    if list != [] {
      SwapRrf(list[..|list| - 1], a, b);
      assert SwapIds(list, a, b)[..|list| - 1] == SwapIds(list[..|list| - 1], a, b);
    }
  }

  lemma SwapScan(scan: seq<Id>, rows: set<Id>, a: Id, b: Id)
    requires IsScan(scan, rows) && a in rows && b in rows
    ensures IsScan(SwapIds(scan, a, b), rows)
  {
    var other := SwapIds(scan, a, b);
    forall id: Id ensures id in other <==> id in rows {
      var back := SwapId(id, a, b);
      if back in scan {
        var i :| 0 <= i < |scan| && scan[i] == back;
        assert other[i] == id;
      }
      if id in other {
        var i :| 0 <= i < |other| && other[i] == id;
        assert scan[i] in scan;
      }
    }
  }

  lemma RankedOnce(scan: seq<Id>, score: Id -> real, a: Id)
    requires Distinct(scan)
    ensures Distinct(IdsOf(Sorted(Positive(scan, score))))
    ensures a in scan && score(a) > 0.0 ==> a in IdsOf(Sorted(Positive(scan, score)))
  {
    var p := Positive(scan, score);
    PositiveOnce(scan, score);
    SortedSorts(p);
    OnceEach(p, Sorted(p));
    if a in scan && score(a) > 0.0 {
      IsRanked(scan, score, a);
    }
  }

  lemma IsRanked(scan: seq<Id>, score: Id -> real, a: Id)
    requires Distinct(scan) && a in scan && score(a) > 0.0
    ensures a in IdsOf(Sorted(Positive(scan, score)))
  {
    var p, x := Positive(scan, score), Scored(score(a), a);
    PositiveIs(scan, score, x);
    DistinctOnce(scan, a);
    SortedSorts(p);
    InMultiset(Sorted(p), x);
    var i :| 0 <= i < |Sorted(p)| && Sorted(p)[i] == x;
    assert IdsOf(Sorted(p))[i] == a;
  }

  lemma InMultiset(s: seq<Scored>, x: Scored)
    requires multiset(s)[x] > 0
    ensures x in s
  {
  }

  lemma DifferentShares(list: seq<Id>, a: Id, b: Id)
    requires Distinct(list) && a in list && b in list && a != b
    ensures Rrf(list, a) != Rrf(list, b)
  {
    var i :| 0 <= i < |list| && list[i] == a;
    var j :| 0 <= j < |list| && list[j] == b;
    RrfAt(list, a, i);
    RrfAt(list, b, j);
    if i < j {
      Smaller((RRF_K + i + 1) as real, (RRF_K + j + 1) as real);
    } else {
      Smaller((RRF_K + j + 1) as real, (RRF_K + i + 1) as real);
    }
  }

  function Even(): Id -> real { (id: Id) => 1.0 }

  lemma OtherScoreOtherRanking(lexical: seq<Id>, semantic: seq<Id>, lexical2: seq<Id>, semantic2: seq<Id>, a: Id)
    requires a in lexical || a in semantic
    requires a in lexical2 || a in semantic2
    requires Rrf(lexical, a) + Rrf(semantic, a) != Rrf(lexical2, a) + Rrf(semantic2, a)
    ensures Fused(lexical, semantic, Even()) != Fused(lexical2, semantic2, Even())
  {
    var r, r2 := Fused(lexical, semantic, Even()), Fused(lexical2, semantic2, Even());
    FusedIsSound(lexical, semantic, Even());
    FusedIsSound(lexical2, semantic2, Even());
    var s := Scored(ScoreOf(lexical, semantic, Even(), a), a);
    assert s in r;
    assert ScoreOf(lexical2, semantic2, Even(), a) != s.score;
    assert forall i | 0 <= i < |r2| && r2[i].id == a :: r2[i].score == ScoreOf(lexical2, semantic2, Even(), a);
    assert s !in r2;
  }

  lemma {:induction false} SwapIdsOf(s: seq<Scored>, a: Id, b: Id)
    ensures IdsOf(SwapRows(s, a, b)) == SwapIds(IdsOf(s), a, b)
  {
  }

  lemma SwappedHas(list: seq<Id>, a: Id, b: Id)
    requires b in list
    ensures a in SwapIds(list, a, b)
  {
    var i :| 0 <= i < |list| && list[i] == b;
    assert SwapIds(list, a, b)[i] == a;
  }

  /** Two rows with one cosine, scanned the other way round, take each other's rank - and so get
      other scores. */
  lemma MeaningTieShows(lexical: seq<Scored>, scan: seq<Id>, cosine: Id -> real, a: Id, b: Id)
    requires Distinct(scan) && a in scan && b in scan && a != b && cosine(a) == cosine(b) > 0.0
    ensures Ranked(lexical, Sorted(Positive(scan, cosine)), Even()) != Ranked(lexical, Sorted(Positive(SwapIds(scan, a, b), cosine)), Even())
  {
    var semantic := Sorted(Positive(scan, cosine));
    var list := IdsOf(semantic);
    SwapPositive(scan, cosine, a, b);
    SwapSorted(Positive(scan, cosine), a, b);
    SwapIdsOf(semantic, a, b);
    RankedOnce(scan, cosine, a);
    RankedOnce(scan, cosine, b);
    DifferentShares(list, a, b);
    SwapRrf(list, a, b);
    SwappedHas(list, a, b);
    OtherScoreOtherRanking(IdsOf(lexical), list, IdsOf(lexical), SwapIds(list, a, b), a);
  }

  lemma {:induction false} SortedAlready(s: seq<Scored>)
    requires Descending(s)
    ensures Sorted(s) == s
  {
    if s != [] {
      var front, last := s[..|s| - 1], s[|s| - 1];
      SortedAlready(front);
      if front != [] {
        assert s[|s| - 2].score >= last.score;
      }
      assert s == front + [last];
    }
  }

  lemma {:induction false} EvenWords(lexical: seq<Scored>)
    ensures WeighedWords(lexical, Even()) == lexical
  {
    if lexical != [] {
      EvenWords(lexical[..|lexical| - 1]);
    }
  }

  lemma WordTieShowsFused(lexical: seq<Scored>, semantic: seq<Scored>, a: Id, b: Id)
    requires Distinct(IdsOf(lexical)) && a in IdsOf(lexical) && b in IdsOf(lexical) && a != b
    ensures Fused(IdsOf(lexical), IdsOf(semantic), Even()) != Fused(IdsOf(SwapRows(lexical, a, b)), IdsOf(semantic), Even())
  {
    var list := IdsOf(lexical);
    SwapIdsOf(lexical, a, b);
    SwappedHas(list, a, b);
    DifferentShares(list, a, b);
    SwapRrf(list, a, b);
    OtherScoreOtherRanking(list, IdsOf(semantic), SwapIds(list, a, b), IdsOf(semantic), a);
  }

  lemma WordTieShowsAlone(lexical: seq<Scored>, a: Id, b: Id)
    requires Descending(lexical) && a in IdsOf(lexical) && a != b
    ensures Sorted(WeighedWords(lexical, Even())) != Sorted(WeighedWords(SwapRows(lexical, a, b), Even()))
  {
    var other := SwapRows(lexical, a, b);
    EvenWords(lexical);
    EvenWords(other);
    SortedAlready(lexical);
    SortedAlready(other);
    var i :| 0 <= i < |lexical| && IdsOf(lexical)[i] == a;
    assert lexical[i].id == a && other[i].id == b;
  }

  /** ... and so do two rows with one BM25 score. */
  lemma WordTieShows(semantic: seq<Scored>, scan: seq<Id>, words: Id -> real, a: Id, b: Id)
    requires Distinct(scan) && a in scan && b in scan && a != b && words(a) == words(b) > 0.0
    ensures Ranked(Sorted(Positive(scan, words)), semantic, Even()) != Ranked(Sorted(Positive(SwapIds(scan, a, b), words)), semantic, Even())
  {
    SwapPositive(scan, words, a, b);
    SwapSorted(Positive(scan, words), a, b);
    RankedOnce(scan, words, a);
    RankedOnce(scan, words, b);
    if semantic != [] {
      WordTieShowsFused(Sorted(Positive(scan, words)), semantic, a, b);
    } else {
      SortedSorts(Positive(scan, words));
      WordTieShowsAlone(Sorted(Positive(scan, words)), a, b);
    }
  }

  lemma {:induction false} SomeScan(rows: set<Id>) returns (scan: seq<Id>)
    ensures IsScan(scan, rows)
    decreases rows
  {
    if id: Id :| id in rows {
      scan := SomeScan(rows - {id});
      scan := scan + [id];
    } else {
      scan := [];
    }
  }

  lemma {:induction false} KeptAll(vectors: seq<Id>, candidates: seq<Id>)
    requires forall id: Id | id in vectors :: id in candidates
    ensures KeptOnly(vectors, candidates) == vectors
  {
    if vectors != [] {
      var front, last := vectors[..|vectors| - 1], vectors[|vectors| - 1];
      KeptAll(front, candidates);
      assert last in vectors;
      assert vectors == front + [last];
    }
  }

  lemma {:induction false} KeptPrefix(vectors: seq<Id>, more: seq<Id>, candidates: seq<Id>)
    requires forall id: Id | id in vectors :: id in candidates
    requires forall id: Id | id in more :: id !in candidates
    ensures KeptOnly(vectors + more, candidates) == vectors
  {
    if more == [] {
      KeptAll(vectors, candidates);
      assert vectors + more == vectors;
    } else {
      var all, last := vectors + more, more[|more| - 1];
      KeptPrefix(vectors, more[..|more| - 1], candidates);
      assert last in more;
      assert all[..|all| - 1] == vectors + more[..|more| - 1];
    }
  }

  lemma ScanBoth(scan: seq<Id>, more: seq<Id>, rows: set<Id>, rest: set<Id>)
    requires IsScan(scan, rows) && IsScan(more, rest) && rows !! rest
    ensures IsScan(scan + more, rows + rest)
  {
    var all := scan + more;
    forall i, j | 0 <= i < j < |all| ensures all[i] != all[j] {
      if i < |scan| <= j {
        assert scan[i] in scan && more[j - |scan|] in more;
      }
    }
  }

  /** The library may meet the candidates' vectors in any order, the others after them. */
  lemma LibraryScan(store: Store, q: Query, theirs: seq<Id>, wanted: seq<Id>) returns (vectors: seq<Id>)
    requires IsScan(theirs, CortexCandidates(store, q)) && IsScan(wanted, Compared(store, q))
    ensures IsScan(vectors, LibraryVectors(store, q)) && KeptOnly(vectors, theirs) == wanted
  {
    var rest := LibraryVectors(store, q) - Compared(store, q);
    var more := SomeScan(rest);
    KeptPrefix(wanted, more, theirs);
    vectors := wanted + more;
    ScanBoth(wanted, more, Compared(store, q), rest);
    assert Compared(store, q) + rest == LibraryVectors(store, q);
  }

  /** Both readers give the same answer, whatever they scan first, whatever the rows weigh and
      wherever the answer is cut. */
  ghost predicate AlwaysAgree(store: Store, q: Query, scores: Scores) {
    forall weight: Id -> real, mine: seq<Id>, mineVectors: seq<Id>, theirs: seq<Id>, theirVectors: seq<Id>, k: int
      | k >= 0 && Scans(store, q, mine, mineVectors, theirs, theirVectors) ::
      CortexRecall(q, scores, weight, mine, mineVectors, k) == LibraryRanked(q, scores, weight, theirs, theirVectors, k)
  }

  lemma UncutDiffer(r: seq<Scored>, r2: seq<Scored>)
    requires r != r2
    ensures CortexCut(r, |r| + |r2|) != CortexCut(r2, |r| + |r2|)
  {
    Uncut(r, |r| + |r2|);
    Uncut(r2, |r| + |r2|);
  }

  lemma Uncut(r: seq<Scored>, k: nat)
    requires |r| <= k
    ensures CortexCut(r, k) == r
  {
    assert r[..|r|] == r;
    assert |r| == 0 ==> r == [];
  }

  /** One pair of scans that rank differently is enough. */
  lemma Disagree(store: Store, q: Query, scores: Scores, mine: seq<Id>, vectors: seq<Id>, theirs: seq<Id>, theirVectors: seq<Id>)
    requires Named(q) && q.words && Scans(store, q, mine, vectors, theirs, theirVectors) && mine != [] && theirs != []
    requires var words := Words(store, q, scores);
      Ranked(Sorted(Positive(mine, words)), Sorted(Positive(vectors, scores.cosine)), Even()) !=
      Ranked(Sorted(Positive(theirs, words)), Sorted(Positive(KeptOnly(theirVectors, theirs), scores.cosine)), Even())
    ensures !AlwaysAgree(store, q, scores)
  {
    var words := Words(store, q, scores);
    var r := Ranked(Sorted(Positive(mine, words)), Sorted(Positive(vectors, scores.cosine)), Even());
    var r2 := Ranked(Sorted(Positive(theirs, words)), Sorted(Positive(KeptOnly(theirVectors, theirs), scores.cosine)), Even());
    var k := |r| + |r2|;
    UncutDiffer(r, r2);
    CortexRanks(store, q, scores, Even(), mine, vectors, k);
    LibraryRanks(store, q, scores, Even(), theirs, theirVectors, k);
    assert CortexRecall(q, scores, Even(), mine, vectors, k) != LibraryRanked(q, scores, Even(), theirs, theirVectors, k);
  }

  lemma HasRow(scan: seq<Id>, rows: set<Id>, id: Id)
    requires IsScan(scan, rows) && id in rows
    ensures scan != [] && id in scan
  {
  }

  lemma WordTieDisagrees(store: Store, q: Query, scores: Scores, a: Id, b: Id)
    requires Named(q) && q.words && a in CortexCandidates(store, q) && b in CortexCandidates(store, q) && a != b
    requires Words(store, q, scores)(a) == Words(store, q, scores)(b) > 0.0
    ensures !AlwaysAgree(store, q, scores)
  {
    SameCandidates(store, q);
    var mine := SomeScan(CortexCandidates(store, q));
    var theirs := SwapIds(mine, a, b);
    SwapScan(mine, CortexCandidates(store, q), a, b);
    HasRow(mine, CortexCandidates(store, q), a);
    HasRow(mine, CortexCandidates(store, q), b);
    var vectors := SomeScan(Compared(store, q));
    assert CortexVectors(store, q, mine) == Compared(store, q);
    var theirVectors := LibraryScan(store, q, theirs, vectors);
    WordTieShows(Sorted(Positive(vectors, scores.cosine)), mine, Words(store, q, scores), a, b);
    Disagree(store, q, scores, mine, vectors, theirs, theirVectors);
  }

  lemma MeaningTieDisagrees(store: Store, q: Query, scores: Scores, a: Id, b: Id)
    requires Named(q) && q.words && a in Compared(store, q) && b in Compared(store, q) && a != b
    requires scores.cosine(a) == scores.cosine(b) > 0.0
    ensures !AlwaysAgree(store, q, scores)
  {
    SameCandidates(store, q);
    var mine := SomeScan(CortexCandidates(store, q));
    HasRow(mine, CortexCandidates(store, q), a);
    var vectors := SomeScan(Compared(store, q));
    assert CortexVectors(store, q, mine) == Compared(store, q);
    SwapScan(vectors, Compared(store, q), a, b);
    var theirVectors := LibraryScan(store, q, mine, SwapIds(vectors, a, b));
    MeaningTieShows(Sorted(Positive(mine, Words(store, q, scores))), vectors, scores.cosine, a, b);
    Disagree(store, q, scores, mine, vectors, mine, theirVectors);
  }

  /** Exactly when the two always agree: when no two candidates tie in words and no two in
      meaning. (A query without words is answered by neither.) */
  lemma AgreeExactlyWithoutTies(store: Store, q: Query, scores: Scores)
    requires Named(q) && q.words
    ensures AlwaysAgree(store, q, scores) <==> NoTiesIn(store, q, scores)
  {
    if NoTiesIn(store, q, scores) {
      forall weight: Id -> real, mine: seq<Id>, mineVectors: seq<Id>, theirs: seq<Id>, theirVectors: seq<Id>, k: int
        | k >= 0 && Scans(store, q, mine, mineVectors, theirs, theirVectors)
        ensures CortexRecall(q, scores, weight, mine, mineVectors, k) == LibraryRanked(q, scores, weight, theirs, theirVectors, k)
      {
        TwinsAgree(store, q, scores, weight, mine, mineVectors, theirs, theirVectors, k);
      }
    } else if !Untied(CortexCandidates(store, q), Words(store, q, scores)) {
      var a, b :| a in CortexCandidates(store, q) && b in CortexCandidates(store, q) && a != b
        && Words(store, q, scores)(a) > 0.0 && Words(store, q, scores)(a) == Words(store, q, scores)(b);
      WordTieDisagrees(store, q, scores, a, b);
    } else {
      var a, b :| a in Compared(store, q) && b in Compared(store, q) && a != b
        && scores.cosine(a) > 0.0 && scores.cosine(a) == scores.cosine(b);
      MeaningTieDisagrees(store, q, scores, a, b);
    }
  }
}
