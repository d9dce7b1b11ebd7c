/** What a recall answers, in terms of the memories, their scores and their places in the two
    rankings. */
module RankingMeaning {
  import opened Wrappers
  import opened Ranking

  // ----- the fused score

  ghost function PlaceIn(list: seq<Id>, id: Id): (i: nat)
    requires id in list
    ensures i < |list| && list[i] == id
  {
    var i :| 0 <= i < |list| && list[i] == id;
    i
  }

  /** What a list adds to a row's score: a sixty-first for its first row, a sixty-second for the
      next one, nothing for a row that is not in it. */
  ghost function Share(list: seq<Id>, id: Id): real {
    if id in list then 1.0 / (61 + PlaceIn(list, id)) as real else 0.0
  }

  lemma ShareIs(list: seq<Id>, id: Id)
    requires Distinct(list)
    ensures Rrf(list, id) == Share(list, id)
  {
    if id in list {
      RrfAt(list, id, PlaceIn(list, id));
    } else {
      RrfNone(list, id);
    }
  }

  /** What a score comes to for a row of this weight. */
  function Times(score: real, weight: real): real { score * weight }

  predicate Has(ranked: seq<Scored>, id: Id) { exists i :: 0 <= i < |ranked| && ranked[i].id == id }

  predicate OnceEachId(ranked: seq<Scored>) { forall i, j | 0 <= i < j < |ranked| :: ranked[i].id != ranked[j].id }

  /** These rows, each once, the best first. */
  ghost predicate IsRankingOf(ranked: seq<Scored>, ids: set<Id>) {
    Descending(ranked) && OnceEachId(ranked) && forall id: Id :: Has(ranked, id) <==> id in ids
  }

  function Members(list: seq<Id>): set<Id> { set id | id in list }

  lemma FusedHas(lexical: seq<Id>, semantic: seq<Id>, weight: Id -> real, id: Id)
    ensures Has(Fused(lexical, semantic, weight), id) <==> id in lexical || id in semantic
  {
    var r := Fused(lexical, semantic, weight);
    FusedIsSound(lexical, semantic, weight);
    if id in lexical || id in semantic {
      assert Scored(ScoreOf(lexical, semantic, weight, id), id) in r;
    }
    if Has(r, id) {
      var i :| 0 <= i < |r| && r[i].id == id;
      assert r[i] == Scored(ScoreOf(lexical, semantic, weight, id), id);
      assert r[i] in r;
    }
  }

  lemma ScoreIs(lexical: seq<Id>, semantic: seq<Id>, weight: Id -> real, id: Id)
    requires Distinct(lexical) && Distinct(semantic)
    ensures ScoreOf(lexical, semantic, weight, id) == Times(Share(lexical, id) + Share(semantic, id), weight(id))
  {
    ShareIs(lexical, id);
    ShareIs(semantic, id);
  }

  lemma FusedScores(lexical: seq<Id>, semantic: seq<Id>, weight: Id -> real)
    requires Distinct(lexical) && Distinct(semantic)
    ensures var r := Fused(lexical, semantic, weight);
      && IsRankingOf(r, Members(lexical) + Members(semantic))
      && forall i | 0 <= i < |r| :: r[i].score == Times(Share(lexical, r[i].id) + Share(semantic, r[i].id), weight(r[i].id))
  {
    var r := Fused(lexical, semantic, weight);
    FusedIsSound(lexical, semantic, weight);
    forall i | 0 <= i < |r| ensures r[i].score == Times(Share(lexical, r[i].id) + Share(semantic, r[i].id), weight(r[i].id)) {
      ScoreIs(lexical, semantic, weight, r[i].id);
    }
    forall id: Id ensures Has(r, id) <==> id in Members(lexical) + Members(semantic) {
      FusedHas(lexical, semantic, weight, id);
    }
  }

  // ----- words alone

  lemma {:induction false} WeighedWordsAt(lexical: seq<Scored>, weight: Id -> real)
    ensures |WeighedWords(lexical, weight)| == |lexical|
    ensures forall i | 0 <= i < |lexical| ::
      WeighedWords(lexical, weight)[i] == Scored(Times(lexical[i].score, weight(lexical[i].id)), lexical[i].id)
  {
    if lexical != [] {
      WeighedWordsAt(lexical[..|lexical| - 1], weight);
    }
  }

  lemma SortedHas(w: seq<Scored>, id: Id)
    ensures Has(Sorted(w), id) <==> Has(w, id)
  {
    var r := Sorted(w);
    SortedSorts(w);
    if Has(r, id) {
      var i :| 0 <= i < |r| && r[i].id == id;
      assert r[i] in multiset(w);
    }
    if Has(w, id) {
      var i :| 0 <= i < |w| && w[i].id == id;
      assert w[i] in multiset(r);
    }
  }

  lemma SortedRanking(w: seq<Scored>, ids: set<Id>)
    requires OnceEachId(w) && forall id: Id :: Has(w, id) <==> id in ids
    ensures IsRankingOf(Sorted(w), ids)
    ensures forall i | 0 <= i < |Sorted(w)| :: Sorted(w)[i] in w
  {
    SortedSorts(w);
    OnceEach(w, Sorted(w));
    forall id: Id ensures Has(Sorted(w), id) <==> id in ids {
      SortedHas(w, id);
    }
    forall i | 0 <= i < |Sorted(w)| ensures Sorted(w)[i] in w {
      assert Sorted(w)[i] in multiset(w);
    }
  }

  lemma WordsScores(lexical: seq<Scored>, weight: Id -> real, words: Id -> real)
    requires Distinct(IdsOf(lexical)) && forall i | 0 <= i < |lexical| :: lexical[i].score == words(lexical[i].id)
    ensures var r := Sorted(WeighedWords(lexical, weight));
      && IsRankingOf(r, Members(IdsOf(lexical)))
      && forall i | 0 <= i < |r| :: r[i].score == Times(words(r[i].id), weight(r[i].id))
  {
    var w := WeighedWords(lexical, weight);
    WeighedWordsAt(lexical, weight);
    forall i, j | 0 <= i < j < |w| ensures w[i].id != w[j].id {
      assert IdsOf(lexical)[i] != IdsOf(lexical)[j];
    }
    forall id: Id ensures Has(w, id) <==> id in Members(IdsOf(lexical)) {
      if Has(w, id) {
        var i :| 0 <= i < |w| && w[i].id == id;
        assert IdsOf(lexical)[i] == id;
      }
      if id in IdsOf(lexical) {
        var i :| 0 <= i < |lexical| && IdsOf(lexical)[i] == id;
        assert w[i].id == id;
      }
    }
    SortedRanking(w, Members(IdsOf(lexical)));
  }

  // ----- one ranking

  /** The rows that score at all, each once, the best first. */
  ghost predicate Ranks(list: seq<Id>, rows: set<Id>, score: Id -> real) {
    && Distinct(list)
    && (forall id: Id :: id in list <==> id in rows && score(id) > 0.0)
    && (forall i, j | 0 <= i < j < |list| :: score(list[i]) >= score(list[j]))
  }

  lemma PositiveHasId(scan: seq<Id>, rows: set<Id>, score: Id -> real, id: Id)
    requires IsScan(scan, rows)
    ensures id in IdsOf(Sorted(Positive(scan, score))) <==> id in rows && score(id) > 0.0
  {
    var s := Sorted(Positive(scan, score));
    if id in rows && score(id) > 0.0 {
      IsRanked(scan, score, id);
    }
    if id in IdsOf(s) {
      var i :| 0 <= i < |s| && IdsOf(s)[i] == id;
      PositiveScore(scan, score, i);
    }
  }

  lemma PositiveScore(scan: seq<Id>, score: Id -> real, i: nat)
    requires i < |Sorted(Positive(scan, score))|
    ensures var x := Sorted(Positive(scan, score))[i];
      x.id in scan && x.score == score(x.id) && x.score > 0.0
  {
    var p := Positive(scan, score);
    SortedSorts(p);
    assert Sorted(p)[i] in multiset(p);
    var k :| 0 <= k < |p| && p[k] == Sorted(p)[i];
    PositiveHas(scan, score, k);
  }

  lemma PositiveRanks(scan: seq<Id>, rows: set<Id>, score: Id -> real)
    requires IsScan(scan, rows)
    ensures var s := Sorted(Positive(scan, score));
      Ranks(IdsOf(s), rows, score) && forall i | 0 <= i < |s| :: s[i].score == score(s[i].id)
  {
    var p := Positive(scan, score);
    var s := Sorted(p);
    SortedSorts(p);
    PositiveOnce(scan, score);
    OnceEach(p, s);
    forall i | 0 <= i < |s| ensures s[i].score == score(s[i].id) {
      PositiveScore(scan, score, i);
    }
    forall id: Id ensures id in IdsOf(s) <==> id in rows && score(id) > 0.0 {
      PositiveHasId(scan, rows, score, id);
    }
    assert Descending(s);
    forall i, j | 0 <= i < j < |s| ensures score(IdsOf(s)[i]) >= score(IdsOf(s)[j]) {
    }
  }

  // ----- the whole answer

  ghost function Counted(lexical: seq<Id>, semantic: seq<Id>, words: Id -> real, id: Id): real {
    if semantic == [] then words(id) else Share(lexical, id) + Share(semantic, id)
  }

  /** `ranked` is every row of either ranking, once, with its score, the best first: its shares
      in the two rankings, weighed, or - when nothing is close in meaning - its score in words,
      weighed. */
  ghost predicate IsAnswer(ranked: seq<Scored>, lexical: seq<Id>, semantic: seq<Id>, words: Id -> real, weight: Id -> real) {
    && IsRankingOf(ranked, Members(lexical) + Members(semantic))
    && forall i | 0 <= i < |ranked| ::
         ranked[i].score == Times(Counted(lexical, semantic, words, ranked[i].id), weight(ranked[i].id))
  }

  ghost predicate Answers(ranked: seq<Scored>, candidates: set<Id>, compared: set<Id>, words: Id -> real, cosine: Id -> real, weight: Id -> real) {
    exists lexical: seq<Id>, semantic: seq<Id> ::
      Ranks(lexical, candidates, words) && Ranks(semantic, compared, cosine) && IsAnswer(ranked, lexical, semantic, words, weight)
  }

  lemma FusedAnswers(lexical: seq<Id>, semantic: seq<Id>, words: Id -> real, weight: Id -> real)
    requires Distinct(lexical) && Distinct(semantic) && semantic != []
    ensures IsAnswer(Fused(lexical, semantic, weight), lexical, semantic, words, weight)
  {
    FusedScores(lexical, semantic, weight);
    var r := Fused(lexical, semantic, weight);
    forall i | 0 <= i < |r| ensures r[i].score == Times(Counted(lexical, semantic, words, r[i].id), weight(r[i].id)) {
      assert Counted(lexical, semantic, words, r[i].id) == Share(lexical, r[i].id) + Share(semantic, r[i].id);
    }
  }

  lemma AnswerIs(lexical: seq<Scored>, semantic: seq<Scored>, words: Id -> real, weight: Id -> real)
    requires Distinct(IdsOf(lexical)) && Distinct(IdsOf(semantic))
    requires forall i | 0 <= i < |lexical| :: lexical[i].score == words(lexical[i].id)
    ensures IsAnswer(Ranked(lexical, semantic, weight), IdsOf(lexical), IdsOf(semantic), words, weight)
  {
    if semantic != [] {
      FusedAnswers(IdsOf(lexical), IdsOf(semantic), words, weight);
    } else {
      WordsScores(lexical, weight, words);
      assert Members(IdsOf(lexical)) + Members([]) == Members(IdsOf(lexical));
      assert IdsOf(semantic) == [];
      var r := Ranked(lexical, semantic, weight);
      forall i | 0 <= i < |r| ensures r[i].score == Times(Counted(IdsOf(lexical), [], words, r[i].id), weight(r[i].id)) {
      }
    }
  }

  lemma RankedAnswers(scan: seq<Id>, vectors: seq<Id>, candidates: set<Id>, compared: set<Id>, words: Id -> real, cosine: Id -> real, weight: Id -> real)
    requires IsScan(scan, candidates) && IsScan(vectors, compared)
    ensures Answers(Ranked(Sorted(Positive(scan, words)), Sorted(Positive(vectors, cosine)), weight), candidates, compared, words, cosine, weight)
  {
    var lexical, semantic := Sorted(Positive(scan, words)), Sorted(Positive(vectors, cosine));
    PositiveRanks(scan, candidates, words);
    PositiveRanks(vectors, compared, cosine);
    AnswerIs(lexical, semantic, words, weight);
    assert IsAnswer(Ranked(lexical, semantic, weight), IdsOf(lexical), IdsOf(semantic), words, weight);
  }

  /** The memories a caller may be given: active, and of the namespace and the kind asked for. */
  function Eligible(store: Store, namespace: Option<string>, kind: Option<string>): set<Id> {
    set id | id in store.memories && store.memories[id].active
      && (namespace == None || namespace == Some(store.memories[id].namespace))
      && (kind == None || kind == Some(store.memories[id].kind))
  }

  /** Those of them with a vector the embedded query can be compared with. */
  function Comparable(store: Store, rows: set<Id>, model: Option<string>): set<Id> {
    set id | id in rows && id in store.vectors && model == Some(store.vectors[id])
  }

  function First(ranked: seq<Scored>, n: int): seq<Scored> {
    if n <= 0 then [] else if n < |ranked| then ranked[..n] else ranked
  }

  /** The server's recall: nothing for a query without words, and otherwise the first `k` rows of
      the answer. */
  lemma RecallMeans(store: Store, q: Query, scores: Scores, weight: Id -> real, mine: seq<Id>, vectors: seq<Id>, k: int)
    requires IsScan(mine, CortexCandidates(store, q)) && IsScan(vectors, CortexVectors(store, q, mine))
    ensures var rows := Eligible(store, q.namespace, q.kind);
      var r := CortexRecall(q, scores, weight, mine, vectors, k);
      if !q.words || rows == {} then r == []
      else exists ranked: seq<Scored> ::
        Answers(ranked, rows, Comparable(store, rows, q.model), (id: Id) => scores.bm25(rows, id), scores.cosine, weight) && r == First(ranked, k)
  {
    var rows := Eligible(store, q.namespace, q.kind);
    assert rows == CortexCandidates(store, q);
    var all := set id | id in mine;
    assert all == rows;
    assert CortexVectors(store, q, mine) == Comparable(store, rows, q.model);
    if q.words && rows != {} {
      var words := (id: Id) => scores.bm25(rows, id);
      SamePositive(mine, (id: Id) => scores.bm25(all, id), words);
      if q.model.None? {
        NoneIn(vectors);
      }
      RankedAnswers(mine, vectors, rows, Comparable(store, rows, q.model), words, scores.cosine, weight);
      var ranked := Ranked(Sorted(Positive(mine, words)), Sorted(Positive(vectors, scores.cosine)), weight);
      assert CortexRecall(q, scores, weight, mine, vectors, k) == First(ranked, k);
    } else if rows == {} {
      NoneIn(mine);
    }
  }

  /** What the library's reader may give: the same, but for a name that is empty, which is no
      name. */
  function Named(name: Option<string>): Option<string> { if name == Some("") then None else name }

  /** A negative `k` drops so many from the end. */
  function FirstOrAllBut(ranked: seq<Scored>, k: int): seq<Scored> { First(ranked, if k < 0 then |ranked| + k else k) }

  lemma LibraryMeans(store: Store, q: Query, scores: Scores, weight: Id -> real, theirs: seq<Id>, vectors: seq<Id>, k: int)
    requires IsScan(theirs, LibraryCandidates(store, q)) && IsScan(vectors, LibraryVectors(store, q))
    ensures var rows := Eligible(store, Named(q.namespace), Named(q.kind));
      var r := LibraryRanked(q, scores, weight, theirs, vectors, k);
      if !q.words || rows == {} then r == []
      else exists ranked: seq<Scored> ::
        Answers(ranked, rows, Comparable(store, rows, q.model), (id: Id) => scores.bm25(rows, id), scores.cosine, weight) && r == FirstOrAllBut(ranked, k)
  {
    var rows := Eligible(store, Named(q.namespace), Named(q.kind));
    assert rows == LibraryCandidates(store, q);
    if q.words && rows != {} {
      LibraryKeeps(store, q, rows, theirs, vectors);
      LibraryAnswers(q, scores, weight, theirs, vectors, k, rows, Comparable(store, rows, q.model));
    } else if rows == {} {
      NoneIn(theirs);
    }
  }

  lemma LibraryKeeps(store: Store, q: Query, rows: set<Id>, theirs: seq<Id>, vectors: seq<Id>)
    requires IsScan(theirs, rows) && IsScan(vectors, LibraryVectors(store, q))
    ensures IsScan(KeptOnly(vectors, theirs), Comparable(store, rows, q.model))
    ensures q.model.None? ==> KeptOnly(vectors, theirs) == []
  {
    KeptOnlyIs(vectors, theirs);
    if q.model.None? {
      NoneIn(KeptOnly(vectors, theirs));
    }
  }

  lemma CutIs(ranked: seq<Scored>, k: int)
    ensures LibraryCut(ranked, k) == FirstOrAllBut(ranked, k)
  {
  }

  lemma LibraryAnswers(q: Query, scores: Scores, weight: Id -> real, theirs: seq<Id>, vectors: seq<Id>, k: int, rows: set<Id>, compared: set<Id>)
    requires q.words && IsScan(theirs, rows) && rows != {} && IsScan(KeptOnly(vectors, theirs), compared)
    requires q.model.None? ==> KeptOnly(vectors, theirs) == []
    ensures exists ranked: seq<Scored> ::
      && Answers(ranked, rows, compared, (id: Id) => scores.bm25(rows, id), scores.cosine, weight)
      && LibraryRanked(q, scores, weight, theirs, vectors, k) == FirstOrAllBut(ranked, k)
  {
    var all := set id | id in theirs;
    assert all == rows;
    var words, kept := (id: Id) => scores.bm25(rows, id), KeptOnly(vectors, theirs);
    SamePositive(theirs, (id: Id) => scores.bm25(all, id), words);
    RankedAnswers(theirs, kept, rows, compared, words, scores.cosine, weight);
    var ranked := Ranked(Sorted(Positive(theirs, words)), Sorted(Positive(kept, scores.cosine)), weight);
    assert theirs != [];
    CutIs(ranked, k);
  }
}
