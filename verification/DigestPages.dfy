/** `DiscordGate._pack` of src/pionir/discord_gate.py: the items of a digest into cards of at
    most ten items, each card short enough for one Discord message. */
module DigestPages {

  type Id = nat
  type Page = seq<Id>

  const DIGEST_MAX_ITEMS := 10
  const MESSAGE_LIMIT := 2000

  /** The length of a card as `render_digest_card` builds it: everything around the items
      (`frame`), the item count in the heading, and a numbered line per item. `width` is an
      item's line without its number, measured with the longest link, status and note. */
  datatype Layout = Layout(frame: nat, width: Id -> nat)

  /** "1 item" ... "10 items": the digits and the plural. */
  function CountWidth(n: nat): nat { if n == 1 then 1 else if n < 10 then 2 else 3 }

  /** Keycaps one to nine are three characters long, the tenth is one. */
  function NumberWidth(position: nat): nat { if position < 9 then 3 else 1 }

  function Lines(layout: Layout, page: Page): nat {
    if page == [] then 0
    else Lines(layout, page[..|page| - 1]) + 1 + NumberWidth(|page| - 1) + layout.width(page[|page| - 1])
  }

  function CardLength(layout: Layout, page: Page): nat {
    layout.frame + CountWidth(|page|) + Lines(layout, page)
  }

  predicate Fits(layout: Layout, page: Page) {
    |page| <= DIGEST_MAX_ITEMS && CardLength(layout, page) <= MESSAGE_LIMIT
  }

  /** One item always gets a card, even if its line alone is too long. */
  predicate Allowed(layout: Layout, page: Page) { |page| == 1 || (|page| > 1 && Fits(layout, page)) }

  function Flatten(pages: seq<Page>): seq<Id> {
    if pages == [] then [] else Flatten(pages[..|pages| - 1]) + pages[|pages| - 1]
  }

  predicate Splits(layout: Layout, items: seq<Id>, pages: seq<Page>) {
    Flatten(pages) == items && forall i | 0 <= i < |pages| :: Allowed(layout, pages[i])
  }

  /** The page could not have taken the next one's first item. */
  predicate Overflows(layout: Layout, page: Page, next: Page) {
    next != [] && !Fits(layout, page + [next[0]])
  }

  predicate Full(layout: Layout, pages: seq<Page>) {
    forall i, j | 0 <= i && j == i + 1 < |pages| :: Overflows(layout, pages[i], pages[j])
  }

  lemma FlattenMore(pages: seq<Page>, page: Page)
    ensures Flatten(pages + [page]) == Flatten(pages) + page
  {
    assert (pages + [page])[..|pages|] == pages;
  }

  lemma FullMore(layout: Layout, pages: seq<Page>, page: Page)
    requires Full(layout, pages)
    requires pages != [] ==> Overflows(layout, pages[|pages| - 1], page)
    ensures Full(layout, pages + [page])
  {
    var more := pages + [page];
    forall i, j | 0 <= i && j == i + 1 < |more| ensures Overflows(layout, more[i], more[j]) {
      if j < |pages| {
        assert Overflows(layout, pages[i], pages[j]);
      }
    }
  }

  /** Where the loop of `Pack` stands after `n` items. */
  predicate Packing(layout: Layout, items: seq<Id>, n: nat, pages: seq<Page>, current: Page) {
    && n <= |items|
    && Flatten(pages) + current == items[..n]
    && (forall i | 0 <= i < |pages| :: Allowed(layout, pages[i]))
    && Full(layout, pages)
    && (if n == 0 then current == [] && pages == [] else Allowed(layout, current))
    && (pages != [] ==> Overflows(layout, pages[|pages| - 1], current))
  }

  lemma Joins(layout: Layout, items: seq<Id>, n: nat, pages: seq<Page>, current: Page)
    requires Packing(layout, items, n, pages, current) && n < |items|
    requires current == [] || Fits(layout, current + [items[n]])
    ensures Packing(layout, items, n + 1, pages, current + [items[n]])
  {
    assert items[..n + 1] == items[..n] + [items[n]];
    assert Flatten(pages) + (current + [items[n]]) == (Flatten(pages) + current) + [items[n]];
    if pages != [] {
      assert (current + [items[n]])[0] == current[0];
    }
  }

  lemma Opens(layout: Layout, items: seq<Id>, n: nat, pages: seq<Page>, current: Page)
    requires Packing(layout, items, n, pages, current) && n < |items|
    requires current != [] && !Fits(layout, current + [items[n]])
    ensures Packing(layout, items, n + 1, pages + [current], [items[n]])
  {
    FlattenMore(pages, current);
    FullMore(layout, pages, current);
    assert items[..n + 1] == items[..n] + [items[n]];
  }

  lemma Closes(layout: Layout, items: seq<Id>, pages: seq<Page>, current: Page)
    requires Packing(layout, items, |items|, pages, current)
    ensures var all := if current == [] then pages else pages + [current];
      Splits(layout, items, all) && Full(layout, all)
  {
    assert items[..|items|] == items;
    if current != [] {
      FlattenMore(pages, current);
      FullMore(layout, pages, current);
      var all := pages + [current];
      assert Flatten(all) == items;
      assert forall i | 0 <= i < |all| :: Allowed(layout, all[i]);
    } else {
      assert Flatten(pages) + current == Flatten(pages);
    }
  }

  method Pack(layout: Layout, items: seq<Id>) returns (pages: seq<Page>)
    ensures Splits(layout, items, pages) && Full(layout, pages)
  {
    pages := [];
    var current: Page := [];
    for n := 0 to |items|
      invariant Packing(layout, items, n, pages, current)
    {
      var trial := current + [items[n]];
      var fits := |trial| <= DIGEST_MAX_ITEMS && CardLength(layout, trial) <= MESSAGE_LIMIT;
      assert fits == Fits(layout, trial);
      if current != [] && !fits {
        Opens(layout, items, n, pages, current);
        pages := pages + [current];
        current := [items[n]];
      } else {
        Joins(layout, items, n, pages, current);
        current := trial;
      }
    }
    Closes(layout, items, pages, current);
    if current != [] {
      pages := pages + [current];
    }
  }

  // ----- greedy is optimal

  lemma {:induction false} LinesOfPrefix(layout: Layout, page: Page, n: nat)
    requires n <= |page|
    ensures Lines(layout, page[..n]) <= Lines(layout, page)
  {
    if n < |page| {
      assert page[..|page| - 1][..n] == page[..n];
      LinesOfPrefix(layout, page[..|page| - 1], n);
    } else {
      assert page[..n] == page;
    }
  }

  /** Without its first item every later line moves up one number. */
  lemma {:induction false} LinesOfTail(layout: Layout, page: Page)
    requires page != []
    ensures Lines(layout, page) == Lines(layout, page[1..]) + 1 + NumberWidth(|page| - 1) + layout.width(page[0])
  {
    if |page| > 1 {
      var shorter := page[..|page| - 1];
      assert shorter[1..] == page[1..][..|page| - 2];
      LinesOfTail(layout, shorter);
    }
  }

  /** Whatever fits still fits when items are taken away at either end. */
  lemma {:induction false} SegmentFits(layout: Layout, page: Page, from: nat, to: nat)
    requires from < to <= |page| && Fits(layout, page)
    ensures Fits(layout, page[from..to])
    decreases from
  {
    if from > 0 {
      LinesOfTail(layout, page);
      SegmentFits(layout, page[1..], from - 1, to - 1);
      assert page[1..][from - 1..to - 1] == page[from..to];
    } else {
      LinesOfPrefix(layout, page, to);
    }
  }

  /** Where page `k` starts. */
  function Start(pages: seq<Page>, k: nat): nat
    requires k <= |pages|
  {
    |Flatten(pages[..k])|
  }

  lemma {:induction false} PageIsSegment(pages: seq<Page>, k: nat)
    requires k < |pages|
    ensures Start(pages, k + 1) == Start(pages, k) + |pages[k]|
    ensures Start(pages, k + 1) <= |Flatten(pages)|
    ensures Flatten(pages)[Start(pages, k)..Start(pages, k + 1)] == pages[k]
  {
    assert pages[..k + 1][..k] == pages[..k];
    if k + 1 < |pages| {
      var shorter := pages[..|pages| - 1];
      PageIsSegment(shorter, k);
      assert shorter[..k] == pages[..k] && shorter[..k + 1] == pages[..k + 1];
    } else {
      assert pages[..k + 1] == pages;
    }
  }

  /** If an allowed page reaches past both ends of another one, that one was not full. */
  lemma Swallowed(layout: Layout, items: seq<Id>, page: Page, next: Page, other: Page, at: nat, otherAt: nat)
    requires otherAt <= at && page != [] && next != [] && at + |page| < otherAt + |other| <= |items|
    requires items[at..at + |page|] == page && items[otherAt..otherAt + |other|] == other
    requires items[at + |page|] == next[0]
    requires Allowed(layout, other)
    ensures !Overflows(layout, page, next)
  {
    var from, to := at - otherAt, at + |page| + 1 - otherAt;
    SegmentFits(layout, other, from, to);
    forall i | 0 <= i <= |page| ensures other[from..to][i] == (page + [next[0]])[i] {
      assert other[from + i] == items[at + i];
      assert i < |page| ==> page[i] == items[at + i];
    }
    assert other[from..to] == page + [next[0]];
  }

  /** The first `k` greedy pages hold at least what any other `k` allowed pages hold. */
  lemma {:induction false} StaysAhead(layout: Layout, items: seq<Id>, pages: seq<Page>, others: seq<Page>, k: nat)
    requires Splits(layout, items, pages) && Full(layout, pages) && Splits(layout, items, others)
    requires k <= |pages| && k <= |others|
    ensures Start(others, k) <= Start(pages, k)
  {
    if k > 0 {
      StaysAhead(layout, items, pages, others, k - 1);
      PageIsSegment(pages, k - 1);
      PageIsSegment(others, k - 1);
      if k == |pages| {
        assert pages[..k] == pages;
      } else {
        PageIsSegment(pages, k);
        assert items[Start(pages, k)] == pages[k][0] by {
          assert items[Start(pages, k)..Start(pages, k + 1)][0] == pages[k][0];
        }
        assert Overflows(layout, pages[k - 1], pages[k]);
        if Start(others, k) > Start(pages, k) {
          Swallowed(layout, items, pages[k - 1], pages[k], others[k - 1], Start(pages, k - 1), Start(others, k - 1));
        }
      }
    }
  }

  /** No other way of cutting the items, in order, into allowed cards uses fewer of them. */
  lemma GreedyIsOptimal(layout: Layout, items: seq<Id>, pages: seq<Page>, others: seq<Page>)
    requires Splits(layout, items, pages) && Full(layout, pages) && Splits(layout, items, others)
    ensures |pages| <= |others|
  {
    if |others| < |pages| {
      assert others[..|others|] == others;
      StaysAhead(layout, items, pages, others, |others|);
      PageIsSegment(pages, |others|);
    }
  }

  lemma SameStarts(layout: Layout, items: seq<Id>, pages: seq<Page>, others: seq<Page>, k: nat)
    requires Splits(layout, items, pages) && Full(layout, pages)
    requires Splits(layout, items, others) && Full(layout, others)
    requires k <= |pages| == |others|
    ensures Start(pages, k) == Start(others, k)
  {
    StaysAhead(layout, items, pages, others, k);
    StaysAhead(layout, items, others, pages, k);
  }

  /** And being full pins the cards down: `Pack` could have returned nothing else. */
  lemma FullIsUnique(layout: Layout, items: seq<Id>, pages: seq<Page>, others: seq<Page>)
    requires Splits(layout, items, pages) && Full(layout, pages)
    requires Splits(layout, items, others) && Full(layout, others)
    ensures pages == others
  {
    GreedyIsOptimal(layout, items, pages, others);
    GreedyIsOptimal(layout, items, others, pages);
    forall k | 0 <= k < |pages| ensures pages[k] == others[k] {
      SameStarts(layout, items, pages, others, k);
      SameStarts(layout, items, pages, others, k + 1);
      PageIsSegment(pages, k);
      PageIsSegment(others, k);
    }
  }
}
