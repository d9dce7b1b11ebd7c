/** What fits on a digest card, in characters. */
module PageMeaning {
  import opened DigestPages

  function Widths(layout: Layout, page: Page): nat {
    if page == [] then 0 else layout.width(page[0]) + Widths(layout, page[1..])
  }

  lemma {:induction false} WidthsOfLast(layout: Layout, page: Page)
    requires page != []
    ensures Widths(layout, page) == Widths(layout, page[..|page| - 1]) + layout.width(page[|page| - 1])
  {
    if |page| > 1 {
      WidthsOfLast(layout, page[1..]);
      assert page[1..][..|page| - 2] == page[..|page| - 1][1..];
    } else {
      assert page[1..] == [] && page[..0] == [];
    }
  }

  lemma {:induction false} LinesAre(layout: Layout, page: Page)
    requires |page| <= 10
    ensures Lines(layout, page) == Widths(layout, page) + |page| + if |page| < 10 then 3 * |page| else 28
  {
    if page != [] {
      LinesAre(layout, page[..|page| - 1]);
      WidthsOfLast(layout, page);
    }
  }

  /** A card fits if it has no more than ten items and no more than 2000 characters: around the
      items, in the digits of "n items" and its plural, in the items, in their newlines, and in
      their numbers, which are keycaps of three characters up to nine and one for the tenth. */
  lemma FitsExactly(layout: Layout, page: Page)
    ensures Fits(layout, page) <==>
      var n := |page|;
      && n <= 10
      && layout.frame + (if n < 10 then 1 else 2) + (if n == 1 then 0 else 1)
           + Widths(layout, page) + n + (if n == 10 then 9 * 3 + 1 else n * 3) <= 2000
  {
    if |page| <= 10 {
      LinesAre(layout, page);
    }
  }
}
