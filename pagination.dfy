/**
 * The page-flow rule of the window manager as pure functions over the
 * sequence of card heights: one greedy top-down pass with a cursor that
 * starts at the top of the page, no lookahead, no reordering and no card
 * split across pages.
 */
module Pagination {

  const DocumentHeight: int := 842

  /** The loop's state: the cursor (bottom edge of the last card) and the page index. */
  datatype Cursor = Cursor(y: int, page: nat)

  /** Card number `window` is painted on page `page` with its bottom edge at `y`. */
  datatype Placement = Placement(window: nat, page: nat, y: int)

  /**
   * Placing one card of height `h`: it stays on the page only if the
   * cursor is still strictly above 0 after it; otherwise a new page begins
   * and the card is placed at the top of it.
   */
  function Step(c: Cursor, h: int): (d: Cursor)
    ensures d.page == c.page || d.page == c.page + 1
    ensures d.page == c.page <==> c.y - h > 0
    ensures d.page == c.page ==> d.y > 0 && d.y + h == c.y
    ensures d.page != c.page ==> d.y + h == DocumentHeight
  {
    var y := c.y - h;
    if y <= 0 then Cursor(DocumentHeight - h, c.page + 1) else Cursor(y, c.page)
  }

  /** The state after placing the cards of heights `hs`, in order. */
  function Walk(hs: seq<nat>): (c: Cursor)
    ensures c.y <= DocumentHeight && c.page <= |hs|
    ensures hs != [] ==> c.y + hs[|hs| - 1] <= DocumentHeight
  {
    if hs == [] then Cursor(DocumentHeight, 0)
    else Step(Walk(hs[..|hs| - 1]), hs[|hs| - 1])
  }

  /** The placements of the cards of heights `hs`: one per card, in order. */
  function Layout(hs: seq<nat>): (ps: seq<Placement>)
    ensures |ps| == |hs|
  {
    if hs == [] then []
    else
      var c := Walk(hs);
      Layout(hs[..|hs| - 1]) + [Placement(|hs| - 1, c.page, c.y)]
  }

  /** Total height of `hs`. */
  function Sum(hs: seq<nat>): nat
  {
    if hs == [] then 0 else Sum(hs[..|hs| - 1]) + hs[|hs| - 1]
  }

  /** Placement `i` is the state right after card `i`. */
  lemma {:induction false} LayoutAt(hs: seq<nat>, i: nat)
    requires i < |hs|
    ensures Layout(hs)[i] == Placement(i, Walk(hs[..i + 1]).page, Walk(hs[..i + 1]).y)
  {
    if i < |hs| - 1 {
      var front := hs[..|hs| - 1];
      assert front[..i + 1] == hs[..i + 1];
      LayoutAt(front, i);
    } else {
      assert hs[..i + 1] == hs;
    }
  }

  /** Walking one more card is one more step. */
  lemma {:induction false} WalkExtend(hs: seq<nat>, i: nat)
    requires i < |hs|
    ensures Walk(hs[..i + 1]) == Step(Walk(hs[..i]), hs[i])
  {
    assert hs[..i + 1][..i] == hs[..i];
  }

  /** Laying out one more card appends its placement. */
  lemma {:induction false} LayoutExtend(hs: seq<nat>, i: nat)
    requires i < |hs|
    ensures Layout(hs[..i + 1]) == Layout(hs[..i]) + [Placement(i, Walk(hs[..i + 1]).page, Walk(hs[..i + 1]).y)]
  {
    assert hs[..i + 1][..i] == hs[..i];
  }

  /** Each card gets the placement with its own index, and it fits below the top of the page. */
  lemma {:induction false} PlacementFits(hs: seq<nat>, i: nat)
    requires i < |hs|
    ensures Layout(hs)[i].window == i
    ensures Layout(hs)[i].y + hs[i] <= DocumentHeight
  {
    LayoutAt(hs, i);
  }

  /** With no cards there are no placements and no page breaks. */
  lemma EmptyLayout()
    ensures Layout([]) == [] && Walk([]) == Cursor(DocumentHeight, 0)
  {
  }

  /** The first card always goes to the top of a page; that page is the first one exactly when the card is shorter than the page. */
  lemma {:induction false} FirstPlacement(hs: seq<nat>)
    requires |hs| > 0
    ensures Layout(hs)[0].y == DocumentHeight - hs[0]
    ensures Layout(hs)[0].page == 0 <==> DocumentHeight - hs[0] > 0
    ensures Layout(hs)[0].page <= 1
  {
    LayoutAt(hs, 0);
    WalkExtend(hs, 0);
  }

  /**
   * Between two consecutive cards: the later one stays on the page exactly
   * when the cursor after it is strictly above 0, in which case its top edge
   * meets the earlier card's bottom edge; otherwise it starts the next page
   * at `DocumentHeight - h`.
   */
  lemma {:induction false} ConsecutivePlacements(hs: seq<nat>, i: nat)
    requires 0 < i < |hs|
    ensures Layout(hs)[i].page == Layout(hs)[i - 1].page <==> Layout(hs)[i - 1].y - hs[i] > 0
    ensures Layout(hs)[i].page == Layout(hs)[i - 1].page ==>
      Layout(hs)[i].y + hs[i] == Layout(hs)[i - 1].y && Layout(hs)[i].y > 0
    ensures Layout(hs)[i].page != Layout(hs)[i - 1].page ==>
      Layout(hs)[i].page == Layout(hs)[i - 1].page + 1 && Layout(hs)[i].y == DocumentHeight - hs[i]
  {
    LayoutAt(hs, i - 1);
    LayoutAt(hs, i);
    WalkExtend(hs, i);
  }

  /** Page indices never decrease along the sequence. */
  lemma {:induction false} PagesNondecreasing(hs: seq<nat>, i: nat, j: nat)
    requires i <= j < |hs|
    ensures Layout(hs)[i].page <= Layout(hs)[j].page
  {
    if i < j {
      PagesNondecreasing(hs, i, j - 1);
      ConsecutivePlacements(hs, j);
    }
  }

  /** Card `i` is on page at most `i + 1`, and the last card's page is the number of page breaks. */
  lemma {:induction false} PageBound(hs: seq<nat>, i: nat)
    requires i < |hs|
    ensures Layout(hs)[i].page <= i + 1
    ensures Layout(hs)[|hs| - 1].page == Walk(hs).page
  {
    LayoutAt(hs, i);
  }

  /** While every prefix total stays below the page height, all cards share page 0 and stack down from the top. */
  lemma {:induction false} WalkBeforeBreak(hs: seq<nat>, j: nat)
    requires j <= |hs|
    requires forall m :: 1 <= m <= j ==> DocumentHeight - Sum(hs[..m]) > 0
    ensures Walk(hs[..j]) == Cursor(DocumentHeight - Sum(hs[..j]), 0)
  {
    if j > 0 {
      WalkBeforeBreak(hs, j - 1);
      WalkExtend(hs, j - 1);
      assert hs[..j][..j - 1] == hs[..j - 1];
    }
  }

  /**
   * If the running total of heights first reaches the page height at card
   * `k`, cards before `k` sit on page 0 at `DocumentHeight` minus their
   * running total, and card `k` opens page 1 at `DocumentHeight - hs[k]`.
   */
  lemma {:induction false} FirstBreak(hs: seq<nat>, k: nat)
    requires k < |hs|
    requires forall m :: 1 <= m <= k ==> DocumentHeight - Sum(hs[..m]) > 0
    requires DocumentHeight - Sum(hs[..k + 1]) <= 0
    ensures forall m :: 1 <= m <= k ==> Layout(hs)[m - 1] == Placement(m - 1, 0, DocumentHeight - Sum(hs[..m]))
    ensures Layout(hs)[k] == Placement(k, 1, DocumentHeight - hs[k])
  {
    forall m | 1 <= m <= k
      ensures Layout(hs)[m - 1] == Placement(m - 1, 0, DocumentHeight - Sum(hs[..m]))
    {
      PlacementBeforeBreak(hs, m);
    }
    BreakPlacement(hs, k);
  }

  /** Card `m - 1` before the first break sits on page 0. */
  lemma {:induction false} PlacementBeforeBreak(hs: seq<nat>, m: nat)
    requires 1 <= m <= |hs|
    requires forall n :: 1 <= n <= m ==> DocumentHeight - Sum(hs[..n]) > 0
    ensures Layout(hs)[m - 1] == Placement(m - 1, 0, DocumentHeight - Sum(hs[..m]))
  {
    LayoutAt(hs, m - 1);
    WalkBeforeBreak(hs, m);
  }

  /** The card that first brings the running total to the page height opens page 1. */
  lemma {:induction false} BreakPlacement(hs: seq<nat>, k: nat)
    requires k < |hs|
    requires forall m :: 1 <= m <= k ==> DocumentHeight - Sum(hs[..m]) > 0
    requires DocumentHeight - Sum(hs[..k + 1]) <= 0
    ensures Layout(hs)[k] == Placement(k, 1, DocumentHeight - hs[k])
  {
    LayoutAt(hs, k);
    WalkBeforeBreak(hs, k);
    WalkExtend(hs, k);
    assert hs[..k + 1][..k] == hs[..k];
    assert Sum(hs[..k + 1]) == Sum(hs[..k]) + hs[k];
  }

  /** The cards built by the program's sample driver: heights 265, 340, 265, 265. */
  lemma {:induction false} SampleLayout(hs: seq<nat>)
    requires |hs| == 4 && hs[0] == 265 && hs[1] == 340 && hs[2] == 265 && hs[3] == 265
    ensures Layout(hs)
         == [Placement(0, 0, 577), Placement(1, 0, 237), Placement(2, 1, 577), Placement(3, 1, 312)]
    ensures Walk(hs).page == 1
  {
    assert hs[..1] == [265] && hs[..2] == [265, 340] && hs[..3] == [265, 340, 265];
    var c1 := Walk(hs[..1]);
    var c2 := Walk(hs[..2]);
    var c3 := Walk(hs[..3]);
    var c4 := Walk(hs);
    assert c1 == Cursor(577, 0) by { WalkExtend(hs, 0); }
    assert c2 == Cursor(237, 0) by { WalkExtend(hs, 1); }
    assert c3 == Cursor(577, 1) by { WalkExtend(hs, 2); }
    assert c4 == Cursor(312, 1) by { WalkExtend(hs, 3); assert hs[..4] == hs; }
    var ps := Layout(hs);
    assert ps[0] == Placement(0, 0, 577) by { LayoutAt(hs, 0); }
    assert ps[1] == Placement(1, 0, 237) by { LayoutAt(hs, 1); }
    assert ps[2] == Placement(2, 1, 577) by { LayoutAt(hs, 2); }
    assert ps[3] == Placement(3, 1, 312) by { LayoutAt(hs, 3); assert hs[..4] == hs; }
  }
}
