/**
 * The window manager: an ordered list of product cards and the loop that
 * flows them over pages. Starting a new page is counted rather than
 * performed, and painting a card is reduced to the placement it gets and
 * the band its background covers.
 */
module WindowManagers {
  import opened ProductWindows
  import opened Pagination

  /** The unclamped heights of `windows`, in order. */
  function HeightsOf(windows: seq<ProductWindow>): (hs: seq<nat>)
    reads windows
    ensures |hs| == |windows|
    ensures forall i :: 0 <= i < |windows| ==> hs[i] == windows[i].GetHeight()
  {
    if windows == [] then []
    else HeightsOf(windows[..|windows| - 1]) + [windows[|windows| - 1].GetHeight()]
  }

  /**
   * The bands the painter fills for the placements `ps` of cards with
   * unclamped heights `hs`: from each card's bottom edge up by its clamped
   * height.
   */
  function PaintedBands(ps: seq<Placement>, hs: seq<nat>): (bs: seq<Band>)
    requires |ps| == |hs|
    ensures |bs| == |ps|
  {
    if ps == [] then []
    else
      var p, h := ps[|ps| - 1], hs[|hs| - 1];
      PaintedBands(ps[..|ps| - 1], hs[..|hs| - 1]) + [Band(p.y, p.y + DrawnHeight(h))]
  }

  /** Band `i` starts at card `i`'s placement and is as tall as its clamped height. */
  lemma {:induction false} PaintedBandAt(ps: seq<Placement>, hs: seq<nat>, i: nat)
    requires |ps| == |hs| && i < |ps|
    ensures PaintedBands(ps, hs)[i] == Band(ps[i].y, ps[i].y + DrawnHeight(hs[i]))
  {
    if i < |ps| - 1 {
      PaintedBandAt(ps[..|ps| - 1], hs[..|hs| - 1], i);
    }
  }

  /** Painting one more card appends its band. */
  lemma PaintedBandsExtend(ps: seq<Placement>, hs: seq<nat>, p: Placement, h: nat)
    requires |ps| == |hs|
    ensures PaintedBands(ps + [p], hs + [h]) == PaintedBands(ps, hs) + [Band(p.y, p.y + DrawnHeight(h))]
  {
    assert (ps + [p])[..|ps|] == ps && (hs + [h])[..|hs|] == hs;
  }

  /** One iteration of the drawing loop, stated on the specification functions. */
  lemma {:induction false} DrawStep(hs: seq<nat>, i: nat, c: Cursor, ps: seq<Placement>, bs: seq<Band>)
    requires i < |hs| && Walk(hs[..i]) == c && ps == Layout(hs[..i]) && bs == PaintedBands(ps, hs[..i])
    ensures Walk(hs[..i + 1]) == Step(c, hs[i])
    ensures ps + [Placement(i, Step(c, hs[i]).page, Step(c, hs[i]).y)] == Layout(hs[..i + 1])
    ensures bs + [Band(Step(c, hs[i]).y, Step(c, hs[i]).y + DrawnHeight(hs[i]))]
         == PaintedBands(Layout(hs[..i + 1]), hs[..i + 1])
  {
    WalkExtend(hs, i);
    LayoutExtend(hs, i);
    var d := Step(c, hs[i]);
    assert hs[..i + 1] == hs[..i] + [hs[i]];
    PaintedBandsExtend(ps, hs[..i], Placement(i, d.page, d.y), hs[i]);
  }

  class WindowManager {
    var productWindows: seq<ProductWindow>

    constructor ()
      ensures productWindows == []
    {
      productWindows := [];
    }

    /** Appends a card after the existing ones. */
    method Add(window: ProductWindow)
      modifies this
      ensures productWindows == old(productWindows) + [window]
    {
      productWindows := productWindows + [window];
    }

    /** The heights pagination works with, one per card. */
    function Heights(): seq<nat>
      reads this, productWindows
    {
      HeightsOf(productWindows)
    }

    /**
     * One pass over the cards in order. Each card's unclamped height is
     * taken off the cursor; a cursor at or below 0 starts a new page and
     * puts the card at the top of it. Returns the placements, the number
     * of new pages started, and the band each card's background is painted
     * into (with the clamped height). Nothing is modified, so drawing twice
     * gives the same result.
     */
    method Draw() returns (placements: seq<Placement>, newPageCalls: nat, painted: seq<Band>)
      ensures placements == Layout(Heights())
      ensures newPageCalls == Walk(Heights()).page
      ensures painted == PaintedBands(placements, Heights())
    {
      ghost var hs := Heights();
      var currentlyDrawingYPosition := DocumentHeight;
      placements, newPageCalls, painted := [], 0, [];
      for i := 0 to |productWindows|
        invariant Walk(hs[..i]) == Cursor(currentlyDrawingYPosition, newPageCalls)
        invariant placements == Layout(hs[..i])
        invariant painted == PaintedBands(placements, hs[..i])
      {
        ghost var previousY, previousPage := currentlyDrawingYPosition, newPageCalls;
        var prodWindow := productWindows[i];
        var h := prodWindow.GetHeight();
        currentlyDrawingYPosition := currentlyDrawingYPosition - h;
        if currentlyDrawingYPosition <= 0 {
          newPageCalls := newPageCalls + 1;
          h := prodWindow.GetHeight();
          currentlyDrawingYPosition := DocumentHeight - h;
        }
        var background := prodWindow.Draw(currentlyDrawingYPosition);
        assert h == hs[i];
        assert Step(Cursor(previousY, previousPage), h) == Cursor(currentlyDrawingYPosition, newPageCalls);
        assert background == Band(currentlyDrawingYPosition, currentlyDrawingYPosition + DrawnHeight(h));
        DrawStep(hs, i, Cursor(previousY, previousPage), placements, painted);
        placements := placements + [Placement(i, newPageCalls, currentlyDrawingYPosition)];
        painted := painted + [background];
      }
      assert hs[..|productWindows|] == hs;
    }
  }

  /**
   * The page-break rule uses the unclamped height, the painter the clamped
   * one: on a shared page, a card's painted band reaches above the bottom
   * edge of the card before it exactly when the card is shorter than the
   * minimum height.
   */
  lemma {:induction false} PaintedOverlap(hs: seq<nat>, i: nat)
    requires 0 < i < |hs|
    requires Layout(hs)[i].page == Layout(hs)[i - 1].page
    ensures PaintedBands(Layout(hs), hs)[i].top > PaintedBands(Layout(hs), hs)[i - 1].bottom
            <==> hs[i] < MinimumHeight
  {
    var ps := Layout(hs);
    ConsecutivePlacements(hs, i);
    PaintedBandAt(ps, hs, i);
    PaintedBandAt(ps, hs, i - 1);
    assert ps[i].y + hs[i] == ps[i - 1].y;
  }

  /**
   * The same on the first card of a page: its painted band reaches above the
   * page's top edge exactly when it is shorter than the minimum height.
   */
  lemma {:induction false} PaintedAbovePage(hs: seq<nat>, i: nat)
    requires i < |hs|
    requires i == 0 || Layout(hs)[i].page != Layout(hs)[i - 1].page
    ensures PaintedBands(Layout(hs), hs)[i].top > DocumentHeight <==> hs[i] < MinimumHeight
  {
    var ps := Layout(hs);
    PaintedBandAt(ps, hs, i);
    assert ps[i].y == DocumentHeight - hs[i] by {
      if i == 0 { FirstPlacement(hs); } else { ConsecutivePlacements(hs, i); }
    }
  }

  /**
   * The cards the program's sample driver builds: each with a summary, and
   * four, seven, four and four rows.
   */
  method SampleWindows() returns (prodWindow: ProductWindow, prodWindow1: ProductWindow,
                                  prodWindow2: ProductWindow, prodWindow3: ProductWindow)
    ensures prodWindow.GetHeight() == 265 && prodWindow1.GetHeight() == 340
    ensures prodWindow2.GetHeight() == 265 && prodWindow3.GetHeight() == 265
  {
    var summary := NonNull("Green mug for a nice cuppa tea");

    prodWindow := new ProductWindow("MOK_ALLES_GROEN");
    prodWindow.AddSpecification("Resolution", "300");
    prodWindow.AddSpecification("Width", "400");
    prodWindow.AddSpecification("Height", "200");
    prodWindow.AddSpecification("Glans", "Inderdaad");
    prodWindow.AddSummary(summary);
    assert prodWindow.GetHeight() == 265;

    prodWindow1 := new ProductWindow("WOOP");
    prodWindow1.AddSpecification("Resolution", "300");
    prodWindow1.AddSpecification("Width", "400");
    prodWindow1.AddSpecification("Height", "200");
    prodWindow1.AddSpecification("Glans", "Inderdaad");
    prodWindow1.AddSpecification("Width", "400");
    prodWindow1.AddSpecification("Height", "200");
    prodWindow1.AddSpecification("Glans", "Inderdaad");
    prodWindow1.AddSummary(summary);
    assert prodWindow1.GetHeight() == 340;

    prodWindow2 := new ProductWindow("GELE_BANAAN");
    prodWindow2.AddSpecification("Resolution", "300");
    prodWindow2.AddSpecification("Width", "400");
    prodWindow2.AddSpecification("Height", "200");
    prodWindow2.AddSpecification("Glans", "Inderdaad");
    prodWindow2.AddSummary(summary);
    assert prodWindow2.GetHeight() == 265;

    prodWindow3 := new ProductWindow("MOK_ALLES_GROEN");
    prodWindow3.AddSpecification("Resolution", "300");
    prodWindow3.AddSpecification("Width", "400");
    prodWindow3.AddSpecification("Height", "200");
    prodWindow3.AddSpecification("Glans", "Inderdaad");
    prodWindow3.AddSummary(summary);
  }

  /**
   * The program's sample driver: the four sample cards, in order, flowed
   * over two pages.
   */
  method SampleDocument() returns (placements: seq<Placement>, newPageCalls: nat)
    ensures placements
         == [Placement(0, 0, 577), Placement(1, 0, 237), Placement(2, 1, 577), Placement(3, 1, 312)]
    ensures newPageCalls == 1
  {
    var prodWindow, prodWindow1, prodWindow2, prodWindow3 := SampleWindows();

    var pageManager := new WindowManager();
    pageManager.Add(prodWindow);
    assert pageManager.productWindows == [prodWindow];
    pageManager.Add(prodWindow1);
    assert pageManager.productWindows == [prodWindow, prodWindow1];
    pageManager.Add(prodWindow2);
    assert pageManager.productWindows == [prodWindow, prodWindow1, prodWindow2];
    pageManager.Add(prodWindow3);
    assert pageManager.productWindows == [prodWindow, prodWindow1, prodWindow2, prodWindow3];

    ghost var hs := pageManager.Heights();
    assert hs[0] == 265 && hs[1] == 340 && hs[2] == 265 && hs[3] == 265;
    var painted;
    placements, newPageCalls, painted := pageManager.Draw();
    SampleLayout(hs);
  }
}
