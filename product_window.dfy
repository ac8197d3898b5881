/**
 * A product card ("window"): a header, an optional summary and an
 * append-only list of key/value specification rows, and the heights the
 * card needs. Heights are integers in the document's native unit.
 */
module ProductWindows {

  const TopBarHeight: nat := 40
  /** The painted card is never shorter than the 200-unit image plus the top bar. */
  const MinimumHeight: nat := 200 + TopBarHeight
  const Margin: nat := 15
  const SummaryHeight: nat := 50

  /** A .NET reference that may be null. */
  datatype Nullable<T> = Null | NonNull(value: T)

  /** One key/value row of the specification panel. */
  datatype Specification = Specification(key: string, value: string)

  /** The vertical band a card paints its background into: [bottom, top]. */
  datatype Band = Band(bottom: int, top: int)

  /** .NET's String.IsNullOrEmpty: true for exactly the null and the empty string. */
  predicate IsNullOrEmpty(s: Nullable<string>): (b: bool)
    ensures b <==> (s == Null || s == NonNull(""))
  {
    s.Null? || |s.value| == 0
  }

  /**
   * Height of the specification panel for `rowCount` rows: an inset above the
   * first line, the panel title and one line per row. There is no inset
   * below the last row.
   */
  function SpecificationElementHeight(rowCount: nat): (h: nat)
    ensures h >= 5 + 25
    ensures h == 5 + 25 + 25 * rowCount
  {
    5                  // inset above the first line
    + 25               // the panel title
    + rowCount * 25    // one line per row
  }

  /**
   * The unclamped height of a card: the top bar, then the summary panel if
   * there is a non-empty summary, then the specification panel with a margin
   * above and below it if there is at least one row. Pagination uses this value.
   */
  function CalculateHeight(summary: Nullable<string>, specifications: seq<Specification>): (h: nat)
    ensures h >= TopBarHeight
  {
    var height := TopBarHeight;
    var height := if !IsNullOrEmpty(summary) then height + Margin + SummaryHeight else height;
    if |specifications| > 0 then
      height + Margin + SpecificationElementHeight(|specifications|) + Margin
    else
      height
  }

  /** The height a card is painted with: its content height, raised to the minimum. */
  function DrawnHeight(height: int): (d: int)
    ensures d >= MinimumHeight && d >= height
    ensures d == height || d == MinimumHeight
  {
    if height >= MinimumHeight then height else MinimumHeight
  }

  class ProductWindow {
    var headerText: string
    var summaryText: Nullable<string>
    var specifications: seq<Specification>

    constructor (name: string)
      ensures headerText == name && summaryText == Null && specifications == []
    {
      headerText := name;
      summaryText := Null;
      specifications := [];
    }

    /** Appends one row after the existing ones. */
    method AddSpecification(key: string, value: string)
      modifies this
      ensures specifications == old(specifications) + [Specification(key, value)]
      ensures summaryText == old(summaryText) && headerText == old(headerText)
      ensures GetHeight() == old(GetHeight()) + (if old(specifications) == [] then 85 else 25)
    {
      AddSpecificationGrowth(summaryText, specifications, Specification(key, value));
      specifications := specifications + [Specification(key, value)];
    }

    /** Replaces the summary; the last call wins. */
    method AddSummary(summary: Nullable<string>)
      modifies this
      ensures summaryText == summary
      ensures specifications == old(specifications) && headerText == old(headerText)
      ensures GetHeight() == CalculateHeight(Null, specifications)
                             + (if IsNullOrEmpty(summary) then 0 else Margin + SummaryHeight)
    {
      summaryText := summary;
      SummaryContribution(summary, specifications);
    }

    /** The card's unclamped height, computed from its current content on every call. */
    function GetHeight(): (h: nat)
      reads this
      ensures h >= TopBarHeight
    {
      CalculateHeight(summaryText, specifications)
    }

    /**
     * The band painted for the card with its bottom edge at `y`: it reaches
     * from `y` up by the clamped height, which is never less than the height
     * pagination reserved for the card. The painting itself is not modelled.
     */
    function Draw(y: int): (background: Band)
      reads this
      ensures background.bottom == y
      ensures background.top - background.bottom == DrawnHeight(GetHeight())
      ensures background.top >= y + GetHeight() && background.top >= y + MinimumHeight
    {
      var currentHeight := CalculateHeight(summaryText, specifications);
      var height := DrawnHeight(currentHeight);
      Band(y, y + height)
    }
  }

  /** A card with neither a summary nor rows is exactly the top bar. */
  lemma BareWindowHeight(summary: Nullable<string>)
    requires IsNullOrEmpty(summary)
    ensures CalculateHeight(summary, []) == TopBarHeight
  {
  }

  /**
   * A non-empty summary adds a margin and the summary panel; a null and an
   * empty summary give the same height.
   */
  lemma SummaryContribution(summary: Nullable<string>, specifications: seq<Specification>)
    ensures CalculateHeight(summary, specifications)
         == CalculateHeight(Null, specifications)
            + (if IsNullOrEmpty(summary) then 0 else Margin + SummaryHeight)
    ensures CalculateHeight(NonNull(""), specifications) == CalculateHeight(Null, specifications)
  {
  }

  /** The panel is 30 high with no rows and grows by 25 per row. */
  lemma SpecificationElementRows(rowCount: nat)
    ensures SpecificationElementHeight(0) == 5 + 25
    ensures SpecificationElementHeight(rowCount + 1) == SpecificationElementHeight(rowCount) + 25
  {
  }

  /**
   * Rows add nothing when there are none, and otherwise two margins, the
   * panel's inset and title, and 25 per row.
   */
  lemma SpecificationContribution(summary: Nullable<string>, specifications: seq<Specification>)
    ensures |specifications| == 0 ==>
      CalculateHeight(summary, specifications) == CalculateHeight(summary, [])
    ensures |specifications| > 0 ==>
      CalculateHeight(summary, specifications)
      == CalculateHeight(summary, []) + 2 * Margin + 30 + 25 * |specifications|
  {
  }

  /** Only the number of rows matters, and more rows always mean a taller card. */
  lemma HeightMonotoneInRows(summary: Nullable<string>, a: seq<Specification>, b: seq<Specification>)
    ensures |a| == |b| ==> CalculateHeight(summary, a) == CalculateHeight(summary, b)
    ensures |a| < |b| ==> CalculateHeight(summary, a) < CalculateHeight(summary, b)
  {
  }

  /** The effect of one more row: 85 for the first, 25 for each later one. */
  lemma AddSpecificationGrowth(summary: Nullable<string>, specifications: seq<Specification>, row: Specification)
    ensures CalculateHeight(summary, specifications + [row])
         == CalculateHeight(summary, specifications) + (if specifications == [] then 85 else 25)
  {
  }
}
