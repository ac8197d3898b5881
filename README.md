# Card layout and pagination of PDFWriterTest

This project models the layout engine of `PDFWriterTest/Program.cs`, a
program that draws product cards ("windows") into an A4 PDF with
iTextSharp. The model has two parts, and the proofs are about both.

- **`ProductWindow`** (module `ProductWindows`, `product_window.dfy`). A card
  has a header, an optional summary and an append-only list of key/value
  specification rows. Its height comes from fixed constants:
  - the top bar is 40;
  - a non-empty summary adds a margin of 15 and a panel of 50;
  - at least one row adds a margin, a panel of `5 + 25 + 25 * n` and a
    second margin. The panel has no inset below its last row.

  This unclamped height is what pagination uses. Painting raises it to at
  least `MINIMUMHEIGHT = 240`.
- **Page flow** (module `Pagination`, `pagination.dfy`). This is the rule of
  `WindowManager.Draw` as pure functions of the card heights:
  - `Step` places one card;
  - `Walk` is the cursor and page index after a prefix of the cards;
  - `Layout` is the sequence of placements.

  The lemmas state what the loop promises:
  - one placement per card, in order;
  - the page index never decreases and grows by at most one per card;
  - a card stays on the page only if the cursor stays strictly above 0, so
    a result of exactly 0 forces a break;
  - after a break the card sits at `842 - h`;
  - every placement satisfies `y + h <= 842`;
  - on a shared page, each card's top edge meets the previous card's
    bottom edge;
  - until the running total of heights first reaches the page height,
    every card is on page 0 at `842` minus that total.
- **`WindowManager`** (module `WindowManagers`, `window_manager.dfy`). This is
  the class with its list of cards and the `Draw` loop. The loop is written
  as the source writes it, with the cursor `currentlyDrawingYPosition`. It is
  proved to return `Layout` of the cards' heights, the number of
  `NewPage` calls, and the band each card's background is painted into.

The source pages cards by their unclamped height but paints them with the
clamped one. This inconsistency is kept as it is. `PaintedOverlap` and
`PaintedAbovePage` state exactly when it shows: a card shorter than 240
paints over the card above it on the same page, or above the top of a
fresh page.

External effects become values:
- `doc.NewPage()` becomes a counter. The page index of a placement is the
  number of calls made so far.
- `prodWindow.Draw(cb, y)` becomes a placement record `(window, page, y)`
  and the background band `[y, y + max(h, 240)]`.
- The iTextSharp drawing surface is not modelled.

Two consequences of the code are worth stating on their own:
- A card with a summary and four rows is 265 high (40 + 65 + 15 + 130 + 15),
  so the sample driver's cards flow as in `SampleDocument`: (page 0, y 577),
  (page 0, y 237), (page 1, y 577), (page 1, y 312).
- `AddSummary` overwrites the summary, so the last call wins.

## Model

| member | source | states |
|---|---|---|
| ProductWindows.IsNullOrEmpty | PDFWriterTest/Program.cs:90 | a summary counts as absent exactly when it is null or the empty string |
| ProductWindows.SpecificationElementHeight | PDFWriterTest/Program.cs:71-85 | the specification panel is at least 30 high and exactly 5 + 25 + 25 per row, with no inset below the last row |
| ProductWindows.CalculateHeight | PDFWriterTest/Program.cs:87-102 | the unclamped card height is never below the top-bar height 40 |
| ProductWindows.DrawnHeight | PDFWriterTest/Program.cs:107-108 | the painted height is at least 240 and at least the unclamped height, and it is one of the two |
| ProductWindows.SpecificationElementRows | PDFWriterTest/Program.cs:71-85 | the specification panel is 30 high with no rows and grows by exactly 25 per row; there is no bottom inset |
| ProductWindows.BareWindowHeight | PDFWriterTest/Program.cs:87-101 | a card with a null or empty summary and no rows is exactly 40 high |
| ProductWindows.SummaryContribution | PDFWriterTest/Program.cs:90-93 | a non-empty summary adds exactly 65 whatever the rows; null and "" give the same height |
| ProductWindows.SpecificationContribution | PDFWriterTest/Program.cs:95-100 | no rows add nothing; n > 0 rows add exactly 2*15 + 30 + 25*n |
| ProductWindows.HeightMonotoneInRows | PDFWriterTest/Program.cs:95-100 | the height depends only on the number of rows and strictly increases with it |
| ProductWindows.AddSpecificationGrowth | PDFWriterTest/Program.cs:76-99 | one more row adds 85 when it is the first and 25 otherwise |
| ProductWindows.ProductWindow.constructor | PDFWriterTest/Program.cs:51-54 | the header is the given name; there is no summary and there are no rows |
| ProductWindows.ProductWindow.AddSpecification | PDFWriterTest/Program.cs:56-59 | the row is appended after the existing rows, which keep their order; summary and header are unchanged; the recomputed height grows by 85 or 25 |
| ProductWindows.ProductWindow.AddSummary | PDFWriterTest/Program.cs:61-64 | the summary is replaced (last call wins); rows and header are unchanged; the height is the row part plus 65 exactly when the new summary is non-empty |
| ProductWindows.ProductWindow.GetHeight | PDFWriterTest/Program.cs:66-69 | the height is computed from the card's current content, with nothing cached, and is at least 40 |
| ProductWindows.ProductWindow.Draw | PDFWriterTest/Program.cs:104-110 | the painted background starts at y and is max(height, 240) tall, so it covers at least the height pagination reserved |
| Pagination.Step | PDFWriterTest/Program.cs:28-33 | a card stays on the page iff the cursor minus its height is > 0, and then it ends directly below the previous cursor; otherwise the page index rises by one and the card's top is at 842 |
| Pagination.Walk | PDFWriterTest/Program.cs:24-33 | the cursor never rises above 842, the last card fits below 842, and there are at most as many page breaks as cards |
| Pagination.Layout | PDFWriterTest/Program.cs:22-36 | exactly one placement per card |
| Pagination.LayoutAt | PDFWriterTest/Program.cs:25-34 | placement i is card i on the page and at the cursor reached after card i |
| Pagination.PlacementFits | PDFWriterTest/Program.cs:28-34 | placement i belongs to card i and satisfies y + h <= 842 |
| Pagination.EmptyLayout | PDFWriterTest/Program.cs:24-25 | no cards give no placements and no NewPage call |
| Pagination.FirstPlacement | PDFWriterTest/Program.cs:24-33 | the first card is at 842 - h, on page 0 iff h < 842, else on page 1 |
| Pagination.ConsecutivePlacements | PDFWriterTest/Program.cs:28-34 | the next card stays on the page iff the previous y minus its height is > 0 (exactly 0 breaks); on the same page its top meets the previous bottom; after a break it is on the next page at 842 - h |
| Pagination.PagesNondecreasing | PDFWriterTest/Program.cs:29-32 | page indices never decrease along the card list |
| Pagination.PageBound | PDFWriterTest/Program.cs:29-32 | card i is on page at most i + 1; the last card's page is the number of NewPage calls |
| Pagination.WalkBeforeBreak | PDFWriterTest/Program.cs:24-34 | while every running total of heights leaves the cursor above 0, the cursor is 842 minus the total and the page is 0 |
| Pagination.FirstBreak | PDFWriterTest/Program.cs:24-34 | if the running total first reaches 842 at card k, then the cards before k are on page 0 at 842 minus their running totals, and card k opens page 1 at 842 - h_k |
| Pagination.SampleLayout | PDFWriterTest/Program.cs:221-257 | heights 265, 340, 265, 265 give placements (0, 577), (0, 237), (1, 577), (1, 312) and one NewPage call |
| WindowManagers.HeightsOf | PDFWriterTest/Program.cs:27-28 | one height per card, in list order: each card's current unclamped height |
| WindowManagers.PaintedBands | PDFWriterTest/Program.cs:34 | one painted band per placement |
| WindowManagers.PaintedBandAt | PDFWriterTest/Program.cs:104-110 | band i starts at placement i's y and is the clamped height of card i tall |
| WindowManagers.WindowManager.constructor | PDFWriterTest/Program.cs:15 | the card list starts empty |
| WindowManagers.WindowManager.Add | PDFWriterTest/Program.cs:17-20 | the card is appended after the existing ones |
| WindowManagers.WindowManager.Draw | PDFWriterTest/Program.cs:22-36 | the loop's placements are exactly Layout of the cards' unclamped heights, its NewPage calls are Walk's page count, and the bands it paints use the clamped heights at those placements |
| WindowManagers.PaintedOverlap | PDFWriterTest/Program.cs:28-34 | on a shared page, a card's painted band reaches over the previous card's bottom edge iff the card is shorter than 240 |
| WindowManagers.PaintedAbovePage | PDFWriterTest/Program.cs:104-110 | the first card of a page paints above the page's top edge iff it is shorter than 240 |
| WindowManagers.SampleWindows | PDFWriterTest/Program.cs:221-250 | the sample driver's four cards are 265, 340, 265 and 265 high |
| WindowManagers.SampleDocument | PDFWriterTest/Program.cs:252-270 | adding the four sample cards and drawing gives (page 0, y 577), (page 0, y 237), (page 1, y 577), (page 1, y 312) with one NewPage call |

## Left out

- The painting in `ProductWindow.Draw` (PDFWriterTest/Program.cs:115-209) is left out. It covers colours, rectangles, lines, text placement, the font loaded from a Windows path and the JPEG image, and it consists of foreign library calls with no decisions. Only the clamp and the background band at lines 107-110 are modelled.
- `Program.Main` (PDFWriterTest/Program.cs:216-282) opens a file stream, a `Document` and a `PdfWriter`. That I/O is left out. Only its cards and the order it adds them in are modelled.
- `DrawPDFDebugInfo` (PDFWriterTest/Program.cs:284-300) only writes debug text onto the PDF surface, so it is left out.
- Page width and horizontal offsets (`WINDOWWIDTH`, x = 200, 210, 320) only affect rendering, so they are left out.
- `doc.NewPage()` is counted, not performed. iTextSharp ignores a new-page request on a page that is still empty. The model does not capture this, so a first card 842 or more high counts one call and lands on page index 1.
- `ProductWindows.CalculateHeight` does not model 32-bit `int` overflow of `specifications.Count * 25`. That overflow needs more than 85 million rows. The cursor of `WindowManagers.WindowManager.Draw` (PDFWriterTest/Program.cs:28, 32) is a 32-bit `int` too; it is unbounded in the model, and its overflow needs card heights of the same size.
- C# `null` keys, values and headers are not modelled; they are plain strings. The header does not affect any height.
