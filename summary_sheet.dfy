/**
 * The summary sheet (components/SummarySheet.tsx): the numbered key points on
 * screen and their export to a PDF.
 *
 * The export lays the items out top to bottom.  Each item's text is wrapped
 * into lines by jsPDF's splitTextToSize; the number of lines of each item is
 * the input here.  Before an item goes down, a new page is added when the item
 * would run past y = 280; after it, the cursor moves down by its lines and a
 * gap.  Coordinates are the millimetres jsPDF uses.
 */
module SummarySheet {
  import opened Wrappers
  import opened Text

  /** Where the first item goes on page 1, below the title and the rule (line 30). */
  const TopY: int := 50
  /** Where the first item goes on an added page (line 41). */
  const FreshPageY: int := 20
  /** The lowest y an item may reach without a page break (line 39). */
  const PageLimit: int := 280
  const LineHeight: int := 8
  /** Extra space after each item (line 50). */
  const ItemGap: int := 6

  /** Where an item was drawn: its page (from 1), its y, its number prefix and its line count. */
  datatype Placement = Placement(page: nat, y: int, prefix: string, lines: nat)

  /** The saved document: the placements and the number of pages. */
  datatype Document = Document(placements: seq<Placement>, pages: nat)

  /** "1. ", "2. ", ... (line 35). */
  function Prefix(index: nat): string {
    NatToString(index + 1) + ". "
  }

  /** The prefix of item `index` is the decimal number index + 1 followed by ". ". */
  lemma PrefixNumbers(index: nat)
    ensures var p := Prefix(index);
      && |p| >= 3 && p[|p| - 2..] == ". "
      && AllDigits(p[..|p| - 2]) && ParseNat(p[..|p| - 2]) == index + 1
  {
    ParseNatToString(index + 1);
    var p := Prefix(index);
    assert p[..|p| - 2] == NatToString(index + 1);
  }

  /** The page-break test of line 39. */
  predicate Overflows(cursor: int, lines: nat) {
    cursor + lines * LineHeight > PageLimit
  }

  /** The placements of the items of `counts`, numbered from `index`, starting on `page` at `cursor`. */
  function PlaceFrom(counts: seq<nat>, index: nat, page: nat, cursor: int): (ps: seq<Placement>)
    ensures |ps| == |counts|
    decreases |counts|
  {
    if counts == [] then []
    else
      var n := counts[0];
      var p := if Overflows(cursor, n) then page + 1 else page;
      var y := if Overflows(cursor, n) then FreshPageY else cursor;
      [Placement(p, y, Prefix(index), n)] + PlaceFrom(counts[1..], index + 1, p, y + n * LineHeight + ItemGap)
  }

  /** The whole layout: the first item is considered at y = 50 on page 1. */
  function Layout(counts: seq<nat>): (ps: seq<Placement>)
    ensures |ps| == |counts|
  {
    PlaceFrom(counts, 0, 1, TopY)
  }

  /** The page the last item went to; page 1 when there are none. */
  function LastPage(ps: seq<Placement>): nat {
    if ps == [] then 1 else ps[|ps| - 1].page
  }

  /** The cursor before item k: the start for k = 0, else below item k - 1. */
  function CursorBefore(ps: seq<Placement>, k: nat, start: int): int
    requires k <= |ps|
  {
    if k == 0 then start else ps[k - 1].y + ps[k - 1].lines * LineHeight + ItemGap
  }

  /** The page before item k. */
  function PageBefore(ps: seq<Placement>, k: nat, page: nat): nat
    requires k <= |ps|
  {
    if k == 0 then page else ps[k - 1].page
  }

  /** The first placement of a non-empty run, and the run that follows it. */
  lemma PlaceFromHead(counts: seq<nat>, index: nat, page: nat, cursor: int)
    requires counts != []
    ensures var n := counts[0];
      var p := if Overflows(cursor, n) then page + 1 else page;
      var y := if Overflows(cursor, n) then FreshPageY else cursor;
      var ps := PlaceFrom(counts, index, page, cursor);
      && ps[0] == Placement(p, y, Prefix(index), n)
      && ps[1..] == PlaceFrom(counts[1..], index + 1, p, y + n * LineHeight + ItemGap)
  {
  }

  /** What happens to item k, stated for any starting point. */
  lemma {:induction false} PlaceFromAt(counts: seq<nat>, index: nat, page: nat, cursor: int, k: nat)
    requires k < |counts|
    ensures var ps := PlaceFrom(counts, index, page, cursor);
      && ps[k].lines == counts[k]
      && ps[k].prefix == Prefix(index + k)
      && (Overflows(CursorBefore(ps, k, cursor), counts[k]) ==>
            ps[k].page == PageBefore(ps, k, page) + 1 && ps[k].y == FreshPageY)
      && (!Overflows(CursorBefore(ps, k, cursor), counts[k]) ==>
            ps[k].page == PageBefore(ps, k, page) && ps[k].y == CursorBefore(ps, k, cursor))
  {
    PlaceFromHead(counts, index, page, cursor);
    if k > 0 {
      var ps := PlaceFrom(counts, index, page, cursor);
      var first := ps[0];
      var next := first.y + first.lines * LineHeight + ItemGap;
      var rest := PlaceFrom(counts[1..], index + 1, first.page, next);
      assert ps[1..] == rest;
      PlaceFromAt(counts[1..], index + 1, first.page, next, k - 1);
      assert ps[k] == rest[k - 1];
      assert CursorBefore(rest, k - 1, next) == CursorBefore(ps, k, cursor);
      assert PageBefore(rest, k - 1, first.page) == PageBefore(ps, k, page);
    }
  }

  /**
   * Item k of the layout: it keeps its position in the input, its number and
   * its line count; it goes to a new page at y = 20 exactly when the cursor
   * plus its height would pass 280, and otherwise it goes at the cursor on the
   * same page, where it fits.
   */
  lemma LayoutAt(counts: seq<nat>, k: nat)
    requires k < |counts|
    ensures var ps := Layout(counts);
      && |ps| == |counts|
      && ps[k].lines == counts[k]
      && ps[k].prefix == Prefix(k)
      && (Overflows(CursorBefore(ps, k, TopY), counts[k]) ==>
            ps[k].page == PageBefore(ps, k, 1) + 1 && ps[k].y == FreshPageY)
      && (!Overflows(CursorBefore(ps, k, TopY), counts[k]) ==>
            ps[k].page == PageBefore(ps, k, 1) && ps[k].y == CursorBefore(ps, k, TopY)
            && ps[k].y + counts[k] * LineHeight <= PageLimit)
  {
    PlaceFromAt(counts, 0, 1, TopY, k);
  }

  /** On one page the items run strictly downward: each starts below the previous one's text. */
  lemma SamePageMovesDown(counts: seq<nat>, k: nat)
    requires 0 < k < |counts|
    requires Layout(counts)[k].page == Layout(counts)[k - 1].page
    ensures Layout(counts)[k].y == Layout(counts)[k - 1].y + counts[k - 1] * LineHeight + ItemGap
    ensures Layout(counts)[k].y > Layout(counts)[k - 1].y
  {
    LayoutAt(counts, k);
    LayoutAt(counts, k - 1);
  }

  /** Every item starts at y = 20 or lower on its page. */
  lemma {:induction false} NeverAboveTop(counts: seq<nat>, k: nat)
    requires k < |counts|
    ensures Layout(counts)[k].y >= FreshPageY
  {
    LayoutAt(counts, k);
    if k > 0 {
      NeverAboveTop(counts, k - 1);
      LayoutAt(counts, k - 1);
    }
  }

  /**
   * An item taller than a fresh page is not split: it always starts a new
   * page at y = 20 and runs past 280 with all its lines.
   */
  lemma TallItemOverruns(counts: seq<nat>, k: nat)
    requires k < |counts|
    requires counts[k] * LineHeight > PageLimit - FreshPageY
    ensures var ps := Layout(counts);
      && ps[k].page == PageBefore(ps, k, 1) + 1
      && ps[k].y == FreshPageY
      && ps[k].y + ps[k].lines * LineHeight > PageLimit
  {
    LayoutAt(counts, k);
    if k > 0 {
      NeverAboveTop(counts, k - 1);
    }
  }

  /** The number of page breaks taken when the items of `counts` are placed from `cursor` on. */
  function BreaksFrom(counts: seq<nat>, cursor: int): nat
    decreases |counts|
  {
    if counts == [] then 0
    else
      var n := counts[0];
      var y := if Overflows(cursor, n) then FreshPageY else cursor;
      (if Overflows(cursor, n) then 1 else 0) + BreaksFrom(counts[1..], y + n * LineHeight + ItemGap)
  }

  lemma {:induction false} PagesFrom(counts: seq<nat>, index: nat, page: nat, cursor: int)
    ensures var ps := PlaceFrom(counts, index, page, cursor);
      (if ps == [] then page else ps[|ps| - 1].page) == page + BreaksFrom(counts, cursor)
  {
    if counts != [] {
      var n := counts[0];
      var p := if Overflows(cursor, n) then page + 1 else page;
      var y := if Overflows(cursor, n) then FreshPageY else cursor;
      PagesFrom(counts[1..], index + 1, p, y + n * LineHeight + ItemGap);
    }
  }

  /** The document has one page plus one per page break. */
  lemma PageCount(counts: seq<nat>)
    ensures LastPage(Layout(counts)) == 1 + BreaksFrom(counts, TopY)
  {
    PagesFrom(counts, 0, 1, TopY);
  }

  /**
   * The loop of handleDownloadPDF (lines 30-51): one pass over the items,
   * adding a page when the next item would overflow.  `pages` counts the
   * pages of the document: 1 plus one per added page.
   */
  method LayoutPdf(counts: seq<nat>) returns (placements: seq<Placement>, pages: nat)
    ensures placements == Layout(counts)
    ensures pages == LastPage(placements)
  {
    ghost var layout := Layout(counts);
    var cursorY := TopY;
    pages := 1;
    placements := [];
    for index := 0 to |counts|
      invariant placements == layout[..index]
      invariant cursorY == CursorBefore(layout, index, TopY)
      invariant pages == PageBefore(layout, index, 1)
    {
      var n := counts[index];
      LayoutAt(counts, index);
      if cursorY + n * LineHeight > PageLimit {
        pages := pages + 1;
        cursorY := FreshPageY;
      }
      var item := Placement(pages, cursorY, Prefix(index), n);
      assert item == layout[index];
      placements := placements + [item];
      assert placements == layout[..index + 1];
      cursorY := cursorY + n * LineHeight + ItemGap;
    }
    assert layout[..|counts|] == layout;
  }

  /** The label beside item i on screen: (i + 1) left-padded with '0' to two characters (line 89). */
  function Label(i: nat): (s: string)
    ensures |s| >= 2 && AllDigits(s)
    ensures ParseNat(s) == i + 1
  {
    ParsePadded(i + 1, 2);
    PadStart(NatToString(i + 1), 2, '0')
  }

  lemma LabelDigits(i: nat)
    ensures i < 9 ==> Label(i) == ['0', DigitChar(i + 1)]
    ensures i >= 9 ==> Label(i) == NatToString(i + 1)
  {
    if i >= 9 {
      assert NatToString(i + 1) == NatToString((i + 1) / 10) + [DigitChar((i + 1) % 10)];
    }
  }

  class Sheet {
    const items: seq<string>
    var isDownloading: bool

    constructor (items: seq<string>)
      ensures this.items == items && !isDownloading
    {
      this.items := items;
      isDownloading := false;
    }

    /**
     * handleDownloadPDF (lines 8-60).  `lineCounts[i]` is the number of lines
     * splitTextToSize gives for items[i]; `fails` says whether jsPDF throws.
     * Either way the busy flag is clear again at the end.
     */
    method DownloadPdf(lineCounts: seq<nat>, fails: bool) returns (saved: Option<Document>)
      requires |lineCounts| == |items|
      modifies this`isDownloading
      ensures !isDownloading
      ensures fails <==> saved.None?
      ensures saved.Some? ==> saved.value.placements == Layout(lineCounts)
      ensures saved.Some? ==> saved.value.pages == LastPage(Layout(lineCounts))
    {
      isDownloading := true;
      var placements, pages := LayoutPdf(lineCounts);
      if fails {
        saved := None;
      } else {
        saved := Some(Document(placements, pages));
      }
      isDownloading := false;
    }
  }
}
