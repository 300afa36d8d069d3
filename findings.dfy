/**
 * Three places where the report generator does not do what it evidently
 * means to do. For each there is a statement about the code as written that
 * exhibits the discrepancy, and a corrected definition with the intended
 * property proved of it. The rest of the model follows the code as written.
 */
module Findings {
  import opened Wrappers
  import opened Entities
  import opened PdfLayout
  import PdfGenerator

  // ---------------------------------------------------------------------------
  // 1. The evidence grid chooses columns by list index, not by drawn photo
  // ---------------------------------------------------------------------------

  /**
   * As written: a photo that cannot be loaded still takes its index, so the
   * photos before and after it land in the same column, and since the row is
   * not closed after the left one, on top of each other.
   */
  lemma GridColumnsClash(first: Picture, third: Picture)
    requires first.Loaded? && third.Loaded?
    ensures AllPlacements([first, Unreadable, third]) == [(1, LeftColumn), (3, LeftColumn)]
  {
    var pictures := [first, Unreadable, third];
    assert ExpectedPlacements(pictures, 1) == [(1, LeftColumn)];
    assert ExpectedPlacements(pictures, 2) == [(1, LeftColumn)];
    assert Column(2) == LeftColumn;
  }

  /** The two photos of that grid share page, column and height when both fit on the page. */
  lemma GridPhotosOverlap(d: OpenDoc, y: int, first: Picture, third: Picture)
    requires first.Loaded? && third.Loaded?
    requires y + Needed(first.height) <= Bottom && y + Needed(third.height) <= Bottom
    requires d.yPos + Pt(first.meta.height) <= Bottom && d.yPos + Pt(third.meta.height) <= Bottom
    ensures var photos := EvidenceGrid(d, [first, Unreadable, third], y).doc.photos;
      && |photos| == |d.photos| + 2
      && photos[|d.photos|] == PhotoMark(Page(d), LeftColumn, y + SubheadingLine, 1)
      && photos[|d.photos| + 1] == PhotoMark(Page(d), LeftColumn, y + SubheadingLine, 3)
  {
    var pictures := [first, Unreadable, third];
    var s0 := Placed(d, y);
    var e1 := EvidenceItem(d, LeftColumn, y, 1, first.height, first.meta);
    var s1 := Placed(e1, y);
    assert GridStep(pictures, 0, s0) == s1;
    assert GridUpTo(pictures, 2, s0) == s1 by {
      assert GridUpTo(pictures, 1, s0) == s1;
    }
    var e3 := EvidenceItem(e1, LeftColumn, y, 3, third.height, third.meta);
    assert GridStep(pictures, 2, s1).doc == e3;
    assert Page(e1) == Page(d);
  }

  /** Whether any picture in `pictures` can be drawn. */
  predicate AnyLoaded(pictures: seq<Picture>)
  {
    exists j :: 0 <= j < |pictures| && pictures[j].Loaded?
  }

  /**
   * The intended layout: the k-th photo actually drawn goes in column k mod 2,
   * whatever its position in the list.
   */
  function SlotPlacements(pictures: seq<Picture>, n: nat): (r: seq<(nat, int)>)
    requires n <= |pictures|
    ensures |r| <= n
    ensures forall k :: 0 <= k < |r| ==> r[k].1 == Column(k)
  {
    if n == 0 then []
    else
      var before := SlotPlacements(pictures, n - 1);
      before + (if pictures[n - 1].Loaded? then [(n, Column(|before|))] else [])
  }

  /** In the intended layout, consecutive drawn photos are never in the same column. */
  lemma SlotPlacementsAlternate(pictures: seq<Picture>)
    ensures var r := SlotPlacements(pictures, |pictures|);
      forall k :: 0 <= k < |r| - 1 ==> r[k].1 != r[k + 1].1
  {
    var r := SlotPlacements(pictures, |pictures|);
    forall k | 0 <= k < |r| - 1
      ensures r[k].1 != r[k + 1].1
    {
      assert r[k].1 == Column(k) && r[k + 1].1 == Column(k + 1);
      assert (k % 2 != 0) != ((k + 1) % 2 != 0);
    }
  }

  /**
   * Corrected grid step: the column and the end of a row follow `slot`, the
   * number of photos drawn so far, and a row also ends at the last photo that
   * can be drawn.
   */
  function SlotGridStep(pictures: seq<Picture>, i: nat, s: Placed, slot: nat): (r: Placed)
    requires i < |pictures|
    ensures Placements(r.doc.photos) == Placements(s.doc.photos) + (if pictures[i].Loaded? then [(i + 1, Column(slot))] else [])
  {
    match pictures[i]
    case Unreadable => s
    case Loaded(height, meta) =>
      var top := GridTop(s, Needed(height));
      var doc := EvidenceItem(top.doc, Column(slot), top.y, i + 1, height, meta);
      PlacementsSnoc(top.doc.photos, PhotoMark(Page(top.doc), Column(slot), top.y + SubheadingLine, i + 1));
      var closes := slot % 2 != 0 || !AnyLoaded(pictures[i + 1..]);
      Placed(doc, if closes then top.y + Needed(height) + ParaSpacing else top.y)
  }

  /** The corrected grid after its first `n` items, with the number of photos drawn. */
  function SlotGridUpTo(pictures: seq<Picture>, n: nat, start: Placed): (r: (Placed, nat))
    requires n <= |pictures|
    ensures r.1 == |SlotPlacements(pictures, n)|
    ensures Placements(r.0.doc.photos) == Placements(start.doc.photos) + SlotPlacements(pictures, n)
  {
    if n == 0 then (start, 0)
    else
      var (before, slot) := SlotGridUpTo(pictures, n - 1, start);
      var added := if pictures[n - 1].Loaded? then [(n, Column(slot))] else [];
      assert Placements(start.doc.photos) + SlotPlacements(pictures, n - 1) + added
          == Placements(start.doc.photos) + SlotPlacements(pictures, n);
      (SlotGridStep(pictures, n - 1, before, slot), slot + |added|)
  }

  /** The corrected `drawEvidenceGrid`: its photos alternate columns in drawing order. */
  function SlotEvidenceGrid(d: OpenDoc, pictures: seq<Picture>, y: int): (r: Placed)
    ensures Placements(r.doc.photos) == Placements(d.photos) + SlotPlacements(pictures, |pictures|)
  {
    var g := SlotGridUpTo(pictures, |pictures|, Placed(d, y)).0;
    Placed(g.doc, g.y + SectionSpacing)
  }

  // ---------------------------------------------------------------------------
  // 2. After a page break, text is still drawn at the caller's cursor
  // ---------------------------------------------------------------------------

  /**
   * As written: when `drawWrappedText` is called with the generator's own
   * cursor and the text does not fit, a new page is opened, but the text is
   * drawn on it at the old cursor, so it runs past the bottom margin of the
   * new page too.
   */
  lemma WrappedTextOverflows(d: OpenDoc, text: TextBlock, x: int)
    requires Consistent(d) && d.yPos + Pt(text.height) > Bottom
    ensures var r := WrappedText(d, text, d.yPos, x);
      && Page(r.doc) == Page(d) + 1
      && r.doc.texts[|r.doc.texts| - 1] == TextMark(Page(d) + 1, x, d.yPos, Block(text.prose))
      && r.y > Bottom
  {
  }

  /**
   * Corrected `drawWrappedText`: after a page break the text starts at the
   * new page's top margin. Text drawn at the generator's cursor that fits on
   * a page at all then always ends within the bottom margin.
   */
  function WrappedTextAtCursor(d: OpenDoc, text: TextBlock, y: int, x: int): (r: Placed)
    ensures |r.doc.texts| > 0 && r.doc.texts[|r.doc.texts| - 1] == TextMark(Page(r.doc), x, r.y - Pt(text.height), Block(text.prose))
    ensures y == d.yPos && Pt(text.height) <= Bottom - Margin ==> r.y <= Bottom
    ensures Consistent(d) ==> Consistent(r.doc)
  {
    var c := CheckHeight(d, Pt(text.height));
    var top := if d.yPos + Pt(text.height) > Bottom then c.yPos else y;
    Placed(PutText(c, x, top, Block(text.prose)), top + Pt(text.height))
  }

  // ---------------------------------------------------------------------------
  // 3. A generator draws one report only
  // ---------------------------------------------------------------------------

  /**
   * As written: the page finished at the end of a report stays in
   * `currentPage`, so the view-model's second "generate" fails with the
   * unexpected-error outcome even when everything else succeeds.
   */
  method RepeatedReport(g: PdfGenerator.PdfGenerator, user: Option<User>, c: Case, m: Measurements, now: int)
    returns (first: ReportOutcome, second: ReportOutcome)
    requires g.currentPage.None?
    modifies g
    ensures first == Written(ReportFileName(c.id, now))
    ensures second == OtherException
  {
    first := g.GeneratePdfReport(user, c, m, true, now);
    ReportPagination(user, c, m);
    second := g.GeneratePdfReport(user, c, m, true, now);
  }

  /** Corrected: with the open page forgotten first, a second report is written like the first. */
  method RepeatedFreshReport(g: PdfGenerator.PdfGenerator, user: Option<User>, c: Case, m: Measurements, now: int)
    returns (first: ReportOutcome, second: ReportOutcome)
    modifies g
    ensures first == Written(ReportFileName(c.id, now))
    ensures second == first
  {
    first := g.GenerateFreshPdfReport(user, c, m, true, now);
    second := g.GenerateFreshPdfReport(user, c, m, true, now);
  }
}
