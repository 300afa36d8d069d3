/**
 * The pagination of the claim report, as pure functions over the state of a
 * document being drawn. The `PdfGenerator` class performs the same steps by
 * updating its fields; these functions are its specification.
 *
 * Lengths are integers in tenths of a point; every layout constant of the
 * generator is a multiple of 0.1 pt. Text heights come from Android's
 * `StaticLayout` and bitmap heights from the image decoder; both are whole
 * points and are inputs here.
 */
module PdfLayout {
  import opened Wrappers
  import opened Strings
  import opened Entities

  // ---------------------------------------------------------------------------
  // Layout constants, in tenths of a point
  // ---------------------------------------------------------------------------

  const PageWidth: int := 5950
  const PageHeight: int := 8420
  const Margin: int := 400
  const ContentWidth: int := PageWidth - 2 * Margin
  const ImageGridWidth: int := (ContentWidth - Margin) / 2
  const HeadingSize: int := 140
  const MetaSize: int := 80
  /** Line advances: text size times the line spacing 1.4. */
  const HeadingLine: int := 196
  const SubheadingLine: int := 168
  const BodyLine: int := 140
  const SectionSpacing: int := 240
  const ParaSpacing: int := 120
  const KeyValueSpacing: int := 60
  const KeyWidth: int := 1600
  const SignatureSpace: int := 600
  /** The lowest cursor position a block may reach without a page break. */
  const Bottom: int := PageHeight - Margin
  const LeftColumn: int := Margin
  const RightColumn: int := Margin + ImageGridWidth + Margin
  /** The cursor below the title that reopens the evidence grid on a new page. */
  const ContinuedTop: int := Margin + HeadingLine + ParaSpacing

  /** The five section titles the report draws. */
  datatype Title = IncidentDetailsTitle | DamagesTitle | EvidenceTitle | ContinuedTitle | CompensationTitle
  {
    /** The text drawn for the title. */
    function Text(): string
    {
      match this
      case IncidentDetailsTitle => "Incident Details"
      case DamagesTitle => "Description of Damages"
      case EvidenceTitle => "Supporting Evidence"
      case ContinuedTitle => "Supporting Evidence (Continued)"
      case CompensationTitle => "Compensation Claim"
    }
  }

  /** Whole points (what `StaticLayout.height` and `Bitmap.height` give) in tenths. */
  function Pt(points: nat): nat { points * 10 }

  // ---------------------------------------------------------------------------
  // The document
  // ---------------------------------------------------------------------------

  /** The fixed texts of the letter other than the section titles. */
  datatype Label =
    | ToLabel | AuthorityLabel | SubjectLabel | SalutationLabel
    | DateKey | TimeKey | LocationKey | RoadKey | VehicleKey | CompensationKey
    | SincerelyLabel | NotRecordedLabel
  {
    function Text(): string
    {
      match this
      case ToLabel => "To,"
      case AuthorityLabel => "The Concerned Authority,"
      case SubjectLabel => "Subject:"
      case SalutationLabel => "Dear Sir/Madam,"
      case DateKey => "Date of Incident"
      case TimeKey => "Approx. Time of Incident"
      case LocationKey => "Location of Incident"
      case RoadKey => "Road Condition Description"
      case VehicleKey => "Vehicle Damage Description"
      case CompensationKey => "Total Compensation Requested"
      case SincerelyLabel => "Sincerely,"
      case NotRecordedLabel => "Not recorded"
    }
  }

  /**
   * A text laid out by `StaticLayout`: a given string, a fixed label, the
   * subject naming the case, the vehicle line of the signature, or one of the
   * three fixed paragraphs of the letter.
   */
  datatype Prose =
    | Literal(text: string)
    | Fixed(which: Label)
    | SubjectLine(caseId: int)
    | VehicleNumberLine(number: string)
    | IntroductionParagraph | ConclusionParagraph | DisclaimerParagraph
  {
    /** The text the layout is given; the three paragraphs are fixed texts not reproduced here. */
    function Text(): string
    {
      match this
      case Literal(text) => text
      case Fixed(which) => which.Text()
      case SubjectLine(caseId) =>
        "Notice of Claim for Damages due to Poor Road Conditions (Case ID: RR-" + IntToString(caseId) + ")"
      case VehicleNumberLine(number) => "Vehicle No.: " + number
      case _ => ""
    }
  }

  /** A text with the height its layout measured, in whole points. */
  datatype TextBlock = TextBlock(prose: Prose, height: nat)

  /**
   * Body text drawn on a page: one `drawText` line (a given string, a fixed
   * label or an evidence caption), a laid-out paragraph, or the rule under a
   * title.
   */
  datatype Item = Line(text: string) | LabelLine(which: Label) | Caption(number: nat) | Block(prose: Prose) | Rule
  {
    /** The text drawn; a caption reads "Evidence #n". */
    function Text(): string
    {
      match this
      case Line(text) => text
      case LabelLine(which) => which.Text()
      case Caption(number) => "Evidence #" + IntToString(number)
      case Block(prose) => prose.Text()
      case Rule => ""
    }
  }

  datatype TextMark = TextMark(page: nat, x: int, y: int, item: Item)

  /** A section title, drawn at the left margin in the heading paint. */
  datatype HeadingMark = HeadingMark(page: nat, y: int, title: Title)

  /** The bitmap of "Evidence #number". */
  datatype PhotoMark = PhotoMark(page: nat, x: int, y: int, number: nat)

  /**
   * The generator's state: the numbers of the pages the document has finished
   * (`document.pages`), the number of the page being drawn (`currentPage`),
   * the cursor field `yPos`, and what has been drawn, grouped by kind: the
   * "Page n" footers, the section titles, the evidence bitmaps and all other
   * text. Each mark carries its page and position; the order between marks
   * of different kinds is not kept.
   */
  datatype Doc = Doc(
    pages: seq<nat>,
    current: Option<nat>,
    yPos: int,
    footers: seq<nat>,
    headings: seq<HeadingMark>,
    photos: seq<PhotoMark>,
    texts: seq<TextMark>)

  /** A document with a page open, as every drawing helper needs (`currentPage!!`). */
  type OpenDoc = d: Doc | d.current.Some? witness Doc([], Some(1), Margin, [], [], [], [])

  /** A helper's result: the document and the cursor it returns. */
  datatype Placed = Placed(doc: OpenDoc, y: int)

  function Page(d: OpenDoc): nat { d.current.value }

  /** Pages numbered 1, 2, 3, … in the order they were finished. */
  predicate Numbered(pages: seq<nat>)
  {
    forall i :: 0 <= i < |pages| ==> pages[i] == i + 1
  }

  /**
   * The pagination invariant while a report is drawn: finished pages are
   * numbered consecutively from 1, each got its own page-number footer before
   * it was finished, and the open page has the next number.
   */
  predicate Consistent(d: Doc)
  {
    Numbered(d.pages) && d.current == Some(|d.pages| + 1) && d.footers == d.pages
  }

  /** The section titles in drawing order, without the grid's "(Continued)" titles. */
  function Sections(headings: seq<HeadingMark>): seq<Title>
  {
    if headings == [] then []
    else
      var last := headings[|headings| - 1];
      Sections(headings[..|headings| - 1]) + (if last.title != ContinuedTitle then [last.title] else [])
  }

  lemma SectionsSnoc(headings: seq<HeadingMark>, h: HeadingMark)
    ensures Sections(headings + [h]) == Sections(headings) + (if h.title != ContinuedTitle then [h.title] else [])
  {
    assert (headings + [h])[..|headings + [h]| - 1] == headings;
  }

  /** The evidence photos in drawing order, as (number, column x). */
  function Placements(photos: seq<PhotoMark>): seq<(nat, int)>
  {
    if photos == [] then []
    else Placements(photos[..|photos| - 1]) + [(photos[|photos| - 1].number, photos[|photos| - 1].x)]
  }

  lemma PlacementsSnoc(photos: seq<PhotoMark>, p: PhotoMark)
    ensures Placements(photos + [p]) == Placements(photos) + [(p.number, p.x)]
  {
    assert (photos + [p])[..|photos + [p]| - 1] == photos;
  }

  // ---------------------------------------------------------------------------
  // Pages
  // ---------------------------------------------------------------------------

  /**
   * `startNewPage`: draws the footer on the open page, if any, and finishes
   * it, then opens page number `pages.size + 1` with the cursor at the top
   * margin.
   */
  function NewPage(d: Doc): (r: OpenDoc)
    ensures r.yPos == Margin
    ensures r.pages == d.pages + (if d.current.Some? then [d.current.value] else [])
    ensures r.footers == d.footers + (if d.current.Some? then [d.current.value] else [])
    ensures Page(r) == |r.pages| + 1
    ensures r.headings == d.headings && r.photos == d.photos && r.texts == d.texts
  {
    match d.current
    case None => d.(current := Some(|d.pages| + 1), yPos := Margin)
    case Some(p) => d.(pages := d.pages + [p], footers := d.footers + [p], current := Some(|d.pages| + 2), yPos := Margin)
  }

  /**
   * Page numbering: the first page of a fresh document is page 1, and a page
   * break mid-report finishes page n, with footer n, and opens page n + 1.
   */
  lemma NewPageNumbering(d: Doc)
    requires Consistent(d) || (d.pages == [] && d.current == None && d.footers == [])
    ensures Consistent(NewPage(d))
    ensures d.current.None? ==> Page(NewPage(d)) == 1 && NewPage(d).pages == []
    ensures d.current.Some? ==> NewPage(d).pages == d.pages + [Page(d)] && Page(NewPage(d)) == Page(d) + 1
  {
  }

  /** `checkPageHeight(needed)`: a new page when the field cursor plus `needed` passes the bottom margin. */
  function CheckHeight(d: OpenDoc, needed: int): (r: OpenDoc)
    ensures Consistent(d) ==> Consistent(r)
    ensures r.headings == d.headings && r.photos == d.photos && r.texts == d.texts
  {
    if d.yPos + needed > Bottom then NewPage(d) else d
  }

  /** A page break happens exactly on overflow; otherwise page and cursor are untouched. */
  lemma CheckHeightSpec(d: OpenDoc, needed: int)
    requires Consistent(d)
    ensures var r := CheckHeight(d, needed);
      && (r.pages != d.pages <==> d.yPos + needed > Bottom)
      && (d.yPos + needed > Bottom ==> r.yPos == Margin && r.pages == d.pages + [Page(d)] && Page(r) == Page(d) + 1)
      && (d.yPos + needed <= Bottom ==> r == d)
  {
  }

  /** One text drawing call on the open page. */
  function PutText(d: OpenDoc, x: int, y: int, item: Item): (r: OpenDoc)
    ensures r == d.(texts := d.texts + [TextMark(Page(d), x, y, item)])
  {
    d.(texts := d.texts + [TextMark(Page(d), x, y, item)])
  }

  /** `yPos = draw…(…)`: the generator stores the returned cursor in its field. */
  function Assign(p: Placed): (r: OpenDoc)
    ensures Consistent(p.doc) ==> Consistent(r)
    ensures r.headings == p.doc.headings && r.photos == p.doc.photos && r.yPos == p.y
  {
    p.doc.(yPos := p.y)
  }

  // ---------------------------------------------------------------------------
  // The drawing helpers. Each checks the page height against the FIELD cursor
  // but draws at, and returns a cursor computed from, its PARAMETER `y`.
  // ---------------------------------------------------------------------------

  /** `drawWrappedText`: checks for the text's height, draws it at (x, y) and returns the cursor below it. */
  function WrappedText(d: OpenDoc, text: TextBlock, y: int, x: int): (r: Placed)
    ensures r.y == y + Pt(text.height)
    ensures r.doc == PutText(CheckHeight(d, Pt(text.height)), x, y, Block(text.prose))
    ensures Consistent(d) ==> Consistent(r.doc)
    ensures r.doc.headings == d.headings && r.doc.photos == d.photos
  {
    Placed(PutText(CheckHeight(d, Pt(text.height)), x, y, Block(text.prose)), y + Pt(text.height))
  }

  /** `drawSectionTitle`: the title and its rule, then one heading line and a paragraph gap. */
  function SectionTitle(d: OpenDoc, title: Title, y: int): (r: Placed)
    ensures r.y == y + HeadingLine + ParaSpacing
    ensures var c := CheckHeight(d, 2 * HeadingSize);
      r.doc.headings == d.headings + [HeadingMark(Page(c), y + HeadingSize, title)] && r.doc.yPos == c.yPos
    ensures Consistent(d) ==> Consistent(r.doc)
    ensures Sections(r.doc.headings) == Sections(d.headings) + (if title != ContinuedTitle then [title] else [])
    ensures r.doc.photos == d.photos
  {
    var c := CheckHeight(d, 2 * HeadingSize);
    SectionsSnoc(c.headings, HeadingMark(Page(c), y + HeadingSize, title));
    var t := c.(headings := c.headings + [HeadingMark(Page(c), y + HeadingSize, title)]);
    Placed(PutText(t, Margin, y + HeadingSize + 50, Rule), y + HeadingLine + ParaSpacing)
  }

  /** `drawKeyValue`: the key in a 160 pt column, the value beside it; advances by the value's height. */
  function KeyValue(d: OpenDoc, key: Label, value: TextBlock, y: int): (r: Placed)
    ensures r.y == y + Pt(value.height) + ParaSpacing
    ensures var c := CheckHeight(d, Pt(value.height) + KeyValueSpacing);
      r.doc == c.(texts := c.texts + [TextMark(Page(c), Margin, y, LabelLine(key)),
                                        TextMark(Page(c), Margin + KeyWidth + KeyValueSpacing, y, Block(value.prose))])
    ensures Consistent(d) ==> Consistent(r.doc)
    ensures r.doc.headings == d.headings && r.doc.photos == d.photos
  {
    var c := CheckHeight(d, Pt(value.height) + KeyValueSpacing);
    var k := PutText(c, Margin, y, LabelLine(key));
    Placed(PutText(k, Margin + KeyWidth + KeyValueSpacing, y, Block(value.prose)), y + Pt(value.height) + ParaSpacing)
  }

  /** `drawHeader`: the date, right-aligned on the top margin; no height check. */
  function Header(d: OpenDoc, date: string, dateWidth: nat): (r: Placed)
    ensures r.y == Margin + ParaSpacing
    ensures Consistent(d) ==> Consistent(r.doc)
    ensures r.doc.headings == d.headings && r.doc.photos == d.photos
    ensures r.doc.pages == d.pages && r.doc.current == d.current && r.doc.yPos == d.yPos && r.doc.footers == d.footers
  {
    Placed(PutText(d, PageWidth - Margin - dateWidth, Margin, Line(date)), Margin + ParaSpacing)
  }

  /** `drawRecipientInfo`: three body lines addressed to the authority. */
  function RecipientInfo(d: OpenDoc, authority: string, y: int): (r: Placed)
    ensures r.y == y + 2 * BodyLine + SectionSpacing
    ensures Consistent(d) ==> Consistent(r.doc)
    ensures r.doc.headings == d.headings && r.doc.photos == d.photos
  {
    var c := CheckHeight(d, 500);
    var a := PutText(c, Margin, y, LabelLine(ToLabel));
    var b := PutText(a, Margin, y + BodyLine, LabelLine(AuthorityLabel));
    Placed(PutText(b, Margin, y + 2 * BodyLine, Line(authority)), y + 2 * BodyLine + SectionSpacing)
  }

  /** `drawSubject`: "Subject:" and, after its measured width, the wrapped subject text. */
  function Subject(d: OpenDoc, caseId: int, offset: nat, height: nat, y: int): (r: Placed)
    ensures r.y == y + Pt(height) + SectionSpacing
    ensures Consistent(d) ==> Consistent(r.doc)
    ensures r.doc.headings == d.headings && r.doc.photos == d.photos
  {
    var c := CheckHeight(d, 500);
    var s := PutText(c, Margin, y, LabelLine(SubjectLabel));
    var w := WrappedText(s, TextBlock(SubjectLine(caseId), height), y, Margin + offset);
    Placed(w.doc, w.y + SectionSpacing)
  }

  /** `drawSalutation`. */
  function Salutation(d: OpenDoc, y: int): (r: Placed)
    ensures r.y == y + BodyLine + ParaSpacing
    ensures Consistent(d) ==> Consistent(r.doc)
    ensures r.doc.headings == d.headings && r.doc.photos == d.photos
  {
    var c := CheckHeight(d, 300);
    Placed(PutText(c, Margin, y, LabelLine(SalutationLabel)), y + BodyLine + ParaSpacing)
  }

  /** `drawIntroduction`: checks for the paragraph plus a gap, then draws it as wrapped text. */
  function Introduction(d: OpenDoc, height: nat, y: int): (r: Placed)
    ensures r.y == y + Pt(height) + SectionSpacing
    ensures Consistent(d) ==> Consistent(r.doc)
    ensures r.doc.headings == d.headings && r.doc.photos == d.photos
  {
    var c := CheckHeight(d, Pt(height) + ParaSpacing);
    var w := WrappedText(c, TextBlock(IntroductionParagraph, height), y, Margin);
    Placed(w.doc, w.y + SectionSpacing)
  }

  /** The formatted "Lat: …, Lon: …" when both coordinates were recorded, else "Not recorded". */
  function LocationText(c: Case, coordinates: string): Prose
  {
    if c.incidentLatitude.Some? && c.incidentLongitude.Some? then Literal(coordinates) else Fixed(NotRecordedLabel)
  }

  /** `drawIncidentDetails`: date, time and location as key-values, threading a local cursor. */
  function IncidentDetails(d: OpenDoc, date: TextBlock, time: TextBlock, location: TextBlock, y: int): (r: Placed)
    ensures r.y == y + Pt(date.height) + Pt(time.height) + Pt(location.height) + 3 * ParaSpacing + SectionSpacing
    ensures Consistent(d) ==> Consistent(r.doc)
    ensures r.doc.headings == d.headings && r.doc.photos == d.photos
  {
    var a := KeyValue(d, DateKey, date, y);
    var b := KeyValue(a.doc, TimeKey, time, a.y);
    var c := KeyValue(b.doc, LocationKey, location, b.y);
    Placed(c.doc, c.y + SectionSpacing)
  }

  /** `drawClaimDetails`: the road and vehicle descriptions as key-values. */
  function ClaimDetails(d: OpenDoc, road: TextBlock, vehicle: TextBlock, y: int): (r: Placed)
    ensures r.y == y + Pt(road.height) + Pt(vehicle.height) + 2 * ParaSpacing + SectionSpacing
    ensures Consistent(d) ==> Consistent(r.doc)
    ensures r.doc.headings == d.headings && r.doc.photos == d.photos
  {
    var a := KeyValue(d, RoadKey, road, y);
    var b := KeyValue(a.doc, VehicleKey, vehicle, a.y);
    Placed(b.doc, b.y + SectionSpacing)
  }

  /** `drawCompensationClaim`: its own section title, then the amount as a key-value. */
  function CompensationClaim(d: OpenDoc, amount: TextBlock, y: int): (r: Placed)
    ensures r.y == y + HeadingLine + Pt(amount.height) + 2 * ParaSpacing + SectionSpacing
    ensures Consistent(d) ==> Consistent(r.doc)
    ensures Sections(r.doc.headings) == Sections(d.headings) + [CompensationTitle]
    ensures r.doc.photos == d.photos
  {
    var t := SectionTitle(d, CompensationTitle, y);
    var k := KeyValue(t.doc, CompensationKey, amount, t.y);
    Placed(k.doc, k.y + SectionSpacing)
  }

  /** `drawConclusion`. */
  function Conclusion(d: OpenDoc, height: nat, y: int): (r: Placed)
    ensures r.y == y + Pt(height) + SectionSpacing
    ensures Consistent(d) ==> Consistent(r.doc)
    ensures r.doc.headings == d.headings && r.doc.photos == d.photos
  {
    var c := CheckHeight(d, Pt(height) + SectionSpacing);
    var w := WrappedText(c, TextBlock(ConclusionParagraph, height), y, Margin);
    Placed(w.doc, w.y + SectionSpacing)
  }

  /** The measured heights of the four signature lines. */
  datatype SignatureHeights = SignatureHeights(sincerely: nat, name: nat, address: nat, vehicle: nat)

  /** `user?.name ?: "N/A"`, and likewise for the address and the vehicle number. */
  function NameLine(user: Option<User>): string { if user.Some? then user.value.name else "N/A" }
  function AddressLine(user: Option<User>): string { if user.Some? then user.value.address else "N/A" }
  function VehicleNumber(user: Option<User>): string { if user.Some? then user.value.vehicleNumber else "N/A" }

  /** `drawSignatureSection`: "Sincerely,", room to sign, then the user's name, address and vehicle. */
  function Signature(d: OpenDoc, user: Option<User>, h: SignatureHeights, y: int): (r: Placed)
    ensures r.y == y + Pt(h.sincerely) + SignatureSpace + Pt(h.name) + Pt(h.address) + Pt(h.vehicle) + SectionSpacing
    ensures Consistent(d) ==> Consistent(r.doc)
    ensures r.doc.headings == d.headings && r.doc.photos == d.photos
  {
    var c := CheckHeight(d, 800);
    var a := WrappedText(c, TextBlock(Fixed(SincerelyLabel), h.sincerely), y, Margin);
    var n := WrappedText(a.doc, TextBlock(Literal(NameLine(user)), h.name), a.y + SignatureSpace, Margin);
    var b := WrappedText(n.doc, TextBlock(Literal(AddressLine(user)), h.address), n.y, Margin);
    var v := WrappedText(b.doc, TextBlock(VehicleNumberLine(VehicleNumber(user)), h.vehicle), b.y, Margin);
    Placed(v.doc, v.y + SectionSpacing)
  }

  /** `drawDisclaimer`: the one helper that also stores its result in the field cursor. */
  function Disclaimer(d: OpenDoc, height: nat, y: int): (r: Placed)
    ensures r.y == y + Pt(height) && r.doc.yPos == r.y
    ensures Consistent(d) ==> Consistent(r.doc)
    ensures r.doc.headings == d.headings && r.doc.photos == d.photos
  {
    var c := CheckHeight(d, Pt(height));
    var w := WrappedText(c, TextBlock(DisclaimerParagraph, height), y, Margin);
    Placed(w.doc.(yPos := w.y), w.y)
  }

  // ---------------------------------------------------------------------------
  // The evidence grid
  // ---------------------------------------------------------------------------

  /**
   * The height in points of a bitmap `scaleBitmapForGrid` returns. A bitmap
   * whose scaled height truncates to 0 makes the platform's scaling throw, so
   * a drawn photo is at least one point high.
   */
  type ScaledHeight = h: nat | h >= 1 witness 1

  /** The outcome of loading one evidence photo: nothing, or its scaled height and its caption text. */
  datatype Picture = Unreadable | Loaded(height: ScaledHeight, meta: TextBlock)

  /** Room reserved for a photo: the bitmap plus four meta-text sizes. */
  function Needed(height: nat): int { Pt(height) + 4 * MetaSize }

  /** Even indices go in the left column, odd ones in the right. */
  function Column(index: nat): int { if index % 2 != 0 then RightColumn else LeftColumn }


  /** `drawEvidenceItem`: caption, bitmap below it, then the timestamp/geotag text below the bitmap. */
  function EvidenceItem(d: OpenDoc, x: int, y: int, number: nat, height: nat, meta: TextBlock): (r: OpenDoc)
    ensures r.photos == d.photos + [PhotoMark(Page(d), x, y + SubheadingLine, number)]
    ensures |r.texts| > |d.texts| && r.texts[|d.texts|] == TextMark(Page(d), x, y, Caption(number))
    ensures Consistent(d) ==> Consistent(r)
    ensures r.headings == d.headings
  {
    var c := PutText(d, x, y, Caption(number));
    var p := c.(photos := c.photos + [PhotoMark(Page(d), x, y + SubheadingLine, number)]);
    WrappedText(p, meta, y + SubheadingLine + Pt(height) + KeyValueSpacing, x).doc
  }

  /** Whether the grid's row closes after item `i`: after a right-hand item or the last one. */
  predicate ClosesRow(count: nat, i: nat)
  {
    i % 2 != 0 || i == count - 1
  }

  /** Where an item of `needed` height goes: the current row, or below a "(Continued)" title on a new page. */
  function GridTop(s: Placed, needed: int): (r: Placed)
    ensures Consistent(s.doc) ==> Consistent(r.doc)
    ensures Sections(r.doc.headings) == Sections(s.doc.headings) && r.doc.photos == s.doc.photos
  {
    if s.y + needed > Bottom then
      var n := NewPage(s.doc);
      SectionTitle(n, ContinuedTitle, n.yPos)
    else s
  }

  /** One pass of `evidence.forEachIndexed`, from (document, `currentY`). */
  function GridStep(pictures: seq<Picture>, i: nat, s: Placed): (r: Placed)
    requires i < |pictures|
    ensures Consistent(s.doc) ==> Consistent(r.doc)
    ensures Sections(r.doc.headings) == Sections(s.doc.headings)
    ensures Placements(r.doc.photos) == Placements(s.doc.photos) + (if pictures[i].Loaded? then [(i + 1, Column(i))] else [])
  {
    match pictures[i]
    case Unreadable => s
    case Loaded(height, meta) =>
      var top := GridTop(s, Needed(height));
      var doc := EvidenceItem(top.doc, Column(i), top.y, i + 1, height, meta);
      PlacementsSnoc(top.doc.photos, PhotoMark(Page(top.doc), Column(i), top.y + SubheadingLine, i + 1));
      Placed(doc, if ClosesRow(|pictures|, i) then top.y + Needed(height) + ParaSpacing else top.y)
  }

  /** The photos the grid should draw: every loadable item, numbered by its position, in its parity column. */
  function ExpectedPlacements(pictures: seq<Picture>, n: nat): seq<(nat, int)>
    requires n <= |pictures|
  {
    if n == 0 then []
    else ExpectedPlacements(pictures, n - 1) + (if pictures[n - 1].Loaded? then [(n, Column(n - 1))] else [])
  }

  /** The photos the whole grid should draw. */
  function AllPlacements(pictures: seq<Picture>): seq<(nat, int)>
  {
    ExpectedPlacements(pictures, |pictures|)
  }

  /** The grid after its first `n` items. */
  function GridUpTo(pictures: seq<Picture>, n: nat, start: Placed): (r: Placed)
    requires n <= |pictures|
    ensures Consistent(start.doc) ==> Consistent(r.doc)
    ensures Sections(r.doc.headings) == Sections(start.doc.headings)
    ensures Placements(r.doc.photos) == Placements(start.doc.photos) + ExpectedPlacements(pictures, n)
  {
    if n == 0 then start
    else
      var before := GridUpTo(pictures, n - 1, start);
      var added := if pictures[n - 1].Loaded? then [(n, Column(n - 1))] else [];
      assert Placements(start.doc.photos) + ExpectedPlacements(pictures, n - 1) + added
          == Placements(start.doc.photos) + ExpectedPlacements(pictures, n);
      GridStep(pictures, n - 1, before)
  }

  /** `drawEvidenceGrid`: all items, then a section gap below the last cursor. */
  function EvidenceGrid(d: OpenDoc, pictures: seq<Picture>, y: int): (r: Placed)
    ensures Consistent(d) ==> Consistent(r.doc)
    ensures Sections(r.doc.headings) == Sections(d.headings)
    ensures Placements(r.doc.photos) == Placements(d.photos) + AllPlacements(pictures)
    ensures r.doc == GridUpTo(pictures, |pictures|, Placed(d, y)).doc
    ensures r.y == GridUpTo(pictures, |pictures|, Placed(d, y)).y + SectionSpacing
  {
    var g := GridUpTo(pictures, |pictures|, Placed(d, y));
    Placed(g.doc, g.y + SectionSpacing)
  }

  /** Items none of which can be loaded leave the grid's document and cursor where they were. */
  lemma {:induction false} GridUpToUnreadable(pictures: seq<Picture>, n: nat, start: Placed)
    requires n <= |pictures|
    requires forall k :: 0 <= k < n ==> pictures[k].Unreadable?
    ensures GridUpTo(pictures, n, start) == start
  {
    if n > 0 {
      GridUpToUnreadable(pictures, n - 1, start);
    }
  }

  /**
   * A grid none of whose photos can be loaded draws nothing, and returns the
   * starting cursor plus the section gap.
   */
  lemma GridWithoutPhotos(d: OpenDoc, pictures: seq<Picture>, y: int)
    requires forall k :: 0 <= k < |pictures| ==> pictures[k].Unreadable?
    ensures EvidenceGrid(d, pictures, y) == Placed(d, y + SectionSpacing)
  {
    GridUpToUnreadable(pictures, |pictures|, Placed(d, y));
  }

  /**
   * One grid step in terms of the layout constants: an unloadable item changes
   * nothing; a loaded one starts a new page, with the cursor below the
   * "(Continued)" title, exactly when it would cross the bottom margin, is
   * drawn with its caption at that cursor in its parity column, and moves the
   * cursor down only when it closes a row.
   */
  lemma GridStepSpec(pictures: seq<Picture>, i: nat, s: Placed)
    requires i < |pictures| && Consistent(s.doc)
    ensures var r := GridStep(pictures, i, s);
      match pictures[i]
      case Unreadable => r == s
      case Loaded(height, _) =>
        var broke := s.y + Needed(height) > Bottom;
        var top := if broke then ContinuedTop else s.y;
        var page := if broke then Page(s.doc) + 1 else Page(s.doc);
        var t := GridTop(s, Needed(height)).doc;
        && (broke <==> |t.pages| == |s.doc.pages| + 1)
        && r.doc.photos == t.photos + [PhotoMark(page, Column(i), top + SubheadingLine, i + 1)]
        && r.doc.texts[|t.texts|] == TextMark(page, Column(i), top, Caption(i + 1))
        && r.y == top + (if ClosesRow(|pictures|, i) then Needed(height) + ParaSpacing else 0)
  {
  }

  // ---------------------------------------------------------------------------
  // The whole report
  // ---------------------------------------------------------------------------

  /** A new `PdfDocument` in a generator that has never opened a page. */
  const Blank := Doc([], None, 0, [], [], [], [])

  /** Everything the report draws that the platform measures or formats. */
  datatype Measurements = Measurements(
    date: string, dateWidth: nat,
    subjectOffset: nat, subjectHeight: nat,
    introductionHeight: nat,
    incidentDate: TextBlock, incidentTime: TextBlock, coordinates: string, locationHeight: nat,
    descriptionHeight: nat, damageHeight: nat,
    pictures: seq<Picture>,
    compensation: TextBlock,
    conclusionHeight: nat,
    signature: SignatureHeights,
    disclaimerHeight: nat)

  /** The letter's opening: date, recipient, subject, salutation and introduction; no section title. */
  function Opening(d: OpenDoc, c: Case, m: Measurements): (r: OpenDoc)
    ensures Consistent(d) ==> Consistent(r)
    ensures r.headings == d.headings && r.photos == d.photos
  {
    var h := Assign(Header(d, m.date, m.dateWidth));
    var a := Assign(RecipientInfo(h, c.authority, h.yPos));
    var s := Assign(Subject(a, c.id, m.subjectOffset, m.subjectHeight, a.yPos));
    var g := Assign(Salutation(s, s.yPos));
    Assign(Introduction(g, m.introductionHeight, g.yPos))
  }

  /** The location entry of the incident details. */
  function LocationBlock(c: Case, m: Measurements): TextBlock
  {
    TextBlock(LocationText(c, m.coordinates), m.locationHeight)
  }

  /** The incident-details and damages sections, each under its own title. */
  function IncidentPart(d: OpenDoc, c: Case, m: Measurements): (r: OpenDoc)
    ensures Consistent(d) ==> Consistent(r)
    ensures Sections(r.headings) == Sections(d.headings) + [IncidentDetailsTitle, DamagesTitle]
    ensures r.photos == d.photos
  {
    var t := Assign(SectionTitle(d, IncidentDetailsTitle, d.yPos));
    var i := Assign(IncidentDetails(t, m.incidentDate, m.incidentTime, LocationBlock(c, m), t.yPos));
    var u := Assign(SectionTitle(i, DamagesTitle, i.yPos));
    var road := TextBlock(Literal(c.description), m.descriptionHeight);
    var vehicle := TextBlock(Literal(c.vehicleDamageDescription), m.damageHeight);
    var r := Assign(ClaimDetails(u, road, vehicle, u.yPos));
    assert Sections(d.headings) + [IncidentDetailsTitle] + [DamagesTitle] == Sections(d.headings) + [IncidentDetailsTitle, DamagesTitle];
    r
  }

  /** `if (evidence.isNotEmpty())`: the evidence title and grid, or nothing at all. */
  function EvidencePart(d: OpenDoc, pictures: seq<Picture>): (r: OpenDoc)
    ensures Consistent(d) ==> Consistent(r)
    ensures Sections(r.headings) == Sections(d.headings) + (if pictures != [] then [EvidenceTitle] else [])
    ensures Placements(r.photos) == Placements(d.photos) + AllPlacements(pictures)
  {
    if pictures == [] then d
    else
      var t := Assign(SectionTitle(d, EvidenceTitle, d.yPos));
      Assign(EvidenceGrid(t, pictures, t.yPos))
  }

  /** The compensation section, the conclusion, the signature block and the disclaimer. */
  function Closing(d: OpenDoc, user: Option<User>, m: Measurements): (r: OpenDoc)
    ensures Consistent(d) ==> Consistent(r)
    ensures Sections(r.headings) == Sections(d.headings) + [CompensationTitle]
    ensures r.photos == d.photos
  {
    var k := Assign(CompensationClaim(d, m.compensation, d.yPos));
    var n := Assign(Conclusion(k, m.conclusionHeight, k.yPos));
    var s := Assign(Signature(n, user, m.signature, n.yPos));
    Assign(Disclaimer(s, m.disclaimerHeight, s.yPos))
  }

  /** Draws the footer on the last page and finishes it; `currentPage` keeps pointing at it. */
  function FinishLastPage(d: OpenDoc): (r: OpenDoc)
    ensures r.current == d.current && r.pages == d.pages + [Page(d)] && r.footers == d.footers + [Page(d)]
    ensures Consistent(d) ==> Numbered(r.pages) && r.footers == r.pages && r.current == Some(|r.pages|)
    ensures r.headings == d.headings && r.photos == d.photos
  {
    d.(pages := d.pages + [Page(d)], footers := d.footers + [Page(d)])
  }

  /** The report's sections: incident, damages, the evidence when there is any, then compensation. */
  function ReportSectionOrder(hasEvidence: bool): seq<Title>
  {
    if hasEvidence then [IncidentDetailsTitle, DamagesTitle, EvidenceTitle, CompensationTitle]
    else [IncidentDetailsTitle, DamagesTitle, CompensationTitle]
  }

  /** How the four stages' contracts add up to the report's section order and photos. */
  lemma StagesCompose(first: OpenDoc, o: OpenDoc, i: OpenDoc, e: OpenDoc, l: OpenDoc, pictures: seq<Picture>)
    requires first.headings == [] && first.photos == []
    requires o.headings == first.headings && o.photos == first.photos
    requires Sections(i.headings) == Sections(o.headings) + [IncidentDetailsTitle, DamagesTitle] && i.photos == o.photos
    requires Sections(e.headings) == Sections(i.headings) + (if pictures != [] then [EvidenceTitle] else [])
    requires Placements(e.photos) == Placements(i.photos) + AllPlacements(pictures)
    requires Sections(l.headings) == Sections(e.headings) + [CompensationTitle] && l.photos == e.photos
    ensures Sections(l.headings) == ReportSectionOrder(pictures != [])
    ensures Placements(l.photos) == AllPlacements(pictures)
  {
    assert Sections(o.headings) == [] && Placements(i.photos) == [];
    if pictures != [] {
      assert [IncidentDetailsTitle, DamagesTitle] + [EvidenceTitle] + [CompensationTitle] == ReportSectionOrder(true);
    } else {
      assert [IncidentDetailsTitle, DamagesTitle] + [] + [CompensationTitle] == ReportSectionOrder(false);
    }
  }

  /** The document `generatePdfReport` draws from a new document and a generator with no page open. */
  function Report(user: Option<User>, c: Case, m: Measurements): OpenDoc
  {
    FinishLastPage(Letter(user, c, m))
  }

  /** The report before its last page is finished. */
  function Letter(user: Option<User>, c: Case, m: Measurements): OpenDoc
  {
    Closing(EvidencePart(IncidentPart(Opening(NewPage(Blank), c, m), c, m), m.pictures), user, m)
  }

  /**
   * The finished report's pagination: its pages are numbered 1..n in order
   * with n >= 1, every page got exactly its own page-number footer, and
   * `currentPage` still names the last page.
   */
  lemma ReportPagination(user: Option<User>, c: Case, m: Measurements)
    ensures var r := Report(user, c, m);
      |r.pages| >= 1 && Numbered(r.pages) && r.footers == r.pages && r.current == Some(|r.pages|)
  {
    NewPageNumbering(Blank);
    assert Consistent(Letter(user, c, m));
  }

  /**
   * The sections come in the fixed order, with "Supporting Evidence" exactly
   * when there is evidence; and every loadable photo appears once, numbered
   * by its position in the evidence list, in its parity column.
   */
  lemma ReportContents(user: Option<User>, c: Case, m: Measurements)
    ensures Sections(Report(user, c, m).headings) == ReportSectionOrder(m.pictures != [])
    ensures Placements(Report(user, c, m).photos) == AllPlacements(m.pictures)
  {
    var first := NewPage(Blank);
    var o := Opening(first, c, m);
    var i := IncidentPart(o, c, m);
    var e := EvidencePart(i, m.pictures);
    StagesCompose(first, o, i, e, Closing(e, user, m), m.pictures);
  }

  /** What `generatePdfReport` returns or throws. */
  datatype ReportOutcome =
    | Written(fileName: string)             // the file's uri
    | GenerationException(message: string)  // a PdfGenerationException
    | OtherException                        // any other exception

  const SaveFailedMessage := "Failed to save the PDF file."

  /** "RoadRelief_Report_<case id>_<current time in ms>.pdf". */
  function ReportFileName(caseId: int, now: int): string
  {
    "RoadRelief_Report_" + IntToString(caseId) + "_" + IntToString(now) + ".pdf"
  }

  /**
   * What `generatePdfReport` ends with: with a page left open by an earlier
   * report it throws before drawing; otherwise it returns the file's name
   * when saving succeeds and throws the save failure when it does not.
   */
  function GenerationOutcome(stalePage: bool, caseId: int, saved: bool, now: int): (o: ReportOutcome)
    ensures o.Written? <==> !stalePage && saved
    ensures o.Written? ==> o.fileName == ReportFileName(caseId, now)
    ensures o.GenerationException? <==> !stalePage && !saved
    ensures o.GenerationException? ==> o.message == SaveFailedMessage
  {
    if stalePage then OtherException
    else if saved then Written(ReportFileName(caseId, now))
    else GenerationException(SaveFailedMessage)
  }
}
