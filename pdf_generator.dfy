/**
 * The report generator as the source has it: an object whose fields
 * `currentPage` and `yPos` and whose document are updated in place by the
 * drawing helpers. Every method is proved to perform exactly the step the
 * matching function of `PdfLayout` describes, so the pagination lemmas proved
 * there hold of the generator's state.
 */
module PdfGenerator {
  import opened Wrappers
  import opened Entities
  import opened PdfLayout

  class PdfGenerator {
    /** The numbers of the document's finished pages. */
    var pages: seq<nat>
    /** The number of the page being drawn, if any. */
    var currentPage: Option<nat>
    /** The cursor the page-height check reads. */
    var yPos: int
    /** What the document's pages hold, by kind. */
    var footers: seq<nat>
    var headings: seq<HeadingMark>
    var photos: seq<PhotoMark>
    var texts: seq<TextMark>

    function State(): Doc
      reads this
    {
      Doc(pages, currentPage, yPos, footers, headings, photos, texts)
    }

    /** A generator starts with no page and the cursor at 0. */
    constructor()
      ensures State() == Blank
    {
      pages, currentPage, yPos := [], None, 0;
      footers, headings, photos, texts := [], [], [], [];
    }

    /** `drawPageNumber`: the "Page n" footer on the open page, if any. */
    method DrawPageNumber()
      modifies this
      ensures State() == old(State()).(footers := old(footers) + (if currentPage.Some? then [currentPage.value] else []))
    {
      if currentPage.Some? {
        footers := footers + [currentPage.value];
      }
    }

    method StartNewPage()
      modifies this
      ensures currentPage.Some?
      ensures State() == NewPage(old(State()))
    {
      if currentPage.Some? {
        DrawPageNumber();
        pages := pages + [currentPage.value];
      }
      currentPage := Some(|pages| + 1);
      yPos := Margin;
    }

    method CheckPageHeight(needed: int)
      requires currentPage.Some?
      modifies this
      ensures currentPage.Some?
      ensures State() == CheckHeight(old(State()), needed)
    {
      if yPos + needed > Bottom {
        StartNewPage();
      }
    }

    /** One text drawing call on the open page's canvas. */
    method DrawText(x: int, y: int, item: Item)
      requires currentPage.Some?
      modifies this
      ensures currentPage.Some?
      ensures State() == PutText(old(State()), x, y, item)
    {
      texts := texts + [TextMark(currentPage.value, x, y, item)];
    }

    method DrawWrappedText(text: TextBlock, y: int, x: int) returns (next: int)
      requires currentPage.Some?
      modifies this
      ensures currentPage.Some?
      ensures Placed(State(), next) == WrappedText(old(State()), text, y, x)
    {
      CheckPageHeight(Pt(text.height));
      DrawText(x, y, Block(text.prose));
      next := y + Pt(text.height);
    }

    method DrawSectionTitle(title: Title, y: int) returns (next: int)
      requires currentPage.Some?
      modifies this
      ensures currentPage.Some?
      ensures Placed(State(), next) == SectionTitle(old(State()), title, y)
    {
      CheckPageHeight(2 * HeadingSize);
      headings := headings + [HeadingMark(currentPage.value, y + HeadingSize, title)];
      DrawText(Margin, y + HeadingSize + 50, Rule);
      next := y + HeadingLine + ParaSpacing;
    }

    method DrawKeyValue(key: Label, value: TextBlock, y: int) returns (next: int)
      requires currentPage.Some?
      modifies this
      ensures currentPage.Some?
      ensures Placed(State(), next) == KeyValue(old(State()), key, value, y)
    {
      CheckPageHeight(Pt(value.height) + KeyValueSpacing);
      DrawText(Margin, y, LabelLine(key));
      DrawText(Margin + KeyWidth + KeyValueSpacing, y, Block(value.prose));
      next := y + Pt(value.height) + ParaSpacing;
    }

    method DrawHeader(date: string, dateWidth: nat) returns (next: int)
      requires currentPage.Some?
      modifies this
      ensures currentPage.Some?
      ensures Placed(State(), next) == Header(old(State()), date, dateWidth)
    {
      DrawText(PageWidth - Margin - dateWidth, Margin, Line(date));
      next := Margin + ParaSpacing;
    }

    method DrawRecipientInfo(authority: string, y: int) returns (next: int)
      requires currentPage.Some?
      modifies this
      ensures currentPage.Some?
      ensures Placed(State(), next) == RecipientInfo(old(State()), authority, y)
    {
      var cursor := y;
      CheckPageHeight(500);
      DrawText(Margin, cursor, LabelLine(ToLabel));
      cursor := cursor + BodyLine;
      DrawText(Margin, cursor, LabelLine(AuthorityLabel));
      cursor := cursor + BodyLine;
      DrawText(Margin, cursor, Line(authority));
      next := cursor + SectionSpacing;
    }

    method DrawSubject(caseId: int, offset: nat, height: nat, y: int) returns (next: int)
      requires currentPage.Some?
      modifies this
      ensures currentPage.Some?
      ensures Placed(State(), next) == Subject(old(State()), caseId, offset, height, y)
    {
      CheckPageHeight(500);
      DrawText(Margin, y, LabelLine(SubjectLabel));
      var subjectY := DrawWrappedText(TextBlock(SubjectLine(caseId), height), y, Margin + offset);
      next := subjectY + SectionSpacing;
    }

    method DrawSalutation(y: int) returns (next: int)
      requires currentPage.Some?
      modifies this
      ensures currentPage.Some?
      ensures Placed(State(), next) == Salutation(old(State()), y)
    {
      CheckPageHeight(300);
      DrawText(Margin, y, LabelLine(SalutationLabel));
      next := y + BodyLine + ParaSpacing;
    }

    method DrawIntroduction(height: nat, y: int) returns (next: int)
      requires currentPage.Some?
      modifies this
      ensures currentPage.Some?
      ensures Placed(State(), next) == Introduction(old(State()), height, y)
    {
      CheckPageHeight(Pt(height) + ParaSpacing);
      var textY := DrawWrappedText(TextBlock(IntroductionParagraph, height), y, Margin);
      next := textY + SectionSpacing;
    }

    method DrawIncidentDetails(date: TextBlock, time: TextBlock, location: TextBlock, y: int) returns (next: int)
      requires currentPage.Some?
      modifies this
      ensures currentPage.Some?
      ensures Placed(State(), next) == IncidentDetails(old(State()), date, time, location, y)
    {
      var cursor := y;
      cursor := DrawKeyValue(DateKey, date, cursor);
      cursor := DrawKeyValue(TimeKey, time, cursor);
      cursor := DrawKeyValue(LocationKey, location, cursor);
      next := cursor + SectionSpacing;
    }

    method DrawClaimDetails(road: TextBlock, vehicle: TextBlock, y: int) returns (next: int)
      requires currentPage.Some?
      modifies this
      ensures currentPage.Some?
      ensures Placed(State(), next) == ClaimDetails(old(State()), road, vehicle, y)
    {
      var cursor := y;
      cursor := DrawKeyValue(RoadKey, road, cursor);
      cursor := DrawKeyValue(VehicleKey, vehicle, cursor);
      next := cursor + SectionSpacing;
    }

    method DrawEvidenceItem(x: int, y: int, number: nat, height: nat, meta: TextBlock)
      requires currentPage.Some?
      modifies this
      ensures currentPage.Some?
      ensures State() == EvidenceItem(old(State()), x, y, number, height, meta)
    {
      var page := currentPage.value;
      var cursor := y;
      DrawText(x, cursor, Caption(number));
      cursor := cursor + SubheadingLine;
      photos := photos + [PhotoMark(page, x, cursor, number)];
      cursor := cursor + Pt(height) + KeyValueSpacing;
      var _ := DrawWrappedText(meta, cursor, x);
    }

    /** The body of `evidence.forEachIndexed` in `drawEvidenceGrid`, for item `index` at `currentY`. */
    method DrawGridEntry(pictures: seq<Picture>, index: nat, currentY: int) returns (nextY: int)
      requires index < |pictures| && currentPage.Some?
      modifies this
      ensures currentPage.Some?
      ensures Placed(State(), nextY) == GridStep(pictures, index, Placed(old(State()), currentY))
    {
      nextY := currentY;
      match pictures[index] {
        case Unreadable =>
        case Loaded(height, meta) =>
          var needed := Needed(height);
          if nextY + needed > Bottom {
            StartNewPage();
            nextY := DrawSectionTitle(ContinuedTitle, yPos);
          }
          var x := if index % 2 != 0 then RightColumn else LeftColumn;
          DrawEvidenceItem(x, nextY, index + 1, height, meta);
          if index % 2 != 0 || index == |pictures| - 1 {
            nextY := nextY + needed + ParaSpacing;
          }
      }
    }

    /** `drawEvidenceGrid`: the loop over the evidence, with its own cursor `currentY`. */
    method DrawEvidenceGrid(pictures: seq<Picture>, y: int) returns (next: int)
      requires currentPage.Some?
      modifies this
      ensures currentPage.Some?
      ensures Placed(State(), next) == EvidenceGrid(old(State()), pictures, y)
    {
      ghost var start := Placed(State(), y);
      var currentY := y;
      var index := 0;
      while index < |pictures|
        invariant 0 <= index <= |pictures|
        invariant currentPage.Some?
        invariant Placed(State(), currentY) == GridUpTo(pictures, index, start)
        decreases |pictures| - index
      {
        ghost var before := Placed(State(), currentY);
        currentY := DrawGridEntry(pictures, index, currentY);
        assert Placed(State(), currentY) == GridStep(pictures, index, before);
        index := index + 1;
      }
      next := currentY + SectionSpacing;
    }

    method DrawCompensationClaim(amount: TextBlock, y: int) returns (next: int)
      requires currentPage.Some?
      modifies this
      ensures currentPage.Some?
      ensures Placed(State(), next) == CompensationClaim(old(State()), amount, y)
    {
      var cursor := y;
      cursor := DrawSectionTitle(CompensationTitle, cursor);
      cursor := DrawKeyValue(CompensationKey, amount, cursor);
      next := cursor + SectionSpacing;
    }

    method DrawConclusion(height: nat, y: int) returns (next: int)
      requires currentPage.Some?
      modifies this
      ensures currentPage.Some?
      ensures Placed(State(), next) == Conclusion(old(State()), height, y)
    {
      CheckPageHeight(Pt(height) + SectionSpacing);
      var textY := DrawWrappedText(TextBlock(ConclusionParagraph, height), y, Margin);
      next := textY + SectionSpacing;
    }

    method DrawSignatureSection(user: Option<User>, h: SignatureHeights, y: int) returns (next: int)
      requires currentPage.Some?
      modifies this
      ensures currentPage.Some?
      ensures Placed(State(), next) == Signature(old(State()), user, h, y)
    {
      var cursor := y;
      CheckPageHeight(800);
      cursor := DrawWrappedText(TextBlock(Fixed(SincerelyLabel), h.sincerely), cursor, Margin);
      cursor := cursor + SignatureSpace;
      cursor := DrawWrappedText(TextBlock(Literal(NameLine(user)), h.name), cursor, Margin);
      cursor := DrawWrappedText(TextBlock(Literal(AddressLine(user)), h.address), cursor, Margin);
      cursor := DrawWrappedText(TextBlock(VehicleNumberLine(VehicleNumber(user)), h.vehicle), cursor, Margin);
      next := cursor + SectionSpacing;
    }

    method DrawDisclaimer(height: nat, y: int) returns (next: int)
      requires currentPage.Some?
      modifies this
      ensures currentPage.Some?
      ensures Placed(State(), next) == Disclaimer(old(State()), height, y)
    {
      CheckPageHeight(Pt(height));
      yPos := DrawWrappedText(TextBlock(DisclaimerParagraph, height), y, Margin);
      next := yPos;
    }

    /** The footer on the last page, then `document.finishPage(currentPage)`. */
    method FinishCurrentPage()
      requires currentPage.Some?
      modifies this
      ensures State() == FinishLastPage(old(State()))
    {
      DrawPageNumber();
      pages := pages + [currentPage.value];
    }

    /** `generatePdfReport`'s first five statements: date, recipient, subject, salutation, introduction. */
    method DrawOpening(c: Case, m: Measurements)
      requires currentPage.Some?
      modifies this
      ensures currentPage.Some?
      ensures State() == Opening(old(State()), c, m)
    {
      ghost var s0 := State();
      yPos := DrawHeader(m.date, m.dateWidth);
      ghost var s1 := State();
      assert s1 == Assign(Header(s0, m.date, m.dateWidth));
      yPos := DrawRecipientInfo(c.authority, yPos);
      ghost var s2 := State();
      assert s2 == Assign(RecipientInfo(s1, c.authority, s1.yPos));
      yPos := DrawSubject(c.id, m.subjectOffset, m.subjectHeight, yPos);
      ghost var s3 := State();
      assert s3 == Assign(Subject(s2, c.id, m.subjectOffset, m.subjectHeight, s2.yPos));
      yPos := DrawSalutation(yPos);
      ghost var s4 := State();
      assert s4 == Assign(Salutation(s3, s3.yPos));
      yPos := DrawIntroduction(m.introductionHeight, yPos);
      assert State() == Assign(Introduction(s4, m.introductionHeight, s4.yPos));
    }

    /** The incident-details and damages statements of `generatePdfReport`. */
    method DrawIncidentSections(c: Case, m: Measurements)
      requires currentPage.Some?
      modifies this
      ensures currentPage.Some?
      ensures State() == IncidentPart(old(State()), c, m)
    {
      ghost var s0 := State();
      yPos := DrawSectionTitle(IncidentDetailsTitle, yPos);
      ghost var s1 := State();
      assert s1 == Assign(SectionTitle(s0, IncidentDetailsTitle, s0.yPos));
      yPos := DrawIncidentDetails(m.incidentDate, m.incidentTime, LocationBlock(c, m), yPos);
      ghost var s2 := State();
      assert s2 == Assign(IncidentDetails(s1, m.incidentDate, m.incidentTime, LocationBlock(c, m), s1.yPos));
      yPos := DrawSectionTitle(DamagesTitle, yPos);
      ghost var s3 := State();
      assert s3 == Assign(SectionTitle(s2, DamagesTitle, s2.yPos));
      var road := TextBlock(Literal(c.description), m.descriptionHeight);
      var vehicle := TextBlock(Literal(c.vehicleDamageDescription), m.damageHeight);
      yPos := DrawClaimDetails(road, vehicle, yPos);
      assert State() == Assign(ClaimDetails(s3, road, vehicle, s3.yPos));
    }

    /** `if (evidence.isNotEmpty())`: the evidence title and grid. */
    method DrawEvidenceSection(pictures: seq<Picture>)
      requires currentPage.Some?
      modifies this
      ensures currentPage.Some?
      ensures State() == EvidencePart(old(State()), pictures)
    {
      if pictures != [] {
        yPos := DrawSectionTitle(EvidenceTitle, yPos);
        yPos := DrawEvidenceGrid(pictures, yPos);
      }
    }

    /** The compensation, conclusion, signature and disclaimer statements of `generatePdfReport`. */
    method DrawClosing(user: Option<User>, m: Measurements)
      requires currentPage.Some?
      modifies this
      ensures currentPage.Some?
      ensures State() == Closing(old(State()), user, m)
    {
      ghost var s0 := State();
      yPos := DrawCompensationClaim(m.compensation, yPos);
      ghost var s1 := State();
      assert s1 == Assign(CompensationClaim(s0, m.compensation, s0.yPos));
      yPos := DrawConclusion(m.conclusionHeight, yPos);
      ghost var s2 := State();
      assert s2 == Assign(Conclusion(s1, m.conclusionHeight, s1.yPos));
      yPos := DrawSignatureSection(user, m.signature, yPos);
      ghost var s3 := State();
      assert s3 == Assign(Signature(s2, user, m.signature, s2.yPos));
      yPos := DrawDisclaimer(m.disclaimerHeight, yPos);
      assert State() == Assign(Disclaimer(s3, m.disclaimerHeight, s3.yPos));
    }

    /**
     * `generatePdfReport`. A new document replaces the old one, then the
     * report is drawn section by section, each helper's cursor stored in
     * `yPos`, and the last page is finished; `saved` says whether writing the
     * file succeeded.
     *
     * When a previous report left `currentPage` set, that page is already
     * finished and its canvas released, so footing it in `startNewPage`
     * throws before anything is drawn.
     */
    method GeneratePdfReport(user: Option<User>, c: Case, m: Measurements, saved: bool, now: int)
      returns (outcome: ReportOutcome)
      modifies this
      ensures outcome == GenerationOutcome(old(currentPage).Some?, c.id, saved, now)
      ensures old(currentPage).Some? ==> State() == Blank.(current := old(currentPage), yPos := old(yPos))
      ensures old(currentPage).None? ==> State() == Report(user, c, m)
    {
      pages, footers, headings, photos, texts := [], [], [], [], [];
      if currentPage.Some? {
        return OtherException;
      }
      DrawReport(user, c, m);
      outcome := if saved then Written(ReportFileName(c.id, now)) else GenerationException(SaveFailedMessage);
    }

    /**
     * `generatePdfReport` with the open page forgotten together with the old
     * document, so that every call draws and finishes a whole report of its
     * own, however many came before.
     */
    method GenerateFreshPdfReport(user: Option<User>, c: Case, m: Measurements, saved: bool, now: int)
      returns (outcome: ReportOutcome)
      modifies this
      ensures outcome == GenerationOutcome(false, c.id, saved, now)
      ensures outcome != OtherException
      ensures State() == Report(user, c, m)
    {
      pages, footers, headings, photos, texts := [], [], [], [], [];
      currentPage := None;
      DrawReport(user, c, m);
      outcome := if saved then Written(ReportFileName(c.id, now)) else GenerationException(SaveFailedMessage);
    }

    /** The drawing part of `generatePdfReport`, on a new document with no page open. */
    method DrawReport(user: Option<User>, c: Case, m: Measurements)
      requires State() == Blank.(yPos := yPos)
      modifies this
      ensures State() == Report(user, c, m)
    {
      StartNewPage();
      ghost var first := State();
      assert first == NewPage(Blank);
      DrawOpening(c, m);
      ghost var opening := State();
      assert opening == Opening(first, c, m);
      DrawIncidentSections(c, m);
      ghost var incident := State();
      assert incident == IncidentPart(opening, c, m);
      DrawEvidenceSection(m.pictures);
      ghost var evidence := State();
      assert evidence == EvidencePart(incident, m.pictures);
      DrawClosing(user, m);
      ghost var closing := State();
      assert closing == Closing(evidence, user, m);
      FinishCurrentPage();
    }
  }
}
