/**
 * The case-detail screen's state: the case and its evidence as the database
 * emits them, the report-generation status shown to the user, and the share
 * intent handed to the screen once a report exists.
 *
 * Each coroutine runs as one atomic step. The profile row, the text and
 * bitmap measurements of the report, whether the file could be written and
 * whether the file provider accepted it, and the clock are inputs.
 */
module CaseDetail {
  import opened Wrappers
  import opened Strings
  import opened Entities
  import opened PdfLayout
  import PdfGenerator

  /** `PdfGenerationState`. */
  datatype PdfGenerationState = Idle | Loading | Error(message: string)

  /** The case id used when the navigation arguments carry none. */
  const NoCaseId := -1

  const MissingCaseMessage := "Case details not available."
  const FailurePrefix := "Failed to generate PDF: "
  const UnexpectedMessage := "An unexpected error occurred."
  const ChooserTitle := "Share PDF Report"
  const PdfMimeType := "application/pdf"

  /** The chooser around an `ACTION_SEND` intent carrying the report file's content uri. */
  datatype ShareIntent = ShareIntent(title: string, mimeType: string, fileName: string)

  /** `caseWithEvidence`: nothing until the case is loaded, then the case paired with its evidence. */
  function CaseWithEvidence(c: Option<Case>, evidence: seq<Evidence>): (r: Option<(Case, seq<Evidence>)>)
    ensures r.None? <==> c.None?
    ensures r.Some? ==> r.value.0 == c.value && r.value.1 == evidence
  {
    if c.Some? then Some((c.value, evidence)) else None
  }

  /** How a generation attempt on a loaded case ends: Idle when the file could be shared, else an error. */
  function Settled(o: ReportOutcome, providerAccepts: bool): (s: PdfGenerationState)
    ensures s != Loading
    ensures s == Idle <==> o.Written? && providerAccepts
    ensures o.GenerationException? ==> s == Error(FailurePrefix + o.message)
    ensures o.OtherException? || (o.Written? && !providerAccepts) ==> s == Error(UnexpectedMessage)
  {
    match o
    case Written(_) => if providerAccepts then Idle else Error(UnexpectedMessage)
    case GenerationException(message) => Error(FailurePrefix + message)
    case OtherException => Error(UnexpectedMessage)
  }

  /** The share intent a successful attempt stores, if any. */
  function SharedReport(o: ReportOutcome, providerAccepts: bool): (r: Option<ShareIntent>)
    ensures r.Some? <==> o.Written? && providerAccepts
    ensures r.Some? ==> r.value == ShareIntent(ChooserTitle, PdfMimeType, o.fileName)
  {
    if o.Written? && providerAccepts then Some(ShareIntent(ChooserTitle, PdfMimeType, o.fileName)) else None
  }

  /** The three error messages a generation attempt can end with. */
  lemma ErrorMessages(c: Option<Case>, o: ReportOutcome, providerAccepts: bool)
    ensures var s := if c.None? then Error(MissingCaseMessage) else Settled(o, providerAccepts);
      s.Error? ==>
        s.message == MissingCaseMessage || s.message == UnexpectedMessage
        || (o.GenerationException? && s.message == FailurePrefix + o.message)
  {
  }

  /**
   * The report `generatePdfReport` draws for a case with one picture per
   * evidence item has "Supporting Evidence" exactly when the case has
   * evidence, in the fixed section order, and draws the grid's photos.
   */
  lemma ReportFollowsEvidence(user: Option<User>, c: Case, m: Measurements, evidence: seq<Evidence>)
    requires |m.pictures| == |evidence|
    ensures var r := Report(user, c, m);
      && Sections(r.headings) == ReportSectionOrder(evidence != [])
      && (EvidenceTitle in Sections(r.headings) <==> evidence != [])
      && Placements(r.photos) == AllPlacements(m.pictures)
  {
    ReportContents(user, c, m);
    assert (m.pictures != []) == (evidence != []);
    EvidenceInSectionOrder(evidence != []);
  }

  /** The fixed order holds "Supporting Evidence" exactly when there is evidence. */
  lemma EvidenceInSectionOrder(hasEvidence: bool)
    ensures EvidenceTitle in ReportSectionOrder(hasEvidence) <==> hasEvidence
  {
    if !hasEvidence {
      var order := ReportSectionOrder(false);
      assert forall k :: 0 <= k < |order| ==> order[k] != EvidenceTitle;
    }
  }

  class CaseDetailViewModel {
    const caseId: int
    const generator: PdfGenerator.PdfGenerator
    var loadedCase: Option<Case>
    var evidence: seq<Evidence>
    var shareIntent: Option<ShareIntent>
    var pdfGenerationState: PdfGenerationState
    /** Every value `pdfGenerationState` has taken, oldest first. */
    var stateHistory: seq<PdfGenerationState>

    /** The view-model for the navigation argument `savedCaseId`, with its own new generator. */
    constructor(savedCaseId: Option<int>)
      ensures caseId == if savedCaseId.Some? then savedCaseId.value else NoCaseId
      ensures loadedCase == None && evidence == [] && shareIntent == None
      ensures pdfGenerationState == Idle && stateHistory == [Idle]
      ensures fresh(generator) && generator.State() == Blank
    {
      caseId := savedCaseId.GetOr(NoCaseId);
      generator := new PdfGenerator.PdfGenerator();
      loadedCase, evidence, shareIntent := None, [], None;
      pdfGenerationState, stateHistory := Idle, [Idle];
    }

    /** An emission of `getCaseById`; nothing is collected without a case id. */
    method OnCaseEmitted(c: Option<Case>)
      modifies this
      ensures loadedCase == if caseId != NoCaseId then c else old(loadedCase)
      ensures evidence == old(evidence) && shareIntent == old(shareIntent)
      ensures pdfGenerationState == old(pdfGenerationState) && stateHistory == old(stateHistory)
    {
      if caseId != NoCaseId {
        loadedCase := c;
      }
    }

    /** An emission of `getEvidenceForCase`; nothing is collected without a case id. */
    method OnEvidenceEmitted(items: seq<Evidence>)
      modifies this
      ensures evidence == if caseId != NoCaseId then items else old(evidence)
      ensures loadedCase == old(loadedCase) && shareIntent == old(shareIntent)
      ensures pdfGenerationState == old(pdfGenerationState) && stateHistory == old(stateHistory)
    {
      if caseId != NoCaseId {
        evidence := items;
      }
    }

    /**
     * `generatePdfReport`: Loading, then an error when no case is loaded;
     * otherwise the generator's outcome decides, and a written file the
     * provider accepts becomes the share intent and returns to Idle.
     * `m` is the measurement of `user`, the case and its evidence, with one
     * loaded or unreadable picture per evidence item.
     */
    method GeneratePdfReport(user: Option<User>, m: Measurements, saved: bool, now: int, providerAccepts: bool)
      requires |m.pictures| == |evidence|
      modifies this, generator
      ensures stateHistory == old(stateHistory) + [Loading, pdfGenerationState]
      ensures old(loadedCase).None? ==>
        pdfGenerationState == Error(MissingCaseMessage) && shareIntent == old(shareIntent)
        && generator.State() == old(generator.State())
      ensures old(loadedCase).Some? ==>
        var o := GenerationOutcome(old(generator.currentPage).Some?, old(loadedCase).value.id, saved, now);
        && pdfGenerationState == Settled(o, providerAccepts)
        && shareIntent == (if SharedReport(o, providerAccepts).Some? then SharedReport(o, providerAccepts) else old(shareIntent))
      ensures old(loadedCase).Some? && old(generator.currentPage).None? ==>
        generator.State() == Report(user, old(loadedCase).value, m)
      ensures loadedCase == old(loadedCase) && evidence == old(evidence)
    {
      pdfGenerationState := Loading;
      stateHistory := stateHistory + [Loading];
      if loadedCase.None? {
        pdfGenerationState := Error(MissingCaseMessage);
      } else {
        var outcome := generator.GeneratePdfReport(user, loadedCase.value, m, saved, now);
        SettleOutcome(outcome, providerAccepts);
      }
      stateHistory := stateHistory + [pdfGenerationState];
    }

    /** The end of a generation attempt on a loaded case: share and return to Idle, or report the failure. */
    method SettleOutcome(outcome: ReportOutcome, providerAccepts: bool)
      modifies this
      ensures pdfGenerationState == Settled(outcome, providerAccepts)
      ensures shareIntent == if SharedReport(outcome, providerAccepts).Some? then SharedReport(outcome, providerAccepts) else old(shareIntent)
      ensures loadedCase == old(loadedCase) && evidence == old(evidence) && stateHistory == old(stateHistory)
    {
      match outcome {
        case Written(fileName) =>
          if providerAccepts {
            shareIntent := Some(ShareIntent(ChooserTitle, PdfMimeType, fileName));
            pdfGenerationState := Idle;
          } else {
            pdfGenerationState := Error(UnexpectedMessage);
          }
        case GenerationException(message) =>
          pdfGenerationState := Error(FailurePrefix + message);
        case OtherException =>
          pdfGenerationState := Error(UnexpectedMessage);
      }
    }

    method OnShareIntentHandled()
      modifies this
      ensures shareIntent == None
      ensures pdfGenerationState == old(pdfGenerationState) && stateHistory == old(stateHistory)
      ensures loadedCase == old(loadedCase) && evidence == old(evidence)
    {
      shareIntent := None;
    }

    method DismissPdfError()
      modifies this
      ensures pdfGenerationState == Idle && stateHistory == old(stateHistory) + [Idle]
      ensures shareIntent == old(shareIntent)
      ensures loadedCase == old(loadedCase) && evidence == old(evidence)
    {
      pdfGenerationState := Idle;
      stateHistory := stateHistory + [Idle];
    }
  }
}
