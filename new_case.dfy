/**
 * The new-claim form: the state behind the form's fields, the "Other"
 * custom-authority rule, the authority suggested from the geocoded incident
 * location, the evidence collected before saving, and `saveCase`.
 *
 * Each coroutine the view-model launches runs here as one atomic step. The
 * geocoder's answer, the id the database assigns, the parsed compensation and
 * the clock are inputs.
 */
module NewCase {
  import opened Wrappers
  import opened Strings
  import opened Entities

  // ---------------------------------------------------------------------------
  // The authority rule
  // ---------------------------------------------------------------------------

  const OtherAuthority := "Other"
  const Nhai := "National Highways Authority of India"
  const PendingStatus := "Pending"
  const NoAddressMessage := "Could not determine address."
  const DetectionFailedMessage := "Could not auto-detect authority. Please select manually."
  const NamePlaceholderText := "[Your Name]"

  /** The options offered when the location cannot be turned into an address. */
  const DefaultOptions := ["State Highway Dept", Nhai, "Municipal Corporation", OtherAuthority]

  function Municipal(city: string): string { "Municipal Corporation of " + city }

  function StateDept(state: string): string { state + " State Highway Dept" }

  /** The part of an `android.location.Address` the detection reads. */
  datatype Address = Address(
    line: Option<string>,          // getAddressLine(0)
    adminArea: Option<string>,     // the state
    locality: Option<string>,      // the city
    thoroughfare: Option<string>)  // the road name

  /** The road name names a national highway: it contains "National Highway" or "NH", ignoring case. */
  predicate IsHighway(road: string)
  {
    ContainsIgnoreCase(road, "National Highway") || ContainsIgnoreCase(road, "NH")
  }

  /** The options in the order they are added, before `distinct()`. */
  function GeneratedOptions(city: Option<string>, state: Option<string>): seq<string>
  {
    (if city.Some? then [Municipal(city.value)] else [])
    + (if state.Some? then [StateDept(state.value)] else [])
    + [Nhai, OtherAuthority]
  }

  /**
   * The dropdown's options after a successful lookup: the generated list
   * without repetitions. It offers exactly the generated options, each once,
   * always offers the national highways authority, and ends with "Other".
   */
  function AuthorityOptions(city: Option<string>, state: Option<string>): (options: seq<string>)
    ensures NoDuplicates(options)
    ensures forall x :: x in options <==> x in GeneratedOptions(city, state)
    ensures Nhai in options
    ensures |options| >= 2 && options[|options| - 1] == OtherAuthority
  {
    var g := GeneratedOptions(city, state);
    var init := g[..|g| - 1];
    assert g == init + [OtherAuthority];
    assert forall x :: x in init ==> |x| > |OtherAuthority|;
    DistinctSnoc(init, OtherAuthority);
    DistinctSpec(init);
    DistinctSpec(g);
    assert Nhai in init;
    Distinct(g)
  }

  /**
   * The suggestion: the national highways authority for a highway, else the
   * city's municipal corporation, else the state's highway department, else
   * nothing. A suggestion is always one of the options offered with it, and
   * there is none exactly when the road is no highway and neither city nor
   * state is known.
   */
  function TopSuggestion(road: string, city: Option<string>, state: Option<string>): (s: string)
    ensures s == "" <==> !IsHighway(road) && city.None? && state.None?
    ensures s != "" ==> s in AuthorityOptions(city, state)
    ensures IsHighway(road) ==> s == Nhai
    ensures !IsHighway(road) && city.Some? ==> s == Municipal(city.value)
    ensures !IsHighway(road) && city.None? && state.Some? ==> s == StateDept(state.value)
  {
    if IsHighway(road) then Nhai
    else if city.Some? then Municipal(city.value)
    else if state.Some? then StateDept(state.value)
    else ""
  }

  /** The authority `saveCase` stores: the trimmed custom text when "Other" is selected, else the selection. */
  function ResolvedAuthority(selected: string, custom: string): (authority: string)
    ensures selected == OtherAuthority ==> authority == Trim(custom)
    ensures selected != OtherAuthority ==> authority == selected
  {
    if selected == OtherAuthority then Trim(custom) else selected
  }

  /** A custom authority is stored without surrounding whitespace, and a blank one as "". */
  lemma CustomAuthorityTrimmed(custom: string)
    ensures var a := ResolvedAuthority(OtherAuthority, custom);
      && (a != [] ==> !IsWhitespace(a[0]) && !IsWhitespace(a[|a| - 1]))
      && (a == [] <==> AllWhitespace(custom))
  {
    TrimIsSlice(custom);
    TrimBlank(custom);
  }

  /** `userNamePlaceholder`: the profile's name, or "[Your Name]" when there is none or it is empty. */
  function NamePlaceholder(user: Option<User>): (p: string)
    ensures p != ""
    ensures user.Some? && user.value.name != "" ==> p == user.value.name
    ensures user.None? || user.value.name == "" ==> p == NamePlaceholderText
  {
    if user.None? || user.value.name == "" then NamePlaceholderText else user.value.name
  }

  // ---------------------------------------------------------------------------
  // The form's state
  // ---------------------------------------------------------------------------

  /** The value of every `MutableStateFlow` of the form, and the snackbar messages sent so far. */
  datatype Form = Form(
    incidentDate: int,
    roadConditionDescription: string,
    vehicleDamageDescription: string,
    compensation: string,
    evidenceList: seq<Evidence>,
    incidentLatitude: Option<real>,
    incidentLongitude: Option<real>,
    incidentAddress: Option<string>,
    isDetectingLocation: bool,
    selectedAuthority: string,
    authorityOptions: seq<string>,
    customAuthority: string,
    snackbars: seq<string>)

  /** A form with nothing entered, dated `now`. */
  function EmptyForm(now: int, snackbars: seq<string>): Form
  {
    Form(now, "", "", "", [], None, None, None, false, "", [], "", snackbars)
  }

  /**
   * The body of `detectAuthorityFromLocation` on the geocoder's answer
   * (`None` when it throws or returns null). No address, or none at all:
   * a snackbar, the default options, no selection and the fallback address.
   * Otherwise: the first address's line, its options, and its suggestion
   * only when nothing is selected yet.
   */
  function Detect(f: Form, geocoded: Option<seq<Address>>): Form
  {
    if geocoded.None? || geocoded.value == [] then
      f.(snackbars := f.snackbars + [DetectionFailedMessage], authorityOptions := DefaultOptions,
         selectedAuthority := "", incidentAddress := Some(NoAddressMessage), isDetectingLocation := false)
    else
      var a := geocoded.value[0];
      var top := TopSuggestion(a.thoroughfare.GetOr(""), a.locality, a.adminArea);
      f.(incidentAddress := a.line, authorityOptions := AuthorityOptions(a.locality, a.adminArea),
         selectedAuthority := if f.selectedAuthority == "" then top else f.selectedAuthority,
         isDetectingLocation := false)
  }

  /**
   * What detection promises: it always ends with `isDetectingLocation` false
   * and never touches the entered texts, the evidence, the coordinates or the
   * custom authority. On success a choice already made is kept and an empty
   * one gets the suggestion; on failure the choice is cleared and the four
   * defaults are offered.
   */
  lemma DetectSpec(f: Form, geocoded: Option<seq<Address>>)
    ensures var r := Detect(f, geocoded);
      && !r.isDetectingLocation
      && r.(incidentAddress := f.incidentAddress, isDetectingLocation := f.isDetectingLocation,
            selectedAuthority := f.selectedAuthority, authorityOptions := f.authorityOptions,
            snackbars := f.snackbars) == f
      && (geocoded.None? || geocoded.value == [] ==>
            && r.authorityOptions == DefaultOptions && r.selectedAuthority == ""
            && r.incidentAddress == Some(NoAddressMessage)
            && r.snackbars == f.snackbars + [DetectionFailedMessage])
      && (geocoded.Some? && geocoded.value != [] ==>
            var a := geocoded.value[0];
            && r.snackbars == f.snackbars
            && r.incidentAddress == a.line
            && r.authorityOptions == AuthorityOptions(a.locality, a.adminArea)
            && (f.selectedAuthority != "" ==> r.selectedAuthority == f.selectedAuthority)
            && (f.selectedAuthority == "" ==> r.selectedAuthority == TopSuggestion(a.thoroughfare.GetOr(""), a.locality, a.adminArea)))
  {
  }

  /**
   * After a detection that found an address, on a form with nothing selected,
   * the selection is empty or one of the offered options.
   */
  lemma DetectSelectionOffered(f: Form, geocoded: Option<seq<Address>>)
    requires geocoded.Some? && geocoded.value != []
    requires f.selectedAuthority == ""
    ensures var r := Detect(f, geocoded);
      r.selectedAuthority == "" || r.selectedAuthority in r.authorityOptions
  {
  }

  /** The evidence as `saveCase` inserts it: each item with the new case's id, all else kept. */
  function Stamped(evidence: seq<Evidence>, caseId: int): (stamped: seq<Evidence>)
    ensures |stamped| == |evidence|
    ensures forall i :: 0 <= i < |stamped| ==> stamped[i].caseId == caseId
    ensures forall i :: 0 <= i < |stamped| ==> stamped[i].(caseId := evidence[i].caseId) == evidence[i]
  {
    seq(|evidence|, i requires 0 <= i < |evidence| => evidence[i].(caseId := caseId))
  }

  /** The case `saveCase` inserts, with the compensation as `toDoubleOrNull` parsed it. */
  function CaseToSave(f: Form, parsedCompensation: Option<real>): (c: Case)
    ensures c.id == 0 && c.status == PendingStatus
    ensures c.authority == ResolvedAuthority(f.selectedAuthority, f.customAuthority)
    ensures c.compensation == (if parsedCompensation.Some? then parsedCompensation.value else 0.0)
    ensures c.incidentLatitude == f.incidentLatitude && c.incidentLongitude == f.incidentLongitude
    ensures c.incidentDate == f.incidentDate
    ensures c.description == f.roadConditionDescription && c.vehicleDamageDescription == f.vehicleDamageDescription
  {
    Case(0, f.incidentDate, ResolvedAuthority(f.selectedAuthority, f.customAuthority),
         f.roadConditionDescription, f.vehicleDamageDescription,
         parsedCompensation.GetOr(0.0), PendingStatus, f.incidentLatitude, f.incidentLongitude)
  }

  // ---------------------------------------------------------------------------
  // The view-model
  // ---------------------------------------------------------------------------

  class NewCaseViewModel {
    var incidentDate: int
    var roadConditionDescription: string
    var vehicleDamageDescription: string
    var compensation: string
    var evidenceList: seq<Evidence>
    var incidentLatitude: Option<real>
    var incidentLongitude: Option<real>
    var incidentAddress: Option<string>
    var isDetectingLocation: bool
    var selectedAuthority: string
    var authorityOptions: seq<string>
    var customAuthority: string
    /** The messages sent to the snackbar channel. */
    var snackbars: seq<string>

    function Fields(): Form
      reads this
    {
      Form(incidentDate, roadConditionDescription, vehicleDamageDescription, compensation, evidenceList,
           incidentLatitude, incidentLongitude, incidentAddress, isDetectingLocation,
           selectedAuthority, authorityOptions, customAuthority, snackbars)
    }

    /** A new form, dated by the clock reading `now`. */
    constructor(now: int)
      ensures Fields() == EmptyForm(now, [])
    {
      incidentDate, roadConditionDescription, vehicleDamageDescription, compensation := now, "", "", "";
      evidenceList, incidentLatitude, incidentLongitude, incidentAddress := [], None, None, None;
      isDetectingLocation, selectedAuthority, authorityOptions, customAuthority := false, "", [], "";
      snackbars := [];
    }

    method OnIncidentDateChange(date: int)
      modifies this
      ensures Fields() == old(Fields()).(incidentDate := date)
    {
      incidentDate := date;
    }

    /** Selecting an authority other than "Other" discards the custom text; selecting "Other" keeps it. */
    method OnAuthorityChange(auth: string)
      modifies this
      ensures selectedAuthority == auth
      ensures customAuthority == if auth != OtherAuthority then "" else old(customAuthority)
      ensures Fields() == old(Fields()).(selectedAuthority := auth, customAuthority := customAuthority)
    {
      selectedAuthority := auth;
      if auth != OtherAuthority {
        customAuthority := "";
      }
    }

    method OnCustomAuthorityChange(text: string)
      modifies this
      ensures Fields() == old(Fields()).(customAuthority := text)
    {
      customAuthority := text;
    }

    method OnRoadConditionDescriptionChange(desc: string)
      modifies this
      ensures Fields() == old(Fields()).(roadConditionDescription := desc)
    {
      roadConditionDescription := desc;
    }

    method OnVehicleDamageDescriptionChange(desc: string)
      modifies this
      ensures Fields() == old(Fields()).(vehicleDamageDescription := desc)
    {
      vehicleDamageDescription := desc;
    }

    method OnCompensationChange(comp: string)
      modifies this
      ensures Fields() == old(Fields()).(compensation := comp)
    {
      compensation := comp;
    }

    /**
     * Stores the coordinates; with both present, the detection runs on the
     * geocoder's answer `geocoded`, otherwise the address is cleared.
     */
    method OnIncidentLocationChange(latitude: Option<real>, longitude: Option<real>, geocoded: Option<seq<Address>>)
      modifies this
      ensures var located := old(Fields()).(incidentLatitude := latitude, incidentLongitude := longitude);
        Fields() == if latitude.Some? && longitude.Some? then Detect(located, geocoded)
                    else located.(incidentAddress := None)
    {
      incidentLatitude := latitude;
      incidentLongitude := longitude;
      if latitude.Some? && longitude.Some? {
        DetectAuthorityFromLocation(geocoded);
      } else {
        incidentAddress := None;
      }
    }

    /** `detectAuthorityFromLocation`, with the geocoder's answer as input. */
    method DetectAuthorityFromLocation(geocoded: Option<seq<Address>>)
      modifies this
      ensures Fields() == Detect(old(Fields()), geocoded)
    {
      isDetectingLocation := true;
      if geocoded.None? || geocoded.value == [] {
        snackbars := snackbars + [DetectionFailedMessage];
        authorityOptions := DefaultOptions;
        selectedAuthority := "";
        incidentAddress := Some(NoAddressMessage);
      } else {
        var address := geocoded.value[0];
        var state := address.adminArea;
        var city := address.locality;
        var roadName := address.thoroughfare.GetOr("");
        incidentAddress := address.line;
        var topSuggestion := "";
        if IsHighway(roadName) {
          topSuggestion := Nhai;
        } else if city.Some? {
          topSuggestion := Municipal(city.value);
        } else if state.Some? {
          topSuggestion := StateDept(state.value);
        }
        authorityOptions := AuthorityOptions(city, state);
        if selectedAuthority == "" {
          selectedAuthority := topSuggestion;
        }
      }
      isDetectingLocation := false;
    }

    /** `addEvidence`: one more photo, not yet tied to a case, stamped with the clock reading `now`. */
    method AddEvidence(uri: string, latitude: real, longitude: real, now: int)
      modifies this
      ensures evidenceList == old(evidenceList) + [Evidence(0, 0, uri, latitude, longitude, now)]
      ensures Fields() == old(Fields()).(evidenceList := evidenceList)
    {
      var newEvidence := Evidence(0, 0, uri, latitude, longitude, now);
      evidenceList := evidenceList + [newEvidence];
    }

    /** The loop of `saveCase` that inserts every collected photo, in order, with the id `caseId`. */
    method StampEvidence(caseId: int) returns (savedEvidence: seq<Evidence>)
      ensures savedEvidence == Stamped(evidenceList, caseId)
    {
      savedEvidence := [];
      var i := 0;
      while i < |evidenceList|
        invariant 0 <= i <= |evidenceList|
        invariant savedEvidence == Stamped(evidenceList[..i], caseId)
      {
        savedEvidence := savedEvidence + [evidenceList[i].(caseId := caseId)];
        i := i + 1;
      }
      assert evidenceList[..i] == evidenceList;
    }

    /**
     * `saveCase`: the case built from the form, then every collected photo
     * with the id `caseId` the database gave the case, in order; then the
     * form is cleared and dated `now`.
     */
    method SaveCase(caseId: int, parsedCompensation: Option<real>, now: int)
      returns (savedCase: Case, savedEvidence: seq<Evidence>)
      modifies this
      ensures savedCase == CaseToSave(old(Fields()), parsedCompensation)
      ensures savedEvidence == Stamped(old(evidenceList), caseId)
      ensures Fields() == EmptyForm(now, old(snackbars)).(isDetectingLocation := old(isDetectingLocation))
    {
      savedCase := CaseToSave(Fields(), parsedCompensation);
      savedEvidence := StampEvidence(caseId);
      ClearForm(now);
    }

    /** The end of `saveCase`: every field back to empty and the date to `now`; the detection flag and the snackbars stay. */
    method ClearForm(now: int)
      modifies this
      ensures Fields() == Form(now, "", "", "", [], None, None, None, old(isDetectingLocation), "", [], "", old(snackbars))
    {
      incidentDate, selectedAuthority, customAuthority, authorityOptions := now, "", "", [];
      roadConditionDescription, vehicleDamageDescription, compensation := "", "", "";
      incidentLatitude, incidentLongitude, incidentAddress, evidenceList := None, None, None, [];
    }
  }
}
