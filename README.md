# RoadRelief in Dafny

RoadRelief is an Android app that helps a driver file a damage claim against the
authority responsible for a bad road. This project models the app's logic and
proves properties of that model. It covers five parts:

- **The claim-report generator** (`PdfGenerator`). It lays out a letter on A4
  pages. It keeps a cursor `yPos` and a current page, and it opens a new,
  consecutively numbered page whenever the next block would pass the bottom
  margin. The letter's evidence photos go in a two-column grid.
  - Module `PdfLayout` states every drawing step as a pure function over a
    `Doc` value: finished pages, the open page, the cursor, and the marks drawn
    so far. The pagination lemmas are proved about these functions.
  - Module `PdfGenerator` is a class with the source's fields. Its methods update
    those fields in place. Each method is proved to perform exactly that step.
- **The new-claim form** (`NewCase`). It holds the form's state and the "Other"
  custom-authority rule. It suggests an authority from the geocoded location and
  falls back to defaults when that fails. It collects evidence, and `saveCase`
  builds the case, stamps the evidence with the case id and clears the form.
- **The profile screen** (`Profile`). It covers the first-launch setup, the
  field edits, the conditional save of the trimmed profile, and skipping.
- **The case-detail screen** (`CaseDetail`). It runs the report-generation
  status machine (Idle, Loading, Error) and hands the share intent to the screen.
- **Navigation routes** (`Screen`). These are the route constants and
  `CaseDetail.createRoute`.

The Kotlin library functions these rely on are in module `Strings`, with their
properties proved:

- decimal rendering of a `Long`;
- `trim()`;
- `contains(…, ignoreCase = true)`;
- `distinct()`;
- `replace`.

The database rows are datatypes in module `Entities`.

Lengths in the report are integer tenths of a point. Every layout constant of
the generator is a multiple of 0.1 pt, and the model computes with them exactly;
the Kotlin code computes in `Float`, whose rounding is not modelled (see
"## Left out"). The model takes these measurements as inputs (`Measurements`):

- in whole points: the heights `StaticLayout` measures and the pixel heights of
  the scaled bitmaps;
- in tenths of a point: the drawn date's width and the subject label's width,
  which `measureText` returns as fractions that the model takes already rounded.

Each `viewModelScope.launch` body is one atomic step. The model takes these
platform results as inputs:

- the geocoder's answer;
- the id the database gives a new case;
- the parsed compensation;
- the clock;
- whether the report file could be written;
- whether the file provider accepted it.

The effects are recorded in fields of the view-model or returned:

- snackbar messages (fields);
- the profile's database writes (a field);
- the new case and its evidence rows, which `saveCase` inserts (out-parameters of `SaveCase`);
- navigation events (a field);
- the history of the generation state (a field).

The main model follows the code as written, including three defects, which are
listed under "## Findings". Each defect has a separate corrected member beside
it, with the intended property proved of that member.

## Model

| member | source | states |
|---|---|---|
| Screen.AllRoutes | app/src/main/java/com/roadrelief/app/ui/nav/Screen.kt:3-11 | six screen routes, no two of them equal |
| Screen.CreateRoute | app/src/main/java/com/roadrelief/app/ui/nav/Screen.kt:8 | the route is "case_detail/" followed by a decimal numeral that reads back as the id; that numeral starts with '-' exactly for negative ids; the route has no '{' |
| Screen.CreateRouteInjective | app/src/main/java/com/roadrelief/app/ui/nav/Screen.kt:8 | two ids give the same route if and only if they are equal |
| Screen.FillPatternIsCreateRoute | app/src/main/java/com/roadrelief/app/ui/nav/Screen.kt:7-8 | replacing "{caseId}" in the case-detail pattern with the decimal id gives `createRoute(id)` |
| Screen.RoutesDistinct | app/src/main/java/com/roadrelief/app/ui/nav/Screen.kt:3-11 | the six routes are pairwise distinct, and no concrete case route equals any of them |
| Strings.NatToString | app/src/main/java/com/roadrelief/app/ui/nav/Screen.kt:8 | the rendering of a natural number is a non-empty digit string with no leading zero |
| Strings.IntToString | app/src/main/java/com/roadrelief/app/ui/nav/Screen.kt:8 | the rendering of a `Long` is a numeral; it starts with '-' exactly when the number is negative, and the digits after it are the absolute value's |
| Strings.NumeralCharacters | app/src/main/java/com/roadrelief/app/ui/nav/Screen.kt:8 | every character of a numeral is a digit, except possibly a leading '-' |
| Strings.ParseIntToString | app/src/main/java/com/roadrelief/app/ui/nav/Screen.kt:8 | reading the rendering back gives the number again, so rendering loses nothing |
| Strings.IntToStringInjective | app/src/main/java/com/roadrelief/app/ui/nav/Screen.kt:8 | two numbers have the same rendering if and only if they are equal |
| Strings.LeadingWhitespaceSpec | app/src/main/java/com/roadrelief/app/ui/screens/profile/ProfileViewModel.kt:74-80 | the characters `trim()` drops at the front are all whitespace, and the first one kept is not |
| Strings.TrailingWhitespaceSpec | app/src/main/java/com/roadrelief/app/ui/screens/profile/ProfileViewModel.kt:74-80 | the characters `trim()` drops at the back are all whitespace, and the last one kept is not |
| Strings.LeadingWhitespaceAll | app/src/main/java/com/roadrelief/app/ui/screens/profile/ProfileViewModel.kt:74-84 | the leading whitespace covers the whole string if and only if the string is blank |
| Strings.TrailingWhitespaceAll | app/src/main/java/com/roadrelief/app/ui/screens/profile/ProfileViewModel.kt:74-84 | the trailing whitespace covers the whole string if and only if the string is blank |
| Strings.TrimIsSlice | app/src/main/java/com/roadrelief/app/ui/screens/profile/ProfileViewModel.kt:74-80 | `trim()` gives a contiguous slice of the input with only whitespace on either side of it, and the slice neither starts nor ends with whitespace |
| Strings.TrimmedSlice | app/src/main/java/com/roadrelief/app/ui/screens/profile/ProfileViewModel.kt:74-80 | a prefix of a suffix that drops only whitespace sits at the same place in the whole string, with only whitespace after it |
| Strings.TrimBlank | app/src/main/java/com/roadrelief/app/ui/screens/profile/ProfileViewModel.kt:74-84 | `trim()` gives "" if and only if the input is all whitespace |
| Strings.TrimIdempotent | app/src/main/java/com/roadrelief/app/ui/screens/profile/ProfileViewModel.kt:74-80 | trimming twice is the same as trimming once |
| Strings.ContainsIgnoreCaseSpec | app/src/main/java/com/roadrelief/app/ui/screens/newcase/NewCaseViewModel.kt:257 | the left-to-right scan finds the pattern if and only if it matches, ignoring case, at some position |
| Strings.FirstIndexInPrefix | app/src/main/java/com/roadrelief/app/ui/screens/newcase/NewCaseViewModel.kt:270 | an element of a prefix first occurs in the whole list where it first occurs in the prefix |
| Strings.DistinctSpec | app/src/main/java/com/roadrelief/app/ui/screens/newcase/NewCaseViewModel.kt:270 | `distinct()` leaves no duplicates, keeps exactly the input's elements, and keeps them in the order of their first occurrences |
| Strings.DistinctSnoc | app/src/main/java/com/roadrelief/app/ui/screens/newcase/NewCaseViewModel.kt:265-270 | an element not seen before is kept, and it goes last |
| Strings.ReplaceAfterPrefix | app/src/main/java/com/roadrelief/app/ui/nav/Screen.kt:7 | a pattern whose first character does not occur in the prefix is replaced only where it ends the string |
| PdfLayout.NewPage | app/src/main/java/com/roadrelief/app/util/PdfGenerator.kt:144-153 | the open page, if any, gets its footer and is finished; the new page is numbered one past the finished pages; the cursor is at the top margin; nothing already drawn changes |
| PdfLayout.NewPageNumbering | app/src/main/java/com/roadrelief/app/util/PdfGenerator.kt:144-153 | the first page of a new document is page 1; a later break finishes page n with footer n and opens page n + 1; the pagination invariant (`Consistent`) holds afterwards |
| PdfLayout.CheckHeight | app/src/main/java/com/roadrelief/app/util/PdfGenerator.kt:155-159 | the pagination invariant is kept, and nothing already drawn changes |
| PdfLayout.CheckHeightSpec | app/src/main/java/com/roadrelief/app/util/PdfGenerator.kt:155-159 | a new page starts if and only if the field cursor plus the needed height passes pageHeight - margin; otherwise the document and cursor are untouched |
| PdfLayout.Assign | app/src/main/java/com/roadrelief/app/util/PdfGenerator.kt:100-117 | storing a helper's cursor in `yPos` keeps the pagination invariant, the titles and the photos |
| PdfLayout.WrappedText | app/src/main/java/com/roadrelief/app/util/PdfGenerator.kt:368-382 | the returned cursor is the argument y plus the text's height, whether or not a page break happened; the text is drawn at (x, y) on the page open after the height check |
| PdfLayout.SectionTitle | app/src/main/java/com/roadrelief/app/util/PdfGenerator.kt:217-228 | the returned cursor is y + 19.6 + 12 pt; the title is recorded on the page open after the check; the section order gains it, except for "(Continued)" titles |
| PdfLayout.KeyValue | app/src/main/java/com/roadrelief/app/util/PdfGenerator.kt:347-366 | the returned cursor is y + the value's height + 12 pt; the key and the value are drawn side by side at y, in their columns |
| PdfLayout.Header | app/src/main/java/com/roadrelief/app/util/PdfGenerator.kt:162-171 | the cursor after the date is margin + 12 pt; the header does not check the page height, so the pages, the open page, the field cursor and the footers stay as they were |
| PdfLayout.RecipientInfo | app/src/main/java/com/roadrelief/app/util/PdfGenerator.kt:173-182 | the cursor advances two body lines plus a section gap, and the pagination invariant is kept |
| PdfLayout.Subject | app/src/main/java/com/roadrelief/app/util/PdfGenerator.kt:184-198 | the cursor advances by the subject's height plus a section gap, and the pagination invariant is kept |
| PdfLayout.Salutation | app/src/main/java/com/roadrelief/app/util/PdfGenerator.kt:200-205 | the cursor advances one body line plus a paragraph gap, and the pagination invariant is kept |
| PdfLayout.Introduction | app/src/main/java/com/roadrelief/app/util/PdfGenerator.kt:207-214 | the cursor advances by the paragraph's height plus a section gap, and the pagination invariant is kept |
| PdfLayout.IncidentDetails | app/src/main/java/com/roadrelief/app/util/PdfGenerator.kt:230-243 | the cursor advances by the three values' heights, three paragraph gaps and a section gap |
| PdfLayout.ClaimDetails | app/src/main/java/com/roadrelief/app/util/PdfGenerator.kt:245-250 | the cursor advances by the two descriptions' heights, two paragraph gaps and a section gap |
| PdfLayout.CompensationClaim | app/src/main/java/com/roadrelief/app/util/PdfGenerator.kt:304-313 | adds the "Compensation Claim" section, advances past its title and amount, and keeps the photos |
| PdfLayout.Conclusion | app/src/main/java/com/roadrelief/app/util/PdfGenerator.kt:315-322 | the cursor advances by the paragraph's height plus a section gap |
| PdfLayout.Signature | app/src/main/java/com/roadrelief/app/util/PdfGenerator.kt:324-333 | the cursor advances by the four lines' heights, the 60 pt signing space and a section gap |
| PdfLayout.Disclaimer | app/src/main/java/com/roadrelief/app/util/PdfGenerator.kt:335-342 | the cursor advances by the paragraph's height and, unlike the other helpers, the field `yPos` is set to it |
| PdfLayout.EvidenceItem | app/src/main/java/com/roadrelief/app/util/PdfGenerator.kt:282-301 | "Evidence #n" is drawn at (x, y) and the photo one subheading line below it, on the open page |
| PdfLayout.GridTop | app/src/main/java/com/roadrelief/app/util/PdfGenerator.kt:262-265 | an item goes on the current row, or on a new page below a "(Continued)" title; this keeps the invariant, the section order and the photos |
| PdfLayout.GridStep | app/src/main/java/com/roadrelief/app/util/PdfGenerator.kt:256-277 | one pass of the loop adds photo (i + 1, column of i) if and only if item i loads, and otherwise draws nothing |
| PdfLayout.GridUpTo | app/src/main/java/com/roadrelief/app/util/PdfGenerator.kt:253-278 | after n items the photos drawn are exactly the loadable ones among the first n, in order, numbered by position, in their parity column |
| PdfLayout.EvidenceGrid | app/src/main/java/com/roadrelief/app/util/PdfGenerator.kt:253-280 | the grid draws every loadable photo once, in order, in its parity column, adds no section, and keeps the pagination invariant; it returns the grid cursor after the last item plus the section gap |
| PdfLayout.GridUpToUnreadable | app/src/main/java/com/roadrelief/app/util/PdfGenerator.kt:256-258 | items that cannot be loaded leave the document and the grid cursor unchanged |
| PdfLayout.GridWithoutPhotos | app/src/main/java/com/roadrelief/app/util/PdfGenerator.kt:253-280 | a grid in which no photo loads draws nothing and returns its starting cursor plus the section gap |
| PdfLayout.GridStepSpec | app/src/main/java/com/roadrelief/app/util/PdfGenerator.kt:256-277 | an item that fails to load changes nothing. A loaded item starts a page exactly when it would cross the bottom margin, and the grid cursor then restarts at margin + 19.6 + 12 pt. It is drawn with "Evidence #(i+1)" in the left column for even i and the right column for odd i. The cursor moves down by its height plus 12 pt only after an odd or the last index |
| PdfLayout.Opening | app/src/main/java/com/roadrelief/app/util/PdfGenerator.kt:100-104 | the opening keeps the pagination invariant and adds no section and no photo |
| PdfLayout.IncidentPart | app/src/main/java/com/roadrelief/app/util/PdfGenerator.kt:105-108 | adds the sections "Incident Details" then "Description of Damages" |
| PdfLayout.EvidencePart | app/src/main/java/com/roadrelief/app/util/PdfGenerator.kt:110-113 | adds "Supporting Evidence" if and only if there is evidence, together with all the grid's photos |
| PdfLayout.Closing | app/src/main/java/com/roadrelief/app/util/PdfGenerator.kt:114-117 | adds the section "Compensation Claim" and no photo |
| PdfLayout.FinishLastPage | app/src/main/java/com/roadrelief/app/util/PdfGenerator.kt:119-121 | the last page gets its footer and is finished; the pages are then numbered 1..n with one footer each, and `currentPage` still names page n |
| PdfLayout.StagesCompose | app/src/main/java/com/roadrelief/app/util/PdfGenerator.kt:97-121 | the four stages together give the fixed section order and exactly the grid's photos |
| PdfLayout.ReportPagination | app/src/main/java/com/roadrelief/app/util/PdfGenerator.kt:97-121 | a finished report has at least one page; its pages are numbered 1, 2, … in order; each page got exactly its own page-number footer |
| PdfLayout.ReportContents | app/src/main/java/com/roadrelief/app/util/PdfGenerator.kt:100-117 | the sections are Incident Details, Description of Damages, then Supporting Evidence if and only if there is evidence, then Compensation Claim; every loadable photo appears once, in list order, in its parity column |
| PdfLayout.GenerationOutcome | app/src/main/java/com/roadrelief/app/util/PdfGenerator.kt:130-140 | a file is returned if and only if no earlier page was left open and saving succeeded, and it is named after the case id and the time; a generation exception with "Failed to save the PDF file." is thrown if and only if saving failed on a generator with no stale page |
| PdfGenerator.PdfGenerator.constructor | app/src/main/java/com/roadrelief/app/util/PdfGenerator.kt:87-89 | a new generator has no page open and its cursor at 0 |
| PdfGenerator.PdfGenerator.DrawPageNumber | app/src/main/java/com/roadrelief/app/util/PdfGenerator.kt:393-401 | draws the open page's own number as its footer, and does nothing without an open page |
| PdfGenerator.PdfGenerator.StartNewPage | app/src/main/java/com/roadrelief/app/util/PdfGenerator.kt:144-153 | the fields change exactly as `NewPage` says, and afterwards a page is open |
| PdfGenerator.PdfGenerator.CheckPageHeight | app/src/main/java/com/roadrelief/app/util/PdfGenerator.kt:155-159 | the fields change exactly as `CheckHeight` says |
| PdfGenerator.PdfGenerator.DrawWrappedText | app/src/main/java/com/roadrelief/app/util/PdfGenerator.kt:368-382 | the fields and the returned cursor are those of `WrappedText` |
| PdfGenerator.PdfGenerator.DrawSectionTitle | app/src/main/java/com/roadrelief/app/util/PdfGenerator.kt:217-228 | the fields and the returned cursor are those of `SectionTitle` |
| PdfGenerator.PdfGenerator.DrawKeyValue | app/src/main/java/com/roadrelief/app/util/PdfGenerator.kt:347-366 | the fields and the returned cursor are those of `KeyValue` |
| PdfGenerator.PdfGenerator.DrawHeader | app/src/main/java/com/roadrelief/app/util/PdfGenerator.kt:162-171 | the fields and the returned cursor are those of `Header` |
| PdfGenerator.PdfGenerator.DrawRecipientInfo | app/src/main/java/com/roadrelief/app/util/PdfGenerator.kt:173-182 | the fields and the returned cursor are those of `RecipientInfo` |
| PdfGenerator.PdfGenerator.DrawSubject | app/src/main/java/com/roadrelief/app/util/PdfGenerator.kt:184-198 | the fields and the returned cursor are those of `Subject` |
| PdfGenerator.PdfGenerator.DrawSalutation | app/src/main/java/com/roadrelief/app/util/PdfGenerator.kt:200-205 | the fields and the returned cursor are those of `Salutation` |
| PdfGenerator.PdfGenerator.DrawIntroduction | app/src/main/java/com/roadrelief/app/util/PdfGenerator.kt:207-214 | the fields and the returned cursor are those of `Introduction` |
| PdfGenerator.PdfGenerator.DrawIncidentDetails | app/src/main/java/com/roadrelief/app/util/PdfGenerator.kt:230-243 | the fields and the returned cursor are those of `IncidentDetails` |
| PdfGenerator.PdfGenerator.DrawClaimDetails | app/src/main/java/com/roadrelief/app/util/PdfGenerator.kt:245-250 | the fields and the returned cursor are those of `ClaimDetails` |
| PdfGenerator.PdfGenerator.DrawEvidenceItem | app/src/main/java/com/roadrelief/app/util/PdfGenerator.kt:282-301 | the fields change exactly as `EvidenceItem` says |
| PdfGenerator.PdfGenerator.DrawGridEntry | app/src/main/java/com/roadrelief/app/util/PdfGenerator.kt:257-277 | one loop body changes the fields and the grid cursor exactly as `GridStep` says |
| PdfGenerator.PdfGenerator.DrawEvidenceGrid | app/src/main/java/com/roadrelief/app/util/PdfGenerator.kt:253-280 | the loop over the evidence leaves the fields and cursor of `EvidenceGrid`, so `GridStepSpec` and `ReportContents` hold of it |
| PdfGenerator.PdfGenerator.DrawCompensationClaim | app/src/main/java/com/roadrelief/app/util/PdfGenerator.kt:304-313 | the fields and the returned cursor are those of `CompensationClaim` |
| PdfGenerator.PdfGenerator.DrawConclusion | app/src/main/java/com/roadrelief/app/util/PdfGenerator.kt:315-322 | the fields and the returned cursor are those of `Conclusion` |
| PdfGenerator.PdfGenerator.DrawSignatureSection | app/src/main/java/com/roadrelief/app/util/PdfGenerator.kt:324-333 | the fields and the returned cursor are those of `Signature` |
| PdfGenerator.PdfGenerator.DrawDisclaimer | app/src/main/java/com/roadrelief/app/util/PdfGenerator.kt:335-342 | the fields and the returned cursor are those of `Disclaimer` |
| PdfGenerator.PdfGenerator.FinishCurrentPage | app/src/main/java/com/roadrelief/app/util/PdfGenerator.kt:119-121 | the fields change exactly as `FinishLastPage` says |
| PdfGenerator.PdfGenerator.DrawOpening | app/src/main/java/com/roadrelief/app/util/PdfGenerator.kt:100-104 | the five statements, each storing its cursor in `yPos`, leave the state `Opening` describes |
| PdfGenerator.PdfGenerator.DrawIncidentSections | app/src/main/java/com/roadrelief/app/util/PdfGenerator.kt:105-108 | the four statements leave the state `IncidentPart` describes |
| PdfGenerator.PdfGenerator.DrawEvidenceSection | app/src/main/java/com/roadrelief/app/util/PdfGenerator.kt:110-113 | the optional evidence section leaves the state `EvidencePart` describes |
| PdfGenerator.PdfGenerator.DrawClosing | app/src/main/java/com/roadrelief/app/util/PdfGenerator.kt:114-117 | the four statements leave the state `Closing` describes |
| PdfGenerator.PdfGenerator.DrawReport | app/src/main/java/com/roadrelief/app/util/PdfGenerator.kt:97-121 | on a new document with no page open, the whole letter is drawn and its last page finished, which is the state `Report` describes |
| PdfGenerator.PdfGenerator.GeneratePdfReport | app/src/main/java/com/roadrelief/app/util/PdfGenerator.kt:92-141 | the outcome is `GenerationOutcome`. With no page left open, the state is the finished `Report`, and so `ReportPagination` and `ReportContents` hold of it. With a page left open by an earlier report, nothing is drawn on the new document |
| PdfGenerator.PdfGenerator.GenerateFreshPdfReport | app/src/main/java/com/roadrelief/app/util/PdfGenerator.kt:92-141 | corrected: every call draws the finished `Report` and never ends in the unexpected-error outcome |
| NewCase.AuthorityOptions | app/src/main/java/com/roadrelief/app/ui/screens/newcase/NewCaseViewModel.kt:265-270 | the options have no duplicates, are exactly the generated ones, always include the national highways authority, and end with "Other" |
| NewCase.TopSuggestion | app/src/main/java/com/roadrelief/app/ui/screens/newcase/NewCaseViewModel.kt:257-263 | a highway gives the national highways authority; otherwise a known city gives its municipal corporation, and only without a city a known state gives its highway department. The suggestion is "" if and only if the road is no highway and neither city nor state is known. A non-empty suggestion is one of the options offered with it |
| NewCase.ResolvedAuthority | app/src/main/java/com/roadrelief/app/ui/screens/newcase/NewCaseViewModel.kt:316 | the stored authority is the trimmed custom text exactly when "Other" is selected; otherwise it is the selection |
| NewCase.CustomAuthorityTrimmed | app/src/main/java/com/roadrelief/app/ui/screens/newcase/NewCaseViewModel.kt:316 | a custom authority is stored without surrounding whitespace, and it is "" if and only if the custom text is blank |
| NewCase.NamePlaceholder | app/src/main/java/com/roadrelief/app/ui/screens/newcase/NewCaseViewModel.kt:52-54 | the placeholder is never empty; it is the user's name when that is non-empty, else "[Your Name]" |
| NewCase.DetectSpec | app/src/main/java/com/roadrelief/app/ui/screens/newcase/NewCaseViewModel.kt:235-285 | detection always ends with `isDetectingLocation` false and touches only the address, options, selection and snackbars. On a missing or empty answer: a snackbar, the four defaults, no selection, and "Could not determine address.". On success: the first address's line and options; a choice already made is kept, and an empty one gets the suggestion |
| NewCase.DetectSelectionOffered | app/src/main/java/com/roadrelief/app/ui/screens/newcase/NewCaseViewModel.kt:265-273 | after a successful detection on an empty selection, the selection is empty or one of the offered options |
| NewCase.Stamped | app/src/main/java/com/roadrelief/app/ui/screens/newcase/NewCaseViewModel.kt:326-328 | every saved evidence item carries the new case id, and is otherwise the collected item, in the same order |
| NewCase.CaseToSave | app/src/main/java/com/roadrelief/app/ui/screens/newcase/NewCaseViewModel.kt:314-323 | the saved case is "Pending" with the resolved authority, the parsed compensation or 0.0, and the form's date, both descriptions and coordinates |
| NewCase.NewCaseViewModel.constructor | app/src/main/java/com/roadrelief/app/ui/screens/newcase/NewCaseViewModel.kt:56-93 | a new form is dated now, and every other field is empty, null or false |
| NewCase.NewCaseViewModel.OnIncidentDateChange | app/src/main/java/com/roadrelief/app/ui/screens/newcase/NewCaseViewModel.kt:105-107 | only the date changes |
| NewCase.NewCaseViewModel.OnAuthorityChange | app/src/main/java/com/roadrelief/app/ui/screens/newcase/NewCaseViewModel.kt:110-115 | the selection becomes the argument; the custom text is cleared if and only if the selection is not "Other"; nothing else changes |
| NewCase.NewCaseViewModel.OnCustomAuthorityChange | app/src/main/java/com/roadrelief/app/ui/screens/newcase/NewCaseViewModel.kt:118-120 | only the custom authority changes |
| NewCase.NewCaseViewModel.OnRoadConditionDescriptionChange | app/src/main/java/com/roadrelief/app/ui/screens/newcase/NewCaseViewModel.kt:122-124 | only the road description changes |
| NewCase.NewCaseViewModel.OnVehicleDamageDescriptionChange | app/src/main/java/com/roadrelief/app/ui/screens/newcase/NewCaseViewModel.kt:126-128 | only the damage description changes |
| NewCase.NewCaseViewModel.OnCompensationChange | app/src/main/java/com/roadrelief/app/ui/screens/newcase/NewCaseViewModel.kt:130-132 | only the compensation text changes |
| NewCase.NewCaseViewModel.OnIncidentLocationChange | app/src/main/java/com/roadrelief/app/ui/screens/newcase/NewCaseViewModel.kt:134-142 | the coordinates are stored. With both present, detection runs. With either missing, the address is cleared and nothing else changes |
| NewCase.NewCaseViewModel.DetectAuthorityFromLocation | app/src/main/java/com/roadrelief/app/ui/screens/newcase/NewCaseViewModel.kt:235-285 | the form changes exactly as `Detect` says, so `DetectSpec` holds of it |
| NewCase.NewCaseViewModel.AddEvidence | app/src/main/java/com/roadrelief/app/ui/screens/newcase/NewCaseViewModel.kt:300-310 | exactly one item is appended: case id 0, the given uri and coordinates, and the time; earlier items and other fields are unchanged |
| NewCase.NewCaseViewModel.SaveCase | app/src/main/java/com/roadrelief/app/ui/screens/newcase/NewCaseViewModel.kt:312-341 | the case saved is `CaseToSave` of the form. The evidence saved is every collected item in order, stamped with the new id. Afterwards the form is empty and dated now, keeping only the snackbars and the detection flag |
| NewCase.NewCaseViewModel.StampEvidence | app/src/main/java/com/roadrelief/app/ui/screens/newcase/NewCaseViewModel.kt:326-328 | the items inserted are every collected item, in order, each with the new case id; the form does not change |
| NewCase.NewCaseViewModel.ClearForm | app/src/main/java/com/roadrelief/app/ui/screens/newcase/NewCaseViewModel.kt:329-340 | every field is empty or null and the date is now; the snackbars and the detection flag are kept |
| Profile.SkipsOnlyBlankEdits | app/src/main/java/com/roadrelief/app/ui/screens/profile/ProfileViewModel.kt:82-84 | the save skips the database write if and only if a row exists and all three typed fields are blank |
| Profile.SavedProfile | app/src/main/java/com/roadrelief/app/ui/screens/profile/ProfileViewModel.kt:72-81 | the saved row keeps the existing row's id, or takes the default for a new one; its fields are the trimmed typed ones and have no surrounding whitespace |
| Profile.SaveIdempotent | app/src/main/java/com/roadrelief/app/ui/screens/profile/ProfileViewModel.kt:72-84 | once the saved row is emitted back, saving again writes the same row |
| Profile.CompletionSpec | app/src/main/java/com/roadrelief/app/ui/screens/profile/ProfileViewModel.kt:70-107 | save and skip both set the first-launch flag, end the setup and navigate home exactly once. They keep the typed fields. They add at most one write, exactly one when no row exists |
| Profile.ProfileViewModel.constructor | app/src/main/java/com/roadrelief/app/ui/screens/profile/ProfileViewModel.kt:21-44 | the fields start empty, and `isInitialSetup` is the negation of the stored first-launch flag |
| Profile.ProfileViewModel.OnUserEmitted | app/src/main/java/com/roadrelief/app/ui/screens/profile/ProfileViewModel.kt:46-55 | the fields take the user's values, or "" without a user; everything else, including `isInitialSetup`, is unchanged |
| Profile.ProfileViewModel.OnNameChange | app/src/main/java/com/roadrelief/app/ui/screens/profile/ProfileViewModel.kt:58-60 | only the name changes |
| Profile.ProfileViewModel.OnAddressChange | app/src/main/java/com/roadrelief/app/ui/screens/profile/ProfileViewModel.kt:62-64 | only the address changes |
| Profile.ProfileViewModel.OnVehicleNumberChange | app/src/main/java/com/roadrelief/app/ui/screens/profile/ProfileViewModel.kt:66-68 | only the vehicle number changes |
| Profile.ProfileViewModel.SaveProfile | app/src/main/java/com/roadrelief/app/ui/screens/profile/ProfileViewModel.kt:70-93 | writes the trimmed profile exactly when `ShouldWrite` allows it, then completes as `Completed` says, so `CompletionSpec` and `SkipsOnlyBlankEdits` hold of it |
| Profile.ProfileViewModel.SkipProfile | app/src/main/java/com/roadrelief/app/ui/screens/profile/ProfileViewModel.kt:95-107 | writes an all-empty row only when none exists, then completes as `Completed` says |
| CaseDetail.CaseWithEvidence | app/src/main/java/com/roadrelief/app/ui/screens/casedetail/CaseDetailViewModel.kt:51-53 | the result is null if and only if the case is null; otherwise it is the pair of the case and its evidence |
| CaseDetail.Settled | app/src/main/java/com/roadrelief/app/ui/screens/casedetail/CaseDetailViewModel.kt:82-99 | an attempt never stays Loading. It returns to Idle if and only if the file was written and shared. A generator exception gives "Failed to generate PDF: " + its message. Anything else gives "An unexpected error occurred." |
| CaseDetail.SharedReport | app/src/main/java/com/roadrelief/app/ui/screens/casedetail/CaseDetailViewModel.kt:83-92 | a share intent exists if and only if the file was written and shared; it is the "Share PDF Report" chooser for that PDF file |
| CaseDetail.ReportFollowsEvidence | app/src/main/java/com/roadrelief/app/ui/screens/casedetail/CaseDetailViewModel.kt:82 | with one picture per evidence item, the report has "Supporting Evidence" if and only if the case has evidence, in the fixed section order, and draws the grid's photos |
| CaseDetail.EvidenceInSectionOrder | app/src/main/java/com/roadrelief/app/util/PdfGenerator.kt:110-113 | the section order holds "Supporting Evidence" exactly when there is evidence |
| CaseDetail.ErrorMessages | app/src/main/java/com/roadrelief/app/ui/screens/casedetail/CaseDetailViewModel.kt:94-102 | every error shown is one of the three messages |
| CaseDetail.CaseDetailViewModel.constructor | app/src/main/java/com/roadrelief/app/ui/screens/casedetail/CaseDetailViewModel.kt:46-59 | a missing case id becomes -1; nothing is loaded yet; the state is Idle |
| CaseDetail.CaseDetailViewModel.OnCaseEmitted | app/src/main/java/com/roadrelief/app/ui/screens/casedetail/CaseDetailViewModel.kt:61-67 | the case is taken from the database only when there is a case id; nothing else changes |
| CaseDetail.CaseDetailViewModel.OnEvidenceEmitted | app/src/main/java/com/roadrelief/app/ui/screens/casedetail/CaseDetailViewModel.kt:61-73 | the evidence is taken from the database only when there is a case id; nothing else changes |
| CaseDetail.CaseDetailViewModel.GeneratePdfReport | app/src/main/java/com/roadrelief/app/ui/screens/casedetail/CaseDetailViewModel.kt:76-104 | the state passes through Loading to its final value. With no case, the final state is Error("Case details not available."), and the intent and the generator are untouched. With a case, the final state is `Settled` of the generator's outcome, and the share intent is replaced only on success. A generator with no stale page holds the finished report of the case and of `m`, whose pictures are one per loaded evidence item |
| CaseDetail.CaseDetailViewModel.SettleOutcome | app/src/main/java/com/roadrelief/app/ui/screens/casedetail/CaseDetailViewModel.kt:82-99 | the state becomes `Settled` of the outcome, and the share intent becomes `SharedReport` of it when there is one |
| CaseDetail.CaseDetailViewModel.OnShareIntentHandled | app/src/main/java/com/roadrelief/app/ui/screens/casedetail/CaseDetailViewModel.kt:106-108 | the intent is cleared, and the generation state is untouched |
| CaseDetail.CaseDetailViewModel.DismissPdfError | app/src/main/java/com/roadrelief/app/ui/screens/casedetail/CaseDetailViewModel.kt:110-112 | the state becomes Idle, and the intent is untouched |
| Findings.GridColumnsClash | app/src/main/java/com/roadrelief/app/util/PdfGenerator.kt:256-277 | as written, photos 1 and 3 of a grid whose second photo fails to load both go in the left column |
| Findings.GridPhotosOverlap | app/src/main/java/com/roadrelief/app/util/PdfGenerator.kt:256-277 | as written, those two photos are drawn on the same page at the same position |
| Findings.SlotPlacements | app/src/main/java/com/roadrelief/app/util/PdfGenerator.kt:266-270 | corrected: the k-th photo drawn goes in the column of k |
| Findings.SlotPlacementsAlternate | app/src/main/java/com/roadrelief/app/util/PdfGenerator.kt:266-270 | corrected: consecutive drawn photos are never in the same column |
| Findings.SlotGridStep | app/src/main/java/com/roadrelief/app/util/PdfGenerator.kt:256-277 | corrected loop body: a loaded photo is placed in the column of the number of photos drawn so far |
| Findings.SlotGridUpTo | app/src/main/java/com/roadrelief/app/util/PdfGenerator.kt:253-278 | corrected: after n items the photos drawn are `SlotPlacements`, and the slot count is their number |
| Findings.SlotEvidenceGrid | app/src/main/java/com/roadrelief/app/util/PdfGenerator.kt:253-280 | corrected `drawEvidenceGrid`: its photos are `SlotPlacements`, so they alternate columns |
| Findings.WrappedTextOverflows | app/src/main/java/com/roadrelief/app/util/PdfGenerator.kt:368-382 | as written, a text that does not fit at the cursor is drawn on the new page at the old cursor, and ends below the bottom margin |
| Findings.WrappedTextAtCursor | app/src/main/java/com/roadrelief/app/util/PdfGenerator.kt:368-382 | corrected: the text ends at the returned cursor on the page it is drawn on; drawn at the field cursor, any text no taller than a page ends within the bottom margin |
| Findings.RepeatedReport | app/src/main/java/com/roadrelief/app/util/PdfGenerator.kt:92-98 | as written, a second report on the same generator ends in the unexpected-error outcome, even though the first succeeded with the same inputs |
| Findings.RepeatedFreshReport | app/src/main/java/com/roadrelief/app/util/PdfGenerator.kt:92-98 | corrected: the second report is written like the first |

## Left out

- Compose screens, navigation wiring, `MainActivity`, `CameraViewModel` and the permission helpers: rendering, CameraX and OS permission calls with no state logic of their own.
- `onGetLocationClicked`, `onLocationPermissionDenied` and `fetchAndProcessLocation` (PlayServices, network, permission and fused-location checks): platform I/O. `OnIncidentLocationChange` takes the fix they deliver.
- The `Geocoder` call: its answer is the input `geocoded`. A thrown exception and a null or empty list are all `None` or `[]`, which the code treats alike.
- The snackbar `Channel`: its messages are appended to the `snackbars` field in send order. Delivery to the UI is not modelled.
- `toDoubleOrNull` for the compensation: floating-point parsing. The parsed value is the input `parsedCompensation`.
- The ids Room assigns, Room queries and Hilt injection: the new case id is an input, and the database emits are method calls. `CaseEntity` is taken with the fields the view-model and the generator use. `UserEntity` is not part of this model; the user row takes the four fields the code reads, with default id 0.
- `SharedPreferences`: the stored first-launch flag is the constructor input, and the commit is the `firstLaunchComplete` field.
- In the report: canvas painting, fonts and colours. Each draw is recorded as a mark with its page and position; the three fixed paragraphs' wording is not reproduced.
- `StaticLayout` line breaking and measurement, `measureText`, bitmap decoding and `scaleBitmapForGrid`: their results are inputs, the heights in whole points and the widths in tenths of a point.
- `SimpleDateFormat` dates and the `%,.2f` and `%.5f` number formats: these texts are inputs.
- Writing the PDF file: its success is the input `saved`. `FileProvider.getUriForFile` is the input `providerAccepts`, and a refusal is treated like any other exception. The recorded intent holds the chooser title, the MIME type and the file name, not an Android `Intent`.
- Coroutine interleaving: each launched block runs as one atomic step.
- `Float` arithmetic in the report: the model computes the cursor exactly in tenths of a point. The Kotlin code rounds products such as `14f * 1.4f` and the accumulated `yPos`. At the boundary, its strict test `yPos + neededHeight > pageHeight - margin` can therefore break a page where the model does not, or the reverse.
- `PdfLayout.Picture`: a bitmap so wide that its scaled height truncates to 0 makes `bitmap.scale` throw `IllegalArgumentException`, and the user sees "An unexpected error occurred.". The model leaves that case out: a loaded picture's height is a `ScaledHeight` of at least one point.
- 64-bit ids: outside `Screen`, the `Long` ids of cases, evidence and the user are unbounded `int`s. The model never adds to an id, so wrap-around cannot arise in it.
- `Strings.IsWhitespace`: follows the JVM's `Char.isWhitespace` table.
- `Strings.CharEqualsIgnoreCase`: folds only ASCII letters, a narrower case mapping than Kotlin's `ignoreCase`. Kotlin also matches non-ASCII characters whose upper or lower case is an ASCII letter, such as 'ı' (U+0131) and 'İ' (U+0130) against 'i' and the Kelvin sign against 'k'. An address holding those can get a suggestion in the app that the model does not make.
- `Profile.ProfileUser`: carries no contract of its own. What it promises is stated by the lemmas `SavedProfile`, `SkipsOnlyBlankEdits` and `SaveIdempotent`.
- `PdfGenerator.PdfGenerator.GeneratePdfReport`: after a stale page it states the outcome and that the new document is empty. How far the platform got before throwing is left unspecified.
- `ProfileViewModelTest`: it was written against an older profile view-model, so it is not used as evidence.

## Findings

| source | as written | input that shows it | evidently intended | confidence | as-written member | corrected member |
|---|---|---|---|---|---|---|
| app/src/main/java/com/roadrelief/app/util/PdfGenerator.kt:256-277 | The column and the end of a row follow the photo's index in the evidence list. An item whose bitmap cannot be loaded still uses up its index. | Three evidence items whose second photo fails to load: photos 1 and 3 are both in the left column. The row is not closed after photo 1, so when both fit they are drawn at the same position. | Drawn photos alternate columns in the order they are drawn. | not executed | Findings.GridColumnsClash, Findings.GridPhotosOverlap | Findings.SlotEvidenceGrid, Findings.SlotPlacementsAlternate |
| app/src/main/java/com/roadrelief/app/util/PdfGenerator.kt:368-382 | `checkPageHeight` may open a new page, but the text is then still drawn at the caller's `y`, which is near the old page's bottom. | A paragraph of height h with the cursor at y, where y + h > 802 pt: it is drawn on the next page at y, and it ends below the bottom margin. | After a page break the text starts at the new page's top margin. | not executed | Findings.WrappedTextOverflows | Findings.WrappedTextAtCursor |
| app/src/main/java/com/roadrelief/app/util/PdfGenerator.kt:92-98 | `generatePdfReport` replaces the document but keeps `currentPage`, which still holds the previous report's finished page. `startNewPage` then draws a footer on that released page and throws. | Press "generate" twice on the same case-detail screen: the second attempt shows "An unexpected error occurred." even though the first succeeded. | Every call draws a full report of its own. | not executed | Findings.RepeatedReport | PdfGenerator.PdfGenerator.GenerateFreshPdfReport, Findings.RepeatedFreshReport |
