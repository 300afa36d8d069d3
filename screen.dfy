/** The navigation routes of the app's screens. */
module Screen {
  import opened Strings

  /** A Kotlin `Long`. */
  newtype Long = n: int | -0x8000_0000_0000_0000 <= n < 0x8000_0000_0000_0000

  const HomeRoute := "home"
  const ProfileRoute := "profile"
  const NewCaseRoute := "new_case"
  const CaseDetailPrefix := "case_detail/"
  const CaseIdPlaceholder := "{caseId}"
  /** The case-detail route pattern, with the navigation argument still unfilled. */
  const CaseDetailRoute := CaseDetailPrefix + CaseIdPlaceholder
  const CameraRoute := "camera"
  const SubmissionGuideRoute := "submission_guide"

  /** The six screens' route strings, in declaration order. */
  function AllRoutes(): (routes: seq<string>)
    ensures |routes| == 6 && NoDuplicates(routes)
  {
    [HomeRoute, ProfileRoute, NewCaseRoute, CaseDetailRoute, CameraRoute, SubmissionGuideRoute]
  }

  /** `CaseDetail.createRoute(caseId)`: the concrete route that opens one case. */
  function CreateRoute(caseId: Long): (route: string)
    ensures |route| > |CaseDetailPrefix| && route[..|CaseDetailPrefix|] == CaseDetailPrefix
    ensures IsNumeral(route[|CaseDetailPrefix|..]) && ParseInt(route[|CaseDetailPrefix|..]) == caseId as int
    ensures caseId < 0 <==> route[|CaseDetailPrefix|] == '-'
    ensures '{' !in route
  {
    var digits := IntToString(caseId as int);
    ParseIntToString(caseId as int);
    NumeralCharacters(digits);
    var route := CaseDetailPrefix + digits;
    assert route[|CaseDetailPrefix|..] == digits;
    assert forall k :: |CaseDetailPrefix| <= k < |route| ==> route[k] == digits[k - |CaseDetailPrefix|];
    route
  }

  /** Distinct case ids open distinct routes. */
  lemma CreateRouteInjective(a: Long, b: Long)
    ensures CreateRoute(a) == CreateRoute(b) <==> a == b
  {
    if CreateRoute(a) == CreateRoute(b) {
      assert CreateRoute(a)[|CaseDetailPrefix|..] == IntToString(a as int);
      assert CreateRoute(b)[|CaseDetailPrefix|..] == IntToString(b as int);
      IntToStringInjective(a as int, b as int);
    }
  }

  /** Filling the route pattern's argument with the decimal id gives `createRoute(id)`. */
  lemma FillPatternIsCreateRoute(caseId: Long)
    ensures Replace(CaseDetailRoute, CaseIdPlaceholder, IntToString(caseId as int)) == CreateRoute(caseId)
  {
    ReplaceAfterPrefix(CaseDetailPrefix, CaseIdPlaceholder, IntToString(caseId as int));
  }

  /** No two screens share a route, and no concrete case route collides with a screen's route. */
  lemma RoutesDistinct(caseId: Long)
    ensures NoDuplicates(AllRoutes())
    ensures CreateRoute(caseId) !in AllRoutes()
  {
    assert CaseDetailRoute[|CaseDetailPrefix|] == '{';
  }
}
