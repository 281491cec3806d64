/**
 * The ORS plan list page: which plans the signed-in user sees, the search,
 * grade and score-band filters over them, and which action buttons appear.
 */
module OrsPlans {
  import opened Wrappers
  import opened JsText
  import opened Sequences
  import opened Domain

  /** The user identifier a plan reference carries, from either of its two shapes. */
  function ExtractUserId(ref: Option<Ref>): (r: Option<string>)
    ensures r.Some? ==> ref == Some(IdRef(r.value)) || ref == Some(ObjectRef(Some(r.value)))
    ensures ref.Some? && ref.value.IdRef? ==> r.Some?
    ensures ref.Some? && ref.value.ObjectRef? ==> r == ref.value.objectId
  {
    match ref
    case None => None
    case Some(IdRef(id)) => Some(id)
    case Some(ObjectRef(objectId)) => objectId
  }

  /** Both shapes of a reference to the same user yield the same identifier. */
  lemma ExtractUserIdShapeAgnostic(id: string)
    ensures ExtractUserId(Some(IdRef(id))) == ExtractUserId(Some(ObjectRef(Some(id)))) == Some(id)
  {
  }

  /** The plan is assigned to or was created by the user with identifier `userId`, compared as `String(...)`. */
  function OwnedBy(plan: Plan, userId: string): (r: bool)
    ensures userId != "undefined" ==>
      (r <==> ExtractUserId(plan.assignedTo) == Some(userId) || ExtractUserId(plan.createdBy) == Some(userId))
    ensures userId == "undefined" && ExtractUserId(plan.assignedTo).None? ==> r
  {
    StringOf(ExtractUserId(plan.assignedTo)) == userId || StringOf(ExtractUserId(plan.createdBy)) == userId
  }

  /** `OwnedBy` as the callback handed to `filter`. */
  function OwnedByTest(userId: string): Plan -> bool {
    p => OwnedBy(p, userId)
  }

  predicate IsInspector(user: Option<User>) {
    user.Some? && user.value.role == "inspector"
  }

  /** The plans the signed-in user may see: an inspector sees only their own, everyone else all. */
  function VisiblePlans(plans: seq<Plan>, user: Option<User>): (r: seq<Plan>)
    ensures IsSubsequence(r, plans)
    ensures !IsInspector(user) ==> r == plans
    ensures IsInspector(user) ==> forall p :: p in r <==> p in plans && OwnedBy(p, user.value.id)
  {
    if IsInspector(user) then
      FilterIsSubsequence(plans, OwnedByTest(user.value.id));
      Filter(plans, OwnedByTest(user.value.id))
    else
      SubsequenceReflexive(plans);
      plans
  }

  /** Whether a reference is sent bare or populated does not change which plans an inspector sees. */
  lemma VisibilityIgnoresRefShape(plan: Plan, id: string, userId: string)
    ensures OwnedBy(plan.(assignedTo := Some(IdRef(id))), userId)
        == OwnedBy(plan.(assignedTo := Some(ObjectRef(Some(id)))), userId)
    ensures OwnedBy(plan.(createdBy := Some(IdRef(id))), userId)
        == OwnedBy(plan.(createdBy := Some(ObjectRef(Some(id)))), userId)
  {
  }

  /**
   * A plan with neither reference is hidden from an inspector, unless the
   * inspector's identifier is literally "undefined" (the text `String(undefined)` gives).
   */
  lemma UnreferencedPlanHidden(plan: Plan, inspector: User)
    requires plan.assignedTo.None? && plan.createdBy.None?
    ensures OwnedBy(plan, inspector.id) <==> inspector.id == "undefined"
  {
  }

  /** The search box: the lower-cased vehicle includes the lower-cased term. */
  function MatchesSearch(plan: Plan, searchTerm: string): (r: bool)
    ensures r <==> exists i :: OccursAt(ToLower(plan.vehicle), ToLower(searchTerm), i)
    ensures searchTerm == "" ==> r
  {
    IncludesIffOccurs(ToLower(plan.vehicle), ToLower(searchTerm));
    IncludesEmpty(ToLower(plan.vehicle));
    Includes(ToLower(plan.vehicle), ToLower(searchTerm))
  }

  /** The grade selector: "all", or exactly the plan's `overallTrafficScore`. */
  predicate MatchesGrade(plan: Plan, gradeFilter: string) {
    gradeFilter == "all" || plan.overallTrafficScore == gradeFilter
  }

  /** `n >= k` where `n` may be NaN (`None`), which compares false. */
  predicate AtLeast(n: Option<int>, k: int) {
    n.Some? && n.value >= k
  }

  /** `n < k` where `n` may be NaN (`None`), which compares false. */
  predicate Below(n: Option<int>, k: int) {
    n.Some? && n.value < k
  }

  /** The status selector: a score band read from `parseInt` of the score; any other value passes all. */
  function MatchesBand(plan: Plan, bandFilter: string): (r: bool)
    ensures bandFilter != "high" && bandFilter != "medium" && bandFilter != "low" ==> r
    ensures ParseInt(plan.roadWorthinessScore).None? ==>
      (r <==> bandFilter != "high" && bandFilter != "medium" && bandFilter != "low")
  {
    if bandFilter == "high" then AtLeast(ParseInt(plan.roadWorthinessScore), 80)
    else if bandFilter == "medium" then
      AtLeast(ParseInt(plan.roadWorthinessScore), 60) && Below(ParseInt(plan.roadWorthinessScore), 80)
    else if bandFilter == "low" then Below(ParseInt(plan.roadWorthinessScore), 60)
    else true
  }

  /** A score with a leading integer lies in exactly one band; a NaN score in none. */
  lemma BandsPartitionScores(plan: Plan)
    ensures ParseInt(plan.roadWorthinessScore).Some? ==>
      (if MatchesBand(plan, "high") then 1 else 0) + (if MatchesBand(plan, "medium") then 1 else 0)
        + (if MatchesBand(plan, "low") then 1 else 0) == 1
    ensures ParseInt(plan.roadWorthinessScore).None? ==>
      !MatchesBand(plan, "high") && !MatchesBand(plan, "medium") && !MatchesBand(plan, "low")
    ensures ParseInt(plan.roadWorthinessScore).Some? ==>
      var n := ParseInt(plan.roadWorthinessScore).value;
      (MatchesBand(plan, "high") <==> n >= 80) && (MatchesBand(plan, "medium") <==> 60 <= n < 80)
        && (MatchesBand(plan, "low") <==> n < 60)
  {
  }

  /** A band value other than "high", "medium" and "low" filters nothing out. */
  lemma OtherBandPassesAll(plan: Plan, bandFilter: string)
    requires bandFilter != "high" && bandFilter != "medium" && bandFilter != "low"
    ensures MatchesBand(plan, bandFilter)
  {
  }

  /** The three filters of the list, ANDed. */
  predicate MatchesFilters(plan: Plan, searchTerm: string, gradeFilter: string, bandFilter: string) {
    MatchesSearch(plan, searchTerm) && MatchesGrade(plan, gradeFilter) && MatchesBand(plan, bandFilter)
  }

  /** `MatchesFilters` as the callback handed to `filter`. */
  function FiltersTest(searchTerm: string, gradeFilter: string, bandFilter: string): Plan -> bool {
    p => MatchesFilters(p, searchTerm, gradeFilter, bandFilter)
  }

  /** The rows of the table: the visible plans that pass all three filters, in list order. */
  function FilteredPlans(plans: seq<Plan>, user: Option<User>, searchTerm: string, gradeFilter: string, bandFilter: string)
    : (r: seq<Plan>)
    ensures IsSubsequence(r, VisiblePlans(plans, user))
    ensures IsSubsequence(r, plans)
    ensures forall p :: p in r <==> p in VisiblePlans(plans, user) && MatchesFilters(p, searchTerm, gradeFilter, bandFilter)
  {
    var visible := VisiblePlans(plans, user);
    var matches := FiltersTest(searchTerm, gradeFilter, bandFilter);
    FilterIsSubsequence(visible, matches);
    SubsequenceTransitive(Filter(visible, matches), visible, plans);
    Filter(visible, matches)
  }

  /** With an empty search, grade "all" and band "all", the table shows every visible plan. */
  lemma DefaultFiltersShowAllVisible(plans: seq<Plan>, user: Option<User>)
    ensures FilteredPlans(plans, user, "", "all", "all") == VisiblePlans(plans, user)
  {
    var visible := VisiblePlans(plans, user);
    forall p | p in visible ensures MatchesFilters(p, "", "all", "all") {
      IncludesEmpty(ToLower(p.vehicle));
    }
    FilterKeepsAll(visible, FiltersTest("", "all", "all"));
  }

  /** Applying the three filters one after another gives the same rows as the ANDed filter. */
  lemma FiltersCompose(plans: seq<Plan>, user: Option<User>, searchTerm: string, gradeFilter: string, bandFilter: string)
    ensures FilteredPlans(plans, user, searchTerm, gradeFilter, bandFilter)
      == Filter(Filter(Filter(VisiblePlans(plans, user), (p: Plan) => MatchesSearch(p, searchTerm)),
                       (p: Plan) => MatchesGrade(p, gradeFilter)),
                (p: Plan) => MatchesBand(p, bandFilter))
  {
    var visible := VisiblePlans(plans, user);
    var s := (p: Plan) => MatchesSearch(p, searchTerm);
    var g := (p: Plan) => MatchesGrade(p, gradeFilter);
    var b := (p: Plan) => MatchesBand(p, bandFilter);
    var sg := (p: Plan) => MatchesSearch(p, searchTerm) && MatchesGrade(p, gradeFilter);
    FilterFusion(visible, s, g, sg);
    FilterFusion(visible, sg, b, FiltersTest(searchTerm, gradeFilter, bandFilter));
  }

  /** The create and edit buttons: shown to admins and inspectors. */
  function CanModify(user: Option<User>): (r: bool)
    ensures r ==> user.Some?
    ensures IsInspector(user) ==> r
    ensures user.Some? && user.value.role == "admin" ==> r
    ensures r && !IsInspector(user) ==> user.value.role == "admin"
  {
    user.Some? && (user.value.role == "admin" || user.value.role == "inspector")
  }

  /** The delete button sits inside the `canModify` block and also asks for role "admin". */
  function ShowsDelete(user: Option<User>): (r: bool)
    ensures r ==> CanModify(user)
    ensures r <==> user.Some? && user.value.role == "admin"
  {
    CanModify(user) && user.value.role == "admin"
  }

  /** The capabilities of the three roles and of a missing session. */
  lemma CapabilitiesByRole(u: User)
    ensures u.role == "admin" ==> CanModify(Some(u)) && ShowsDelete(Some(u))
    ensures u.role == "inspector" ==> CanModify(Some(u)) && !ShowsDelete(Some(u))
    ensures u.role == "viewer" ==> !CanModify(Some(u)) && !ShowsDelete(Some(u))
    ensures !CanModify(None) && !ShowsDelete(None)
  {
  }

  /** A reference to `id` in either shape. */
  function RefTo(id: string, populated: bool): Option<Ref> {
    if populated then Some(ObjectRef(Some(id))) else Some(IdRef(id))
  }

  /**
   * An inspector sees the plan assigned to them and the plan they created,
   * and not a plan that belongs to someone else, whichever shape the references take.
   */
  lemma InspectorVisibilityExample(p1: Plan, p2: Plan, p3: Plan, inspector: User, other: string, populated: bool)
    requires inspector.role == "inspector" && inspector.id != other
    requires p1.assignedTo == RefTo(inspector.id, populated) && p1.createdBy.None?
    requires p2.createdBy == RefTo(inspector.id, populated) && p2.assignedTo.None?
    requires p3.assignedTo == RefTo(other, populated) && p3.createdBy == RefTo(other, populated)
    ensures VisiblePlans([p1, p2, p3], Some(inspector)) == [p1, p2]
  {
    var owned := OwnedByTest(inspector.id);
    assert owned(p1) && owned(p2) && !owned(p3);
    assert [p1, p2, p3][1..] == [p2, p3] && [p2, p3][1..] == [p3];
    assert Filter([p3], owned) == [];
    assert Filter([p2, p3], owned) == [p2];
  }

  /** The example plans' scores below: "92%" reads as 92 (high band), */
  lemma HighExampleScoreParses()
    ensures ParseInt("92%") == Some(92)
  {
    ParseIntOfTwoDigitScore("92%", '9', '2');
  }

  /** "65%" as 65 (medium band), */
  lemma MediumExampleScoreParses()
    ensures ParseInt("65%") == Some(65)
  {
    ParseIntOfTwoDigitScore("65%", '6', '5');
  }

  /** and "40%" as 40 (low band). */
  lemma LowExampleScoreParses()
    ensures ParseInt("40%") == Some(40)
  {
    ParseIntOfTwoDigitScore("40%", '4', '0');
  }

  /**
   * Three plans whose scores read as 92, 65 and 40 (as "92%", "65%" and "40%"
   * do, by the three lemmas above) and whose grades are A, C and Failed.
   */
  predicate ExamplePlans(p1: Plan, p2: Plan, p3: Plan) {
    && ParseInt(p1.roadWorthinessScore) == Some(92) && p1.overallTrafficScore == "A"
    && ParseInt(p2.roadWorthinessScore) == Some(65) && p2.overallTrafficScore == "C"
    && ParseInt(p3.roadWorthinessScore) == Some(40) && p3.overallTrafficScore == "Failed"
  }

  lemma ExamplePlansMatchEmptySearch(p1: Plan, p2: Plan, p3: Plan)
    ensures MatchesSearch(p1, "") && MatchesSearch(p2, "") && MatchesSearch(p3, "")
  {
    IncludesEmpty(ToLower(p1.vehicle));
    IncludesEmpty(ToLower(p2.vehicle));
    IncludesEmpty(ToLower(p3.vehicle));
  }

  /** Band "low" keeps only the plan scored "40%". */
  lemma LowBandExample(p1: Plan, p2: Plan, p3: Plan, viewer: Option<User>)
    requires ExamplePlans(p1, p2, p3) && !IsInspector(viewer)
    ensures FilteredPlans([p1, p2, p3], viewer, "", "all", "low") == [p3]
  {
    ExamplePlansMatchEmptySearch(p1, p2, p3);
    assert [p1, p2, p3][1..] == [p2, p3] && [p2, p3][1..] == [p3];
    var low := FiltersTest("", "all", "low");
    assert !low(p1) && !low(p2) && low(p3);
    assert Filter([p3], low) == [p3];
    assert Filter([p2, p3], low) == [p3];
  }

  /** Grade "C" keeps only the plan scored "65%". */
  lemma GradeExample(p1: Plan, p2: Plan, p3: Plan, viewer: Option<User>)
    requires ExamplePlans(p1, p2, p3) && !IsInspector(viewer)
    ensures FilteredPlans([p1, p2, p3], viewer, "", "C", "all") == [p2]
  {
    ExamplePlansMatchEmptySearch(p1, p2, p3);
    assert [p1, p2, p3][1..] == [p2, p3] && [p2, p3][1..] == [p3];
    var gradeC := FiltersTest("", "C", "all");
    assert !gradeC(p1) && gradeC(p2) && !gradeC(p3);
    assert Filter([p3], gradeC) == [];
    assert Filter([p2, p3], gradeC) == [p2];
  }

  /** Grade "A" together with band "low" keeps nothing. */
  lemma ImpossibleFilterExample(p1: Plan, p2: Plan, p3: Plan, viewer: Option<User>)
    requires ExamplePlans(p1, p2, p3) && !IsInspector(viewer)
    ensures FilteredPlans([p1, p2, p3], viewer, "", "A", "low") == []
  {
    ExamplePlansMatchEmptySearch(p1, p2, p3);
    assert [p1, p2, p3][1..] == [p2, p3] && [p2, p3][1..] == [p3];
    var impossible := FiltersTest("", "A", "low");
    assert !impossible(p1) && !impossible(p2) && !impossible(p3);
    assert Filter([p3], impossible) == [];
    assert Filter([p2, p3], impossible) == [];
  }
}
