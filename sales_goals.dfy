/**
 * Sales goals: the goal entity, its DTO with the DTO's validation rules, the
 * month normalisation the service applies before it inserts or updates a
 * goal, and the duplicate check that keeps at most one goal per owner and
 * month (the rule the unique index on owner and goal month also enforces).
 */
module SalesGoals {
  import opened Wrappers
  import opened Annotations
  import opened Calendar

  /** A stored goal: its key, its owner, the month it applies to, the amount. */
  datatype SalesGoal = SalesGoal(id: int, ownedById: string, goalMonthYear: DateTime, goalAmount: Decimal)

  /** The DTO the UI edits. The service overwrites its goal month in place. */
  class SalesGoalDto {
    var id: int
    var ownedById: Option<string>
    var goalMonthYear: Option<DateTime>
    var goalAmount: Option<Decimal>

    /** A new DTO: every property at its default, so `id` is 0, which the
        duplicate check reads as "a goal not yet stored". */
    constructor ()
      ensures id == 0 && ownedById == None && goalMonthYear == None && goalAmount == None
    {
      id := 0;
      ownedById := None;
      goalMonthYear := None;
      goalAmount := None;
    }

    /** The annotations: owner, month and amount are required, and the amount
        lies in [1, 9999999999999999.99]. */
    predicate Valid()
      reads this
    {
      && RequiredString(ownedById)
      && RequiredValue(goalMonthYear)
      && RequiredValue(goalAmount)
      && DecimalRange(goalAmount, Whole(1), MaxMoney())
    }
  }

  /** A valid DTO's amount, once it has at most two decimals, fits the
      `decimal(18, 2)` column its `[Precision(18, 2)]` names. */
  lemma ValidGoalAmountFitsColumn(dto: SalesGoalDto)
    requires dto.Valid() && HasTwoDecimalsAtMost(dto.goalAmount.value)
    ensures FitsDecimal18x2(dto.goalAmount.value)
  {
    MoneyRangeIsColumnRange(dto.goalAmount.value);
  }

  /** The goal month as the service stores it: the first of its month at
      midnight; an absent month stays absent. */
  function NormalizeGoalMonth(m: Option<DateTime>): (r: Option<DateTime>)
    ensures r.Some? <==> m.Some?
    ensures m.Some? ==> SameMonth(r.value, m.value) && IsFirstOfMonth(r.value)
    ensures m.Some? && Valid(m.value) ==> Valid(r.value)
  {
    if m.Some? then Some(FirstOfMonth(m.value)) else None
  }

  lemma NormalizeGoalMonthIdempotent(m: Option<DateTime>)
    ensures NormalizeGoalMonth(NormalizeGoalMonth(m)) == NormalizeGoalMonth(m)
  {
  }

  /** `CreateSalesGoalAsync` up to the call that inserts the DTO: only the goal
      month changes, to the first of its month. */
  method CreateSalesGoal(dto: SalesGoalDto)
    modifies dto`goalMonthYear
    ensures dto.goalMonthYear == NormalizeGoalMonth(old(dto.goalMonthYear))
  {
    if dto.goalMonthYear.Some? {
      dto.goalMonthYear := Some(FirstOfMonth(dto.goalMonthYear.value));
    }
  }

  /** `UpdateSalesGoalAsync` up to the call that writes the DTO back: the same
      normalisation as on create. */
  method UpdateSalesGoal(dto: SalesGoalDto)
    modifies dto`goalMonthYear
    ensures dto.goalMonthYear == NormalizeGoalMonth(old(dto.goalMonthYear))
  {
    if dto.goalMonthYear.Some? {
      dto.goalMonthYear := Some(FirstOfMonth(dto.goalMonthYear.value));
    }
  }

  /** LINQ `Where`: the goals that pass `keep`. */
  function Where(goals: seq<SalesGoal>, keep: SalesGoal -> bool): (r: seq<SalesGoal>)
    ensures forall g :: g in r <==> g in goals && keep(g)
  {
    if goals == [] then []
    else (if keep(goals[0]) then [goals[0]] else []) + Where(goals[1..], keep)
  }

  /** What the duplicate check is meant to answer: with no month, "yes";
      otherwise, whether a stored goal other than the DTO's own (`id` 0 is
      nobody's) has the same owner and a date that, at day granularity, is
      the first of the DTO's month. */
  predicate GoalExists(goals: seq<SalesGoal>, id: int, ownedById: Option<string>, goalMonthYear: Option<DateTime>) {
    || goalMonthYear.None?
    || exists g :: g in goals && Clashes(g, id, ownedById, goalMonthYear.value)
  }

  predicate Clashes(g: SalesGoal, id: int, ownedById: Option<string>, month: DateTime) {
    && Some(g.ownedById) == ownedById
    && DateOf(g.goalMonthYear) == FirstOfMonth(month)
    && (id != 0 ==> g.id != id)
  }

  /** `DoesGoalExistAsync`, over the goals the repository's `GetAll` returns. */
  method DoesGoalExist(goals: seq<SalesGoal>, dto: SalesGoalDto) returns (found: bool)
    ensures found == GoalExists(goals, dto.id, dto.ownedById, dto.goalMonthYear)
  {
    if dto.goalMonthYear.None? {
      return true;
    }
    var goalDate := FirstOfMonth(dto.goalMonthYear.value);
    var owner := dto.ownedById;
    var query := Where(goals, (g: SalesGoal) => Some(g.ownedById) == owner && DateOf(g.goalMonthYear) == DateOf(goalDate));
    if dto.id != 0 {
      var id := dto.id;
      query := Where(query, (g: SalesGoal) => g.id != id);
    }
    found := |query| > 0;
    if found {
      assert query[0] in query;
    }
  }

  /** Only the month matters: two DTOs whose dates differ in the day of the
      month or the time of day get the same answer. */
  lemma DayOfMonthIsIgnored(goals: seq<SalesGoal>, id: int, ownedById: Option<string>, d: DateTime, e: DateTime)
    requires SameMonth(d, e)
    ensures GoalExists(goals, id, ownedById, Some(d)) == GoalExists(goals, id, ownedById, Some(e))
  {
    assert FirstOfMonth(d) == FirstOfMonth(e);
  }

  /** The goals other than the one with key `id`. */
  function Without(goals: seq<SalesGoal>, id: int): seq<SalesGoal> {
    Where(goals, (g: SalesGoal) => g.id != id)
  }

  /** A non-zero `id` hides exactly the goal with that key, so an update is
      never reported as its own duplicate; `id` 0 hides nothing. */
  lemma OwnGoalIsExcluded(goals: seq<SalesGoal>, id: int, ownedById: Option<string>, month: DateTime)
    ensures id != 0 ==> GoalExists(goals, id, ownedById, Some(month)) == GoalExists(Without(goals, id), 0, ownedById, Some(month))
    ensures GoalExists(goals, 0, ownedById, Some(month)) <==> exists g :: g in goals && Some(g.ownedById) == ownedById && DateOf(g.goalMonthYear) == FirstOfMonth(month)
  {
    if id != 0 {
      var rest := Without(goals, id);
      if GoalExists(goals, id, ownedById, Some(month)) {
        var g :| g in goals && Clashes(g, id, ownedById, month);
        assert g in rest && Clashes(g, 0, ownedById, month);
      }
      if GoalExists(rest, 0, ownedById, Some(month)) {
        var g :| g in rest && Clashes(g, 0, ownedById, month);
        assert g in goals && Clashes(g, id, ownedById, month);
      }
    }
  }

  /** The cases of the service's own tests, with one stored goal: owner1's
      goal for January 2022, stored under key 1. */
  lemma ServiceTestCases()
    ensures var goals := [SalesGoal(1, "owner1", DateTime(2022, 1, 1, 0), Whole(100000))];
      && GoalExists(goals, 0, Some("owner1"), Some(DateTime(2022, 1, 1, 0)))
      && !GoalExists(goals, 0, Some("owner1"), Some(DateTime(2022, 2, 1, 0)))
      && !GoalExists(goals, 0, Some("nonExistingOwner"), Some(DateTime(2022, 2, 1, 0)))
      && !GoalExists(goals, 1, Some("owner1"), Some(DateTime(2022, 1, 1, 0)))
  {
    var goals := [SalesGoal(1, "owner1", DateTime(2022, 1, 1, 0), Whole(100000))];
    assert Clashes(goals[0], 0, Some("owner1"), DateTime(2022, 1, 1, 0));
  }

  /** Every stored goal month is a first of month, as the service writes it. */
  predicate AllNormalized(goals: seq<SalesGoal>) {
    forall i :: 0 <= i < |goals| ==> IsFirstOfMonth(goals[i].goalMonthYear)
  }

  /** At most one goal per owner and month. */
  predicate UniqueOwnerMonth(goals: seq<SalesGoal>) {
    forall i, j :: 0 <= i < j < |goals| ==>
      !(goals[i].ownedById == goals[j].ownedById && SameMonth(goals[i].goalMonthYear, goals[j].goalMonthYear))
  }

  /** Keys are unique. */
  predicate UniqueIds(goals: seq<SalesGoal>) {
    forall i, j :: 0 <= i < j < |goals| ==> goals[i].id != goals[j].id
  }

  /** For a stored first of month, matching the check's date is the same as
      being in the same month. */
  lemma ClashMeansSameMonth(g: SalesGoal, id: int, owner: string, month: DateTime)
    requires IsFirstOfMonth(g.goalMonthYear)
    ensures Clashes(g, id, Some(owner), month) <==>
      g.ownedById == owner && SameMonth(g.goalMonthYear, month) && (id != 0 ==> g.id != id)
  {
  }

  /** Creating a goal only when the check says no duplicate exists keeps the
      store normalised and keeps at most one goal per owner and month. */
  lemma {:induction false} GuardedCreateKeepsUnique(goals: seq<SalesGoal>, id: int, owner: string, month: DateTime, amount: Decimal)
    requires AllNormalized(goals) && UniqueOwnerMonth(goals)
    requires !GoalExists(goals, 0, Some(owner), Some(month))
    ensures AllNormalized(goals + [SalesGoal(id, owner, FirstOfMonth(month), amount)])
    ensures UniqueOwnerMonth(goals + [SalesGoal(id, owner, FirstOfMonth(month), amount)])
  {
    var added := SalesGoal(id, owner, FirstOfMonth(month), amount);
    var after := goals + [added];
    forall i, j | 0 <= i < j < |after|
      ensures !(after[i].ownedById == after[j].ownedById && SameMonth(after[i].goalMonthYear, after[j].goalMonthYear))
    {
      if j == |goals| {
        assert after[i] == goals[i] && goals[i] in goals;
        ClashMeansSameMonth(goals[i], 0, owner, month);
      }
    }
  }

  /** The store after the goal with key `id` is written back as `updated`. */
  function Replace(goals: seq<SalesGoal>, id: int, updated: SalesGoal): (r: seq<SalesGoal>)
    ensures |r| == |goals|
    ensures forall i :: 0 <= i < |goals| ==> r[i] == (if goals[i].id == id then updated else goals[i])
  {
    seq(|goals|, i requires 0 <= i < |goals| => if goals[i].id == id then updated else goals[i])
  }

  /** Updating a goal only when the check, which skips the goal itself, says
      no duplicate exists keeps at most one goal per owner and month. */
  lemma {:induction false} GuardedUpdateKeepsUnique(goals: seq<SalesGoal>, id: int, owner: string, month: DateTime, amount: Decimal)
    requires id != 0
    requires AllNormalized(goals) && UniqueOwnerMonth(goals) && UniqueIds(goals)
    requires !GoalExists(goals, id, Some(owner), Some(month))
    ensures AllNormalized(Replace(goals, id, SalesGoal(id, owner, FirstOfMonth(month), amount)))
    ensures UniqueOwnerMonth(Replace(goals, id, SalesGoal(id, owner, FirstOfMonth(month), amount)))
  {
    var updated := SalesGoal(id, owner, FirstOfMonth(month), amount);
    var after := Replace(goals, id, updated);
    forall i, j | 0 <= i < j < |after|
      ensures !(after[i].ownedById == after[j].ownedById && SameMonth(after[i].goalMonthYear, after[j].goalMonthYear))
    {
      if goals[i].id == id {
        assert goals[j].id != id && after[j] == goals[j] && goals[j] in goals;
        ClashMeansSameMonth(goals[j], id, owner, month);
      } else if goals[j].id == id {
        assert after[i] == goals[i] && goals[i] in goals;
        ClashMeansSameMonth(goals[i], id, owner, month);
      }
    }
  }

  /** The check compares whole days, so it relies on stored months being
      firsts of month: a goal stored on the 15th is not seen. */
  lemma MidMonthGoalIsNotSeen()
    ensures !GoalExists([SalesGoal(1, "owner1", DateTime(2022, 1, 15, 0), Whole(100000))], 0, Some("owner1"), Some(DateTime(2022, 1, 1, 0)))
  {
  }
}
