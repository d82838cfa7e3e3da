/**
 * The goals page: the SMART-goal form's submit rules, the progress bar,
 * the success rate of the summary cards, the status badge colours and the
 * status buttons each goal card offers.
 */
module Goals {
  import opened Wrappers
  import opened Js
  import opened Schema
  import Routers

  // ---------------------------------------------------------------------
  // handleSubmit
  // ---------------------------------------------------------------------

  /** The create dialog's form state; dates are milliseconds since the epoch. */
  datatype GoalForm = GoalForm(
    title: string,
    description: string,
    specific: string,
    measurable: string,
    achievable: string,
    relevant: string,
    timeBound: string,
    targetValue: int,
    metricType: string,
    startDate: int,
    endDate: int)

  /** The toast each early return shows. */
  datatype SubmitError = MissingTitle | MissingSpecific | MissingMeasurable

  /**
   * handleSubmit: a blank title, then a blank Specific, then a blank
   * Measurable stops the submit; otherwise the create call gets the eleven
   * form fields as they are, untrimmed.
   */
  function Submit(form: GoalForm): (r: Result<Routers.GoalCreateInput, SubmitError>)
    ensures r == Err(MissingTitle) <==> IsBlank(form.title)
    ensures r == Err(MissingSpecific) <==> !IsBlank(form.title) && IsBlank(form.specific)
    ensures r == Err(MissingMeasurable) <==>
      !IsBlank(form.title) && !IsBlank(form.specific) && IsBlank(form.measurable)
    ensures r.Ok? <==> !IsBlank(form.title) && !IsBlank(form.specific) && !IsBlank(form.measurable)
    ensures r.Ok? ==> r.value == Routers.GoalCreateInput(
      form.title, Some(form.description), Some(form.specific), Some(form.measurable),
      Some(form.achievable), Some(form.relevant), Some(form.timeBound), Some(form.targetValue),
      Some(form.metricType), form.startDate, form.endDate)
  {
    TrimEmptyIffBlank(form.title);
    TrimEmptyIffBlank(form.specific);
    TrimEmptyIffBlank(form.measurable);
    if Trim(form.title) == [] then Err(MissingTitle)
    else if Trim(form.specific) == [] then Err(MissingSpecific)
    else if Trim(form.measurable) == [] then Err(MissingMeasurable)
    else
      Ok(Routers.GoalCreateInput(
        form.title, Some(form.description), Some(form.specific), Some(form.measurable),
        Some(form.achievable), Some(form.relevant), Some(form.timeBound), Some(form.targetValue),
        Some(form.metricType), form.startDate, form.endDate))
  }

  /**
   * A form the page lets through is refused by goals.create only for a
   * title longer than 255 UTF-16 units: the page never checks the upper
   * bound, the server never checks Specific or Measurable.
   */
  lemma SubmittedFormPassesServerUnlessTooLong(form: GoalForm, userId: int)
    requires Submit(form).Ok?
    ensures Routers.CreateGoal(userId, Submit(form).value).Ok? <==> Utf16Length(form.title) <= 255
  {
    var i :| 0 <= i < |form.title| && !IsSpace(form.title[i]);
  }

  // ---------------------------------------------------------------------
  // calculateProgress
  // ---------------------------------------------------------------------

  /** The exact percentage `current / target * 100`. */
  function Percent(current: int, target: int): real
    requires target != 0
  {
    current as real / target as real * 100.0
  }

  /** Where the percentage lies for a positive target. */
  lemma PercentBounds(current: int, target: int)
    requires target > 0
    ensures current == 0 ==> Percent(current, target) == 0.0
    ensures current >= 0 ==> Percent(current, target) >= 0.0
    ensures current <= target ==> Percent(current, target) <= 100.0
    ensures current >= target ==> Percent(current, target) >= 100.0
  {
    var c, t := current as real, target as real;
    assert t / t == 1.0;
    if current >= 0 {
      DivMonotone(0.0, c, t);
    }
    if current <= target {
      DivMonotone(c, t, t);
    } else {
      DivMonotone(t, c, t);
    }
  }

  /** `Math.min(Math.round(x), 100)` */
  function Capped(x: real): (p: int)
    ensures p <= 100
    ensures x >= 100.0 ==> p == 100
    ensures x >= 0.0 ==> p >= 0
    ensures x == 0.0 ==> p == 0
    ensures x < 99.5 ==> p < 100
    ensures p < 100 ==> x - 0.5 < p as real <= x + 0.5
  {
    var rounded := Round(x);
    if rounded < 100 then rounded else 100
  }

  /**
   * calculateProgress: 0 for a zero target, otherwise the percentage
   * rounded half up and capped at 100.
   */
  function Progress(current: int, target: int): (p: int)
    ensures p <= 100
    ensures target == 0 || current == 0 ==> p == 0
    ensures target > 0 && current >= target ==> p == 100
    ensures target > 0 && current >= 0 ==> p >= 0
    ensures target != 0 && Percent(current, target) < 99.5 ==> p < 100
    ensures target != 0 && p < 100 ==> Percent(current, target) - 0.5 < p as real <= Percent(current, target) + 0.5
  {
    if target == 0 then 0
    else if target > 0 then
      PercentBounds(current, target);
      Capped(Percent(current, target))
    else
      assert current == 0 ==> Percent(current, target) == 0.0;
      Capped(Percent(current, target))
  }

  /** The card's progress: a missing or zero current value counts as 0, and so does a missing target. */
  function GoalProgress(g: Goal): (p: int)
    ensures p <= 100
    ensures OrInt(g.targetValue, 0) == 0 ==> p == 0
  {
    Progress(OrInt(g.currentValue, 0), OrInt(g.targetValue, 0))
  }

  /** The progress bar is shown only for a positive target. */
  predicate ShowsProgress(g: Goal) {
    g.targetValue.Some? && g.targetValue.value > 0
  }

  /** More progress never shows a lower percentage. */
  lemma ProgressMonotone(c1: int, c2: int, target: int)
    requires target > 0 && c1 <= c2
    ensures Progress(c1, target) <= Progress(c2, target)
  {
    var x, y := Percent(c1, target), Percent(c2, target);
    assert x <= y by {
      DivMonotone(c1 as real, c2 as real, target as real);
    }
    assert Round(x) <= Round(y) by {
      FloorMonotone(x + 0.5, y + 0.5);
    }
  }

  lemma DivMonotone(a: real, b: real, d: real)
    requires d > 0.0 && a <= b
    ensures a / d <= b / d
  {
    var qa, qb := a / d, b / d;
    assert qa * d == a && qb * d == b;
    assert (qb - qa) * d == b - a;
  }

  lemma FloorMonotone(x: real, y: real)
    requires x <= y
    ensures x.Floor <= y.Floor
  {
    assert x.Floor as real <= x <= y < y.Floor as real + 1.0;
  }

  // ---------------------------------------------------------------------
  // The summary cards
  // ---------------------------------------------------------------------

  function ActiveGoals(goals: seq<Goal>): seq<Goal> {
    Filter(goals, (g: Goal) => g.status == Active)
  }

  function CompletedGoals(goals: seq<Goal>): seq<Goal> {
    Filter(goals, (g: Goal) => g.status == Completed)
  }

  /** How many goals have the status, counted one by one. */
  function CountStatus(goals: seq<Goal>, status: GoalStatus): nat {
    if goals == [] then 0 else (if goals[0].status == status then 1 else 0) + CountStatus(goals[1..], status)
  }

  lemma {:induction false} ActiveGoalsCount(goals: seq<Goal>)
    ensures |ActiveGoals(goals)| == CountStatus(goals, Active)
  {
    if goals != [] {
      ActiveGoalsCount(goals[1..]);
    }
  }

  lemma {:induction false} CompletedGoalsCount(goals: seq<Goal>)
    ensures |CompletedGoals(goals)| == CountStatus(goals, Completed)
  {
    if goals != [] {
      CompletedGoalsCount(goals[1..]);
    }
  }

  /** The success-rate expression over the two counts. */
  function Rate(completed: nat, active: nat): (r: int)
    ensures 0 <= r <= 100
    ensures completed == 0 ==> r == 0
    ensures active == 0 && completed > 0 ==> r == 100
    ensures active + completed > 0 ==>
      Percent(completed, active + completed) - 0.5 < r as real <= Percent(completed, active + completed) + 0.5
  {
    var total := active + completed;
    if total > 0 then
      PercentBounds(completed, total);
      Round(Percent(completed, total))
    else 0
  }

  /**
   * The success rate: completed goals as a rounded percentage of active
   * and completed ones, 0 when there are neither; paused and cancelled
   * goals do not count.
   */
  function SuccessRate(goals: seq<Goal>): (r: int)
    ensures r == Rate(CountStatus(goals, Completed), CountStatus(goals, Active))
  {
    ActiveGoalsCount(goals);
    CompletedGoalsCount(goals);
    Rate(|CompletedGoals(goals)|, |ActiveGoals(goals)|)
  }

  // ---------------------------------------------------------------------
  // Status badge and status buttons
  // ---------------------------------------------------------------------

  /** The status as the API spells it. */
  function StatusName(s: GoalStatus): string {
    match s
    case Active => "active"
    case Completed => "completed"
    case Paused => "paused"
    case Cancelled => "cancelled"
  }

  const StatusColors: map<string, string> :=
    map["active" := "bg-blue-500", "completed" := "bg-green-500", "paused" := "bg-yellow-500", "cancelled" := "bg-red-500"]

  /** getStatusColor: the colour of a known status, grey for any other text. */
  function StatusColor(status: string): (colour: string)
    ensures colour == "bg-gray-500" <==> status !in StatusColors
    ensures status in StatusColors ==> colour == StatusColors[status]
  {
    if status in StatusColors then StatusColors[status] else "bg-gray-500"
  }

  /** The four statuses get four different colours, none of them grey. */
  lemma StatusColorsDistinct(s: GoalStatus, t: GoalStatus)
    ensures StatusColor(StatusName(s)) != "bg-gray-500"
    ensures s != t ==> StatusColor(StatusName(s)) != StatusColor(StatusName(t))
  {
  }

  /** A button on a goal card. */
  datatype Action = SetStatus(to: GoalStatus) | Delete

  /**
   * The buttons of a card: Complete and Pause for an active goal, Resume
   * for a paused one, and Delete on every card.
   */
  function Actions(status: GoalStatus): (r: set<Action>)
    ensures Delete in r
    ensures forall t :: SetStatus(t) in r <==>
      (status == Active && (t == Completed || t == Paused)) || (status == Paused && t == Active)
  {
    match status
    case Active => {SetStatus(Completed), SetStatus(Paused), Delete}
    case Paused => {SetStatus(Active), Delete}
    case _ => {Delete}
  }

  /** Clicking status buttons in turn; a click on a button the card does not show changes nothing. */
  function Clicks(status: GoalStatus, clicks: seq<GoalStatus>): GoalStatus
    decreases |clicks|
  {
    if clicks == [] then status
    else
      var next := if SetStatus(clicks[0]) in Actions(status) then clicks[0] else status;
      Clicks(next, clicks[1..])
  }

  /** A completed goal stays completed whatever is clicked. */
  lemma {:induction false} CompletedIsFinal(clicks: seq<GoalStatus>)
    ensures Clicks(Completed, clicks) == Completed
  {
    if clicks != [] {
      CompletedIsFinal(clicks[1..]);
    }
  }

  /** The page never cancels a goal: no sequence of clicks reaches Cancelled from another status. */
  lemma {:induction false} NeverCancels(status: GoalStatus, clicks: seq<GoalStatus>)
    requires status != Cancelled
    ensures Clicks(status, clicks) != Cancelled
    decreases |clicks|
  {
    if clicks != [] {
      var next := if SetStatus(clicks[0]) in Actions(status) then clicks[0] else status;
      NeverCancels(next, clicks[1..]);
    }
  }
}
