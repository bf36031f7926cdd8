/**
 * The onboarding progress bar: five numbered steps, the page each links to
 * (keeping the chosen plan in the query string), and which markers are lit.
 */
module OnboardSteps {
  import opened Wrappers

  datatype OnboardStep = ApiToken | Project | Run | Invite | Plus

  /** The enum's numbering, 1 to 5. */
  function StepNumber(step: OnboardStep): nat
  {
    match step
    case ApiToken => 1
    case Project => 2
    case Run => 3
    case Invite => 4
    case Plus => 5
  }

  /** The steps in the order the bar shows them. */
  const ALL_STEPS: seq<OnboardStep> := [ApiToken, Project, Run, Invite, Plus]

  datatype PlanLevel = Free | Team | Enterprise

  /** The string value of each plan level; none is empty, so every present plan is truthy. */
  function PlanName(plan: PlanLevel): (r: string)
    ensures |r| > 0
  {
    match plan
    case Free => "free"
    case Team => "team"
    case Enterprise => "enterprise"
  }

  const ONBOARD_PREFIX: string := "/console/onboard/"

  /** `stepPath`: a page of its own under the onboarding prefix. */
  function StepPath(step: OnboardStep): (r: string)
    ensures |ONBOARD_PREFIX| < |r| && r[..|ONBOARD_PREFIX|] == ONBOARD_PREFIX
  {
    match step
    case ApiToken => "/console/onboard/token"
    case Project => "/console/onboard/project"
    case Run => "/console/onboard/report"
    case Invite => "/console/onboard/invite"
    case Plus => "/console/onboard/billing"
  }

  /**
   * `stepHref`: the plan, when it is truthy, is carried as `?plan=`. A present plan's name is
   * never empty (see `PlanName`), so only an absent plan leaves the query out.
   */
  function StepHref(step: OnboardStep, plan: Option<PlanLevel>): (r: string)
    ensures |StepPath(step)| <= |r| && r[..|StepPath(step)|] == StepPath(step)
    ensures plan.None? <==> |r| == |StepPath(step)|
  {
    match plan
    case Some(p) => StepPath(step) + "?plan=" + PlanName(p)
    case None => StepPath(step)
  }

  /** A marker is lit when the current step has reached it. */
  predicate Active(current: OnboardStep, step: OnboardStep)
    ensures Active(current, step) <==> step in ALL_STEPS[..StepNumber(current)]
  {
    StepsNumberedInOrder();
    assert ALL_STEPS[StepNumber(step) - 1] == step;
    assert forall i :: 0 <= i < StepNumber(current) ==> ALL_STEPS[..StepNumber(current)][i] == ALL_STEPS[i];
    StepNumber(current) >= StepNumber(step)
  }

  /** One marker of the bar: its step, whether it is lit, and where it links. */
  datatype Marker = Marker(step: OnboardStep, active: bool, href: string)

  /** The markers the bar renders for the current step and plan. */
  function Markers(current: OnboardStep, plan: Option<PlanLevel>): (r: seq<Marker>)
    ensures |r| == 5
    ensures forall i :: 0 <= i < |r| ==> (r[i].active <==> StepNumber(r[i].step) <= StepNumber(current))
    ensures forall i :: 0 <= i < |r| ==> r[i].href == StepHref(r[i].step, plan)
  {
    seq(|ALL_STEPS|, i requires 0 <= i < |ALL_STEPS| =>
      Marker(ALL_STEPS[i], Active(current, ALL_STEPS[i]), StepHref(ALL_STEPS[i], plan)))
  }

  /** The bar lists the five steps numbered 1 to 5, each once. */
  lemma StepsNumberedInOrder()
    ensures |ALL_STEPS| == 5
    ensures forall i :: 0 <= i < |ALL_STEPS| ==> StepNumber(ALL_STEPS[i]) == i + 1
    ensures forall step: OnboardStep :: step in ALL_STEPS
  {
    forall step: OnboardStep
      ensures step in ALL_STEPS
    {
      assert ALL_STEPS[StepNumber(step) - 1] == step;
    }
  }

  /** Each step has its own page under the onboarding prefix. */
  lemma StepPathsDistinct(a: OnboardStep, b: OnboardStep)
    ensures StepPath(a) == StepPath(b) ==> a == b
    ensures |ONBOARD_PREFIX| < |StepPath(a)| && StepPath(a)[..|ONBOARD_PREFIX|] == ONBOARD_PREFIX
  {
  }

  /** Without a plan the link is the step's page; with one, the page followed by `?plan=` and the plan's name. */
  lemma StepHrefCarriesPlan(step: OnboardStep, plan: Option<PlanLevel>)
    ensures plan.None? ==> StepHref(step, plan) == StepPath(step)
    ensures plan.Some? ==> StepHref(step, plan) == StepPath(step) + "?plan=" + PlanName(plan.value)
  {
  }

  /**
   * Five markers in ascending step order; the lit ones are exactly the first
   * `StepNumber(current)`, so they form a prefix of the bar.
   */
  lemma MarkersLitPrefix(current: OnboardStep, plan: Option<PlanLevel>)
    ensures |Markers(current, plan)| == 5
    ensures forall i :: 0 <= i < 5 ==> StepNumber(Markers(current, plan)[i].step) == i + 1
    ensures forall i :: 0 <= i < 5 ==> (Markers(current, plan)[i].active <==> i < StepNumber(current))
    ensures forall i, j :: 0 <= i < j < 5 && Markers(current, plan)[j].active ==> Markers(current, plan)[i].active
  {
    StepsNumberedInOrder();
  }
}
