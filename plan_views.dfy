/** The two sorts the views perform on the plan objects they are given,
    before rendering: the 30-day calendar by day
    (components/ThirtyDayPlanModal.tsx) and the ad campaign by week
    (components/AdPlanCard.tsx). Both reorder the caller's array itself. */
module PlanViews {
  import opened PlanTypes
  import opened KeySort

  function DayOf(d: DayPlan): int { d.day }

  function WeekOf(ad: Ad): int { ad.week }

  /** `plan.plan.sort((a, b) => a.day - b.day)`: returns the very array it
      sorted; the justification and the entries themselves are untouched. */
  method SortThirtyDayPlan(plan: ThirtyDayPlan) returns (sorted: array<DayPlan>)
    modifies plan.plan
    ensures sorted == plan.plan && unchanged(plan)
    ensures SortedByKey(plan.plan[..], DayOf)
    ensures multiset(plan.plan[..]) == multiset(old(plan.plan[..]))
    ensures StableFor(plan.plan[..], old(plan.plan[..]), DayOf)
    ensures SortedByKey(old(plan.plan[..]), DayOf) ==> plan.plan[..] == old(plan.plan[..])
  {
    SortByKey(plan.plan, DayOf);
    sorted := plan.plan;
  }

  /** `plan.monthlyPlan.sort((a, b) => a.week - b.week)`: returns the very
      array it sorted; goal, offer, audience, targeting and budget are
      untouched. */
  method SortAdPlan(plan: AdPlan) returns (sorted: array<Ad>)
    modifies plan.monthlyPlan
    ensures sorted == plan.monthlyPlan && unchanged(plan)
    ensures SortedByKey(plan.monthlyPlan[..], WeekOf)
    ensures multiset(plan.monthlyPlan[..]) == multiset(old(plan.monthlyPlan[..]))
    ensures StableFor(plan.monthlyPlan[..], old(plan.monthlyPlan[..]), WeekOf)
    ensures SortedByKey(old(plan.monthlyPlan[..]), WeekOf) ==> plan.monthlyPlan[..] == old(plan.monthlyPlan[..])
  {
    SortByKey(plan.monthlyPlan, WeekOf);
    sorted := plan.monthlyPlan;
  }
}
