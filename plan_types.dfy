/** The records of types.ts, and the ad-plan records the ad card reads. The two
    records whose list is sorted in place by the rendering code, ThirtyDayPlan
    and AdPlan, are classes holding that list as an array; everything else is a
    value. */
module PlanTypes {
  import opened Wrappers

  /** The three-part script of a plan. */
  datatype Script = Script(hook: string, conflict: string, resolution: string)

  /** `ContentPlan`: one content idea with its business justification. */
  datatype ContentPlan = ContentPlan(
    realBusinessJustification: string,
    ideaTitle: string,
    hook: string,
    script: Script,
    visualIdeas: seq<string>,
    editingTips: seq<string>,
    cta: string)

  /** `Partial<ContentPlan>`: the value the single-plan view holds, in which any
      field may be missing (the parsed model output is not validated). */
  datatype PartialContentPlan = PartialContentPlan(
    realBusinessJustification: Option<string>,
    ideaTitle: Option<string>,
    hook: Option<string>,
    script: Option<Script>,
    visualIdeas: Option<seq<string>>,
    editingTips: Option<seq<string>>,
    cta: Option<string>)

  /** The placeholder `{}` shown once the first chunk has arrived. */
  const EmptyPlan: PartialContentPlan :=
    PartialContentPlan(None, None, None, None, None, None, None)

  /** `DayPlan`: one day of the 30-day calendar. */
  datatype DayPlan = DayPlan(
    day: int,
    ideaTitle: string,
    hook: string,
    script: Script,
    visualIdeas: seq<string>,
    editingTips: seq<string>,
    cta: string)

  /** The value JSON.parse yields for a 30-day plan, before it is held as an object. */
  datatype ThirtyDayPlanData = ThirtyDayPlanData(realBusinessJustification: string, plan: seq<DayPlan>)

  /** `ThirtyDayPlan`: the object the application holds; `plan` is the array
      the calendar view sorts in place. */
  class ThirtyDayPlan {
    var realBusinessJustification: string
    var plan: array<DayPlan>

    constructor (data: ThirtyDayPlanData)
      ensures realBusinessJustification == data.realBusinessJustification
      ensures fresh(plan) && plan[..] == data.plan
    {
      realBusinessJustification := data.realBusinessJustification;
      plan := new DayPlan[|data.plan|](i requires 0 <= i < |data.plan| => data.plan[i]);
    }
  }

  /** The copy of one ad. */
  datatype AdCopy = AdCopy(headline: string, primaryText: string, description: string, cta: string)

  /** The creative brief of one ad. */
  datatype CreativeBrief = CreativeBrief(
    hook: string, script: Script, visualIdeas: seq<string>, editingTips: seq<string>)

  /** One week's ad of the campaign. */
  datatype Ad = Ad(week: int, valueProposition: string, adCopy: AdCopy, creativeBrief: CreativeBrief)

  /** The audience targeting block. */
  datatype Targeting = Targeting(
    location: string, demographics: string, interests: seq<string>, lookalikeAudienceSuggestion: string)

  /** The budget block (whole currency units). */
  datatype Budget = Budget(monthly: int, daily: int, justification: string)

  /** `AdPlan`: `monthlyPlan` is the array the ad card sorts in place. */
  class AdPlan {
    var strategicGoal: string
    var coreOffer: string
    var targetAudienceProfile: string
    var targeting: Targeting
    var budget: Budget
    var monthlyPlan: array<Ad>

    constructor (strategicGoal: string, coreOffer: string, targetAudienceProfile: string,
                 targeting: Targeting, budget: Budget, ads: seq<Ad>)
      ensures this.strategicGoal == strategicGoal && this.coreOffer == coreOffer
      ensures this.targetAudienceProfile == targetAudienceProfile
      ensures this.targeting == targeting && this.budget == budget
      ensures fresh(monthlyPlan) && monthlyPlan[..] == ads
    {
      this.strategicGoal := strategicGoal;
      this.coreOffer := coreOffer;
      this.targetAudienceProfile := targetAudienceProfile;
      this.targeting := targeting;
      this.budget := budget;
      monthlyPlan := new Ad[|ads|](i requires 0 <= i < |ads| => ads[i]);
    }
  }
}
