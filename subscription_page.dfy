/**
 * The rules inside the subscription page: the current plan, and for each
 * of the three plan cards whether it is the current one, an upgrade or a
 * downgrade, its button label, whether the button is disabled, and its
 * badge. Upgrading does nothing yet beyond a notice.
 */
module SubscriptionPage {
  import opened Text
  import opened Profiles

  /** A plan card of the `plans` table; the feature lists are display text and left out. */
  datatype PlanCard = PlanCard(id: string, name: string, price: string, period: string,
                               popular: bool, badge: Option<string>)

  /** The three plans, in their display order. */
  const Plans: seq<PlanCard> := [
    PlanCard("free", "Free", "₹0", "forever", false, None),
    PlanCard("monthly", "Monthly", "₹49", "/month", true, None),
    PlanCard("lifetime", "Lifetime", "₹99", "one-time", false, Some("Best Value"))
  ]

  /** `profile?.plan || "free"`: a missing profile or an empty plan reads as free. */
  function CurrentPlan(profile: Option<Profile>): (r: string)
    ensures r != ""
    ensures profile.None? || profile.value.plan == "" ==> r == "free"
    ensures profile.Some? && profile.value.plan != "" ==> r == profile.value.plan
  {
    if profile.None? || profile.value.plan == "" then "free" else profile.value.plan
  }

  /** The tiers in order: free < monthly < lifetime; other ids have no rank. */
  function Rank(planId: string): Option<nat> {
    if planId == "free" then Some(0)
    else if planId == "monthly" then Some(1)
    else if planId == "lifetime" then Some(2)
    else None
  }

  predicate IsCurrent(planId: string, current: string) {
    planId == current
  }

  /** The upgrade rule as written: from free to anything else, or from monthly to lifetime. */
  predicate IsUpgrade(planId: string, current: string) {
    (current == "free" && planId != "free") || (current == "monthly" && planId == "lifetime")
  }

  /**
   * Between known tiers, an upgrade is exactly a move to a strictly higher
   * rank. From an unknown current plan nothing is an upgrade; from free,
   * even an unknown id counts as one.
   */
  lemma UpgradeIffHigherRank(planId: string, current: string)
    ensures Rank(planId).Some? && Rank(current).Some? ==>
              (IsUpgrade(planId, current) <==> Rank(planId).value > Rank(current).value)
    ensures Rank(current).None? ==> !IsUpgrade(planId, current)
  {
  }

  datatype Label = CurrentPlanLabel | UpgradeLabel | DowngradeLabel

  function LabelText(l: Label): string {
    match l
    case CurrentPlanLabel => "Current Plan"
    case UpgradeLabel => "Upgrade"
    case DowngradeLabel => "Downgrade"
  }

  /** The button text: the current plan first, then upgrade, otherwise downgrade. */
  function ButtonLabel(planId: string, current: string): (l: Label)
    ensures l == CurrentPlanLabel <==> IsCurrent(planId, current)
    ensures l == UpgradeLabel <==> !IsCurrent(planId, current) && IsUpgrade(planId, current)
  {
    if IsCurrent(planId, current) then CurrentPlanLabel
    else if IsUpgrade(planId, current) then UpgradeLabel
    else DowngradeLabel
  }

  /** The button is disabled on the current plan and, for a lifetime user, on every card. */
  predicate Disabled(planId: string, current: string) {
    IsCurrent(planId, current) || current == "lifetime"
  }

  /** The "Popular" badge shows on a popular card without its own badge. */
  predicate ShowsPopular(card: PlanCard) {
    card.popular && card.badge.None?
  }

  /** What each card's button shows and whether it can be pressed. */
  datatype Button = Button(caption: Label, disabled: bool)

  function Buttons(profile: Option<Profile>): (bs: seq<Button>)
    ensures |bs| == |Plans|
  {
    var current := CurrentPlan(profile);
    seq(|Plans|, k requires 0 <= k < |Plans| =>
      Button(ButtonLabel(Plans[k].id, current), Disabled(Plans[k].id, current)))
  }

  /**
   * The three cards per current plan: a free user sees Current, Upgrade,
   * Upgrade with only the first disabled; a monthly user sees Downgrade,
   * Current, Upgrade and may press the downgrade; a lifetime user has every
   * button disabled.
   */
  lemma ButtonsPerPlan(profile: Option<Profile>)
    ensures CurrentPlan(profile) == "free" ==>
              Buttons(profile) == [Button(CurrentPlanLabel, true), Button(UpgradeLabel, false),
                                   Button(UpgradeLabel, false)]
    ensures CurrentPlan(profile) == "monthly" ==>
              Buttons(profile) == [Button(DowngradeLabel, false), Button(CurrentPlanLabel, true),
                                   Button(UpgradeLabel, false)]
    ensures CurrentPlan(profile) == "lifetime" ==>
              Buttons(profile) == [Button(DowngradeLabel, true), Button(DowngradeLabel, true),
                                   Button(CurrentPlanLabel, true)]
    ensures Rank(CurrentPlan(profile)).None? ==>
              Buttons(profile) == [Button(DowngradeLabel, false), Button(DowngradeLabel, false),
                                   Button(DowngradeLabel, false)]
  {
  }

  /** Only the monthly card shows "Popular" and only the lifetime card its own "Best Value" badge. */
  lemma Badges()
    ensures forall k :: 0 <= k < |Plans| ==> (ShowsPopular(Plans[k]) <==> Plans[k].id == "monthly")
    ensures forall k :: 0 <= k < |Plans| ==> (Plans[k].badge.Some? <==> Plans[k].id == "lifetime")
  {
  }

  /** The notice handleUpgrade shows. */
  datatype Notice = ComingSoon

  /** What a click leaves behind: the profile and the notice shown. */
  datatype Effect = Effect(profile: Option<Profile>, notice: Notice)

  /** handleUpgrade: whatever plan is chosen, the profile stays as it was and only a notice appears. */
  function HandleUpgrade(planId: string, profile: Option<Profile>): (e: Effect)
    ensures e.profile == profile
    ensures Buttons(e.profile) == Buttons(profile)
  {
    Effect(profile, ComingSoon)
  }
}
