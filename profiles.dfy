/**
 * The part of a user's profile the dashboard pages read: the plan and the
 * three monthly usage counters, and the free-tier gate each generator page
 * computes from them (`canGenerate`).
 */
module Profiles {
  import opened Text

  /** A generator page, each with its own counter. */
  datatype Feature = Mcqs | Papers | Voice

  /** A profile row; a counter may be null. */
  datatype Profile = Profile(
    plan: string,
    monthlyMcqCount: Option<int>,
    monthlyPaperCount: Option<int>,
    monthlyVoiceCount: Option<int>)

  /** The free plan's number of generations. */
  const FreeLimit: int := 10

  /** `profile.monthly_*_count || 0`: a null (or zero) counter reads as 0. */
  function UsedCount(p: Profile, f: Feature): int {
    var c := match f
      case Mcqs => p.monthlyMcqCount
      case Papers => p.monthlyPaperCount
      case Voice => p.monthlyVoiceCount;
    if c.None? then 0 else c.value
  }

  /** `profile?.plan !== "free"`: also true while no profile is loaded. */
  predicate IsPremium(profile: Option<Profile>) {
    profile.None? || profile.value.plan != "free"
  }

  /** `canGenerate`: a premium plan, or fewer than ten generations used. */
  predicate CanGenerate(profile: Option<Profile>, f: Feature) {
    IsPremium(profile) || UsedCount(profile.value, f) < FreeLimit
  }

  /**
   * The card description: for a free plan, `10 - count` generations
   * remaining (not clamped at zero); otherwise unlimited (None).
   */
  function Remaining(profile: Option<Profile>, f: Feature): Option<int> {
    if profile.Some? && profile.value.plan == "free" then Some(FreeLimit - UsedCount(profile.value, f))
    else None
  }

  /**
   * The gate agrees with the number shown: generating is allowed exactly
   * when the page says "unlimited" or shows a positive remainder. A free
   * user over the limit sees a negative remainder.
   */
  lemma GateMatchesRemaining(profile: Option<Profile>, f: Feature)
    ensures CanGenerate(profile, f) <==> Remaining(profile, f).None? || Remaining(profile, f).value > 0
    ensures Remaining(profile, f).Some? ==>
              Remaining(profile, f).value == FreeLimit - UsedCount(profile.value, f)
              && (UsedCount(profile.value, f) > FreeLimit ==> Remaining(profile, f).value < 0)
  {
  }

  /**
   * Only the free plan is limited, and only by the page's own counter: a
   * missing profile or any other plan may always generate, and a free
   * profile may exactly while that counter (null as 0) is below ten.
   */
  lemma GateRule(profile: Option<Profile>, f: Feature)
    ensures profile.None? ==> CanGenerate(profile, f)
    ensures profile.Some? && profile.value.plan != "free" ==> CanGenerate(profile, f)
    ensures profile.Some? && profile.value.plan == "free" ==>
              (CanGenerate(profile, f) <==> UsedCount(profile.value, f) < FreeLimit)
    ensures profile.Some? && profile.value.plan == "free" && !CanGenerate(profile, f) ==>
              forall g :: g != f && UsedCount(profile.value, g) < FreeLimit ==> CanGenerate(profile, g)
  {
  }
}
