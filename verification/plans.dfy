/** The plan a profile is on and the three different questions the components ask of it:
    whether it unlocks branding (`isPro`), whether it unlocks API keys and teams
    (`isBusiness`), and whether it is displayed as Pro (`plan === 'pro'`). */
module Plans {
  import opened Wrappers

  /** `FREE_LIMIT`: the monthly quote allowance quoted to free users. */
  const FreeLimit: int := 3

  /** `profile?.plan ?? 'free'`: a missing plan counts as the free plan; a present one,
      even an empty one, is kept. */
  function EffectivePlan(plan: Option<string>): (r: string)
    ensures plan.None? ==> r == "free"
    ensures plan.Some? ==> r == plan.value
  {
    plan.GetOr("free")
  }

  /** `isPro` in the profile panel: the pro and business plans both unlock branding. */
  predicate IsPro(plan: Option<string>) {
    plan == Some("pro") || plan == Some("business")
  }

  /** `isBusiness` in the API-key and team panels: only the business plan qualifies. */
  predicate IsBusiness(plan: Option<string>) {
    plan == Some("business")
  }

  /** The shell's plan label and the billing panel show "Pro" exactly for the `pro` plan. */
  predicate ShownAsPro(plan: Option<string>) {
    EffectivePlan(plan) == "pro"
  }

  /** The three predicates disagree on exactly one plan: business is entitled to branding and
      to API keys, yet is displayed as a free plan. Pro is entitled to branding only. */
  lemma EntitlementsDisagreeOnBusiness(plan: Option<string>)
    ensures IsBusiness(plan) ==> IsPro(plan) && !ShownAsPro(plan)
    ensures ShownAsPro(plan) <==> IsPro(plan) && !IsBusiness(plan)
    ensures !IsPro(None) && !ShownAsPro(None) && !IsBusiness(None)
  {
  }
}
