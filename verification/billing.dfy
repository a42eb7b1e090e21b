/** The billing panel (src/components/settings/BillingPanel.tsx): the current-plan card and
    the upgrade box, all driven by whether the plan is exactly `pro`. */
module Billing {
  import opened Wrappers
  import opened Plans
  import AppShell
  import Decimal

  /** What the current-plan card and the box below it show. */
  datatype Card = Card(heading: string, usage: string, chips: seq<string>, upgradeBox: bool)

  const ProUsage: string := "Unlimited quotes · Full features"
  const ProChips: seq<string> := ["Unlimited quotes", "Priority support", "Custom branding"]
  const FreeChips: seq<string> := ["3 quotes/month", "Basic templates", "WhatsApp sharing"]

  /** The usage line of a non-pro plan. */
  function FreeUsage(used: int): string {
    "You've used " + Decimal.Show(used) + " of " + Decimal.Show(FreeLimit) + " quotes this month · No credit card required"
  }

  /** The panel for a profile plan and the dashboard's monthly quote count. Every part of
      it follows the one test `plan === 'pro'`. */
  function View(plan: Option<string>, quotesCreated: Option<int>): (r: Card)
    ensures r.heading == "Pro" <==> ShownAsPro(plan)
    ensures r.heading == "Free" <==> !ShownAsPro(plan)
    ensures r.upgradeBox <==> !ShownAsPro(plan)
    ensures r.chips == (if ShownAsPro(plan) then ProChips else FreeChips)
    ensures r.usage == ProUsage <==> ShownAsPro(plan)
    ensures !ShownAsPro(plan) ==> r.usage == FreeUsage(quotesCreated.GetOr(0))
  {
    var pro := EffectivePlan(plan) == "pro";
    assert FreeUsage(quotesCreated.GetOr(0))[..4] == "You'";
    Card(
      if pro then "Pro" else "Free",
      if pro then ProUsage else FreeUsage(quotesCreated.GetOr(0)),
      if pro then ProChips else FreeChips,
      !pro)
  }

  /** The billing heading and the shell's plan label always agree on whether the plan is Pro. */
  lemma HeadingAgreesWithShell(plan: Option<string>, quotesCreated: Option<int>)
    ensures View(plan, quotesCreated).heading == "Pro" <==> AppShell.PlanLabel(plan, quotesCreated) == "Pro"
  {
  }

  /** A business subscriber, entitled to branding, API keys and teams, is nevertheless shown
      the free card, the free usage line and the upgrade box. */
  lemma BusinessSeesFreeCard(quotesCreated: Option<int>)
    ensures IsPro(Some("business")) && IsBusiness(Some("business"))
    ensures View(Some("business"), quotesCreated) ==
      Card("Free", FreeUsage(quotesCreated.GetOr(0)), FreeChips, true)
  {
  }
}
