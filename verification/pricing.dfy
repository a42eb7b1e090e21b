/** The pricing page (src/pages/PricingPage.tsx): the three plan cards, their price text in
    monthly and annual mode, and where a plan button leads. */
module Pricing {
  import opened Wrappers
  import Decimal
  import Api
  import UrlEncoding
  import Settings

  /** One card of `PLANS`; prices are whole dollars per month. */
  datatype PlanCard = PlanCard(tier: string, monthly: nat, annual: nat, featured: bool)

  /** `PLANS`, in page order. */
  const Plans: seq<PlanCard> := [
    PlanCard("Free", 0, 0, false),
    PlanCard("Pro", 15, 12, true),
    PlanCard("Business", 39, 32, false)
  ]

  /** The billing toggle. */
  datatype Cycle = Monthly | Annual

  /** The price line: "Free" for a free plan, else "$" and the per-month figure of the cycle. */
  function PriceText(p: PlanCard, c: Cycle): (r: string)
    ensures r == "Free" <==> p.monthly == 0
    ensures p.monthly > 0 ==> (|r| > 1 && r[0] == '$'
      && r[1..] == Decimal.Show(if c.Monthly? then p.monthly else p.annual))
  {
    if p.monthly == 0 then "Free"
    else
      var n := if c.Monthly? then p.monthly else p.annual;
      Decimal.ShowInjective(n, n);
      assert ("$" + Decimal.Show(n))[0] == '$';
      "$" + Decimal.Show(n)
  }

  /** The toggle changes a card's price text exactly when the plan is paid and its annual
      rate differs from its monthly one. */
  lemma CycleChangesPrice(p: PlanCard)
    ensures PriceText(p, Monthly) != PriceText(p, Annual) <==> p.monthly > 0 && p.monthly != p.annual
  {
    if p.monthly > 0 {
      var a, b := PriceText(p, Monthly), PriceText(p, Annual);
      assert a == b ==> a[1..] == b[1..];
      Decimal.ShowInjective(p.monthly, p.annual);
    }
  }

  /** The line under the price: only for paid plans, mentioning annual billing in annual mode. */
  function Suffix(p: PlanCard, c: Cycle): (r: Option<string>)
    ensures r.Some? <==> p.monthly > 0
    ensures r.Some? ==> |r.value| >= 6 && r.value[..6] == "/month" && (|r.value| > 6 <==> c.Annual?)
  {
    if p.monthly > 0 then Some("/month" + (if c.Annual? then ", billed annually" else "")) else None
  }

  /** The card's button: the free plan is "started", a paid one is "got" by name. */
  function ButtonText(p: PlanCard): (r: string)
    ensures p.monthly == 0 ==> r == "Get Started Free"
    ensures p.monthly > 0 ==> |r| >= 4 && r[..4] == "Get " && r[4..] == p.tier
  {
    if p.monthly == 0 then "Get Started Free" else "Get " + p.tier
  }

  /** The billing settings route a paid plan's button opens. */
  const BillingRoute: string := "/app/settings?panel=billing"

  /** `handlePlanClick`. Sign-in is unknown (`null`) until the check returns, and unknown
      counts as signed out. */
  function PlanClick(isLoggedIn: Option<bool>, tier: string): (r: string)
    ensures isLoggedIn != Some(true) ==> r == "/login"
    ensures isLoggedIn == Some(true) ==> (r == "/app" <==> tier == "Free")
    ensures isLoggedIn == Some(true) && tier != "Free" ==> r == BillingRoute
  {
    if isLoggedIn == Some(true) then (if tier == "Free" then "/app" else BillingRoute) else "/login"
  }

  /** Every listed paid plan costs less per month when billed annually, and its price text
      differs between the two modes; the free plan reads "Free" in both. */
  lemma AnnualIsCheaper(i: int)
    requires 0 <= i < |Plans|
    ensures Plans[i].annual <= Plans[i].monthly
    ensures Plans[i].monthly > 0 ==> Plans[i].annual < Plans[i].monthly
    ensures Plans[i].monthly > 0 ==> PriceText(Plans[i], Monthly) != PriceText(Plans[i], Annual)
    ensures Plans[i].monthly == 0 ==> PriceText(Plans[i], Monthly) == PriceText(Plans[i], Annual) == "Free"
  {
    CycleChangesPrice(Plans[i]);
  }

  /** The three cards' buttons read differently. */
  lemma ButtonsDistinct(i: int, j: int)
    requires 0 <= i < j < |Plans|
    ensures ButtonText(Plans[i]) != ButtonText(Plans[j])
  {
  }

  /** `panel=billing` reads back as the single pair it encodes. */
  lemma BillingQuery()
    ensures Api.ParseQuery("panel=billing") == [("panel", "billing")]
  {
    assert UrlEncoding.Alphanumeric("panel") && UrlEncoding.Alphanumeric("billing");
    Api.SinglePairQuery("panel", "billing");
    assert "panel" + "=" + "billing" == "panel=billing";
  }

  /** The billing route's query string reads back as `panel=billing`, a panel the settings
      page accepts, so a signed-in click on a paid plan lands on the billing panel. */
  lemma PaidClickOpensBilling(tier: string, current: string)
    requires tier != "Free"
    ensures var r := PlanClick(Some(true), tier);
      r[..13] == "/app/settings" && r[13] == '?'
      && Api.ParseQuery(r[14..]) == [("panel", "billing")]
      && Settings.ApplyPanelParam(current, Some(Api.ParseQuery(r[14..])[0].1)) == "billing"
  {
    assert BillingRoute[14..] == "panel=billing";
    BillingQuery();
  }
}
