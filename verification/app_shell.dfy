/** The application shell (src/components/layout/AppShell.tsx): the plan label in the sidebar
    footer, the user name shown beside it, and which navigation item is highlighted. */
module AppShell {
  import opened Wrappers
  import opened Domain
  import opened Text
  import opened Plans
  import Decimal

  /** The words around the usage count in a free plan's label. */
  const FreeLabelStart: string := "Free Plan — "
  const FreeLabelEnd: string := "/3 quotes"

  /** `planLabel`, from the profile's plan and the dashboard's monthly quote count (0 when
      the statistics are not loaded). */
  function PlanLabel(plan: Option<string>, quotesCreated: Option<int>): (r: string)
    ensures r == "Pro" <==> ShownAsPro(plan)
    ensures !ShownAsPro(plan) ==>
      |r| > |FreeLabelStart| + |FreeLabelEnd|
      && r[..|FreeLabelStart|] == FreeLabelStart
      && r[|r| - |FreeLabelEnd|..] == FreeLabelEnd
      && r[|FreeLabelStart|..|r| - |FreeLabelEnd|] == Decimal.Show(quotesCreated.GetOr(0))
  {
    if EffectivePlan(plan) == "pro" then "Pro"
    else
      Decimal.ShowInjective(0, quotesCreated.GetOr(0));
      FreeLabelStart + Decimal.Show(quotesCreated.GetOr(0)) + FreeLabelEnd
  }

  /** A free label tells the count back: two counts give the same label only if they are
      the same count, and a missing count reads as zero. */
  lemma {:induction false} PlanLabelShowsUsage(plan: Option<string>, m: int, n: int)
    requires !ShownAsPro(plan)
    ensures PlanLabel(plan, Some(m)) == PlanLabel(plan, Some(n)) ==> m == n
    ensures PlanLabel(plan, None) == PlanLabel(plan, Some(0))
  {
    var a, b := PlanLabel(plan, Some(m)), PlanLabel(plan, Some(n));
    if a == b {
      assert a[|FreeLabelStart|..|a| - |FreeLabelEnd|] == b[|FreeLabelStart|..|b| - |FreeLabelEnd|];
      Decimal.ShowInjective(m, n);
    }
  }

  /** `user.email.split('@')[0]` for a signed-in user with an email; absent otherwise. */
  function EmailLocalPart(email: Option<string>): (r: Option<string>)
    ensures r.Some? <==> email.Some?
    ensures r.Some? ==> '@' !in r.value && |r.value| <= |email.value|
    ensures r.Some? ==> r.value == email.value[..|r.value|]
    ensures r.Some? && |r.value| < |email.value| ==> email.value[|r.value|] == '@'
  {
    match email
    case None => None
    case Some(e) =>
      SplitFirst(e, '@');
      Some(Split(e, '@')[0])
  }

  /** `a || b` on optional strings: `a` when it is a non-empty string, else `b`. */
  function OrElse(a: Option<string>, b: string): string {
    if TruthyOpt(a) then a.value else b
  }

  /** The name beside the avatar: the first non-empty one of the account's full name, its
      name, the profile's business name and the email's local part, else "Account". */
  function DisplayName(fullName: Option<string>, name: Option<string>, businessName: Option<string>,
                       email: Option<string>): (r: string)
    ensures |r| > 0
    ensures TruthyOpt(fullName) ==> r == fullName.value
    ensures !TruthyOpt(fullName) && TruthyOpt(name) ==> r == name.value
    ensures !TruthyOpt(fullName) && !TruthyOpt(name) && TruthyOpt(businessName) ==> r == businessName.value
    ensures !TruthyOpt(fullName) && !TruthyOpt(name) && !TruthyOpt(businessName) ==>
      r == (if TruthyOpt(EmailLocalPart(email)) then EmailLocalPart(email).value else "Account")
    ensures r == "Account" || r in [fullName.GetOr(""), name.GetOr(""), businessName.GetOr(""),
                                    EmailLocalPart(email).GetOr("")]
  {
    OrElse(fullName, OrElse(name, OrElse(businessName, OrElse(EmailLocalPart(email), "Account"))))
  }

  /** An email whose local part is non-empty names the user when no other name is set; one
      that starts with '@' does not, and the fallback "Account" is shown. */
  lemma EmailNamesUser(local: string, domain: string)
    requires '@' !in local
    ensures local != "" ==> DisplayName(None, None, None, Some(local + "@" + domain)) == local
    ensures local == "" ==> DisplayName(None, None, None, Some(local + "@" + domain)) == "Account"
  {
    var e := local + "@" + domain;
    assert e[..|local|] == local;
    FindAt(e, '@', |local|);
    SplitFirst(e, '@');
  }

  /** One entry of `NAV_ITEMS`. */
  datatype NavItem = NavItem(path: string, title: string)

  /** `NAV_ITEMS`, in sidebar order. */
  const NavItems: seq<NavItem> := [
    NavItem("/app", "Dashboard"),
    NavItem("/app/quotes", "Quotes"),
    NavItem("/app/create", "New Quote"),
    NavItem("/app/clients", "Clients"),
    NavItem("/app/settings", "Settings")
  ]

  /** The class of a navigation item for the current location. */
  function NavClass(pathname: string, item: NavItem): (r: string)
    ensures r == "nav-item active" <==> pathname == item.path
    ensures r == "nav-item" <==> pathname != item.path
  {
    "nav-item" + (if pathname == item.path then " active" else "")
  }

  /** Highlighting is by exact match, so at most one item is ever active, none on a nested
      page such as a quote's own path, and exactly one on a listed path. */
  lemma AtMostOneActive(pathname: string, i: int, j: int)
    requires 0 <= i < |NavItems| && 0 <= j < |NavItems|
    ensures (NavClass(pathname, NavItems[i]) == "nav-item active" &&
             NavClass(pathname, NavItems[j]) == "nav-item active") ==> i == j
    ensures NavClass("/app/quotes/1", NavItems[i]) == "nav-item"
  {
  }
}
