/** The dashboard (src/pages/DashboardPage.tsx): choosing the currency tab once the
    statistics arrive, what the metric cards show for a single currency and for all, and
    forgetting a quote's unread-message notice. Number formatting is a parameter. */
module Dashboard {
  import opened Wrappers
  import opened Domain
  import opened SeqOps
  import Utils

  /** The currency filter sent to the statistics request: none for `all` or before a tab is
      chosen. */
  function RequestCurrency(currency: Option<string>): (r: Option<string>)
    ensures r.None? <==> currency.None? || currency == Some("all")
    ensures r.Some? ==> r == currency
  {
    if currency.None? || currency == Some("all") then None else currency
  }

  /** The tab after the resolution effect. It acts only when the statistics are loaded and no
      tab is chosen yet: a single used currency is chosen outright; among several the
      profile's default wins if it is one of them; otherwise `all`. */
  function Resolve(statsLoaded: bool, currency: Option<string>, used: Option<seq<string>>,
                   profileDefault: Option<string>): (r: Option<string>)
    ensures !statsLoaded || currency.Some? ==> r == currency
    ensures statsLoaded ==> r.Some?
    ensures statsLoaded && currency.None? ==>
      var u := used.GetOr([]);
      && (r.value == "all" || r.value in u)
      && (|u| == 1 ==> r.value == u[0])
      && (|u| == 0 ==> r.value == "all")
      && (|u| > 1 && TruthyOpt(profileDefault) && profileDefault.value in u ==> r.value == profileDefault.value)
      && (|u| > 1 && !(TruthyOpt(profileDefault) && profileDefault.value in u) ==> r.value == "all")
  {
    if !statsLoaded || currency.Some? then currency
    else
      var u := used.GetOr([]);
      if |u| == 1 then Some(u[0])
      else if |u| > 1 then
        Some(if TruthyOpt(profileDefault) && profileDefault.value in u then profileDefault.value else "all")
      else Some("all")
  }

  /** Once loaded statistics have chosen a tab, running the effect again changes nothing. */
  lemma ResolveSettles(currency: Option<string>, used: Option<seq<string>>, d: Option<string>)
    ensures var c := Resolve(true, currency, used, d);
      Resolve(true, c, used, d) == c
  {
  }

  /** `isAll`: no tab chosen, or the `all` tab. */
  predicate IsAll(currency: Option<string>) {
    currency.None? || currency == Some("all")
  }

  /** `displayCurrency`: the chosen single currency, absent exactly when `isAll`. */
  function DisplayCurrency(currency: Option<string>): (r: Option<string>)
    ensures r.None? <==> IsAll(currency)
    ensures r.Some? ==> r == currency
  {
    if IsAll(currency) then None else currency
  }

  /** The request filter and the display currency are the same thing. */
  lemma RequestMatchesDisplay(currency: Option<string>)
    ensures RequestCurrency(currency) == DisplayCurrency(currency)
  {
  }

  /** Currency tabs show only when more than one currency has been used. */
  predicate ShowTabs(used: Option<seq<string>>) {
    |used.GetOr([])| > 1
  }

  /** Without tabs there is nothing to switch to: the resolved tab is the one used currency,
      or `all` when none has been used. */
  lemma NoTabsMeansNoChoice(used: Option<seq<string>>, d: Option<string>)
    requires !ShowTabs(used)
    ensures var u := used.GetOr([]);
      Resolve(true, None, used, d) == Some(if |u| == 1 then u[0] else "all")
  {
  }

  /** The change line: an up arrow for a non-negative percentage, a down arrow otherwise,
      then the magnitude as `show` renders it. */
  function ChangeLabel(pct: real, show: real -> string): (r: string)
    ensures |r| > 1 && r[0] == (if pct >= 0.0 then '↑' else '↓')
    ensures r[1..] == " " + show(if pct < 0.0 then -pct else pct) + "% vs last month"
  {
    [if pct >= 0.0 then '↑' else '↓'] + " " + show(if pct < 0.0 then -pct else pct) + "% vs last month"
  }

  /** A change and its opposite read the same apart from the arrow, and the arrows differ
      unless the change is zero. */
  lemma OppositeChanges(pct: real, show: real -> string)
    ensures ChangeLabel(pct, show)[1..] == ChangeLabel(-pct, show)[1..]
    ensures ChangeLabel(pct, show)[0] == ChangeLabel(-pct, show)[0] <==> pct == 0.0
  {
  }

  /** The two money cards: placeholders across all currencies, formatted amounts (by `show`)
      in the chosen one. */
  function MoneyCards(currency: Option<string>, total: Option<real>, average: Option<real>,
                      show: real -> string): (r: (string, string))
    ensures IsAll(currency) ==> r == ("— (mixed)", "—")
    ensures !IsAll(currency) ==>
      r == (Utils.FormatCurrency(show(total.GetOr(0.0)), currency), Utils.FormatCurrency(show(average.GetOr(0.0)), currency))
  {
    var d := DisplayCurrency(currency);
    if IsAll(currency) then ("— (mixed)", "—")
    else (Utils.FormatCurrency(show(total.GetOr(0.0)), Some(d.GetOr("JMD"))),
          Utils.FormatCurrency(show(average.GetOr(0.0)), Some(d.GetOr("JMD"))))
  }

  /** The card titles name the chosen currency when it is a non-empty one. */
  function TotalTitle(currency: Option<string>): (r: string)
    ensures TruthyOpt(DisplayCurrency(currency)) ==> r == "Total Quoted (" + currency.value + ")"
    ensures !TruthyOpt(DisplayCurrency(currency)) ==> r == "Total Quoted"
  {
    var d := DisplayCurrency(currency);
    if TruthyOpt(d) then "Total Quoted (" + d.value + ")" else "Total Quoted"
  }

  /** The identity on ids, the key notice ids are removed by. */
  function Same(id: string): string { id }

  /** The stored notice ids after the preview's notes are read: every copy of the previewed
      quote's id goes, the others stay in order. Without a previewed id nothing changes.
      The page hands this callback to the preview modal as `onNotesRead`, but the modal
      neither declares nor calls that prop, so in the application it never runs. */
  function NotesRead(notified: seq<string>, previewId: Option<string>): (r: seq<string>)
    ensures !TruthyOpt(previewId) ==> r == notified
    ensures TruthyOpt(previewId) ==>
      && previewId.value !in r
      && IsSubsequence(r, notified)
      && (forall id :: id in r <==> id in notified && id != previewId.value)
  {
    if TruthyOpt(previewId) then RemoveKey(notified, Same, previewId.value) else notified
  }

  /** Reading notes again for the same quote changes nothing more. */
  lemma NotesReadIdempotent(notified: seq<string>, previewId: Option<string>)
    ensures NotesRead(NotesRead(notified, previewId), previewId) == NotesRead(notified, previewId)
  {
    if TruthyOpt(previewId) {
      var r := NotesRead(notified, previewId);
      RemoveAbsentKey(r, Same, previewId.value);
    }
  }
}
