/** The client's view of a shared quote (src/pages/PublicQuotePage.tsx): the expiry banner
    chosen from the whole number of days left, the accept handler with its signature
    guard and its reconciliation after a failed call, and the three footer branches.
    The day count itself (calendar arithmetic on `expires_at`) is an input. */
module PublicQuote {
  import opened Wrappers
  import opened Domain
  import opened Text
  import Decimal

  /** `isExpired`. */
  predicate IsExpired(daysRemaining: int) {
    daysRemaining < 0
  }

  /** The banner styles, in the order the source tests them. */
  datatype Tier = Neutral | Amber | Red | RedToday | Past

  /** The tier `expiryBanner` selects, `None` standing for its final `return null`.
      The tests leave no gap: every whole number lands in exactly one tier. */
  function ExpiryTier(daysRemaining: int): (r: Option<Tier>)
    ensures r.Some?
    ensures r == Some(Neutral) <==> daysRemaining > 7
    ensures r == Some(Amber) <==> 3 <= daysRemaining <= 7
    ensures r == Some(Red) <==> daysRemaining == 1 || daysRemaining == 2
    ensures r == Some(RedToday) <==> daysRemaining == 0
    ensures r == Some(Past) <==> IsExpired(daysRemaining)
  {
    if daysRemaining > 7 then Some(Neutral)
    else if daysRemaining >= 3 && daysRemaining <= 7 then Some(Amber)
    else if daysRemaining == 1 || daysRemaining == 2 then Some(Red)
    else if daysRemaining == 0 then Some(RedToday)
    else if IsExpired(daysRemaining) then Some(Past)
    else None
  }

  /** Every day count has a banner, so the final `return null` is never reached, and a
      later day count never gets a more urgent tier than an earlier one. */
  lemma TiersOrdered(d1: int, d2: int)
    requires d1 <= d2
    ensures ExpiryTier(d1).Some? && ExpiryTier(d2).Some?
    ensures Urgency(ExpiryTier(d2).value) <= Urgency(ExpiryTier(d1).value)
  {
  }

  /** How pressing a tier is: neutral 0 up to expired 4. */
  function Urgency(t: Tier): nat {
    match t
    case Neutral => 0
    case Amber => 1
    case Red => 2
    case RedToday => 3
    case Past => 4
  }

  /** The banner's CSS class and text. */
  datatype Banner = Banner(cls: string, text: string)

  /** "tomorrow" for one day, "in N days" otherwise. */
  function RedWhen(daysRemaining: int): (r: string)
    ensures r == "tomorrow" <==> daysRemaining == 1
    ensures daysRemaining != 1 ==> r == "in " + Decimal.Show(daysRemaining) + " days"
  {
    if daysRemaining == 1 then "tomorrow" else "in " + Decimal.Show(daysRemaining) + " days"
  }

  /** `expiryBanner()` for a quote valid `validityDays` days whose expiry date reads
      `expDate`. */
  function ExpiryBanner(daysRemaining: int, validityDays: int, expDate: string): (r: Option<Banner>)
    ensures r.Some? <==> ExpiryTier(daysRemaining).Some?
    ensures r.Some? ==> r.value.cls == TierClass(ExpiryTier(daysRemaining).value)
    ensures ExpiryTier(daysRemaining) == Some(Neutral) ==>
      r.value.text == "Valid for " + Decimal.Show(validityDays) + " days · Expires " + expDate
    ensures ExpiryTier(daysRemaining) == Some(Amber) ==>
      r.value.text == "⏱ Expires in " + Decimal.Show(daysRemaining) + " days — " + expDate
    ensures ExpiryTier(daysRemaining) == Some(RedToday) ==> r.value.text == "⚠ Expires today — accept now"
    ensures ExpiryTier(daysRemaining) == Some(Red) ==>
      r.value.text == "⚠ Expires " + RedWhen(daysRemaining) + " — accept today"
    ensures IsExpired(daysRemaining) ==> r.value.text == "Expired on " + expDate
  {
    var days := Decimal.Show(daysRemaining);
    if daysRemaining > 7 then
      Some(Banner("expiry-banner expiry-neutral",
        "Valid for " + Decimal.Show(validityDays) + " days · Expires " + expDate))
    else if daysRemaining >= 3 && daysRemaining <= 7 then
      Some(Banner("expiry-banner expiry-amber", "⏱ Expires in " + days + " days — " + expDate))
    else if daysRemaining == 1 || daysRemaining == 2 then
      Some(Banner("expiry-banner expiry-red", "⚠ Expires " + RedWhen(daysRemaining) + " — accept today"))
    else if daysRemaining == 0 then
      Some(Banner("expiry-banner expiry-red", "⚠ Expires today — accept now"))
    else if IsExpired(daysRemaining) then
      Some(Banner("expiry-banner expiry-expired", "Expired on " + expDate))
    else None
  }

  /** The class each tier is drawn with; the two red tiers share one. */
  function TierClass(t: Tier): string {
    match t
    case Neutral => "expiry-banner expiry-neutral"
    case Amber => "expiry-banner expiry-amber"
    case Red => "expiry-banner expiry-red"
    case RedToday => "expiry-banner expiry-red"
    case Past => "expiry-banner expiry-expired"
  }

  /** The page state `handleAccept` reads and writes. */
  datatype Page = Page(quote: Option<Quote>, accepted: bool, accepting: bool, signatureName: string)

  /** The guard at the top of `handleAccept`: a signature is required and none is typed. */
  predicate SignatureMissing(p: Page) {
    p.quote.Some? && p.quote.value.requireSignature && IsBlank(p.signatureName)
  }

  /** `signatureName.trim() || undefined`. */
  function SignatureSent(signatureName: string): (r: Option<string>)
    ensures r.None? <==> IsBlank(signatureName)
    ensures r.Some? ==> r.value == Trim(signatureName) && !IsBlank(r.value)
  {
    TrimIdempotent(signatureName);
    if Trim(signatureName) != "" then Some(Trim(signatureName)) else None
  }

  /** What the user is told. */
  datatype Notice = Silent | SignaturePrompt | AcceptedToast | CouldNotAccept {
    function Text(): string {
      match this
      case Silent => ""
      case SignaturePrompt => "Please type your full name to sign and accept this quote."
      case AcceptedToast => "\U{1F389} Quote accepted! The freelancer has been notified."
      case CouldNotAccept => "Could not accept quote. It may have already been accepted or expired."
    }
  }

  /** The `acceptQuote` request: the share token and the optional signature. */
  datatype AcceptCall = AcceptCall(token: string, signature: Option<string>)

  /** The result of one `handleAccept` run: the new state, the accept request if one was
      made, whether the quote was fetched again, and the notice shown. */
  datatype AcceptRun = AcceptRun(page: Page, call: Option<AcceptCall>, refetched: bool, notice: Notice)

  /** The optimistic update after a successful accept call. */
  function MarkAccepted(q: Quote, signatureName: string): (r: Quote)
    ensures r.status == Accepted
    ensures r.acceptedByName == (if IsBlank(signatureName) then q.acceptedByName else Some(Trim(signatureName)))
    ensures r.(status := q.status, acceptedByName := q.acceptedByName) == q
  {
    q.(status := Accepted, acceptedByName := if Trim(signatureName) != "" then Some(Trim(signatureName)) else q.acceptedByName)
  }

  /** `handleAccept`, with the outcome of the accept call and of the re-fetch as inputs
      (the re-fetch outcome is read only when the accept call fails). */
  function HandleAccept(p: Page, token: Option<string>, accept: Result<(), Thrown>, refetch: Result<Quote, Thrown>): (r: AcceptRun)
    ensures r.call.None? <==> !TruthyOpt(token) || SignatureMissing(p)
    ensures r.call.None? ==> r.page == p && !r.refetched
    ensures r.call.None? ==> r.notice == (if TruthyOpt(token) then SignaturePrompt else Silent)
    ensures r.call.Some? ==> r.call.value == AcceptCall(token.value, SignatureSent(p.signatureName))
    ensures r.call.Some? ==> !r.page.accepting
    ensures r.refetched <==> r.call.Some? && accept.Failure?
    ensures r.page.signatureName == p.signatureName
    ensures r.call.Some? ==>
      (r.page.accepted <==> p.accepted || accept.Success? || (refetch.Success? && refetch.value.status == Accepted))
    ensures r.call.Some? && accept.Success? ==> r.page.quote == (if p.quote.Some? then Some(MarkAccepted(p.quote.value, p.signatureName)) else None)
    ensures r.call.Some? && accept.Failure? && refetch.Success? && refetch.value.status == Accepted ==> r.page.quote == Some(refetch.value)
    ensures r.notice == AcceptedToast <==> r.call.Some? && (accept.Success? || (refetch.Success? && refetch.value.status == Accepted))
    ensures r.notice == CouldNotAccept ==> r.page == p.(accepting := false)
  {
    if !TruthyOpt(token) then AcceptRun(p, None, false, Silent)
    else if SignatureMissing(p) then AcceptRun(p, None, false, SignaturePrompt)
    else
      var call := AcceptCall(token.value, SignatureSent(p.signatureName));
      if accept.Success? then
        var q := if p.quote.Some? then Some(MarkAccepted(p.quote.value, p.signatureName)) else None;
        AcceptRun(p.(accepted := true, quote := q, accepting := false), Some(call), false, AcceptedToast)
      else if refetch.Success? && refetch.value.status == Accepted then
        AcceptRun(p.(accepted := true, quote := Some(refetch.value), accepting := false), Some(call), true, AcceptedToast)
      else
        AcceptRun(p.(accepting := false), Some(call), true, CouldNotAccept)
  }

  /** The accept button is disabled while a call is running or a required signature is
      blank. */
  predicate AcceptDisabled(p: Page) {
    p.accepting || SignatureMissing(p)
  }

  /** A click the button would refuse is refused by the handler too: with a quote loaded,
      a blank required signature makes no request whatever the button's state. */
  lemma DisabledForSignatureMeansNoCall(p: Page, token: Option<string>, accept: Result<(), Thrown>, refetch: Result<Quote, Thrown>)
    requires AcceptDisabled(p) && !p.accepting
    ensures HandleAccept(p, token, accept, refetch).call.None?
    ensures HandleAccept(p, token, accept, refetch).page == p
  {
  }

  /** The three footer branches. */
  datatype Footer = AcceptControls | ExpiredBox | AcceptedBlock

  predicate ShowsAcceptControls(accepted: bool, status: QuoteStatus, daysRemaining: int) {
    !accepted && status != Accepted && !IsExpired(daysRemaining)
  }

  predicate ShowsExpiredBox(accepted: bool, status: QuoteStatus, daysRemaining: int) {
    IsExpired(daysRemaining) && !accepted && status != Accepted
  }

  predicate ShowsAcceptedBlock(accepted: bool, status: QuoteStatus) {
    accepted || status == Accepted
  }

  /** The footer branch that renders: exactly one of the three conditions holds. */
  function FooterBranch(accepted: bool, status: QuoteStatus, daysRemaining: int): (r: Footer)
    ensures r == AcceptControls <==> ShowsAcceptControls(accepted, status, daysRemaining)
    ensures r == ExpiredBox <==> ShowsExpiredBox(accepted, status, daysRemaining)
    ensures r == AcceptedBlock <==> ShowsAcceptedBlock(accepted, status)
  {
    if ShowsAcceptedBlock(accepted, status) then AcceptedBlock
    else if IsExpired(daysRemaining) then ExpiredBox
    else AcceptControls
  }

  /** The three conditions are mutually exclusive and jointly exhaustive. */
  lemma ExactlyOneFooter(accepted: bool, status: QuoteStatus, daysRemaining: int)
    ensures ShowsAcceptControls(accepted, status, daysRemaining)
      || ShowsExpiredBox(accepted, status, daysRemaining)
      || ShowsAcceptedBlock(accepted, status)
    ensures !(ShowsAcceptControls(accepted, status, daysRemaining) && ShowsExpiredBox(accepted, status, daysRemaining))
    ensures !(ShowsAcceptControls(accepted, status, daysRemaining) && ShowsAcceptedBlock(accepted, status))
    ensures !(ShowsExpiredBox(accepted, status, daysRemaining) && ShowsAcceptedBlock(accepted, status))
  {
  }

  /** The footer after a run of `handleAccept` that the server confirmed (directly or on
      re-fetch) is the accepted block, whatever the expiry. */
  lemma ConfirmedAcceptShowsAcceptedBlock(p: Page, token: Option<string>, accept: Result<(), Thrown>,
                                          refetch: Result<Quote, Thrown>, daysRemaining: int)
    requires p.quote.Some?
    requires HandleAccept(p, token, accept, refetch).notice == AcceptedToast
    ensures var r := HandleAccept(p, token, accept, refetch);
      r.page.quote.Some? &&
      FooterBranch(r.page.accepted, r.page.quote.value.status, daysRemaining) == AcceptedBlock
  {
  }

  /** A failed accept whose re-fetch does not show the quote accepted leaves the footer
      where it was. */
  lemma FailedAcceptKeepsFooter(p: Page, token: Option<string>, accept: Result<(), Thrown>,
                                refetch: Result<Quote, Thrown>, daysRemaining: int)
    requires p.quote.Some?
    requires HandleAccept(p, token, accept, refetch).notice == CouldNotAccept
    ensures var r := HandleAccept(p, token, accept, refetch);
      r.page.quote == p.quote &&
      FooterBranch(r.page.accepted, r.page.quote.value.status, daysRemaining)
        == FooterBranch(p.accepted, p.quote.value.status, daysRemaining)
  {
  }

  /** The "Signed by" line of the accepted block: shown when the signer's name is
      non-empty. */
  function SignedByLine(q: Quote): (r: Option<string>)
    ensures r.Some? <==> TruthyOpt(q.acceptedByName)
    ensures r.Some? ==> |r.value| > 10 && r.value[..10] == "Signed by " && r.value[10..] == q.acceptedByName.value
  {
    if TruthyOpt(q.acceptedByName) then Some("Signed by " + q.acceptedByName.value) else None
  }

  /** After a confirmed accept with a typed signature, the accepted block names the signer. */
  lemma SignerShownAfterAccept(p: Page, token: Option<string>, refetch: Result<Quote, Thrown>)
    requires TruthyOpt(token) && p.quote.Some? && !IsBlank(p.signatureName)
    ensures var r := HandleAccept(p, token, Success(()), refetch);
      SignedByLine(r.page.quote.value) == Some("Signed by " + Trim(p.signatureName))
  {
  }
}
