/** The quote builder (src/pages/CreateQuotePage.tsx): a four-step wizard over a form
    and its line items. Only leaving step 1 is guarded; going back is always possible;
    moving between steps never alters what has been entered. Submission sends the form
    with the items and sorts failures into "quota reached" and everything else. */
module CreateQuote {
  import opened Wrappers
  import opened Domain
  import Api
  import LineItems

  /** `FormState`. */
  datatype Form = Form(
    clientId: string, title: string, currency: string, validityDays: int,
    notes: string, deposit: string, paymentMethod: string, deliveryTimeline: string,
    revisions: string, taxExempt: bool, taxRate: real,
    requireSignature: bool, trackViews: bool, sendReminder: bool)

  /** The keys of `FormState`. */
  datatype Field =
    | ClientId | Title | Currency | ValidityDays | Notes | Deposit | PaymentMethod
    | DeliveryTimeline | Revisions | TaxExempt | TaxRate | RequireSignature
    | TrackViews | SendReminder

  /** A field value, tagged by its type. */
  datatype Value = Text(s: string) | Whole(n: int) | Amount(x: real) | Flag(b: bool)

  /** The type `FormState[K]` demands of key `K`. */
  predicate Fits(k: Field, v: Value) {
    match k
    case ValidityDays => v.Whole?
    case TaxRate => v.Amount?
    case TaxExempt | RequireSignature | TrackViews | SendReminder => v.Flag?
    case _ => v.Text?
  }

  /** `form[key]`. */
  function Get(f: Form, k: Field): (r: Value)
    ensures Fits(k, r)
  {
    match k
    case ClientId => Text(f.clientId)
    case Title => Text(f.title)
    case Currency => Text(f.currency)
    case ValidityDays => Whole(f.validityDays)
    case Notes => Text(f.notes)
    case Deposit => Text(f.deposit)
    case PaymentMethod => Text(f.paymentMethod)
    case DeliveryTimeline => Text(f.deliveryTimeline)
    case Revisions => Text(f.revisions)
    case TaxExempt => Flag(f.taxExempt)
    case TaxRate => Amount(f.taxRate)
    case RequireSignature => Flag(f.requireSignature)
    case TrackViews => Flag(f.trackViews)
    case SendReminder => Flag(f.sendReminder)
  }

  /** `set(key, val)`: `{ ...prev, [key]: val }`. */
  function Set(f: Form, k: Field, v: Value): (r: Form)
    requires Fits(k, v)
    ensures Get(r, k) == v
    ensures forall other :: other != k ==> Get(r, other) == Get(f, other)
  {
    match k
    case ClientId => f.(clientId := v.s)
    case Title => f.(title := v.s)
    case Currency => f.(currency := v.s)
    case ValidityDays => f.(validityDays := v.n)
    case Notes => f.(notes := v.s)
    case Deposit => f.(deposit := v.s)
    case PaymentMethod => f.(paymentMethod := v.s)
    case DeliveryTimeline => f.(deliveryTimeline := v.s)
    case Revisions => f.(revisions := v.s)
    case TaxExempt => f.(taxExempt := v.b)
    case TaxRate => f.(taxRate := v.x)
    case RequireSignature => f.(requireSignature := v.b)
    case TrackViews => f.(trackViews := v.b)
    case SendReminder => f.(sendReminder := v.b)
  }

  /** Two forms that agree on every field are the same form. */
  lemma FieldsDetermineForm(f: Form, g: Form)
    requires forall k :: Get(f, k) == Get(g, k)
    ensures f == g
  {
    assert Get(f, ClientId) == Get(g, ClientId);
    assert Get(f, Title) == Get(g, Title);
    assert Get(f, Currency) == Get(g, Currency);
    assert Get(f, ValidityDays) == Get(g, ValidityDays);
    assert Get(f, Notes) == Get(g, Notes);
    assert Get(f, Deposit) == Get(g, Deposit);
    assert Get(f, PaymentMethod) == Get(g, PaymentMethod);
    assert Get(f, DeliveryTimeline) == Get(g, DeliveryTimeline);
    assert Get(f, Revisions) == Get(g, Revisions);
    assert Get(f, TaxExempt) == Get(g, TaxExempt);
    assert Get(f, TaxRate) == Get(g, TaxRate);
    assert Get(f, RequireSignature) == Get(g, RequireSignature);
    assert Get(f, TrackViews) == Get(g, TrackViews);
    assert Get(f, SendReminder) == Get(g, SendReminder);
  }

  /** Setting a field to the value it already has changes nothing; setting it twice keeps
      only the second value. */
  lemma SetLaws(f: Form, k: Field, v: Value, w: Value)
    requires Fits(k, v) && Fits(k, w)
    ensures Set(f, k, Get(f, k)) == f
    ensures Set(Set(f, k, v), k, w) == Set(f, k, w)
  {
    SetOwnValue(f, k);
    SetTwice(f, k, v, w);
  }

  lemma SetOwnValue(f: Form, k: Field)
    ensures Set(f, k, Get(f, k)) == f
  {
    var g := Set(f, k, Get(f, k));
    forall j ensures Get(g, j) == Get(f, j) {
      if j == k {
        assert Get(g, j) == Get(f, k);
      }
    }
    FieldsDetermineForm(g, f);
  }

  lemma SetTwice(f: Form, k: Field, v: Value, w: Value)
    requires Fits(k, v) && Fits(k, w)
    ensures Set(Set(f, k, v), k, w) == Set(f, k, w)
  {
    var g := Set(Set(f, k, v), k, w);
    var h := Set(f, k, w);
    forall j ensures Get(g, j) == Get(h, j) {
      if j == k {
        assert Get(g, j) == w == Get(h, j);
      } else {
        assert Get(g, j) == Get(Set(f, k, v), j) == Get(f, j) == Get(h, j);
      }
    }
    FieldsDetermineForm(g, h);
  }

  /** The page state. */
  datatype Wizard = Wizard(step: int, form: Form, items: seq<LineItem>, loading: bool, showUpgrade: bool)

  /** The steps are numbered 1 to 4, one per entry of `STEPS`. */
  const StepCount: int := 4

  predicate Valid(w: Wizard) {
    1 <= w.step <= StepCount
  }

  /** The state the page mounts with. */
  function Initial(): (w: Wizard)
    ensures Valid(w) && w.step == 1 && w.items == [LineItems.BlankItem]
    ensures w.form.taxExempt && w.form.taxRate == 15.0 && w.form.validityDays == 14
    ensures w.form.clientId == "" && w.form.title == "" && w.form.currency == "JMD"
    ensures !w.loading && !w.showUpgrade
  {
    Wizard(1,
      Form("", "", "JMD", 14, "", "50% upfront", "Bank Transfer", "10 business days",
           "2 rounds", true, 15.0, true, true, false),
      [LineItems.BlankItem], false, false)
  }

  /** The step-1 "Next" button is enabled when a client and a title are chosen; the
      title is not trimmed, so a title of spaces passes. */
  predicate ClientStepComplete(f: Form) {
    Truthy(f.clientId) && Truthy(f.title)
  }

  /** A navigation click. */
  datatype Nav = Next | Back

  /** The step a click leads to: "Next" on steps 1 to 3 (step 1 only when complete),
      "Back" on steps 2 to 4; a click on a missing or disabled button leaves the step. */
  function Navigate(w: Wizard, e: Nav): (r: Wizard)
    ensures r.form == w.form && r.items == w.items && r.loading == w.loading && r.showUpgrade == w.showUpgrade
    ensures Valid(w) ==> Valid(r)
    ensures e == Back ==> r.step == (if w.step > 1 && w.step <= StepCount then w.step - 1 else w.step)
    ensures e == Next && w.step == 1 ==> (r.step == 2 <==> ClientStepComplete(w.form)) && r.step <= 2
    ensures e == Next && 1 < w.step < StepCount ==> r.step == w.step + 1
    ensures e == Next && w.step == StepCount ==> r.step == w.step
  {
    match e
    case Next =>
      if w.step == 1 then (if ClientStepComplete(w.form) then w.(step := 2) else w)
      else if w.step == 2 || w.step == 3 then w.(step := w.step + 1)
      else w
    case Back =>
      if w.step == 2 || w.step == 3 || w.step == 4 then w.(step := w.step - 1) else w
  }

  /** A sequence of clicks. */
  function Run(w: Wizard, es: seq<Nav>): Wizard
    decreases |es|
  {
    if |es| == 0 then w else Run(Navigate(w, es[0]), es[1..])
  }

  /** However the user clicks around, the step stays in range and the form and items are
      exactly as they were. */
  lemma {:induction false} RunPreservesEntries(w: Wizard, es: seq<Nav>)
    requires Valid(w)
    ensures Valid(Run(w, es))
    ensures Run(w, es).form == w.form && Run(w, es).items == w.items
    decreases |es|
  {
    if |es| > 0 {
      RunPreservesEntries(Navigate(w, es[0]), es[1..]);
    }
  }

  /** Step 2 and beyond can be reached from step 1 only through a complete client step. */
  lemma {:induction false} LeavingStepOneNeedsClient(w: Wizard, es: seq<Nav>)
    requires w.step == 1 && !ClientStepComplete(w.form)
    ensures Run(w, es).step == 1
    decreases |es|
  {
    if |es| > 0 {
      LeavingStepOneNeedsClient(Navigate(w, es[0]), es[1..]);
    }
  }

  /** "Back" undoes an accepted "Next", and "Next" undoes "Back" from steps 3 and 4 and
      from step 2 when the client step is complete. */
  lemma NextBackInverse(w: Wizard)
    requires Valid(w)
    ensures Navigate(w, Next).step != w.step ==> Navigate(Navigate(w, Next), Back) == w
    ensures w.step > 2 || (w.step == 2 && ClientStepComplete(w.form)) ==> Navigate(Navigate(w, Back), Next) == w
  {
  }

  /** How the stepper draws step `n`. */
  datatype StepLook = Done | Active | Pending

  function Look(n: int, step: int): (r: StepLook)
    ensures r == Active <==> n == step
  {
    if n < step then Done else if n == step then Active else Pending
  }

  /** Of the four circles exactly the current step is active, those before it are done. */
  lemma OneActiveStep(w: Wizard, n: int)
    requires Valid(w) && 1 <= n <= StepCount
    ensures Look(n, w.step) == Done <==> n < w.step
    ensures (exists m :: 1 <= m <= StepCount && Look(m, w.step) == Active)
  {
    assert Look(w.step, w.step) == Active;
  }

  /** `CreateQuoteRequest`: the form fields plus `line_items`. */
  datatype CreateRequest = CreateRequest(
    clientId: string, title: string, currency: string, validityDays: int,
    notes: string, deposit: string, paymentMethod: string, deliveryTimeline: string,
    revisions: string, taxExempt: bool, taxRate: real,
    requireSignature: bool, trackViews: bool, sendReminder: bool,
    lineItems: seq<LineItem>)

  /** `{ ...form, line_items: items }`. */
  function ToRequest(f: Form, items: seq<LineItem>): (r: CreateRequest)
    ensures r.lineItems == items
    ensures FormOf(r) == f
  {
    CreateRequest(f.clientId, f.title, f.currency, f.validityDays, f.notes, f.deposit,
      f.paymentMethod, f.deliveryTimeline, f.revisions, f.taxExempt, f.taxRate,
      f.requireSignature, f.trackViews, f.sendReminder, items)
  }

  /** The form part of a request. */
  function FormOf(r: CreateRequest): Form {
    Form(r.clientId, r.title, r.currency, r.validityDays, r.notes, r.deposit,
      r.paymentMethod, r.deliveryTimeline, r.revisions, r.taxExempt, r.taxRate,
      r.requireSignature, r.trackViews, r.sendReminder)
  }

  /** The request is exactly the form and the items: nothing lost, nothing added. */
  lemma RequestRoundTrip(r: CreateRequest)
    ensures ToRequest(FormOf(r), r.lineItems) == r
  {
  }

  /** One `handleSend` run: new state, the request sent, the toast and the navigation. */
  datatype SendRun = SendRun(w: Wizard, request: CreateRequest, toast: Option<ToastRequest>, navigateTo: Option<string>)

  /** `handleSend` with the create call's outcome as input. */
  function HandleSend(w: Wizard, outcome: Result<(), Thrown>): (r: SendRun)
    ensures r.request == ToRequest(w.form, w.items)
    ensures !r.w.loading
    ensures r.w.step == w.step && r.w.form == w.form && r.w.items == w.items
    ensures r.navigateTo.Some? <==> outcome.Success?
    ensures r.navigateTo.Some? ==> r.navigateTo.value == "/app/quotes"
    ensures outcome.Success? ==> r.toast == Some(ToastRequest("✅ Quote created!", SuccessToast))
    ensures r.w.showUpgrade <==> w.showUpgrade || (outcome.Failure? && Api.IsFreeTierLimitError(outcome.error))
    ensures r.toast.None? <==> outcome.Failure? && Api.IsFreeTierLimitError(outcome.error)
    ensures outcome.Failure? && !Api.IsFreeTierLimitError(outcome.error) ==>
      r.toast == Some(ToastRequest(MessageOr(outcome.error, "Failed to create quote"), WarningToast))
  {
    var request := ToRequest(w.form, w.items);
    var done := w.(loading := false);
    match outcome
    case Success(_) =>
      SendRun(done, request, Some(ToastRequest("✅ Quote created!", SuccessToast)), Some("/app/quotes"))
    case Failure(e) =>
      if Api.IsFreeTierLimitError(e) then SendRun(done.(showUpgrade := true), request, None, None)
      else SendRun(done, request, Some(ToastRequest(MessageOr(e, "Failed to create quote"), WarningToast)), None)
  }

  /** A failed call whose envelope carries the code `free_tier_limit` opens the
      upgrade dialog and neither toasts nor navigates. */
  lemma QuotaEnvelopeOpensUpgrade(w: Wizard, ok: bool, status: int, body: Option<Api.Envelope<()>>)
    requires body.Some? && body.value.error == Some("free_tier_limit")
    requires !ok || !body.value.success
    ensures var settled := Api.Settle(ok, status, body);
      var outcome: Result<(), Thrown> := if settled.Success? then Success(()) else Failure(settled.error);
      settled.Failure? &&
      var r := HandleSend(w, outcome);
      r.w.showUpgrade && r.toast.None? && r.navigateTo.None?
  {
  }
}
