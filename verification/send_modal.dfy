/** The send dialog (src/components/quotes/SendModal.tsx): choosing a channel, the
    prefilled recipient, what a send attempt does with its outcome, and the button
    label. */
module SendModal {
  import opened Wrappers
  import opened Domain
  import QuotesPage

  /** The dialog's own state. */
  datatype Dialog = Dialog(channel: SendChannel, email: string, phone: string, loading: bool, error: Option<string>)

  /** The state the dialog mounts with. */
  const Initial: Dialog := Dialog(Email, "", "", false, None)

  /** The effect that runs when `open` or the client's contact details change. */
  function Prefill(d: Dialog, open: bool, quote: Option<Quote>): (r: Dialog)
    ensures open && quote.Some? && quote.value.client.Some? ==>
      r.email == quote.value.client.value.email && r.phone == quote.value.client.value.phone
    ensures !(open && quote.Some? && quote.value.client.Some?) ==> r.email == d.email && r.phone == d.phone
    ensures !open ==> r.error.None?
    ensures open ==> r.error == d.error
    ensures r.channel == d.channel && r.loading == d.loading
  {
    var filled :=
      if open && quote.Some? && quote.value.client.Some? then
        d.(email := quote.value.client.value.email, phone := quote.value.client.value.phone)
      else d;
    if !open then filled.(error := None) else filled
  }

  /** `x || undefined`. */
  function Given(s: string): (r: Option<string>)
    ensures r.None? <==> s == ""
    ensures r.Some? ==> r.value == s
  {
    if Truthy(s) then Some(s) else None
  }

  /** The call `handleSend` makes: the quote id, the channel and the optional recipients. */
  datatype SendCall = SendCall(id: string, channel: SendChannel, email: Option<string>, phone: Option<string>)

  /** One send attempt: the new state, the call made, the link copied, and whether the
      dialog asked to be closed. */
  datatype Attempt = Attempt(d: Dialog, call: Option<SendCall>, copied: Option<string>, closed: bool)

  /** `handleSend`; the outcome is the page's handler result: the quote link it returned,
      if any, or what it threw. The clipboard write is taken to succeed. */
  function HandleSend(d: Dialog, quoteId: Option<string>, outcome: Result<Option<string>, Thrown>): (r: Attempt)
    ensures r.call.None? <==> !TruthyOpt(quoteId)
    ensures r.call.None? ==> r.d == d && r.copied.None? && !r.closed
    ensures r.call.Some? ==> r.call.value == SendCall(quoteId.value, d.channel, Given(d.email), Given(d.phone))
    ensures r.call.Some? ==> !r.d.loading && r.d.channel == d.channel && r.d.email == d.email && r.d.phone == d.phone
    ensures r.closed <==> r.call.Some? && outcome.Success?
    ensures r.closed ==> r.d.error.None?
    ensures r.call.Some? && outcome.Failure? ==> r.d.error == Some(MessageOr(outcome.error, "Failed to send"))
    ensures r.copied.Some? <==> r.closed && d.channel == Link && TruthyOpt(outcome.value)
    ensures r.copied.Some? ==> r.copied == outcome.value
  {
    if !TruthyOpt(quoteId) then Attempt(d, None, None, false)
    else
      var call := SendCall(quoteId.value, d.channel, Given(d.email), Given(d.phone));
      match outcome
      case Success(link) =>
        var copied := if d.channel == Link && TruthyOpt(link) then link else None;
        Attempt(d.(loading := false, error := None), Some(call), copied, true)
      case Failure(e) =>
        Attempt(d.(loading := false, error := Some(MessageOr(e, "Failed to send"))), Some(call), None, false)
  }

  /** The request the page builds from the dialog's call (`recipient_email`,
      `recipient_phone`). */
  function RequestOf(c: SendCall): QuotesPage.SendRequest {
    QuotesPage.SendRequest(c.channel, c.email, c.phone)
  }

  /** An empty recipient field never reaches the API as an empty string: it is left out. */
  lemma EmptyFieldsLeftOut(d: Dialog, id: string, outcome: Result<Option<string>, Thrown>)
    requires Truthy(id)
    ensures var req := RequestOf(HandleSend(d, Some(id), outcome).call.value);
      (req.recipientEmail.None? <==> d.email == "")
      && (req.recipientPhone.None? <==> d.phone == "")
      && req.recipientEmail != Some("") && req.recipientPhone != Some("")
  {
  }

  /** A failed attempt can be retried: the dialog stays open with everything typed. */
  lemma FailureKeepsInput(d: Dialog, id: string, e: Thrown)
    requires Truthy(id)
    ensures var r := HandleSend(d, Some(id), Failure(e));
      !r.closed && r.d.error.Some? && r.d.(error := d.error, loading := d.loading) == d
  {
  }

  /** The channel's name on the send button. */
  function ChannelTitle(c: SendChannel): string {
    match c
    case Link => "Link"
    case Email => "Email"
    case WhatsApp => "WhatsApp"
  }

  /** The send button's label. */
  function ButtonLabel(loading: bool, c: SendChannel): (r: string)
    ensures loading <==> r == "Sending…"
    ensures !loading ==> r == "Send via " + ChannelTitle(c) + " →"
  {
    if loading then "Sending…" else "Send via " + ChannelTitle(c) + " →"
  }

  /** The label tells the channels apart. */
  lemma ButtonLabelNamesChannel(a: SendChannel, b: SendChannel)
    ensures ButtonLabel(false, a) == ButtonLabel(false, b) <==> a == b
  {
  }
}
