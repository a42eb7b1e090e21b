/** The in-app quote preview (src/components/quotes/QuotePreviewModal.tsx): what it
    renders in each state, which action buttons it offers, the tax row and the signer and
    payment lines of its footer. */
module PreviewModal {
  import opened Wrappers
  import opened Domain
  import Utils
  import Badge
  import LineItems

  /** What the modal renders. */
  datatype View = Hidden | Placeholder | Full(quote: Quote)

  function ViewOf(open: bool, loading: bool, quote: Option<Quote>): (r: View)
    ensures r == Hidden <==> !open
    ensures r == Placeholder <==> open && (loading || quote.None?)
    ensures r.Full? ==> open && !loading && quote == Some(r.quote)
  {
    if !open then Hidden else if loading || quote.None? then Placeholder else Full(quote.value)
  }

  /** "Mark as Paid": an accepted quote not yet paid, when the page supplies a handler. */
  predicate ShowsMarkPaid(q: Quote, hasMarkPaid: bool) {
    q.status == Accepted && !TruthyOpt(q.paidAt) && hasMarkPaid
  }

  /** "Copy Link": a quote not yet accepted that has a share token. */
  predicate ShowsCopyLink(q: Quote) {
    q.status != Accepted && Truthy(q.shareToken)
  }

  /** "Send Quote": a quote not yet accepted, when the page supplies a handler. */
  predicate ShowsSend(q: Quote, hasSend: bool) {
    q.status != Accepted && hasSend
  }

  /** The footer buttons. */
  datatype Button = MarkPaidButton | CopyLinkButton | SendButton

  /** The buttons of the footer, left to right. */
  function Buttons(q: Quote, hasMarkPaid: bool, hasSend: bool): (r: seq<Button>)
    ensures MarkPaidButton in r <==> ShowsMarkPaid(q, hasMarkPaid)
    ensures CopyLinkButton in r <==> ShowsCopyLink(q)
    ensures SendButton in r <==> ShowsSend(q, hasSend)
    ensures !(MarkPaidButton in r && SendButton in r)
    ensures !(MarkPaidButton in r && CopyLinkButton in r)
  {
    (if ShowsMarkPaid(q, hasMarkPaid) then [MarkPaidButton] else [])
      + (if ShowsCopyLink(q) then [CopyLinkButton] else [])
      + (if ShowsSend(q, hasSend) then [SendButton] else [])
  }

  /** "Mark as Paid" is offered only for a quote whose status badge in the quotes table
      reads "Accepted"; once the quote is paid, the button is gone and that badge reads
      "Paid". */
  lemma MarkPaidAgreesWithBadge(q: Quote, hasMarkPaid: bool)
    ensures ShowsMarkPaid(q, hasMarkPaid) ==> Badge.Label(q.status, TruthyOpt(q.paidAt)) == "Accepted"
    ensures q.status == Accepted && TruthyOpt(q.paidAt) ==>
      !ShowsMarkPaid(q, hasMarkPaid) && Badge.Label(q.status, TruthyOpt(q.paidAt)) == "Paid"
  {
  }

  /** What clicking "Copy Link" does: the public link goes to the clipboard and, when the
      page passes a toast function, "Link copied" is shown. */
  function CopyLinkClick(q: Quote, base: string, hasToast: bool): (r: (string, Option<ToastRequest>))
    ensures Utils.ShareTokenOf(base, r.0) == Some(q.shareToken)
    ensures r.1.Some? <==> hasToast
    ensures r.1.Some? ==> r.1.value.kind == SuccessToast
  {
    Utils.PublicUrlRoundTrip(base, q.shareToken);
    (Utils.QuotePublicUrl(base, q.shareToken),
     if hasToast then Some(ToastRequest("\U{1F517} Link copied!", SuccessToast)) else None)
  }

  /** The effects of "Send Quote", in order: close this modal, then ask to send. */
  datatype Effect = CloseModal | SendQuote(id: string)

  function SendClick(q: Quote): (r: seq<Effect>)
    ensures |r| == 2 && r[0] == CloseModal && r[1] == SendQuote(q.id)
  {
    [CloseModal, SendQuote(q.id)]
  }

  /** The "Signed by" line: only for an accepted quote whose signer is known. */
  function SignedBy(q: Quote): (r: Option<string>)
    ensures r.Some? <==> q.status == Accepted && TruthyOpt(q.acceptedByName)
    ensures r.Some? ==> r.value == "Signed by " + q.acceptedByName.value
  {
    if q.status == Accepted && TruthyOpt(q.acceptedByName) then Some("Signed by " + q.acceptedByName.value) else None
  }

  /** The "Paid" line: shown whenever a payment date is recorded. */
  predicate ShowsPaidLine(q: Quote) {
    TruthyOpt(q.paidAt)
  }

  /** The footer never offers to mark paid a quote it already shows as paid. */
  lemma PaidLineExcludesMarkPaid(q: Quote, hasMarkPaid: bool)
    ensures ShowsPaidLine(q) ==> !ShowsMarkPaid(q, hasMarkPaid)
    ensures q.status == Accepted && hasMarkPaid ==> (ShowsPaidLine(q) <==> !ShowsMarkPaid(q, hasMarkPaid))
  {
  }
}
