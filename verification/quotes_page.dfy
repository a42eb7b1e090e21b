/** The quotes page (src/pages/QuotesPage.tsx): what its handlers do with the outcome of
    each API call, how the preview is loaded (with the list entry as fallback) and how a
    mark-paid response is merged into it. */
module QuotesPage {
  import opened Wrappers
  import opened Domain
  import opened SeqOps
  import Api
  import PreviewModal

  /** The preview and send-dialog part of the page state. */
  datatype Page = Page(previewId: Option<string>, preview: Option<Quote>,
                       sendId: Option<string>, sendQuote: Option<Quote>, showUpgrade: bool)

  /** The outcome of `handleDuplicate`: a toast, or the upgrade dialog for a quota error. */
  function DuplicateOutcome(p: Page, outcome: Result<Quote, Thrown>): (r: (Page, Option<ToastRequest>))
    ensures r.1.None? <==> outcome.Failure? && Api.IsFreeTierLimitError(outcome.error)
    ensures r.0 == p.(showUpgrade := p.showUpgrade || r.1.None?)
    ensures outcome.Success? ==> r.1 == Some(ToastRequest("\U{1F4CB} Duplicated as " + outcome.value.quoteNumber, SuccessToast))
    ensures outcome.Failure? && r.1.Some? ==> r.1 == Some(ToastRequest("Failed to duplicate", WarningToast))
  {
    match outcome
    case Success(q) => (p, Some(ToastRequest("\U{1F4CB} Duplicated as " + q.quoteNumber, SuccessToast)))
    case Failure(e) =>
      if Api.IsFreeTierLimitError(e) then (p.(showUpgrade := true), None)
      else (p, Some(ToastRequest("Failed to duplicate", WarningToast)))
  }

  /** Only a quota error opens the upgrade dialog; a pro-plan error is just a failure. */
  lemma ProRequiredIsNotQuota(p: Page, e: Thrown)
    requires Api.IsProRequiredError(e)
    ensures DuplicateOutcome(p, Failure(e)).1 == Some(ToastRequest("Failed to duplicate", WarningToast))
    ensures DuplicateOutcome(p, Failure(e)).0 == p
  {
  }

  /** The toast of `handleDelete`. */
  function DeleteToast(outcome: Result<(), Thrown>): (r: ToastRequest)
    ensures r.kind == WarningToast
    ensures r.message == (if outcome.Success? then "\U{1F5D1} Quote deleted" else "Failed to delete quote")
  {
    if outcome.Success? then ToastRequest("\U{1F5D1} Quote deleted", WarningToast)
    else ToastRequest("Failed to delete quote", WarningToast)
  }

  /** The body of `quotesApi.send`. */
  datatype SendRequest = SendRequest(channel: SendChannel, recipientEmail: Option<string>, recipientPhone: Option<string>)

  /** The success toast of `handleSend`, shown for 6 seconds. */
  function SendMessage(channel: SendChannel): (r: string)
    ensures channel == Link <==> r == "✅ Link copied to clipboard!"
    ensures channel != Link ==> r == "✅ Sent via " + channel.Name()
  {
    if channel == Link then "✅ Link copied to clipboard!" else "✅ Sent via " + channel.Name()
  }

  /** Distinct channels give distinct messages. */
  lemma SendMessageNamesChannel(a: SendChannel, b: SendChannel)
    ensures SendMessage(a) == SendMessage(b) <==> a == b
  {
  }

  /** Clicking a row: the preview opens empty while the full quote loads, then shows the
      loaded quote or, if loading fails, the first list entry with that id (if any). */
  function OpenPreview(p: Page, quotes: seq<Quote>, id: string, full: Result<Quote, Thrown>): (r: Page)
    ensures r.previewId == Some(id)
    ensures full.Success? ==> r.preview == Some(full.value)
    ensures full.Failure? ==> (r.preview.Some? <==> exists i :: 0 <= i < |quotes| && quotes[i].id == id)
    ensures full.Failure? && r.preview.Some? ==>
      r.preview.value.id == id && exists i :: 0 <= i < |quotes| && quotes[i] == r.preview.value && forall j :: 0 <= j < i ==> quotes[j].id != id
    ensures r.sendId == p.sendId && r.sendQuote == p.sendQuote && r.showUpgrade == p.showUpgrade
  {
    var loading := p.(previewId := Some(id), preview := None);
    match full
    case Success(q) => loading.(preview := Some(q))
    case Failure(_) => loading.(preview := Find(quotes, (q: Quote) => q.id == id))
  }

  /** The modal's `open` and `loading` props. */
  function PreviewView(p: Page): PreviewModal.View {
    PreviewModal.ViewOf(TruthyOpt(p.previewId), TruthyOpt(p.previewId) && p.preview.None?, p.preview)
  }

  /** A failed load of a quote missing from the list leaves the modal on its placeholder
      until it is closed. */
  lemma MissingFallbackStaysLoading(p: Page, quotes: seq<Quote>, id: string, e: Thrown)
    requires Truthy(id)
    requires forall i :: 0 <= i < |quotes| ==> quotes[i].id != id
    ensures PreviewView(OpenPreview(p, quotes, id, Failure(e))) == PreviewModal.Placeholder
  {
  }

  /** `{ ...prev, ...updated }`: the response's fields win, except optional fields the
      response leaves out. */
  function Merge(prev: Quote, updated: Quote): (r: Quote)
    ensures r.(acceptedByName := updated.acceptedByName, paidAt := updated.paidAt, client := updated.client) == updated
    ensures r.acceptedByName == (if updated.acceptedByName.Some? then updated.acceptedByName else prev.acceptedByName)
    ensures r.paidAt == (if updated.paidAt.Some? then updated.paidAt else prev.paidAt)
    ensures r.client == (if updated.client.Some? then updated.client else prev.client)
  {
    updated.(acceptedByName := if updated.acceptedByName.Some? then updated.acceptedByName else prev.acceptedByName,
             paidAt := if updated.paidAt.Some? then updated.paidAt else prev.paidAt,
             client := if updated.client.Some? then updated.client else prev.client)
  }

  /** Merging the same response twice is merging it once, and a response with every field
      present replaces the preview outright. */
  lemma MergeLaws(prev: Quote, updated: Quote)
    ensures Merge(Merge(prev, updated), updated) == Merge(prev, updated)
    ensures updated.acceptedByName.Some? && updated.paidAt.Some? && updated.client.Some? ==> Merge(prev, updated) == updated
  {
  }

  /** What `handleMarkPaid` does: on success the preview, if it shows this quote, takes
      the response and the list is reloaded; any failure only toasts. */
  function MarkPaid(p: Page, id: string, outcome: Result<Quote, Thrown>): (r: (Page, bool, ToastRequest))
    ensures r.1 <==> outcome.Success?
    ensures r.0.(preview := p.preview) == p
    ensures outcome.Success? && p.preview.Some? && p.preview.value.id == id ==> r.0.preview == Some(Merge(p.preview.value, outcome.value))
    ensures outcome.Failure? || p.preview.None? || p.preview.value.id != id ==> r.0.preview == p.preview
    ensures r.2 == (if outcome.Success? then ToastRequest("✓ Marked as paid", SuccessToast) else ToastRequest("Failed to mark as paid", WarningToast))
  {
    match outcome
    case Success(u) =>
      var preview := if p.preview.Some? && p.preview.value.id == id then Some(Merge(p.preview.value, u)) else p.preview;
      (p.(preview := preview), true, ToastRequest("✓ Marked as paid", SuccessToast))
    case Failure(_) => (p, false, ToastRequest("Failed to mark as paid", WarningToast))
  }

  /** A successful mark-paid whose response carries a payment date takes the "Mark as
      Paid" button off the preview of that quote. */
  lemma MarkPaidHidesButton(p: Page, id: string, u: Quote, hasMarkPaid: bool)
    requires p.preview.Some? && p.preview.value.id == id && TruthyOpt(u.paidAt)
    ensures var q := MarkPaid(p, id, Success(u)).0.preview.value;
      !PreviewModal.ShowsMarkPaid(q, hasMarkPaid)
  {
  }

  /** "Send Quote" from the preview: remember the previewed quote, open the send dialog
      for `id` and close the preview. */
  function SendFromPreview(p: Page, id: string): (r: Page)
    ensures r.sendQuote == p.preview && r.sendId == Some(id)
    ensures r.previewId.None? && r.preview.None? && r.showUpgrade == p.showUpgrade
    ensures PreviewView(r) == PreviewModal.Hidden
  {
    p.(sendQuote := p.preview, sendId := Some(id), previewId := None, preview := None)
  }

  /** The quote the send dialog is given: the remembered one, else the list entry with
      the dialog's id. */
  function SendTarget(p: Page, quotes: seq<Quote>): (r: Option<Quote>)
    ensures p.sendQuote.Some? ==> r == p.sendQuote
    ensures p.sendQuote.None? && r.Some? ==> r.value in quotes && p.sendId == Some(r.value.id)
    ensures p.sendQuote.None? && p.sendId.Some? && (exists i :: 0 <= i < |quotes| && quotes[i].id == p.sendId.value) ==> r.Some?
  {
    if p.sendQuote.Some? then p.sendQuote
    else if p.sendId.None? then None
    else Find(quotes, (q: Quote) => q.id == p.sendId.value)
  }
}
