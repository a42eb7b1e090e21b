# QuoteFlow quoting logic in Dafny

QuoteFlow is a single-page web app in which freelancers build quotes, send them to clients, and track acceptance and payment. Most of the app renders markup and calls a REST service. Its decision logic is scattered through the components, and this project lifts that logic out into pure Dafny functions and proves what it promises:

- quote totals;
- status badges and labels;
- currency symbols and relative-day wording;
- the public acceptance page's expiry tiers and accept state machine;
- the four-step quote builder;
- line-item editing;
- quote filtering and search;
- API envelope classification and query building;
- the plan entitlement checks;
- the settings, billing, API-key, team, pricing and dashboard decisions;
- the client and template dialogs;
- the quote, client and toast hooks.

## How the model is built

- **Handlers as functions.** Every event handler is a function from the component's state and the handler's inputs to the new state and the effects it requests: toasts, navigation, API calls and dialog changes. An awaited service call enters as an input of type `Result<T, Thrown>`. `Success` carries what the service returned; `Failure` carries what it threw.
- **Thrown values.** `Domain.Thrown` distinguishes an `Error` carrying a message and an optional `code` from any other thrown value. This is the distinction that `e instanceof Error ? e.message : fallback` draws in the source.
- **JavaScript text operations.** The string operations of JavaScript are written out in `Text`: `trim`, `split`, `indexOf`, `lastIndexOf`, `includes`, `toLowerCase` and `toUpperCase`. Truthiness of optional strings is handled by `Domain.TruthyOpt`.
- **URL encoding.** `encodeURIComponent` and the form encoding of `URLSearchParams` are modelled in `UrlEncoding`. That module covers UTF-8 bytes, percent escapes and the round trip back.
- **Money.** Amounts are `real`. `Math.round` rounds halves toward +∞ (−0.5 gives 0, 0.5 gives 1), and `Money.RoundHalfUp` models exactly that.
- **Plans.** The entitlement checks that different components make about a plan are gathered in `Plans`. They are kept inconsistent as the source writes them: a business plan unlocks branding and API keys, yet the sidebar and billing panel show it as Free.
- **Load errors persist.** As written, `useQuotes` and `useClients` do not clear an earlier load error when a later load succeeds, and the model keeps that behaviour.

Module layout follows the source tree. Shared modules:

- `Wrappers`: `Option` and `Result`;
- `Text`;
- `Decimal`: integer to text, with the parse round trip;
- `SeqOps`: filtering, removal by key and `find`;
- `UrlEncoding`;
- `Domain`: quotes, clients, statuses, thrown values and toasts;
- `Money`: the totals;
- `Profiles`: the profile record and the spread of a partial profile over it.

There is one module per component, page or hook. For example, `CreateQuote` models `src/pages/CreateQuotePage.tsx` and `UseToast` models `src/hooks/useToast.ts`.

## Model

| member | source | states |
|---|---|---|
| `Text.Trim` | src/components/modals/SaveAsTemplateModal.tsx:16-19 | `trim()` yields the contiguous piece of the text left after cutting white space from both ends: only white space is cut, and the result neither starts nor ends with white space |
| `Text.BlankIffAllSpace` | src/components/modals/AddClientModal.tsx:26-27 | `!s.trim()` holds exactly when the text is empty or all white space |
| `Text.TrimIdempotent` | src/pages/PublicQuotePage.tsx:34-36 | trimming an already trimmed text changes nothing |
| `Text.JoinSplit` | src/lib/utils.ts:58 | joining the pieces of a split with the separator gives the text back |
| `Text.SplitJoin` | src/services/api.ts:90 | joining separator-free pieces and splitting again gives the same pieces |
| `Text.SplitFirst` | src/components/layout/AppShell.tsx:36 | the first piece of a split is the text before the first separator, or the whole text when there is none |
| `Text.Find` | src/components/layout/AppShell.tsx:36 | `indexOf` gives a position holding the character with none before it, or -1 with the character nowhere in the text |
| `Text.FindNone` | src/components/layout/AppShell.tsx:36 | `indexOf` is -1 exactly when the character does not occur |
| `Text.LastPieceIsSuffix` | src/components/settings/ProfilePanel.tsx:48 | the last piece is a separator-free suffix, preceded by the separator unless it is the whole text |
| `Text.LastPieceIsPop` | src/components/settings/ProfilePanel.tsx:48 | the text after the last separator is the last element of `split(...)`, i.e. what `pop()` returns |
| `SeqOps.Filter` | src/components/quotes/QuotesTable.tsx:38 | `filter` keeps only satisfying elements, and never more than it is given |
| `SeqOps.FilterKeepsMatches` | src/components/quotes/QuotesTable.tsx:38 | an element survives filtering exactly when it was present and satisfies the predicate |
| `SeqOps.FilterIsSubsequence` | src/components/quotes/QuotesTable.tsx:38 | filtering keeps the order of the surviving elements |
| `SeqOps.FilterLength` | src/components/quotes/QuotesTable.tsx:45 | the length of a filtered list is the number of satisfying elements |
| `SeqOps.RemoveKey` | src/hooks/useQuotes.ts:32 | removing by id drops every record with that id and keeps every other one, in order |
| `SeqOps.RemoveAbsentKey` | src/hooks/useClients.ts:32 | removing an id no record carries leaves the list unchanged |
| `SeqOps.PrependThenRemove` | src/components/settings/ApiKeysPanel.tsx:58 | prepending a record with a fresh id and then removing that id restores the list |
| `SeqOps.AppendThenRemove` | src/hooks/useToast.ts:24 | appending a record with a fresh id and then removing that id restores the list |
| `SeqOps.Find` | src/pages/CreateQuotePage.tsx:54 | `find` returns the first satisfying element, and nothing exactly when none satisfies |
| `Decimal.ShowInjective` | src/lib/utils.ts:26 | the decimal text of an integer reads back as that integer, so different numbers never show alike |
| `Decimal.ParseShowNat` | src/lib/utils.ts:26 | the digits of a natural number read back as the number |
| `UrlEncoding.DecodeEncode` | src/services/api.ts:44 | `encodeURIComponent` and the form encoding of `URLSearchParams` lose nothing: decoding gives the text back |
| `UrlEncoding.Encode` | src/services/api.ts:44 | an encoded text holds none of the query delimiters `&`, `=`, `?`, `#` |
| `UrlEncoding.DecodeUtf8RoundTrip` | src/services/api.ts:44 | the UTF-8 bytes of a text decode back to the text |
| `UrlEncoding.PercentDecodeRoundTrip` | src/services/api.ts:44 | percent-escaped bytes decode back to the bytes |
| `UrlEncoding.AlphanumericUnchanged` | src/services/api.ts:88-89 | ASCII letters and digits pass through either encoder unchanged |
| `Domain.MessageOr` | src/pages/CreateQuotePage.tsx:66 | an `Error`'s own message is shown; any other thrown value shows the fallback |
| `Api.Base` | src/services/api.ts:8 | a configured base URL is used, otherwise the deployed service address |
| `Api.Headers` | src/services/api.ts:14-18 | the JSON content type always comes first; an `Authorization` header appears exactly when the token is non-empty and carries `Bearer ` plus the token |
| `Api.Settle` | src/services/api.ts:20-33 | a call succeeds exactly when the response is ok and its envelope says success, returning the envelope's data; otherwise it throws an `Error` whose code is the envelope's error and whose message is error, then message, then `Request failed (status)`; an unreadable body throws a code-less `Invalid response` when the response was ok and `Request failed (status)` when it was not |
| `Api.SettledErrorKinds` | src/services/api.ts:133-141 | a failed call is a free-tier-limit error exactly when the envelope's code is `free_tier_limit`, a pro-required error exactly when it is `pro_required`, and never both |
| `Api.ErrorKindsNeedError` | src/services/api.ts:134-141 | a thrown value that is not an `Error` is neither kind |
| `Api.StatsPath` | src/services/api.ts:43-44 | the statistics path carries a `currency` parameter exactly when a non-empty currency is given, and the parameter decodes back to it |
| `Api.ListParams` | src/services/api.ts:86-89 | `status` is sent exactly when it is non-empty and not `all`; `currency` exactly when it is non-empty |
| `Api.ParseEncodedPair` | src/services/api.ts:87-90 | one encoded `key=value` piece reads back as the pair |
| `Api.ParseBuildQuery` | src/services/api.ts:87-90 | the query string reads back as exactly the parameters set, in order, and is empty exactly when none was set |
| `Api.QuotesListPath` | src/services/api.ts:86-92 | the list path is bare `/quotes` exactly when no parameter applies; otherwise `?` and a query that reads back as the parameters |
| `Api.AllStatusesIsUnfiltered` | src/services/api.ts:88 | asking for status `all` is the same request as giving no status |
| `Utils.CurrencySymbol` | src/lib/utils.ts:8-13 | the four known currencies map to their symbols; any other code is shown as itself |
| `Utils.FormatCurrency` | src/lib/utils.ts:12-15 | the amount text follows the currency's symbol, with JMD when no currency is given |
| `Utils.FormatCurrencyDefaultsToJmd` | src/lib/utils.ts:12 | with no currency the symbol is `J$` |
| `Utils.KnownSymbolsDistinguishable` | src/lib/utils.ts:8-10 | the four symbols start with different characters, so a formatted amount tells its known currency |
| `Utils.RelativeTime` | src/lib/utils.ts:24-27 | day difference 0 is `Today`, 1 is `Yesterday`, other values below 7 are `<n>d ago`, and 7 or more show the date |
| `Utils.RelativeTimeDistinguishesRecentDays` | src/lib/utils.ts:24-26 | two differences below a week that read alike are equal |
| `Utils.AgoIsNotAWord` | src/lib/utils.ts:24-26 | an `<n>d ago` text is never `Today` or `Yesterday` |
| `Utils.Initials` | src/lib/utils.ts:57-59 | initials are at most two characters |
| `Utils.InitialsOneWord` | src/lib/utils.ts:57-59 | a one-word name gives its upper-cased first letter |
| `Utils.InitialsTwoWords` | src/lib/utils.ts:57-59 | `first last` gives the upper-cased first letters of both words |
| `Utils.PublicBase` | src/lib/utils.ts:78-80 | the link base is the browser's origin whenever a window exists, else the configured `VITE_APP_URL`, else `https://quote-flow-phi.vercel.app` |
| `Utils.QuotePublicUrl` | src/lib/utils.ts:81 | the public link is the base, then `/q/`, then the share token, with nothing else added |
| `Utils.PublicLinksDistinct` | src/lib/utils.ts:78-81 | whichever base the environment selects, two different share tokens never get the same public link |
| `Utils.PublicUrlRoundTrip` | src/lib/utils.ts:78-83 | the public link of a share token leads back to exactly that token |
| `Money.RoundHalfUp` | src/lib/utils.ts:73 | `Math.round` gives the integer within one half of its argument, halves going up |
| `Money.TaxAmount` | src/lib/utils.ts:73 | exempt quotes have no tax; otherwise the tax is within half a cent of subtotal times rate over 100, and a whole number of cents |
| `Money.CalcTotals` | src/lib/utils.ts:67-75 | the subtotal is the sum of quantity times unit price, the total is subtotal plus tax, and the tax is exactly `TaxAmount` of the subtotal, hence a whole number of cents within half a cent of subtotal times rate |
| `Money.EmptyTotals` | src/lib/utils.ts:72-74 | no items give all-zero totals |
| `Money.SubtotalConcat` | src/lib/utils.ts:72 | the subtotal of two lists joined is the sum of their subtotals |
| `Money.SubtotalNonNegative` | src/lib/utils.ts:72 | non-negative quantities and prices give a non-negative subtotal |
| `Badge.BadgeClass` | src/lib/utils.ts:39-50 | the paid style is used exactly for a paid accepted quote; paid has no effect on other statuses |
| `Badge.Label` | src/components/ui/Badge.tsx:7-12 | the label reads `Paid` exactly for a paid accepted quote; paid has no effect on other statuses |
| `Badge.PaidLabelMatchesClass` | src/components/ui/Badge.tsx:12-13 | the `Paid` label and the paid style always appear together |
| `Badge.DeclinedLooksExpired` | src/lib/utils.ts:43-44 | declined quotes share the expired style but keep their own label |
| `Badge.StylesOtherwiseDistinct` | src/lib/utils.ts:39-45 | apart from declined and expired, different statuses get different styles |
| `CreateQuote.Get` | src/pages/CreateQuotePage.tsx:15-30 | every field of the form holds a value of its declared kind |
| `CreateQuote.Set` | src/pages/CreateQuotePage.tsx:49-50 | `set(key, val)` gives `key` the new value and leaves every other field as it was |
| `CreateQuote.FieldsDetermineForm` | src/pages/CreateQuotePage.tsx:15-30 | two forms that agree on every field are the same form |
| `CreateQuote.SetLaws` | src/pages/CreateQuotePage.tsx:49-50 | setting a field to its own value changes nothing, and a second set of the same field overrides the first |
| `CreateQuote.Initial` | src/pages/CreateQuotePage.tsx:37-47 | the page starts on step 1 with one blank row, tax-exempt at 15%, 14 days' validity, JMD, no client and no title |
| `CreateQuote.Navigate` | src/pages/CreateQuotePage.tsx:135-234 | Back moves one step down from steps 2 to 4; Next moves one step up from steps 2 and 3, and from step 1 exactly when a client and a title are chosen; nothing else on the page changes and the step stays within 1 to 4 |
| `CreateQuote.RunPreservesEntries` | src/pages/CreateQuotePage.tsx:106-236 | any sequence of step clicks keeps the step within 1 to 4 and never touches the form or the items |
| `CreateQuote.LeavingStepOneNeedsClient` | src/pages/CreateQuotePage.tsx:135 | without a client and a title no sequence of clicks leaves step 1 |
| `CreateQuote.NextBackInverse` | src/pages/CreateQuotePage.tsx:135-234 | a Next that moves is undone by Back, and a Back from step 3 or 4 (or from a completed step 2) is undone by Next |
| `CreateQuote.Look` | src/pages/CreateQuotePage.tsx:88-96 | a step circle is active exactly on the current step |
| `CreateQuote.OneActiveStep` | src/pages/CreateQuotePage.tsx:88-96 | the circles before the current step are done, and some circle is active |
| `CreateQuote.ToRequest` | src/pages/CreateQuotePage.tsx:59 | the create request carries the items and every form field unchanged |
| `CreateQuote.RequestRoundTrip` | src/pages/CreateQuotePage.tsx:59 | a request is exactly its form plus its items: nothing lost, nothing added |
| `CreateQuote.HandleSend` | src/pages/CreateQuotePage.tsx:56-71 | the request is the form plus the items; loading ends; success toasts `✅ Quote created!` as a success toast and goes to `/app/quotes`; a free-tier-limit failure opens the upgrade dialog without a toast; any other failure toasts its message or `Failed to create quote` as a warning; the step, form and items are kept |
| `CreateQuote.QuotaEnvelopeOpensUpgrade` | src/pages/CreateQuotePage.tsx:62-64 | a failed response whose envelope carries `free_tier_limit` opens the upgrade dialog, with no toast and no navigation |
| `LineItems.Update` | src/components/quotes/LineItemsEditor.tsx:14-17 | editing row `i` changes that row's field only, description as text and amounts through `Number`, and leaves every other row as it was |
| `LineItems.Add` | src/components/quotes/LineItemsEditor.tsx:19 | adding keeps all rows and appends one blank row (quantity 1, price 0) |
| `LineItems.Remove` | src/components/quotes/LineItemsEditor.tsx:21-24 | with more than one row, removing row `i` drops exactly that row; the last row is never removed |
| `LineItems.WithoutIndexSlices` | src/components/quotes/LineItemsEditor.tsx:23 | filtering out index `i` is the rows before it followed by the rows after it |
| `LineItems.NeverEmpty` | src/components/quotes/LineItemsEditor.tsx:19-24 | whatever edits, additions and removals follow, the editor keeps at least one row |
| `LineItems.SubtotalIsSumOfRows` | src/components/quotes/LineItemsEditor.tsx:26-58 | the subtotal is the sum of the row totals shown beside each row |
| `LineItems.AddKeepsSubtotal` | src/components/quotes/LineItemsEditor.tsx:19 | a new blank row leaves the subtotal unchanged |
| `LineItems.SubtotalAround` | src/components/quotes/LineItemsEditor.tsx:26 | the subtotal splits into the rows before `i`, row `i`, and the rows after |
| `LineItems.RemoveLowersSubtotal` | src/components/quotes/LineItemsEditor.tsx:21-26 | removing a row lowers the subtotal by exactly that row's total |
| `LineItems.DescriptionEditKeepsAmounts` | src/components/quotes/LineItemsEditor.tsx:14-43 | editing a description leaves every amount and the subtotal unchanged |
| `LineItems.TaxRow` | src/components/quotes/LineItemsEditor.tsx:74-75 | the tax row reads `GCT (Exempt)` with no amount exactly when exempt, else `GCT (rate%)` with the tax amount; the preview modal renders the same row for a quote's stored fields (src/components/quotes/QuotePreviewModal.tsx:114-115) |
| `LineItems.FooterOf` | src/components/quotes/LineItemsEditor.tsx:26 | the footer's subtotal is the sum of the rows, its tax is shown exactly when not exempt, and its total is the subtotal plus the tax shown (see also lines 67-80) |
| `PublicQuote.ExpiryTier` | src/pages/PublicQuotePage.tsx:71-111 | more than 7 days is neutral, 3 to 7 amber, 1 or 2 red, 0 red for today, and below 0 expired; the tests leave no whole number without a banner |
| `PublicQuote.TiersOrdered` | src/pages/PublicQuotePage.tsx:76-111 | fewer days remaining never gives a less urgent banner |
| `PublicQuote.RedWhen` | src/pages/PublicQuotePage.tsx:93 | the red banner says `tomorrow` exactly for one day, and `in N days` for any other count |
| `PublicQuote.ExpiryBanner` | src/pages/PublicQuotePage.tsx:74-112 | a banner is shown for every day count, styled by its tier, with the copy of each tier: `Valid for N days · Expires <date>` beyond a week, `⏱ Expires in N days — <date>` from 3 to 7 days, `⚠ Expires tomorrow/in N days — accept today` at 1 or 2, `⚠ Expires today — accept now` at 0, and `Expired on <date>` once past |
| `PublicQuote.SignatureSent` | src/pages/PublicQuotePage.tsx:34 | the accept call carries a signature exactly when the typed name is not blank, and then carries it trimmed |
| `PublicQuote.MarkAccepted` | src/pages/PublicQuotePage.tsx:36 | the optimistic update marks the quote accepted, records the trimmed signer when one was typed and keeps the earlier signer otherwise, and changes nothing else |
| `PublicQuote.HandleAccept` | src/pages/PublicQuotePage.tsx:26-56 | without a token nothing happens; a required signature left blank prompts and makes no call; otherwise the call carries the token and the trimmed signature; success, or a failed call whose refetch shows the quote accepted, marks it accepted with the success toast; any other failure alerts and leaves the page as it was except that accepting ends |
| `PublicQuote.DisabledForSignatureMeansNoCall` | src/pages/PublicQuotePage.tsx:28-31 | when the button is disabled for a missing signature, the handler makes no request and changes nothing (see also line 227) |
| `PublicQuote.FooterBranch` | src/pages/PublicQuotePage.tsx:202-245 | the footer shows the accept controls, the expired box or the accepted block according to its three conditions |
| `PublicQuote.ExactlyOneFooter` | src/pages/PublicQuotePage.tsx:202-238 | exactly one of the three footer conditions holds for every state |
| `PublicQuote.ConfirmedAcceptShowsAcceptedBlock` | src/pages/PublicQuotePage.tsx:35-46 | after a confirmed accept the footer shows the accepted block (see also line 238) |
| `PublicQuote.FailedAcceptKeepsFooter` | src/pages/PublicQuotePage.tsx:52 | after a failed accept the quote and the footer are as before (see also lines 202-245) |
| `PublicQuote.SignedByLine` | src/pages/PublicQuotePage.tsx:241-243 | the `Signed by` line appears exactly when the quote has a non-empty signer, and names that signer |
| `PublicQuote.SignerShownAfterAccept` | src/pages/PublicQuotePage.tsx:34-36 | after a successful signed accept, the footer names the trimmed signer (see also lines 241-243) |
| `QuotesTable.Filtered` | src/components/quotes/QuotesTable.tsx:38-43 | every listed quote matches the tab and the search, a specific tab lists only quotes of that status, and the list keeps the original order |
| `QuotesTable.FilteredExactly` | src/components/quotes/QuotesTable.tsx:38-43 | a quote is listed exactly when it is among the quotes and matches both the tab and the search |
| `QuotesTable.AllTabShowsEverything` | src/components/quotes/QuotesTable.tsx:39-40 | the `all` tab with an empty search lists every quote in order |
| `QuotesTable.TabCount` | src/components/quotes/QuotesTable.tsx:45 | the `all` count is the number of quotes, and no count exceeds it |
| `QuotesTable.CountMatchesRows` | src/components/quotes/QuotesTable.tsx:38-73 | with no search, a tab's count is the number of rows that tab lists |
| `QuotesTable.FoundByOwnNumber` | src/components/quotes/QuotesTable.tsx:40-41 | typing a quote's number or title, in any ASCII case, finds it |
| `QuotesTable.OpenDots` | src/components/quotes/QuotesTable.tsx:47-52 | the menu opens 6 pixels below the button, its left edge at the button's right minus 200 but never below 0, and a second click on the same row closes it |
| `QuotesTable.DotsToggle` | src/components/quotes/QuotesTable.tsx:51 | clicking the same row twice closes the menu; clicking another row moves it there |
| `QuotesTable.EmptyMessage` | src/components/quotes/QuotesTable.tsx:92-96 | a message appears exactly when no row is listed, naming the search when one was typed |
| `QuotesTable.AllTabNotEmpty` | src/components/quotes/QuotesTable.tsx:38-45 | with any quote at all, the `all` tab with no search shows no empty message (see also line 92) |
| `PreviewModal.ViewOf` | src/components/quotes/QuotePreviewModal.tsx:19-28 | a closed modal renders nothing; an open one shows `Loading…` while loading or without a quote, and the quote otherwise |
| `PreviewModal.Buttons` | src/components/quotes/QuotePreviewModal.tsx:151-176 | Mark as Paid appears for an unpaid accepted quote with a handler; Copy Link for a quote not yet accepted that has a share token; Send for a quote not yet accepted with a handler; Mark as Paid never appears with either of the others |
| `PreviewModal.MarkPaidAgreesWithBadge` | src/components/quotes/QuotePreviewModal.tsx:151-157 | the Mark as Paid button is offered only for a quote whose status badge in the quotes table (src/components/quotes/QuotesTable.tsx:121) reads `Accepted`, and a paid accepted quote's badge reads `Paid` while the modal offers no button |
| `PreviewModal.CopyLinkClick` | src/components/quotes/QuotePreviewModal.tsx:161-170 | the copied link leads back to the quote's share token, and a success toast follows exactly when a toast handler is given |
| `PreviewModal.SignedBy` | src/components/quotes/QuotePreviewModal.tsx:137-141 | the signer line appears exactly for an accepted quote with a non-empty signer, and names that signer |
| `PreviewModal.PaidLineExcludesMarkPaid` | src/components/quotes/QuotePreviewModal.tsx:143-156 | a quote shown as paid never offers Mark as Paid, and for an accepted quote with a handler exactly one of the two appears |
| `QuotesPage.DuplicateOutcome` | src/pages/QuotesPage.tsx:25-36 | success toasts the new quote's number; a free-tier-limit failure opens the upgrade dialog with no toast; any other failure toasts `Failed to duplicate`; nothing else on the page changes |
| `QuotesPage.ProRequiredIsNotQuota` | src/pages/QuotesPage.tsx:30-34 | a pro-required failure is not treated as the quota: it only toasts `Failed to duplicate` |
| `QuotesPage.DeleteToast` | src/pages/QuotesPage.tsx:38-45 | deleting always toasts as a warning, `Quote deleted` on success and `Failed to delete quote` otherwise |
| `QuotesPage.SendMessage` | src/pages/QuotesPage.tsx:49 | the link channel says the link was copied; other channels say which channel was used |
| `QuotesPage.SendMessageNamesChannel` | src/pages/QuotesPage.tsx:49 | different channels give different messages |
| `QuotesPage.OpenPreview` | src/pages/QuotesPage.tsx:88-97 | opening a preview records the id; a loaded quote is shown; on failure the first listed quote with that id is shown, and nothing exactly when no listed quote has it; the send state is untouched |
| `QuotesPage.MissingFallbackStaysLoading` | src/pages/QuotesPage.tsx:94-107 | a failed load of a quote missing from the list leaves the modal on its `Loading…` placeholder |
| `QuotesPage.Merge` | src/pages/QuotesPage.tsx:57 | `{ ...prev, ...updated }` takes every field from the update, keeping the previous signer, payment date and client only where the update has none |
| `QuotesPage.MergeLaws` | src/pages/QuotesPage.tsx:57 | merging the same update twice changes nothing more, and an update with every optional field replaces the quote |
| `QuotesPage.MarkPaid` | src/pages/QuotesPage.tsx:54-63 | success reloads the list, toasts `Marked as paid` and merges the update into the preview only when it shows that quote; failure toasts `Failed to mark as paid`; nothing else on the page changes |
| `QuotesPage.MarkPaidHidesButton` | src/pages/QuotesPage.tsx:54-59 | once a quote has been marked paid, the previewed quote no longer offers Mark as Paid |
| `QuotesPage.SendFromPreview` | src/pages/QuotesPage.tsx:109 | sending from the preview hands the previewed quote to the send dialog and closes the preview |
| `QuotesPage.SendTarget` | src/pages/QuotesPage.tsx:116 | the send dialog uses the quote handed over from the preview, else a listed quote with the chosen id, and finds one whenever the list has it |
| `SendModal.Prefill` | src/components/quotes/SendModal.tsx:27-33 | opening with a quote that has a client fills in the client's email and phone; closing clears the error; channel and loading are untouched |
| `SendModal.Given` | src/components/quotes/SendModal.tsx:40 | `value \|\| undefined` leaves an empty field out and passes any other value through |
| `SendModal.HandleSend` | src/components/quotes/SendModal.tsx:35-50 | without a quote id nothing happens; otherwise the call carries the id, the channel and the non-empty fields; success closes the dialog and copies a returned link for the link channel; failure keeps the dialog and the inputs and shows the error's message or `Failed to send`; loading always ends |
| `SendModal.EmptyFieldsLeftOut` | src/components/quotes/SendModal.tsx:40 | an empty recipient field is never sent as an empty string |
| `SendModal.FailureKeepsInput` | src/components/quotes/SendModal.tsx:45-49 | a failed send keeps the dialog open with everything typed and shows an error |
| `SendModal.ButtonLabel` | src/components/quotes/SendModal.tsx:98 | the button reads `Sending…` exactly while loading, else names the channel |
| `SendModal.ButtonLabelNamesChannel` | src/components/quotes/SendModal.tsx:98 | different channels give different button labels |
| `ProfilePanel.Extension` | src/components/settings/ProfilePanel.tsx:48 | the extension is never empty and holds no dot; a dot-free name is its own extension; otherwise it is a suffix of the name, and `png` is the fallback when the last piece is empty |
| `ProfilePanel.ExtensionAfterLastDot` | src/components/settings/ProfilePanel.tsx:48 | for `stem.ext` the extension is `ext`, or `png` when `ext` is empty, whatever dots the stem holds |
| `ProfilePanel.StoragePath` | src/components/settings/ProfilePanel.tsx:49 | the upload path lies in the user's `logo` folder and its last dot-separated piece is the file's extension |
| `ProfilePanel.LastPieceAfterDot` | src/components/settings/ProfilePanel.tsx:48-49 | the piece after the last dot of `stem.ext` is `ext` when `ext` holds no dot |
| `ProfilePanel.LogoChange` | src/components/settings/ProfilePanel.tsx:26-59 | no file does nothing; a wrong type is rejected first, then a file over 2 MiB; with no signed-in user a file that passes both checks is rejected with `Please sign in again.`; an upload happens exactly when the file passes both checks and a user is signed in, at the user's storage path; success sets the logo URL and nothing else, failure reports the thrown message or `Upload failed.` |
| `ProfilePanel.ExactlyTwoMebibytesPasses` | src/components/settings/ProfilePanel.tsx:15-38 | a file of exactly 2 MiB is accepted and one byte more is rejected |
| `ProfilePanel.TypeCheckedFirst` | src/components/settings/ProfilePanel.tsx:31-34 | a file of an unaccepted type is rejected with the same message whatever its size, the user or the upload outcome |
| `ProfilePanel.BrandColorClick` | src/components/settings/ProfilePanel.tsx:107 | a swatch click sends an update exactly on a branding plan, and the update sets only the brand colour |
| `ProfilePanel.RemoveLogoClick` | src/components/settings/ProfilePanel.tsx:61 | the remove button sends an update exactly on a branding plan, and the update clears only the logo URL (see also line 133) |
| `ProfilePanel.GatedUpdatesTouchOneField` | src/components/settings/ProfilePanel.tsx:61-62 | applied to a profile on a branding plan, a swatch click changes only the brand colour and removing the logo changes only the logo URL (see also line 107) |
| `Profiles.OverlayNoChange` | src/types/index.ts:12-40 | an empty partial profile leaves every field unchanged |
| `Profiles.OverlayCompose` | src/types/index.ts:12-40 | spreading one partial profile and then another equals spreading their combination, the later one winning field by field |
| `Profiles.OverlayIdempotent` | src/types/index.ts:12-40 | spreading the same partial profile twice equals spreading it once |
| `Profiles.OverlayWhole` | src/types/index.ts:12-40 | spreading a complete profile over any profile gives that complete profile |
| `Plans.EffectivePlan` | src/components/layout/AppShell.tsx:46 | a missing plan counts as `free`; a present plan is kept as it is |
| `Plans.EntitlementsDisagreeOnBusiness` | src/components/settings/ProfilePanel.tsx:62 | the business plan unlocks branding and API keys yet is not shown as Pro; a plan is shown as Pro exactly when it unlocks branding without being business; a missing plan unlocks nothing |
| `Settings.ApplyPanelParam` | src/pages/SettingsPage.tsx:39-44 | the panel changes only to a known panel name given in the URL, always does so for one, and a known panel stays known |
| `Settings.Shown` | src/pages/SettingsPage.tsx:48 | the page shows the local edits if any, else the saved profile, else the default profile |
| `Settings.OnChange` | src/pages/SettingsPage.tsx:49 | an edit spreads the update over the profile being shown and keeps the saving flag |
| `Settings.EditsAccumulate` | src/pages/SettingsPage.tsx:49 | two successive edits equal one edit with their combined update |
| `Settings.EmptyEditKeepsShown` | src/pages/SettingsPage.tsx:48-49 | an empty edit does not change the profile shown |
| `Settings.HandleSave` | src/pages/SettingsPage.tsx:51-63 | saving sends the profile being shown and ends with saving off; success discards the local edits and toasts `Settings saved`, failure keeps them and toasts a warning |
| `Settings.WhatSaveSends` | src/pages/SettingsPage.tsx:54-70 | when the button is enabled it sends the local edits, or the default profile when there is nothing saved; when disabled for lack of edits the saved profile is what would be sent |
| `Settings.SaveAfterEdit` | src/pages/SettingsPage.tsx:49-70 | after an edit the save button is enabled unless a save is running, and it sends the edited profile |
| `AppShell.PlanLabel` | src/components/layout/AppShell.tsx:46-48 | the label is `Pro` exactly when the plan is shown as Pro; otherwise it reads `Free Plan — n/3 quotes` with n the month's quote count, 0 when unknown |
| `AppShell.PlanLabelShowsUsage` | src/components/layout/AppShell.tsx:47-48 | on a free label different quote counts give different labels, and an unknown count reads as 0 |
| `AppShell.EmailLocalPart` | src/components/layout/AppShell.tsx:36 | the part of the email before its first `@`: a prefix holding no `@`, followed by `@` unless it is the whole email |
| `AppShell.DisplayName` | src/components/layout/AppShell.tsx:36 | the name shown is never empty: the first non-empty of full name, name and business name; failing those, the email's local part when it is non-empty, else `Account` |
| `AppShell.EmailNamesUser` | src/components/layout/AppShell.tsx:36 | with only an email `local@domain`, the name shown is `local`, or `Account` when `local` is empty |
| `AppShell.NavClass` | src/components/layout/AppShell.tsx:60 | a navigation item is marked active exactly when the current path is its path |
| `AppShell.AtMostOneActive` | src/components/layout/AppShell.tsx:18-60 | at most one navigation item is active at a time, and a quote's detail path activates none |
| `Billing.View` | src/components/settings/BillingPanel.tsx:11-49 | heading, usage line, feature chips and upgrade box all follow the one test of being shown as Pro; the free usage line states the month's count, 0 when unknown |
| `Billing.HeadingAgreesWithShell` | src/components/settings/BillingPanel.tsx:22 | the billing heading says Pro exactly when the sidebar label says Pro |
| `Billing.BusinessSeesFreeCard` | src/components/settings/BillingPanel.tsx:22-38 | a business plan, though entitled to Pro and Business features, sees the free card with the upgrade box |
| `ApiKeys.CreateCall` | src/components/settings/ApiKeysPanel.tsx:29-34 | no create call is made for a blank name; otherwise the call carries the trimmed, non-empty name |
| `ApiKeys.CreateError` | src/components/settings/ApiKeysPanel.tsx:38-44 | a `business_required` failure reports the Business-plan message; any other reports the thrown message or the fallback |
| `ApiKeys.HandleCreate` | src/components/settings/ApiKeysPanel.tsx:29-48 | a blank name changes nothing; success puts the new key first, shows its secret once and clears the name; failure keeps the list and name, hides any secret and reports the error; creating ends off |
| `ApiKeys.HandleRevoke` | src/components/settings/ApiKeysPanel.tsx:54-63 | without confirmation nothing happens; success keeps, in order, exactly the keys with another id and hides the secret; failure changes nothing and reports the error |
| `ApiKeys.CreateThenRevoke` | src/components/settings/ApiKeysPanel.tsx:35-58 | revoking a key just created restores the previous list, with the name cleared and no secret shown |
| `Teams.Initial` | src/components/settings/TeamsPanel.tsx:12-17 | the panel starts with no team, no members, an empty email and the member role |
| `Teams.AddCall` | src/components/settings/TeamsPanel.tsx:35-39 | an add call is made exactly when there is a team and a non-blank email, and it carries the team, the trimmed email and the chosen role |
| `Teams.HandleAdd` | src/components/settings/TeamsPanel.tsx:35-47 | without a call nothing changes; success replaces the member list with the server's and clears the email; failure keeps everything and reports the thrown message or the fallback |
| `Teams.HandleRemove` | src/components/settings/TeamsPanel.tsx:49-57 | without a team or confirmation nothing happens; success keeps, in order, exactly the members of other users and changes nothing else; failure changes nothing and reports the error |
| `Teams.OwnersSurviveRemoval` | src/components/settings/TeamsPanel.tsx:53 | removing a member through a shown Remove button never drops an owner, when user ids are distinct (see also line 129) |
| `Pricing.PriceText` | src/pages/PricingPage.tsx:64 | a plan costing nothing shows `Free`; any other shows `$` and the monthly or annual price for the chosen cycle |
| `Pricing.CycleChangesPrice` | src/pages/PricingPage.tsx:64 | switching cycle changes the price shown exactly for a paid plan whose annual price differs from its monthly one |
| `Pricing.Suffix` | src/pages/PricingPage.tsx:66 | a paid plan shows `/month`, extended exactly on the annual cycle; a free plan shows none |
| `Pricing.ButtonText` | src/pages/PricingPage.tsx:76 | the free plan's button reads `Get Started Free`; a paid plan's reads `Get ` and its tier |
| `Pricing.PlanClick` | src/pages/PricingPage.tsx:35-42 | a visitor not known to be signed in goes to login; a signed-in user goes to the app for the free tier and to the billing settings for any other |
| `Pricing.AnnualIsCheaper` | src/pages/PricingPage.tsx:5-24 | every paid plan is cheaper billed annually, so its price changes with the cycle; the free plan reads `Free` on both |
| `Pricing.BillingQuery` | src/pages/PricingPage.tsx:38 | the query of the billing route parses to the one pair `panel=billing` |
| `Pricing.PaidClickOpensBilling` | src/pages/PricingPage.tsx:38 | a signed-in click on a paid plan leads to the settings page with the `panel` parameter set to `billing`, which the settings page then opens |
| `Dashboard.RequestCurrency` | src/pages/DashboardPage.tsx:20 | the statistics are requested for no currency exactly when the tab is unresolved or `all`, else for the chosen currency |
| `Dashboard.Resolve` | src/pages/DashboardPage.tsx:25-36 | before the statistics arrive, or once a tab is chosen, the tab is kept; otherwise it becomes the single used currency, the profile's default currency when several are used and it is among them, or `all` |
| `Dashboard.ResolveSettles` | src/pages/DashboardPage.tsx:26 | resolving an already resolved tab changes nothing, so the effect runs to a fixed point in one step |
| `Dashboard.DisplayCurrency` | src/pages/DashboardPage.tsx:38-39 | the displayed currency is absent exactly for the `all` view and otherwise is the chosen tab |
| `Dashboard.RequestMatchesDisplay` | src/pages/DashboardPage.tsx:20-39 | the currency requested is always the currency displayed |
| `Dashboard.NoTabsMeansNoChoice` | src/pages/DashboardPage.tsx:28-41 | when no tabs are shown the resolved tab is the one used currency, or `all` when none was used |
| `Dashboard.ChangeLabel` | src/pages/DashboardPage.tsx:43-44 | the label starts with an up arrow for a non-negative change and a down arrow otherwise, then gives the absolute percentage |
| `Dashboard.OppositeChanges` | src/pages/DashboardPage.tsx:44 | opposite changes read the same after the arrow, and their arrows agree only for zero |
| `Dashboard.MoneyCards` | src/pages/DashboardPage.tsx:46-51 | in the `all` view the money cards show dashes; otherwise they show total and average, 0 when unknown, in the chosen currency |
| `Dashboard.TotalTitle` | src/pages/DashboardPage.tsx:94 | the total card names the displayed currency exactly when one is displayed |
| `Dashboard.NotesRead` | src/pages/DashboardPage.tsx:128-136 | never invoked in the source (see "## Left out"); as written, reading the previewed quote's notes would drop every copy of its id from the stored notices and keep the rest in order; without a previewed id nothing changes |
| `Dashboard.NotesReadIdempotent` | src/pages/DashboardPage.tsx:134 | reading the same notes twice stores what reading once does |
| `AddClient.Set` | src/components/modals/AddClientModal.tsx:21-22 | setting a field gives it the new value and leaves every other field unchanged |
| `AddClient.SetLaws` | src/components/modals/AddClientModal.tsx:21-22 | writing back a field's own value changes nothing, and of two writes to one field the later wins |
| `AddClient.Validate` | src/components/modals/AddClientModal.tsx:24-30 | name and email each get an error exactly when blank, and the form is valid exactly when neither does |
| `AddClient.NoEmailFormatCheck` | src/components/modals/AddClientModal.tsx:27 | a name and an email that start with a non-space character pass validation even when the email has no `@`: only blankness is checked |
| `AddClient.HandleSave` | src/components/modals/AddClientModal.tsx:32-45 | errors are always recomputed; the form is saved exactly when valid and as it stands; success resets and closes the dialog; failure keeps the form open and reports the thrown message or the fallback |
| `AddClient.RetryAfterFailure` | src/components/modals/AddClientModal.tsx:40-44 | a failed save keeps the form, so a retry sends exactly what the failed attempt sent |
| `SaveTemplate.HandleSave` | src/components/modals/SaveAsTemplateModal.tsx:15-25 | a blank name does nothing; otherwise the trimmed, non-empty name is saved and saving ends off; success clears the name and closes, failure keeps the name and lets the error escape |
| `SaveTemplate.EnabledButtonSaves` | src/components/modals/SaveAsTemplateModal.tsx:19-48 | an enabled Save button always leads to a save, and saving the saved name again would send the same name |
| `UseQuotes.LoadPath` | src/hooks/useQuotes.ts:13 | the list is requested through the quotes path for the status filter, which carries no query exactly when the filter is missing, empty or `all` |
| `UseQuotes.Load` | src/hooks/useQuotes.ts:10-20 | loading ends off; success replaces the list and leaves any earlier error in place; failure keeps the list and records the thrown message or the fallback |
| `UseQuotes.Duplicate` | src/hooks/useQuotes.ts:24-28 | a duplicated quote is put first and returned; a failure changes nothing and is passed on |
| `UseQuotes.Remove` | src/hooks/useQuotes.ts:30-33 | a successful delete keeps, in order, exactly the quotes with another id and changes nothing else; a failure changes nothing and is passed on |
| `UseQuotes.DuplicateThenRemove` | src/hooks/useQuotes.ts:26-32 | deleting a quote just duplicated restores the previous state |
| `UseClients.Load` | src/hooks/useClients.ts:10-20 | loading ends off; success replaces the list and leaves any earlier error in place; failure keeps the list and records the thrown message or the fallback |
| `UseClients.Create` | src/hooks/useClients.ts:24-28 | a created client is put first and returned; a failure changes nothing and is passed on |
| `UseClients.Remove` | src/hooks/useClients.ts:30-33 | a successful delete keeps, in order, exactly the clients with another id and changes nothing else; a failure changes nothing and is passed on |
| `UseClients.CreateThenRemove` | src/hooks/useClients.ts:26-32 | deleting a client just created restores the previous state |
| `UseClients.RemoveUnknownId` | src/hooks/useClients.ts:32 | deleting an id no client has leaves the list as it was |
| `UseToast.Toast` | src/hooks/useToast.ts:15-21 | the counter advances and the toast is appended with the new id, above every earlier id, defaulting its type; a removal of that id is scheduled exactly for a positive duration, 3500 ms by default; ids stay increasing |
| `UseToast.Dismiss` | src/hooks/useToast.ts:23-25 | dismissing keeps, in order, exactly the toasts with another id, leaves the counter alone and keeps ids increasing |
| `UseToast.ToastThenDismiss` | src/hooks/useToast.ts:17-24 | dismissing a toast just shown restores the previous toasts, with the counter advanced |
| `Api.FailedText` | src/services/api.ts:24-28 | the fallback error text is `Request failed (`, the status in decimal, and `)` |
| `Api.FailedTextNamesStatus` | src/services/api.ts:28 | different statuses give different fallback texts |
| `Api.WithQuery` | src/services/api.ts:91 | a path keeps its prefix and gains `?` and the query exactly when the query is non-empty |
| `Text.Split` | src/lib/utils.ts:58 | `split` always yields at least one piece |
| `Text.ToLower` | src/components/quotes/QuotesTable.tsx:41 | `toLowerCase` keeps the length and lowers every character in place |
| `Text.ToUpper` | src/lib/utils.ts:58 | `toUpperCase` keeps the length and raises every character in place |
| `Text.Includes` | src/components/quotes/QuotesTable.tsx:41 | `includes` holds exactly when the needle occurs at some position of the text |
| `QuotesTable.IncludesItself` | src/components/quotes/QuotesTable.tsx:41 | every text includes itself |
| `LineItems.ApplyEdit` | src/components/quotes/LineItemsEditor.tsx:15 | a description edit stores the text as typed; a quantity or price edit stores the number the text converts to; nothing else in the row changes |
| `PreviewModal.SendClick` | src/components/quotes/QuotePreviewModal.tsx:173 | the Send button closes the preview first and then sends the previewed quote |
| `ProfilePanel.LogoAreaClick` | src/components/settings/ProfilePanel.tsx:21-24 | the logo area opens the file picker only on a branding plan, never during an upload, and always otherwise (see also line 141) |

## Left out

- Network, authentication, storage and clipboard I/O: they are not modelled as effects. Their outcomes enter as inputs, for example the HTTP status and parsed body in `Api.Settle`, the signed-in user and upload result in `ProfilePanel.LogoChange`, and the clipboard write in `SendModal`, which is taken to succeed.
- `Dashboard.NotesRead`: the `onNotesRead` callback that src/pages/DashboardPage.tsx:128-136 passes to the preview modal is never called. The modal's props (src/components/quotes/QuotePreviewModal.tsx:6-16) do not declare it, and nothing else refers to it, so in the source notes are never marked read and the list is never reloaded from there. The model states what the callback would do if it ran.
- Reading `sessionStorage` and JSON-parsing it: `Dashboard.NotesRead` starts from the already parsed list of notified ids, and a failed parse (the `catch` that ignores it) is not modelled.
- Date and time arithmetic: the day difference behind `relativeTime` and the days remaining on the public page are inputs, as integers. Date formatting (`formatDateLong`, `formatDateShort`, `toLocaleDateString`) is a text parameter.
- Number formatting: `toLocaleString` of amounts, and the text of non-integer numbers such as a tax rate of 12.5 or a change percentage, are given as text or as a `real -> string` parameter. Integers are rendered by `Decimal.Show`.
- `Number(value)` in `LineItems.ApplyEdit` is a `string -> real` parameter. NaN and IEEE-754 rounding of the products and sums are not modelled: money is exact `real` arithmetic.
- `getAvatarColor` (32-bit shift hash), `cn` (class joining) and `exportCSV` (file download): none of these takes part in a decision the model states.
- `Text.ToLower`, `Text.ToUpper`: case mapping covers ASCII letters only, with every other character unchanged, whereas JavaScript maps all of Unicode.
- `Text.Split`: its own contract states only that at least one piece comes back. Its meaning is stated by `Text.JoinSplit`, `Text.SplitJoin` and `Text.SplitFirst`.
- `UseToast.Toast`, `UseToast.Dismiss`: both require the queue invariant that ids increase and stay below the module-wide counter. Every queue reachable from the empty start satisfies it.
- The initial loads of the API-key and team panels, the public page's first fetch, and the profile and dashboard hooks they read: only the handlers and derived values are modelled. Loaded data enters as state.
- JSON `null` and an absent field are the same `None` in the model. A response body that is valid JSON but not an object is treated as a parsed envelope with absent fields. For a body of `null` this differs from the source: src/services/api.ts:27-28 reads `json.success` (or `json.error` when the status is not ok) on `null`, which throws a `TypeError`, not the `Request failed (n)` error that `Api.Settle` produces. The `apiMessage` property set on thrown errors is never read by the modelled components, so it is not kept.
- Interleaving of handlers: every handler is modelled as one atomic step. In src/pages/QuotesPage.tsx:88-97 the preview handler records `previewId` and then awaits `quotesApi.get(id)` without checking that the id is still the current one, so a slow response for an earlier row can overwrite the preview of a row clicked later. `QuotesPage.OpenPreview` cannot show this race.
- `CreateQuote.Set`, `CreateQuote.ToRequest`: `validity_days` is held as an `int`. src/pages/CreateQuotePage.tsx:130 stores `parseInt(e.target.value)`, so a cleared field gives `NaN`, which `JSON.stringify` sends as `null`; the model has no such value.
- `Utils.Initials`: characters are whole Unicode characters. JavaScript strings are UTF-16 code units, so `w[0]` in src/lib/utils.ts:58 returns half a surrogate pair for a word that starts with a character outside the Basic Multilingual Plane, such as an emoji, while the model takes the whole character.
- Timers: the `setTimeout` removal a toast schedules is returned as a `Removal` request. When it fires it is `UseToast.Dismiss`.
- Rendering, styling and markup: covered only where a rendered choice is a decision, such as which footer, which buttons and which labels. `SaveAsTemplateModal`'s closed render (`null`), the modal placeholders, and the outside-click handler of the quotes table's menu are left out.
- The quote number shown after duplication is whatever the service returned. The model does not generate quote numbers.
