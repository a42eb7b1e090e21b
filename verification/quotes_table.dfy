/** The quote list (src/components/quotes/QuotesTable.tsx): the status tabs with their
    counts, the free-text search, the row-menu toggle and the empty-table message. */
module QuotesTable {
  import opened Wrappers
  import opened Domain
  import opened Text
  import opened SeqOps

  /** `TABS`: the label and filter value of each tab, in order. Declined quotes are
      counted under "All" only. */
  const Tabs: seq<(string, string)> :=
    [("All", "all"), ("Draft", "draft"), ("Sent", "sent"), ("Accepted", "accepted"), ("Expired", "expired")]

  /** `matchStatus`. */
  predicate MatchesStatus(q: Quote, filter: string) {
    filter == "all" || q.status.Name() == filter
  }

  /** `s?.toLowerCase().includes(search.toLowerCase())`: an absent field never matches. */
  predicate FieldMatches(field: Option<string>, search: string) {
    field.Some? && Includes(ToLower(field.value), ToLower(search))
  }

  /** The client name, title and quote number of a row. */
  function SearchFields(q: Quote): seq<Option<string>> {
    [if q.client.Some? then Some(q.client.value.name) else None, Some(q.title), Some(q.quoteNumber)]
  }

  /** `matchSearch`: no search, or some searchable field contains it, ignoring case. */
  predicate MatchesSearch(q: Quote, search: string) {
    !Truthy(search) || exists i :: 0 <= i < |SearchFields(q)| && FieldMatches(SearchFields(q)[i], search)
  }

  predicate Shown(q: Quote, filter: string, search: string) {
    MatchesStatus(q, filter) && MatchesSearch(q, search)
  }

  /** `filtered`. */
  function Filtered(quotes: seq<Quote>, filter: string, search: string): (r: seq<Quote>)
    ensures forall i :: 0 <= i < |r| ==> Shown(r[i], filter, search)
    ensures filter != "all" ==> forall i :: 0 <= i < |r| ==> r[i].status.Name() == filter
    ensures IsSubsequence(r, quotes)
  {
    FilterIsSubsequence(quotes, q => Shown(q, filter, search));
    Filter(quotes, q => Shown(q, filter, search))
  }

  /** Nothing that matches is hidden: a quote is listed exactly when it is in the list and
      matches the tab and the search. */
  lemma FilteredExactly(quotes: seq<Quote>, filter: string, search: string, q: Quote)
    ensures q in Filtered(quotes, filter, search) <==> q in quotes && Shown(q, filter, search)
  {
    FilterKeepsMatches(quotes, x => Shown(x, filter, search), q);
  }

  /** The "All" tab with an empty search lists every quote in its original order. */
  lemma AllTabShowsEverything(quotes: seq<Quote>)
    ensures Filtered(quotes, "all", "") == quotes
  {
    FilterAll(quotes, q => Shown(q, "all", ""));
  }

  /** `count(s)`: the number in a tab's label. */
  function TabCount(quotes: seq<Quote>, s: string): (r: nat)
    ensures s == "all" ==> r == |quotes|
    ensures r <= |quotes|
  {
    if s == "all" then |quotes|
    else
      FilterLength(quotes, (q: Quote) => q.status.Name() == s);
      Count(quotes, (q: Quote) => q.status.Name() == s)
  }

  /** With no search typed, a tab lists exactly as many rows as its label counts. */
  lemma CountMatchesRows(quotes: seq<Quote>, s: string)
    ensures |Filtered(quotes, s, "")| == TabCount(quotes, s)
  {
    if s == "all" {
      AllTabShowsEverything(quotes);
    } else {
      FilterLength(quotes, q => Shown(q, s, ""));
      CountSame(quotes, q => Shown(q, s, ""), (q: Quote) => q.status.Name() == s);
    }
  }

  /** Two predicates that agree on every element count the same. */
  lemma {:induction false} CountSame<T>(xs: seq<T>, p: T -> bool, p': T -> bool)
    requires forall x :: p(x) == p'(x)
    ensures Count(xs, p) == Count(xs, p')
    decreases |xs|
  {
    if |xs| > 0 {
      CountSame(xs[1..], p, p');
    }
  }

  /** Every text contains itself. */
  lemma IncludesItself(s: string)
    ensures Includes(s, s)
  {
  }

  /** A quote is always found by its own quote number or title, whatever the case typed. */
  lemma FoundByOwnNumber(q: Quote, typed: string)
    requires ToLower(typed) == ToLower(q.quoteNumber) || ToLower(typed) == ToLower(q.title)
    ensures MatchesSearch(q, typed)
  {
    IncludesItself(ToLower(typed));
    if Truthy(typed) {
      if ToLower(typed) == ToLower(q.quoteNumber) {
        assert FieldMatches(SearchFields(q)[2], typed);
      } else {
        assert FieldMatches(SearchFields(q)[1], typed);
      }
    }
  }

  /** The row menu: which row it is open for and where it is drawn. */
  datatype Dots = Dots(openId: Option<string>, top: real, left: real)

  /** `openDots(e, id)` for a button whose box ends at `bottom` and `right`. */
  function OpenDots(d: Dots, id: string, bottom: real, right: real): (r: Dots)
    ensures r.left >= 0.0 && r.left >= right - 200.0 && (r.left == 0.0 || r.left == right - 200.0)
    ensures r.top == bottom + 6.0
    ensures r.openId == (if d.openId == Some(id) then None else Some(id))
  {
    Dots(if d.openId == Some(id) then None else Some(id), bottom + 6.0, if right - 200.0 > 0.0 then right - 200.0 else 0.0)
  }

  /** Clicking a row's button twice closes a menu it opened; clicking another row's button
      moves the menu there. */
  lemma DotsToggle(d: Dots, id: string, other: string, bottom: real, right: real)
    requires d.openId.None? && id != other
    ensures OpenDots(OpenDots(d, id, bottom, right), id, bottom, right).openId == None
    ensures OpenDots(OpenDots(d, id, bottom, right), other, bottom, right).openId == Some(other)
  {
  }

  /** The message in place of rows when none are shown. */
  function EmptyMessage(quotes: seq<Quote>, filter: string, search: string): (r: Option<string>)
    ensures r.Some? <==> |Filtered(quotes, filter, search)| == 0
    ensures r.Some? ==> r.value == (if Truthy(search) then "No results for that search." else "No quotes yet.")
  {
    if |Filtered(quotes, filter, search)| == 0 then
      Some(if Truthy(search) then "No results for that search." else "No quotes yet.")
    else None
  }

  /** With quotes present and no search, the "All" tab is never empty. */
  lemma AllTabNotEmpty(quotes: seq<Quote>)
    requires |quotes| > 0
    ensures EmptyMessage(quotes, "all", "").None?
  {
  }
}
