/** The quote-list hook (src/hooks/useQuotes.ts): loading the list, and keeping it in step
    with duplications and deletions once the server has confirmed them. Each API call's
    outcome is an input; a rejected call rejects the hook's function too. */
module UseQuotes {
  import opened Wrappers
  import opened Domain
  import opened SeqOps
  import Api

  /** The hook's state. */
  datatype State = State(quotes: seq<Quote>, loading: bool, error: Option<string>)

  /** The request `load` makes: the list endpoint with the hook's status filter. */
  function LoadPath(statusFilter: Option<string>): (r: string)
    ensures r == Api.QuotesListPath(statusFilter, None)
    ensures r == "/quotes" <==> !TruthyOpt(statusFilter) || statusFilter.value == "all"
  {
    Api.QuotesListPath(statusFilter, None)
  }

  /** `load`: the server's list replaces the old one; a failure keeps the old list and records
      the error. A success does not clear an earlier error. */
  function Load(s: State, outcome: Result<seq<Quote>, Thrown>): (r: State)
    ensures !r.loading
    ensures outcome.Success? ==> r.quotes == outcome.value && r.error == s.error
    ensures outcome.Failure? ==> r.quotes == s.quotes && r.error == Some(MessageOr(outcome.error, "Failed to load quotes"))
  {
    match outcome
    case Success(data) => s.(quotes := data, loading := false)
    case Failure(e) => s.(error := Some(MessageOr(e, "Failed to load quotes")), loading := false)
  }

  /** `duplicate`: the copy goes in front of the list and is returned; a failure changes
      nothing and is passed on. */
  function Duplicate(s: State, outcome: Result<Quote, Thrown>): (r: (State, Result<Quote, Thrown>))
    ensures r.1 == outcome
    ensures outcome.Success? ==> r.0 == s.(quotes := [outcome.value] + s.quotes)
    ensures outcome.Failure? ==> r.0 == s
  {
    match outcome
    case Success(q) => (s.(quotes := [q] + s.quotes), outcome)
    case Failure(_) => (s, outcome)
  }

  /** The id quotes are removed by. */
  function QuoteId(q: Quote): string { q.id }

  /** `remove`: after the delete succeeds every quote with that id leaves the list and the
      others keep their order; a failure changes nothing and is passed on. */
  function Remove(s: State, id: string, outcome: Result<(), Thrown>): (r: (State, Option<Thrown>))
    ensures outcome.Failure? ==> r == (s, Some(outcome.error))
    ensures outcome.Success? ==>
      && r.1.None?
      && r.0 == s.(quotes := r.0.quotes)
      && IsSubsequence(r.0.quotes, s.quotes)
      && (forall q :: q in r.0.quotes <==> q in s.quotes && q.id != id)
  {
    match outcome
    case Success(_) => (s.(quotes := RemoveKey(s.quotes, QuoteId, id)), None)
    case Failure(e) => (s, Some(e))
  }

  /** Deleting a fresh duplicate undoes the duplication. */
  lemma DuplicateThenRemove(s: State, q: Quote)
    requires forall i :: 0 <= i < |s.quotes| ==> s.quotes[i].id != q.id
    ensures Remove(Duplicate(s, Success(q)).0, q.id, Success(())).0 == s
  {
    PrependThenRemove(q, s.quotes, QuoteId);
  }
}
