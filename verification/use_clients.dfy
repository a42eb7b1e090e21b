/** The client-list hook (src/hooks/useClients.ts): loading the list, and keeping it in step
    with creations and deletions once the server has confirmed them. Each API call's outcome
    is an input; a rejected call rejects the hook's function too. */
module UseClients {
  import opened Wrappers
  import opened Domain
  import opened SeqOps

  /** The hook's state. */
  datatype State = State(clients: seq<Client>, loading: bool, error: Option<string>)

  /** `load`: the server's list replaces the old one; a failure keeps the old list and records
      the error. A success does not clear an earlier error. */
  function Load(s: State, outcome: Result<seq<Client>, Thrown>): (r: State)
    ensures !r.loading
    ensures outcome.Success? ==> r.clients == outcome.value && r.error == s.error
    ensures outcome.Failure? ==> r.clients == s.clients && r.error == Some(MessageOr(outcome.error, "Failed to load clients"))
  {
    match outcome
    case Success(data) => s.(clients := data, loading := false)
    case Failure(e) => s.(error := Some(MessageOr(e, "Failed to load clients")), loading := false)
  }

  /** `create`: the new client goes in front of the list and is returned; a failure changes
      nothing and is passed on. */
  function Create(s: State, outcome: Result<Client, Thrown>): (r: (State, Result<Client, Thrown>))
    ensures r.1 == outcome
    ensures outcome.Success? ==> r.0 == s.(clients := [outcome.value] + s.clients)
    ensures outcome.Failure? ==> r.0 == s
  {
    match outcome
    case Success(c) => (s.(clients := [c] + s.clients), outcome)
    case Failure(_) => (s, outcome)
  }

  /** The id clients are removed by. */
  function ClientId(c: Client): string { c.id }

  /** `remove`: after the delete succeeds every client with that id leaves the list and the
      others keep their order; a failure changes nothing and is passed on. */
  function Remove(s: State, id: string, outcome: Result<(), Thrown>): (r: (State, Option<Thrown>))
    ensures outcome.Failure? ==> r == (s, Some(outcome.error))
    ensures outcome.Success? ==>
      && r.1.None?
      && r.0 == s.(clients := r.0.clients)
      && IsSubsequence(r.0.clients, s.clients)
      && (forall c :: c in r.0.clients <==> c in s.clients && c.id != id)
  {
    match outcome
    case Success(_) => (s.(clients := RemoveKey(s.clients, ClientId, id)), None)
    case Failure(e) => (s, Some(e))
  }

  /** Deleting a client just created, under a fresh id, restores the list. */
  lemma CreateThenRemove(s: State, c: Client)
    requires forall i :: 0 <= i < |s.clients| ==> s.clients[i].id != c.id
    ensures Remove(Create(s, Success(c)).0, c.id, Success(())).0 == s
  {
    PrependThenRemove(c, s.clients, ClientId);
  }

  /** Deleting an id no client has leaves the list as it is. */
  lemma RemoveUnknownId(s: State, id: string)
    requires forall i :: 0 <= i < |s.clients| ==> s.clients[i].id != id
    ensures Remove(s, id, Success(())).0 == s
  {
    RemoveAbsentKey(s.clients, ClientId, id);
  }
}
