/** The API-key panel (src/components/settings/ApiKeysPanel.tsx): creating a key shows its
    secret once and prepends the key to the list; revoking filters it out. The API calls and
    the confirmation dialog are inputs. */
module ApiKeys {
  import opened Wrappers
  import opened Domain
  import opened Text
  import opened Plans
  import opened SeqOps

  /** A key as listed: the secret itself is never part of the list. */
  datatype ApiKey = ApiKey(id: string, userId: string, name: string, createdAt: string)

  /** What creation returns: the listed fields plus the secret, shown once. */
  datatype Created = Created(id: string, name: string, createdAt: string, key: string)

  /** The panel's state. */
  datatype Panel = Panel(keys: seq<ApiKey>, name: string, creating: bool, newKey: Option<string>)

  const BusinessRequiredMessage: string := "API keys require a Business plan."

  /** The key's id, the field keys are removed by. */
  function IdOf(k: ApiKey): string { k.id }

  /** The name sent to the create call, if the call is made at all. */
  function CreateCall(p: Panel): (r: Option<string>)
    ensures r.None? <==> IsBlank(p.name)
    ensures r.Some? ==> r.value == Trim(p.name) && r.value != ""
  {
    if IsBlank(p.name) then None else Some(Trim(p.name))
  }

  /** The message reported for a failed creation: the plan error gets its own wording. */
  function CreateError(e: Thrown): (r: string)
    ensures HasCode(e, "business_required") ==> r == BusinessRequiredMessage
    ensures !HasCode(e, "business_required") ==> r == MessageOr(e, "Failed to create API key")
  {
    if HasCode(e, "business_required") then BusinessRequiredMessage else MessageOr(e, "Failed to create API key")
  }

  /** `handleCreate`: the panel afterwards and the error reported, if any. */
  function HandleCreate(p: Panel, outcome: Result<Created, Thrown>): (r: (Panel, Option<string>))
    ensures IsBlank(p.name) ==> r == (p, None)
    ensures !IsBlank(p.name) ==> !r.0.creating
    ensures !IsBlank(p.name) && outcome.Success? ==>
      var c := outcome.value;
      && r.0.keys == [ApiKey(c.id, "", c.name, c.createdAt)] + p.keys
      && r.0.newKey == Some(c.key)
      && r.0.name == ""
      && r.1.None?
    ensures !IsBlank(p.name) && outcome.Failure? ==>
      && r.0.keys == p.keys
      && r.0.newKey.None?
      && r.0.name == p.name
      && r.1 == Some(CreateError(outcome.error))
  {
    if IsBlank(p.name) then (p, None)
    else
      var cleared := p.(creating := true, newKey := None);
      match outcome
      case Success(c) =>
        (cleared.(keys := [ApiKey(c.id, "", c.name, c.createdAt)] + p.keys, newKey := Some(c.key),
                  name := "", creating := false), None)
      case Failure(e) =>
        (cleared.(creating := false), Some(CreateError(e)))
  }

  /** `handleRevoke`: nothing happens unless the user confirms; on success the key with that
      id leaves the list and any shown secret is hidden. */
  function HandleRevoke(p: Panel, id: string, confirmed: bool, outcome: Result<(), Thrown>): (r: (Panel, Option<string>))
    ensures !confirmed ==> r == (p, None)
    ensures confirmed && outcome.Success? ==>
      && IsSubsequence(r.0.keys, p.keys)
      && (forall k :: k in r.0.keys <==> k in p.keys && k.id != id)
      && r.0.newKey.None? && r.0.name == p.name && r.1.None?
    ensures confirmed && outcome.Failure? ==>
      r.0 == p && r.1 == Some(MessageOr(outcome.error, "Failed to revoke key"))
  {
    if !confirmed then (p, None)
    else match outcome
      case Success(_) => (p.(keys := RemoveKey(p.keys, IdOf, id), newKey := None), None)
      case Failure(e) => (p, Some(MessageOr(e, "Failed to revoke key")))
  }

  /** Creating a key with a new id and then revoking it leaves the list as it was, with no
      secret on show. */
  lemma CreateThenRevoke(p: Panel, c: Created)
    requires !IsBlank(p.name)
    requires forall i :: 0 <= i < |p.keys| ==> p.keys[i].id != c.id
    ensures var q := HandleCreate(p, Success(c)).0;
      HandleRevoke(q, c.id, true, Success(())).0 == p.(name := "", creating := false, newKey := None)
  {
    PrependThenRemove(ApiKey(c.id, "", c.name, c.createdAt), p.keys, IdOf);
  }
}
