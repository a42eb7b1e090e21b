/** The team panel (src/components/settings/TeamsPanel.tsx): adding a member replaces the
    list with the server's, removing one filters it by user id, and owners are never offered
    a Remove button. The API calls and the confirmation dialog are inputs. */
module Teams {
  import opened Wrappers
  import opened Domain
  import opened Text
  import opened SeqOps

  /** A member row; `role` is whatever the server reports (`owner`, `admin` or `member`). */
  datatype Member = Member(id: string, userId: string, email: Option<string>, role: string)

  /** The roles the invite form offers. */
  datatype Role = MemberRole | AdminRole {
    function Name(): string {
      match this
      case MemberRole => "member"
      case AdminRole => "admin"
    }
  }

  /** The panel's state: the caller's team (if any), its members and the invite form. */
  datatype Panel = Panel(team: Option<string>, members: seq<Member>, email: string, role: Role, adding: bool)

  /** The panel as first rendered: no team loaded, the invite role set to member. */
  function Initial(): (r: Panel)
    ensures r.role.Name() == "member" && r.email == "" && r.members == [] && r.team.None?
  {
    Panel(None, [], "", MemberRole, false)
  }

  /** The invitation sent by Add: team id, trimmed email and role; none without a team or
      with a blank email. */
  function AddCall(p: Panel): (r: Option<(string, string, string)>)
    ensures r.Some? <==> p.team.Some? && !IsBlank(p.email)
    ensures r.Some? ==> r.value == (p.team.value, Trim(p.email), p.role.Name())
  {
    if p.team.None? || IsBlank(p.email) then None else Some((p.team.value, Trim(p.email), p.role.Name()))
  }

  /** `handleAdd`: on success the list becomes the server's and the email is cleared; on
      failure both stay and an error is reported. */
  function HandleAdd(p: Panel, outcome: Result<seq<Member>, Thrown>): (r: (Panel, Option<string>))
    ensures AddCall(p).None? ==> r == (p, None)
    ensures AddCall(p).Some? && outcome.Success? ==>
      r.0 == p.(members := outcome.value, email := "", adding := false) && r.1.None?
    ensures AddCall(p).Some? && outcome.Failure? ==>
      r.0 == p.(adding := false) && r.1 == Some(MessageOr(outcome.error, "Failed to add member"))
  {
    if AddCall(p).None? then (p, None)
    else match outcome
      case Success(ms) => (p.(members := ms, email := "", adding := false), None)
      case Failure(e) => (p.(adding := false), Some(MessageOr(e, "Failed to add member")))
  }

  /** The user id members are removed by. */
  function UserIdOf(m: Member): string { m.userId }

  /** `handleRemove`: with a team and a confirmed dialog, a successful call drops every row of
      that user and keeps the rest in order. */
  function HandleRemove(p: Panel, userId: string, confirmed: bool, outcome: Result<(), Thrown>): (r: (Panel, Option<string>))
    ensures p.team.None? || !confirmed ==> r == (p, None)
    ensures p.team.Some? && confirmed && outcome.Success? ==>
      && IsSubsequence(r.0.members, p.members)
      && (forall m :: m in r.0.members <==> m in p.members && m.userId != userId)
      && r.0 == p.(members := r.0.members) && r.1.None?
    ensures p.team.Some? && confirmed && outcome.Failure? ==>
      r.0 == p && r.1 == Some(MessageOr(outcome.error, "Failed to remove member"))
  {
    if p.team.None? || !confirmed then (p, None)
    else match outcome
      case Success(_) => (p.(members := RemoveKey(p.members, UserIdOf, userId)), None)
      case Failure(e) => (p, Some(MessageOr(e, "Failed to remove member")))
  }

  /** A row offers Remove unless it is the owner's. */
  predicate ShowsRemove(m: Member) {
    m.role != "owner"
  }

  /** The label of a row: the member's email, or their user id when the email is missing. */
  function RowLabel(m: Member): string {
    m.email.GetOr(m.userId)
  }

  /** Removing through a row's button never removes an owner whose user id differs from that
      row's, so with distinct user ids every owner survives. */
  lemma OwnersSurviveRemoval(p: Panel, i: int, outcome: Result<(), Thrown>)
    requires 0 <= i < |p.members| && ShowsRemove(p.members[i])
    requires forall a, b :: 0 <= a < b < |p.members| ==> p.members[a].userId != p.members[b].userId
    ensures forall o :: o in p.members && o.role == "owner" ==>
      o in HandleRemove(p, p.members[i].userId, true, outcome).0.members
  {
  }
}
