// Membership values, request generations and member rows.
//
// Strings that the service trims and case-folds are datatypes here. A request
// generation is a term: the truncated SHA-256 that derives the next public-join
// generation from the current one is the injective constructor JoinGeneration.

module Membership {

  datatype Option<+T> = None | Some(value: T)

  datatype Membership =
    | Unset
    | Pending
    | Approved
    | Joining
    | JoinFailed
    | Invite
    | Join
    | Joined
    | Reject
    | Rejected
    | Leave
    | Left
    | Remove
    | Removed
    | Ban
    | Banned
    | Other(text: string)

  datatype Role = Owner | Ordinary

  // "joined" is an operation status; the stored membership is "join".
  function Normalize(m: Membership): Membership {
    if m == Joined then Join else m
  }

  predicate IsJoined(m: Membership) {
    m == Join
  }

  predicate IsRemoved(m: Membership) {
    m in {Remove, Removed, Ban, Banned}
  }

  predicate HasLeft(m: Membership) {
    m in {Leave, Left}
  }

  predicate IsHidden(m: Membership) {
    IsRemoved(m) || HasLeft(m) || m in {Reject, Rejected}
  }

  // A terminal row: a new public-join request may start the next generation.
  predicate MayRestart(m: Membership) {
    m in {Reject, Rejected, Leave, Left}
  }

  predicate StartsNewRequest(previous: Membership, next: Membership) {
    next in {Invite, Pending} && previous !in {Invite, Pending, Approved, Joining, JoinFailed}
  }

  // Memberships from which a retained-room Matrix join may be claimed.
  predicate JoinClaimable(m: Membership) {
    m in {Invite, Pending, Approved, Joining, JoinFailed, Join}
  }

  // The stored memberships fall into those a join can still be claimed from and the hidden
  // ones, and these into removals, which only an owner undoes, and the terminal ones. A
  // new request starts from a hidden row or one that has joined.
  lemma MembershipClasses(m: Membership)
    requires m !in {Unset, Joined} && !m.Other?
    ensures IsHidden(m) <==> !JoinClaimable(m)
    ensures IsHidden(m) <==> IsRemoved(m) || MayRestart(m)
    ensures !(IsRemoved(m) && MayRestart(m))
    ensures HasLeft(m) <==> MayRestart(m) && m !in {Reject, Rejected}
    ensures forall next :: StartsNewRequest(m, next) <==> next in {Invite, Pending} && (IsHidden(m) || IsJoined(m))
    ensures Normalize(m) == m && Normalize(Joined) == Join
  {
  }

  datatype RequestId =
    | Blank
    | External(name: string)
    | JoinGeneration(room: string, channel: string, user: string, base: RequestId)
    | TargetDigest(target: string, scope: string, member: string, peer: string)
    | JoinTime(millis: int)
    | ContactCreate(operation: string)
    | ContactAfterDelete(contact: string, deleted: RequestId)

  function FirstSet(a: RequestId, b: RequestId): RequestId {
    if a != Blank then a else b
  }

  // The generation g was derived, in one or more steps, from the generation prior.
  predicate Later(g: RequestId, prior: RequestId) {
    (prior == Blank && g != Blank) ||
    (g.JoinGeneration? && (g.base == prior || Later(g.base, prior)))
  }

  // One member row never goes back: it keeps its generation or moves to a later one.
  predicate Advances(from: RequestId, to: RequestId) {
    from == to || Later(to, from)
  }

  function ChainLength(g: RequestId): nat {
    match g
    case Blank => 0
    case JoinGeneration(_, _, _, base) => 1 + ChainLength(base)
    case _ => 1
  }

  // A later generation sits strictly further along the chain, so no generation
  // is ever later than itself and two generations are never each later than the other.
  lemma {:induction false} LaterIsLonger(g: RequestId, prior: RequestId)
    requires Later(g, prior)
    ensures ChainLength(g) > ChainLength(prior)
    ensures g != prior && !Later(prior, g)
  {
    LaterLength(g, prior);
    if Later(prior, g) {
      LaterLength(prior, g);
    }
  }

  lemma {:induction false} LaterLength(g: RequestId, prior: RequestId)
    requires Later(g, prior)
    ensures ChainLength(g) > ChainLength(prior)
  {
    if g.JoinGeneration? && g.base != prior && Later(g.base, prior) {
      LaterLength(g.base, prior);
    }
  }

  lemma {:induction false} LaterTransitive(a: RequestId, b: RequestId, c: RequestId)
    requires Later(a, b) && Later(b, c)
    ensures Later(a, c)
  {
    if b == Blank {
      LaterLength(b, c);
    } else if c != Blank && a.base != b {
      LaterTransitive(a.base, b, c);
    }
  }

  datatype Row = Row(
    room: string,
    user: string,
    channel: string,
    profile: string,
    membership: Membership,
    role: Role,
    muted: bool,
    joinedAt: int,
    requester: string,
    request: RequestId
  )
}
