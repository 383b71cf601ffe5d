// Member-row persistence: the merge every save applies, the three save
// operations on the table, and what a whole history of saves guarantees.

module MemberPersistence {
  import opened Membership

  // Normalisation every save performs before it looks at the stored row.
  function Prepare(member: Row, now: int): Row {
    member.(
      membership := Normalize(member.membership),
      joinedAt := if member.joinedAt == 0 then now else member.joinedAt
    )
  }

  function Merge(member: Row, existing: Row): Row {
    var keepTime :=
      existing.joinedAt > 0 &&
      !StartsNewRequest(existing.membership, member.membership) &&
      !(IsJoined(member.membership) && !IsJoined(existing.membership));
    var membership :=
      if IsRemoved(existing.membership) && HasLeft(member.membership)
      then existing.membership else member.membership;
    var keepOwner :=
      existing.role == Owner && !IsHidden(existing.membership) && !IsHidden(membership);
    member.(
      joinedAt := if keepTime then existing.joinedAt else member.joinedAt,
      requester := if member.requester == "" then existing.requester else member.requester,
      request := FirstSet(member.request, existing.request),
      membership := membership,
      role := if keepOwner then Owner else member.role
    )
  }

  // A blank expected membership matches any row of the generation. The service compares
  // the expectation as it is given and the store a normalised one, so an expected
  // "joined" matches no row.
  predicate Matches(row: Row, request: RequestId, membership: Membership) {
    row.request == request && (membership == Unset || row.membership == membership == Normalize(membership))
  }

  datatype Save =
    | Always(member: Row, now: int)
    | IfAbsent(member: Row, now: int)
    | IfState(member: Row, now: int, request: RequestId, membership: Membership)

  predicate Accepts(stored: Option<Row>, s: Save) {
    match s
    case Always(_, _) => true
    case IfAbsent(_, _) => stored.None?
    case IfState(_, _, request, membership) => stored.Some? && Matches(stored.value, request, membership)
  }

  // A save lands always, without a row, or exactly on a row of the generation expected
  // that is in the membership expected, if one is.
  lemma SavesLandExactly(stored: Option<Row>, s: Save)
    ensures Accepts(stored, s) <==>
              s.Always? || (s.IfAbsent? && stored.None?) ||
              (s.IfState? && stored.Some? && stored.value.request == s.request &&
               (s.membership != Unset ==> s.membership != Joined && stored.value.membership == s.membership))
  {
  }

  // Rows without a room or a user are never looked up, so a plain save of such a
  // row replaces it without merging.
  predicate Addressed(s: Save) {
    s.member.room != "" && s.member.user != ""
  }

  predicate AllAddressed(saves: seq<Save>) {
    forall i | 0 <= i < |saves| :: Addressed(saves[i])
  }

  // The row after one save of that row.
  function Apply(stored: Option<Row>, s: Save): Option<Row> {
    if !Accepts(stored, s) then stored
    else if stored.None? || (s.Always? && !Addressed(s)) then Some(Prepare(s.member, s.now))
    else Some(Merge(Prepare(s.member, s.now), stored.value))
  }

  function ApplyAll(stored: Option<Row>, saves: seq<Save>): Option<Row> {
    if saves == [] then stored
    else Apply(ApplyAll(stored, saves[..|saves| - 1]), saves[|saves| - 1])
  }

  type Key = (string, string)

  function KeyOf(member: Row): Key {
    (member.room, member.user)
  }

  class MemberTable {
    var rows: map<Key, Row>

    constructor ()
      ensures rows == map[]
    {
      rows := map[];
    }

    function Stored(key: Key): Option<Row>
      reads this
    {
      if key in rows then Some(rows[key]) else None
    }

    ghost predicate Valid()
      reads this
    {
      forall key | key in rows :: KeyOf(rows[key]) == key && rows[key].membership != Joined
    }

    method Save(s: Save) returns (saved: bool)
      requires Valid()
      modifies this
      ensures Valid()
      ensures saved == Accepts(old(Stored(KeyOf(s.member))), s)
      ensures saved ==> rows == old(rows)[KeyOf(s.member) := Apply(old(Stored(KeyOf(s.member))), s).value]
      ensures !saved ==> rows == old(rows)
    {
      var key := KeyOf(s.member);
      var member := s.member.(membership := Normalize(s.member.membership));
      if member.joinedAt == 0 {
        member := member.(joinedAt := s.now);
      }
      if s.IfAbsent? {
        if key in rows {
          return false;
        }
        rows := rows[key := member];
        return true;
      }
      if s.IfState? && (key !in rows || rows[key].request != s.request ||
                        (s.membership != Unset && rows[key].membership != s.membership)) {
        return false;
      }
      if key in rows && (s.IfState? || (member.room != "" && member.user != "")) {
        member := MergeInto(member, rows[key]);
      }
      rows := rows[key := member];
      return true;
    }
  }

  // The in-place edits of the incoming record, in the order they are made.
  method MergeInto(incoming: Row, existing: Row) returns (member: Row)
    ensures member == Merge(incoming, existing)
  {
    member := incoming;
    var joinedNow := IsJoined(member.membership);
    var wasJoined := IsJoined(existing.membership);
    if existing.joinedAt > 0 && !StartsNewRequest(existing.membership, member.membership) &&
       !(joinedNow && !wasJoined) {
      member := member.(joinedAt := existing.joinedAt);
    }
    if member.requester == "" {
      member := member.(requester := existing.requester);
    }
    if member.request == Blank {
      member := member.(request := existing.request);
    }
    if IsRemoved(existing.membership) && HasLeft(member.membership) {
      member := member.(membership := existing.membership);
    }
    if existing.role == Owner && member.role != Owner &&
       !IsHidden(existing.membership) && !IsHidden(member.membership) {
      member := member.(role := existing.role);
    }
  }

  // ---- Histories ----

  // The i-th row of the history that starts at stored.
  function At(stored: Option<Row>, saves: seq<Save>, i: nat): Option<Row>
    requires i <= |saves|
  {
    ApplyAll(stored, saves[..i])
  }

  lemma AtStep(stored: Option<Row>, saves: seq<Save>, i: nat)
    requires i < |saves|
    ensures At(stored, saves, i + 1) == Apply(At(stored, saves, i), saves[i])
  {
    assert saves[..i + 1][..i] == saves[..i];
  }

  // Rows are never deleted and a generation, once stored, is never erased.
  lemma {:induction false} GenerationNeverErased(stored: Option<Row>, saves: seq<Save>, i: nat, j: nat)
    requires i <= j <= |saves| && AllAddressed(saves)
    requires At(stored, saves, i).Some?
    ensures At(stored, saves, j).Some?
    ensures At(stored, saves, i).value.request != Blank ==> At(stored, saves, j).value.request != Blank
    decreases j
  {
    if i < j {
      GenerationNeverErased(stored, saves, i, j - 1);
      AtStep(stored, saves, j - 1);
    }
  }

  predicate RestartsClock(before: Row, after: Row) {
    StartsNewRequest(before.membership, after.membership) ||
    (!IsJoined(before.membership) && IsJoined(after.membership))
  }

  // What a merged save leaves of the two rows: the membership named, but a removal is not
  // downgraded to a plain leave; the join time stored, but that of the save where it
  // starts a new request or joins afresh; the generation and requester named, and the
  // stored ones where none is; and the owner's role, while the owner stays visible.
  lemma MergedRowIs(stored: Row, s: Save)
    requires Accepts(Some(stored), s) && (s.Always? ==> Addressed(s))
    ensures var row, m := Apply(Some(stored), s).value, s.member;
            (if IsRemoved(stored.membership) && HasLeft(m.membership) then row.membership == stored.membership
             else row.membership == if m.membership == Joined then Join else m.membership) &&
            (if stored.joinedAt > 0 && !RestartsClock(stored, row) then row.joinedAt == stored.joinedAt
             else row.joinedAt == if m.joinedAt != 0 then m.joinedAt else s.now) &&
            (m.request != Blank ==> row.request == m.request) &&
            (m.request == Blank ==> row.request == stored.request) &&
            (m.requester != "" ==> row.requester == m.requester) &&
            (m.requester == "" ==> row.requester == stored.requester) &&
            (row.role == Owner <==>
              m.role == Owner ||
              (stored.role == Owner && !IsHidden(stored.membership) && !IsHidden(row.membership))) &&
            KeyOf(row) == KeyOf(m) && row.channel == m.channel && row.profile == m.profile && row.muted == m.muted
  {
  }

  // If a positive join time differs later on, then some save in between started
  // a new request or moved the member freshly into "join".
  lemma {:induction false} JoinTimeOnlyRestarts(stored: Option<Row>, saves: seq<Save>, i: nat, j: nat) returns (k: nat)
    requires i <= j <= |saves| && AllAddressed(saves)
    requires At(stored, saves, i).Some? && At(stored, saves, i).value.joinedAt > 0
    requires At(stored, saves, j) == None || At(stored, saves, j).value.joinedAt != At(stored, saves, i).value.joinedAt
    ensures i <= k < j
    ensures At(stored, saves, k).Some? && At(stored, saves, k + 1).Some?
    ensures RestartsClock(At(stored, saves, k).value, At(stored, saves, k + 1).value)
    decreases j - i
  {
    assert i < j;
    AtStep(stored, saves, i);
    if RestartsClock(At(stored, saves, i).value, At(stored, saves, i + 1).value) {
      k := i;
    } else {
      k := JoinTimeOnlyRestarts(stored, saves, i + 1, j);
    }
  }

  // A row that was removed or banned and is later plainly "left" was re-admitted
  // in between: the removal itself is never downgraded.
  lemma {:induction false} RemovalNeverDowngraded(stored: Option<Row>, saves: seq<Save>, i: nat, j: nat)
      returns (k: nat)
    requires i <= j <= |saves| && AllAddressed(saves)
    requires At(stored, saves, i).Some? && IsRemoved(At(stored, saves, i).value.membership)
    requires At(stored, saves, j).Some? && HasLeft(At(stored, saves, j).value.membership)
    ensures i < k < j && At(stored, saves, k).Some?
    ensures !IsRemoved(At(stored, saves, k).value.membership) && !HasLeft(At(stored, saves, k).value.membership)
    decreases j - i
  {
    AtStep(stored, saves, i);
    var next := At(stored, saves, i + 1).value;
    if IsRemoved(next.membership) {
      k := RemovalNeverDowngraded(stored, saves, i + 1, j);
    } else {
      k := i + 1;
    }
  }

  // An owner that is later not the owner was hidden (left, removed, rejected)
  // at some point: visible writes alone never demote a visible owner.
  lemma {:induction false} OwnerNeverDemotedWhileVisible(stored: Option<Row>, saves: seq<Save>, i: nat, j: nat)
      returns (k: nat)
    requires i <= j <= |saves| && AllAddressed(saves)
    requires At(stored, saves, i).Some? && At(stored, saves, i).value.role == Owner
    requires At(stored, saves, j).Some? && At(stored, saves, j).value.role != Owner
    ensures i <= k <= j && At(stored, saves, k).Some? && IsHidden(At(stored, saves, k).value.membership)
    decreases j - i
  {
    AtStep(stored, saves, i);
    var row, next := At(stored, saves, i).value, At(stored, saves, i + 1).value;
    if IsHidden(row.membership) {
      k := i;
    } else if IsHidden(next.membership) {
      k := i + 1;
    } else {
      k := OwnerNeverDemotedWhileVisible(stored, saves, i + 1, j);
    }
  }

  // The laws above are about addressed rows only. A plain save of a row without a room
  // or without a user replaces it: it can erase the generation, move the join time and
  // demote the owner of a visible row, and downgrade a removal, all in one save.
  lemma UnaddressedRowsBreakTheLaws(stored: Row, removed: Row, now: int) returns (s: Save, d: Save)
    requires stored.room == "" || stored.user == ""
    requires stored.request != Blank && stored.role == Owner && stored.membership == Join && stored.joinedAt > 0
    requires (removed.room == "" || removed.user == "") && IsRemoved(removed.membership)
    ensures KeyOf(s.member) == KeyOf(stored) && KeyOf(d.member) == KeyOf(removed)
    ensures var row := Apply(Some(stored), s).value;
            row.request == Blank && row.role != Owner && !IsHidden(row.membership) &&
            row.joinedAt != stored.joinedAt && !RestartsClock(stored, row)
    ensures HasLeft(Apply(Some(removed), d).value.membership)
  {
    s := Always(stored.(request := Blank, role := Ordinary, joinedAt := stored.joinedAt + 1), now);
    d := Always(removed.(membership := Left), now);
  }

  // Each law is broken, in one save, exactly by a plain save of such a row that says so:
  // the owner by one that leaves the row visible under another role,
  lemma OwnerDemotedExactly(stored: Row, s: Save)
    requires stored.role == Owner && !IsHidden(stored.membership)
    ensures var row := Apply(Some(stored), s).value;
            row.role != Owner && !IsHidden(row.membership) <==>
              s.Always? && !Addressed(s) && s.member.role != Owner && !IsHidden(s.member.membership)
  {
  }

  // a removal by one that says left,
  lemma RemovalDowngradedExactly(stored: Row, s: Save)
    requires IsRemoved(stored.membership)
    ensures HasLeft(Apply(Some(stored), s).value.membership) <==>
              s.Always? && !Addressed(s) && HasLeft(s.member.membership)
  {
  }

  // the join time by one that brings another without a restart,
  lemma JoinTimeMovedExactly(stored: Row, s: Save)
    requires stored.joinedAt > 0
    ensures var row := Apply(Some(stored), s).value;
            var prepared := Prepare(s.member, s.now);
            row.joinedAt != stored.joinedAt && !RestartsClock(stored, row) <==>
              s.Always? && !Addressed(s) && prepared.joinedAt != stored.joinedAt && !RestartsClock(stored, prepared)
  {
  }

  // and a stored generation by a plain save of such a row that names none.
  lemma GenerationErasedExactly(stored: Row, s: Save)
    requires stored.request != Blank
    ensures Apply(Some(stored), s).value.request == Blank <==> s.Always? && !Addressed(s) && s.member.request == Blank
  {
  }
}
