// Compare-and-swap fencing of one member row.
//
// Every fenced writer reads the row, merges into what it read and then swaps on
// (generation, membership). Writers of several processes interleave between the
// two steps; the in-process write lock is a restriction on that interleaving.

module Fencing {
  import opened Membership
  import opened MemberPersistence

  type Tid = nat

  datatype Intent = Intent(member: Row, request: RequestId, membership: Membership, now: int)

  datatype Pc =
    | Idle
    | Staged(intent: Intent, merged: Row)
    | Saved(intent: Intent)
    | Refused(intent: Intent)
    | Answered(intent: Intent, current: Option<Row>)

  datatype World = World(row: Option<Row>, threads: map<Tid, Pc>)

  datatype Step = Begin(t: Tid, intent: Intent) | Commit(t: Tid) | Reread(t: Tid) | Finish(t: Tid)

  function PcOf(w: World, t: Tid): Pc {
    if t in w.threads then w.threads[t] else Idle
  }

  predicate Expected(row: Option<Row>, i: Intent) {
    row.Some? && Matches(row.value, i.request, i.membership)
  }

  predicate Enabled(w: World, s: Step) {
    match s
    case Begin(t, _) => PcOf(w, t).Idle?
    case Commit(t) => PcOf(w, t).Staged?
    case Reread(t) => PcOf(w, t).Refused?
    case Finish(t) => PcOf(w, t).Saved? || PcOf(w, t).Answered?
  }

  function Next(w: World, s: Step): World
    requires Enabled(w, s)
  {
    match s
    case Begin(t, i) =>
      w.(threads := w.threads[t :=
        if Expected(w.row, i) then Staged(i, Merge(Prepare(i.member, i.now), w.row.value)) else Refused(i)])
    case Commit(t) =>
      var pc := PcOf(w, t);
      if Expected(w.row, pc.intent)
      then World(Some(pc.merged), w.threads[t := Saved(pc.intent)])
      else w.(threads := w.threads[t := Refused(pc.intent)])
    case Reread(t) =>
      w.(threads := w.threads[t := Answered(PcOf(w, t).intent, w.row)])
    case Finish(t) =>
      w.(threads := w.threads[t := Idle])
  }

  // The generation an accepted write leaves behind.
  function WrittenRequest(i: Intent): RequestId {
    FirstSet(i.member.request, i.request)
  }

  // A disciplined writer keeps the generation it expects or moves to a later one.
  predicate Disciplined(i: Intent) {
    Advances(i.request, WrittenRequest(i))
  }

  predicate AllBegin(steps: seq<Step>) {
    forall k | 0 <= k < |steps| && steps[k].Begin? :: Disciplined(steps[k].intent)
  }

  // A run starts with no writer under way and interleaves the writers in any order.
  predicate IsRun(ws: seq<World>, steps: seq<Step>) {
    |ws| == |steps| + 1 &&
    ws[0].threads == map[] &&
    forall k | 0 <= k < |steps| :: Enabled(ws[k], steps[k]) && ws[k + 1] == Next(ws[k], steps[k])
  }

  // Whatever is staged was merged from a row its writer expected.
  predicate Inv(w: World) {
    forall t | t in w.threads && w.threads[t].Staged? ::
      var i := w.threads[t].intent; w.threads[t].merged.request == WrittenRequest(i)
  }

  lemma {:induction false} RunInv(ws: seq<World>, steps: seq<Step>, k: nat)
    requires IsRun(ws, steps) && k < |ws|
    ensures Inv(ws[k])
  {
    if k > 0 {
      RunInv(ws, steps, k - 1);
      assert ws[k] == Next(ws[k - 1], steps[k - 1]);
    }
  }

  predicate DisciplinedThreads(w: World) {
    forall t | t in w.threads && w.threads[t].Staged? :: Disciplined(w.threads[t].intent)
  }

  lemma {:induction false} RunDiscipline(ws: seq<World>, steps: seq<Step>, k: nat)
    requires IsRun(ws, steps) && k < |ws| && AllBegin(steps)
    ensures DisciplinedThreads(ws[k])
  {
    if k > 0 {
      RunDiscipline(ws, steps, k - 1);
      assert ws[k] == Next(ws[k - 1], steps[k - 1]);
    }
  }

  // Every change of the row is a commit that found the row exactly at the
  // generation and membership its writer expected.
  lemma OnlyExpectedWritesLand(ws: seq<World>, steps: seq<Step>, k: nat)
    requires IsRun(ws, steps) && k < |steps|
    requires ws[k + 1].row != ws[k].row
    ensures steps[k].Commit?
    ensures var i := PcOf(ws[k], steps[k].t).intent;
            ws[k].row.Some? && Matches(ws[k].row.value, i.request, i.membership) &&
            ws[k + 1].row.Some? && ws[k + 1].row.value.request == WrittenRequest(i)
  {
    RunInv(ws, steps, k);
    assert ws[k + 1] == Next(ws[k], steps[k]);
  }

  // In every interleaving of disciplined writers the row's generation only advances.
  lemma {:induction false} GenerationsOnlyAdvance(ws: seq<World>, steps: seq<Step>, i: nat, j: nat)
    requires IsRun(ws, steps) && AllBegin(steps) && i <= j < |ws|
    requires ws[i].row.Some?
    ensures ws[j].row.Some? && Advances(ws[i].row.value.request, ws[j].row.value.request)
    decreases j
  {
    if i < j {
      GenerationsOnlyAdvance(ws, steps, i, j - 1);
      RunDiscipline(ws, steps, j - 1);
      if ws[j].row != ws[j - 1].row {
        OnlyExpectedWritesLand(ws, steps, j - 1);
        var a, b, c := ws[i].row.value.request, ws[j - 1].row.value.request, ws[j].row.value.request;
        if a != b && b != c {
          LaterTransitive(c, b, a);
        }
      }
    }
  }

  // Once the row has moved past generation g, a writer that expects g never
  // alters it again, at any later point of any run, and what its caller then
  // answers is a row of a later generation.
  lemma StaleWriterChangesNothing(ws: seq<World>, steps: seq<Step>, i: nat, j: nat, g: RequestId)
    requires IsRun(ws, steps) && AllBegin(steps) && i <= j < |steps|
    requires ws[i].row.Some? && Later(ws[i].row.value.request, g)
    requires steps[j].Commit? && PcOf(ws[j], steps[j].t).intent.request == g
    ensures ws[j + 1].row == ws[j].row
    ensures PcOf(ws[j + 1], steps[j].t).Refused?
    ensures var answer := Next(ws[j + 1], Reread(steps[j].t));
            var pc := PcOf(answer, steps[j].t);
            answer.row == ws[j].row && pc.Answered? && pc.current == ws[j].row &&
            ws[j].row.Some? && Later(ws[j].row.value.request, g)
  {
    GenerationsOnlyAdvance(ws, steps, i, j);
    var a, b := ws[i].row.value.request, ws[j].row.value.request;
    if a != b {
      LaterTransitive(b, a, g);
    }
    LaterIsLonger(b, g);
    assert ws[j + 1] == Next(ws[j], steps[j]);
  }

  // ---- What the in-process write lock adds ----

  // With the lock no writer starts while another has read and not yet swapped.
  predicate UnderLock(ws: seq<World>, steps: seq<Step>)
    requires IsRun(ws, steps)
  {
    forall k, t | 0 <= k < |steps| && steps[k].Begin? && t in ws[k].threads :: !ws[k].threads[t].Staged?
  }

  predicate Current(w: World) {
    forall t | t in w.threads && w.threads[t].Staged? ::
      var i := w.threads[t].intent;
      Expected(w.row, i) && w.threads[t].merged == Merge(Prepare(i.member, i.now), w.row.value) &&
      forall u | u in w.threads && w.threads[u].Staged? :: u == t
  }

  lemma {:induction false} LockedRunIsCurrent(ws: seq<World>, steps: seq<Step>, k: nat)
    requires IsRun(ws, steps) && UnderLock(ws, steps) && k < |ws|
    ensures Current(ws[k])
  {
    if k > 0 {
      LockedRunIsCurrent(ws, steps, k - 1);
      assert ws[k] == Next(ws[k - 1], steps[k - 1]);
    }
  }

  // Under the lock each commit is the atomic conditional save.
  lemma LockedCommitIsAtomic(ws: seq<World>, steps: seq<Step>, k: nat)
    requires IsRun(ws, steps) && UnderLock(ws, steps) && k < |steps| && steps[k].Commit?
    ensures var i := PcOf(ws[k], steps[k].t).intent;
            ws[k + 1].row == Apply(ws[k].row, IfState(i.member, i.now, i.request, i.membership))
  {
    LockedRunIsCurrent(ws, steps, k);
    assert ws[k + 1] == Next(ws[k], steps[k]);
  }

  predicate VisibleOwner(row: Option<Row>) {
    row.Some? && row.value.role == Owner && !IsHidden(row.value.membership)
  }

  predicate VisibleOther(row: Option<Row>) {
    row.Some? && row.value.role != Owner && !IsHidden(row.value.membership)
  }

  // What a writer has staged was merged from the row it read when it began.
  lemma {:induction false} StagedAtBegin(ws: seq<World>, steps: seq<Step>, k: nat, t: Tid) returns (b: nat)
    requires IsRun(ws, steps) && k < |ws| && PcOf(ws[k], t).Staged?
    ensures b < k && steps[b] == Begin(t, PcOf(ws[k], t).intent) && Expected(ws[b].row, PcOf(ws[k], t).intent)
    ensures var i := PcOf(ws[k], t).intent; PcOf(ws[k], t).merged == Merge(Prepare(i.member, i.now), ws[b].row.value)
  {
    assert ws[k] == Next(ws[k - 1], steps[k - 1]);
    if steps[k - 1].Begin? && steps[k - 1].t == t {
      b := k - 1;
    } else {
      b := StagedAtBegin(ws, steps, k - 1, t);
    }
  }

  // Exactly when a write that lands turns a visible owner into a visible other member:
  // the writer names no owner, leaves the row visible, and had read a row that was not
  // a visible owner. The row it read is the one its Begin saw.
  lemma DemotionIsExact(ws: seq<World>, steps: seq<Step>, k: nat) returns (b: nat)
    requires IsRun(ws, steps) && k < |steps| && steps[k].Commit? && PcOf(ws[k + 1], steps[k].t).Saved?
    ensures b < k && steps[b] == Begin(steps[k].t, PcOf(ws[k], steps[k].t).intent)
    ensures var i := PcOf(ws[k], steps[k].t).intent;
            VisibleOwner(ws[k].row) && VisibleOther(ws[k + 1].row) <==>
              VisibleOwner(ws[k].row) && i.member.role != Owner &&
                !IsHidden(PcOf(ws[k], steps[k].t).merged.membership) &&
              !VisibleOwner(ws[b].row)
  {
    assert ws[k + 1] == Next(ws[k], steps[k]);
    b := StagedAtBegin(ws, steps, k, steps[k].t);
  }

  // So it never happens under the lock, where the row read is the row replaced.
  lemma LockKeepsOwner(ws: seq<World>, steps: seq<Step>, k: nat)
    requires IsRun(ws, steps) && UnderLock(ws, steps) && k < |steps| && VisibleOwner(ws[k].row)
    ensures !VisibleOther(ws[k + 1].row)
  {
    assert ws[k + 1] == Next(ws[k], steps[k]);
    LockedRunIsCurrent(ws, steps, k);
  }

  // Across processes the lock does not hold, and the swap compares generation and
  // membership only: a visible owner can then be demoted by a visible write.
  lemma UnlockedMergeDemotesOwner(row: Row, now: int) returns (ws: seq<World>, steps: seq<Step>)
    requires row.membership == Join && row.role == Ordinary && row.request != Blank
    ensures IsRun(ws, steps) && AllBegin(steps) && ws[0].row == Some(row) && |steps| == 4
    ensures VisibleOwner(ws[3].row) && VisibleOther(ws[4].row)
  {
    var stay := Intent(row, row.request, Join, now);
    var promote := Intent(row.(role := Owner), row.request, Join, now);
    steps := [Begin(0, stay), Begin(1, promote), Commit(1), Commit(0)];
    var w0 := World(Some(row), map[]);
    var w1 := Next(w0, steps[0]);
    var w2 := Next(w1, steps[1]);
    var w3 := Next(w2, steps[2]);
    ws := [w0, w1, w2, w3, Next(w3, steps[3])];
  }

  // ---- Restarts by public joins ----

  // A public join restarts a terminal row under the generation of its operation.
  function RestartIntent(seen: Row, request: RequestId, now: int): Option<Intent> {
    if request != Blank && seen.request != request && MayRestart(seen.membership)
    then Some(Intent(seen.(request := request, joinedAt := now, membership := Pending),
                     seen.request, seen.membership, now))
    else None
  }

  // A restart advances the row exactly when the row it sees has no generation yet, or the
  // restart's generation was derived from one and the row is not past that one. A public
  // join on an active row takes the row's own id, which need not be derived.
  lemma RestartAdvancesExactly(seen: Row, request: RequestId, now: int)
    requires RestartIntent(seen, request, now).Some?
    ensures Disciplined(RestartIntent(seen, request, now).value) <==>
              seen.request == Blank || (request.JoinGeneration? && Advances(seen.request, request.base))
  {
  }

  // A restart that lands found the terminal row it saw, and leaves a pending request of
  // its own generation that has just begun.
  lemma RestartIsStored(ws: seq<World>, steps: seq<Step>, seen: Row, g: RequestId, i: nat)
    requires IsRun(ws, steps) && i < |steps| && steps[i].Commit? && PcOf(ws[i + 1], steps[i].t).Saved?
    requires RestartIntent(seen, g, PcOf(ws[i], steps[i].t).intent.now) == Some(PcOf(ws[i], steps[i].t).intent)
    ensures seen.membership in {Reject, Rejected, Leave, Left} && g !in {Blank, seen.request}
    ensures ws[i].row.Some? && ws[i].row.value.membership == seen.membership && ws[i].row.value.request == seen.request
    ensures var row, now := ws[i + 1].row, PcOf(ws[i], steps[i].t).intent.now;
            row.Some? && row.value.membership == Pending && row.value.request == g && row.value.joinedAt == now
  {
    assert ws[i + 1] == Next(ws[i], steps[i]);
    var b := StagedAtBegin(ws, steps, i, steps[i].t);
  }

  // And every terminal row of another generation can be restarted that way.
  lemma TerminalRowsRestart(seen: Row, request: RequestId, now: int)
    ensures RestartIntent(seen, request, now).Some? <==>
              request !in {Blank, seen.request} && seen.membership in {Reject, Rejected, Leave, Left}
  {
  }

  // So a restart that reaches its swap on a row already past its own generation, as a
  // second operation of that generation under another peer can, takes the row back.
  lemma StalledRestartGoesBack(first: RequestId, row: Row, now: int) returns (ws: seq<World>, steps: seq<Step>)
    requires first != Blank && row.membership == Reject
    requires row.request.JoinGeneration? && row.request.base == first
    ensures IsRun(ws, steps) && ws[0].row == Some(row) && |steps| == 2
    ensures RestartIntent(row, first, now) == Some(steps[0].intent)
    ensures ws[2].row.Some? && ws[2].row.value.request == first && Later(row.request, first)
  {
    LaterIsLonger(row.request, first);
    var intent := RestartIntent(row, first, now).value;
    steps := [Begin(0, intent), Commit(0)];
    var w0 := World(Some(row), map[]);
    var w1 := Next(w0, steps[0]);
    ws := [w0, w1, Next(w1, steps[1])];
  }

  // ---- Concurrent restarts of one terminal row ----

  // The write of a request that saw this terminal row and restarts it under g.
  predicate IsRestart(i: Intent, seen: Row, g: RequestId) {
    RestartIntent(seen, g, i.now) == Some(i)
  }

  // Restarts of the same row under the generation derived from it, among any other
  // disciplined writers and in any interleaving: once one of them has landed the row is
  // at their common generation or a later one.
  lemma RestartedRowStaysRestarted(ws: seq<World>, steps: seq<Step>, seen: Row, g: RequestId, i: nat, k: nat)
    requires IsRun(ws, steps) && AllBegin(steps) && i < k < |ws| && g != Blank
    requires steps[i].Commit? && PcOf(ws[i + 1], steps[i].t).Saved? &&
          IsRestart(PcOf(ws[i], steps[i].t).intent, seen, g)
    ensures ws[k].row.Some? && Advances(g, ws[k].row.value.request)
  {
    assert ws[i + 1] == Next(ws[i], steps[i]);
    RunInv(ws, steps, i);
    GenerationsOnlyAdvance(ws, steps, i + 1, k);
  }

  // Every other restart of that row then changes nothing, wherever in its two steps it
  // was: a swap is refused, a later start is refused at once, and what its caller reads
  // again is a row of the common generation or a later one.
  lemma OnlyOneRestartLands(ws: seq<World>, steps: seq<Step>, seen: Row, g: RequestId, i: nat, j: nat)
    requires IsRun(ws, steps) && AllBegin(steps) && i < j < |steps|
    requires g.JoinGeneration? && g.base == seen.request
    requires steps[i].Commit? && PcOf(ws[i + 1], steps[i].t).Saved? &&
          IsRestart(PcOf(ws[i], steps[i].t).intent, seen, g)
    ensures Later(g, seen.request)
    ensures steps[j].Commit? && IsRestart(PcOf(ws[j], steps[j].t).intent, seen, g) ==>
              ws[j + 1].row == ws[j].row && PcOf(ws[j + 1], steps[j].t).Refused?
    ensures steps[j].Begin? && IsRestart(steps[j].intent, seen, g) ==> PcOf(ws[j + 1], steps[j].t).Refused?
    ensures steps[j].Reread? && IsRestart(PcOf(ws[j], steps[j].t).intent, seen, g) ==>
              var pc := PcOf(ws[j + 1], steps[j].t);
              pc.Answered? && pc.current.Some? && Advances(g, pc.current.value.request)
  {
    RestartedRowStaysRestarted(ws, steps, seen, g, i, j);
    var now := ws[j].row.value.request;
    assert Later(g, seen.request);
    if now != g { LaterTransitive(now, g, seen.request); }
    LaterIsLonger(now, seen.request);
    assert ws[j + 1] == Next(ws[j], steps[j]);
  }
}
