// The reference-counted keyed lock tables (operation, member-workflow and
// member-write locks) as a machine over their atomic sections, and its refinement of
// a per-key mutex that never forgets a key.

module LockTable {
  import opened Membership

  type Tid = nat
  datatype Key = Key(name: string)
  type EntryId = nat

  // The key an entry was allocated for is a label of the model.
  datatype Entry = Entry(key: Key, refs: int, holder: Option<Tid>)

  // Between its guarded registration and its guarded deregistration a thread uses
  // one entry; it holds the entry's own mutex for the middle part of that time.
  datatype Phase = Waiting | Holding | Leaving
  datatype Use = Use(key: Key, entry: EntryId, phase: Phase)

  datatype Table = Table(entries: map<Key, EntryId>, heap: map<EntryId, Entry>, allocations: EntryId,
    uses: map<Tid, Use>)

  const EMPTY := Table(map[], map[], 0, map[])

  datatype Step = Register(t: Tid, key: Key) | Acquire(t: Tid) | Unlock(t: Tid) | Unregister(t: Tid)

  predicate At(s: Table, t: Tid, phase: Phase) {
    t in s.uses && s.uses[t].phase == phase && s.uses[t].entry in s.heap
  }

  predicate Enabled(s: Table, step: Step) {
    match step
    case Register(t, _) => t !in s.uses
    case Acquire(t) => At(s, t, Waiting) && s.heap[s.uses[t].entry].holder.None?
    case Unlock(t) => At(s, t, Holding)
    case Unregister(t) => At(s, t, Leaving)
  }

  function DoRegister(s: Table, t: Tid, key: Key): Table {
    var known := key in s.entries && s.entries[key] in s.heap;
    var e := if known then s.entries[key] else s.allocations;
    var entry := if known then s.heap[e] else Entry(key, 0, None);
    Table(s.entries[key := e], s.heap[e := entry.(refs := entry.refs + 1)],
          if known then s.allocations else s.allocations + 1, s.uses[t := Use(key, e, Waiting)])
  }

  function SetHolder(s: Table, t: Tid, holder: Option<Tid>, phase: Phase): Table
    requires t in s.uses && s.uses[t].entry in s.heap
  {
    var e := s.uses[t].entry;
    s.(heap := s.heap[e := s.heap[e].(holder := holder)], uses := s.uses[t := s.uses[t].(phase := phase)])
  }

  function DoUnregister(s: Table, t: Tid): Table
    requires t in s.uses && s.uses[t].entry in s.heap
  {
    var use := s.uses[t];
    var refs := s.heap[use.entry].refs - 1;
    var drop := refs == 0 && use.key in s.entries && s.entries[use.key] == use.entry;
    s.(entries := if drop then s.entries - {use.key} else s.entries,
       heap := s.heap[use.entry := s.heap[use.entry].(refs := refs)],
       uses := s.uses - {t})
  }

  function Next(s: Table, step: Step): Table
    requires Enabled(s, step)
  {
    match step
    case Register(t, key) => DoRegister(s, t, key)
    case Acquire(t) => SetHolder(s, t, Some(t), Holding)
    case Unlock(t) => SetHolder(s, t, None, Leaving)
    case Unregister(t) => DoUnregister(s, t)
  }

  predicate IsRun(ss: seq<Table>, steps: seq<Step>) {
    |ss| == |steps| + 1 && ss[0] == EMPTY &&
    forall k | 0 <= k < |steps| :: Enabled(ss[k], steps[k]) && ss[k + 1] == Next(ss[k], steps[k])
  }

  // ---- Invariant ----

  function Users(s: Table, e: EntryId): set<Tid> {
    set t | t in s.uses && s.uses[t].entry == e
  }

  // All live users of a key share the entry the table has for it.
  predicate Shared(s: Table) {
    forall t | t in s.uses :: s.uses[t].key in s.entries && s.entries[s.uses[t].key] == s.uses[t].entry
  }

  // The reference count of every entry is the number of threads using it, and no
  // entry without users stays in the table.
  predicate Counted(s: Table) {
    forall k | k in s.entries :: CountedAt(s, k)
  }

  // An entry's mutex is held by the thread that is in its middle part, and only by it.
  predicate Held(s: Table) {
    (forall t | t in s.uses && s.uses[t].phase == Holding ::
       At(s, t, Holding) && s.heap[s.uses[t].entry].holder == Some(t)) &&
    (forall e | e in s.heap && s.heap[e].holder.Some? ::
       At(s, s.heap[e].holder.value, Holding) && s.uses[s.heap[e].holder.value].entry == e)
  }

  predicate Separate(s: Table) {
    (forall e | e in s.heap :: e < s.allocations) &&
    (forall k | k in s.entries :: s.entries[k] in s.heap && s.heap[s.entries[k]].key == k)
  }

  predicate Inv(s: Table) {
    Shared(s) && Counted(s) && Held(s) && Separate(s)
  }

  predicate CountedAt(s: Table, k: Key)
    requires k in s.entries
  {
    var e := s.entries[k];
    e in s.heap && s.heap[e].refs == |Users(s, e)| && Users(s, e) != {}
  }

  lemma RegisterCounts(s: Table, t: Tid, key: Key)
    requires Shared(s) && Counted(s) && Separate(s) && t !in s.uses
    ensures CountedAt(DoRegister(s, t, key), key)
  {
    var n := DoRegister(s, t, key);
    var e := n.entries[key];
    assert Users(n, e) == Users(s, e) + {t};
    if key !in s.entries {
      assert Users(s, e) == {};
    } else {
      assert CountedAt(s, key);
    }
  }

  lemma RegisterKeepsHeld(s: Table, t: Tid, key: Key)
    requires Held(s) && Separate(s) && t !in s.uses
    ensures Held(DoRegister(s, t, key)) && Separate(DoRegister(s, t, key))
  {
    var n := DoRegister(s, t, key);
    forall u | u in n.uses && n.uses[u].phase == Holding
      ensures At(n, u, Holding) && n.heap[n.uses[u].entry].holder == Some(u)
    {
      assert At(s, u, Holding);
    }
    forall e | e in n.heap && n.heap[e].holder.Some?
      ensures At(n, n.heap[e].holder.value, Holding) && n.uses[n.heap[e].holder.value].entry == e
    {
      assert At(s, s.heap[e].holder.value, Holding);
    }
  }

  lemma RegisterKeepsInv(s: Table, t: Tid, key: Key)
    requires Inv(s) && t !in s.uses
    ensures Inv(DoRegister(s, t, key))
  {
    var n := DoRegister(s, t, key);
    RegisterCounts(s, t, key);
    RegisterKeepsHeld(s, t, key);
    forall k | k in n.entries ensures CountedAt(n, k) {
      if k != key {
        assert CountedAt(s, k);
        assert Users(n, s.entries[k]) == Users(s, s.entries[k]);
      }
    }
  }

  ghost predicate MayTurn(s: Table, t: Tid, holder: Option<Tid>, phase: Phase) {
    t in s.uses && s.uses[t].entry in s.heap &&
    if phase == Holding then holder == Some(t) && s.heap[s.uses[t].entry].holder.None?
    else holder == None && s.heap[s.uses[t].entry].holder == Some(t)
  }

  lemma LockKeepsHeld(s: Table, t: Tid, holder: Option<Tid>, phase: Phase)
    requires Held(s) && MayTurn(s, t, holder, phase)
    ensures Held(SetHolder(s, t, holder, phase))
  {
    var n := SetHolder(s, t, holder, phase);
    forall u | u in n.uses && n.uses[u].phase == Holding
      ensures At(n, u, Holding) && n.heap[n.uses[u].entry].holder == Some(u)
    {
      if u != t { assert At(s, u, Holding); }
    }
    forall e | e in n.heap && n.heap[e].holder.Some?
      ensures At(n, n.heap[e].holder.value, Holding) && n.uses[n.heap[e].holder.value].entry == e
    {
      if e != s.uses[t].entry { assert At(s, s.heap[e].holder.value, Holding); }
    }
  }

  lemma LockKeepsInv(s: Table, t: Tid, holder: Option<Tid>, phase: Phase)
    requires Inv(s) && MayTurn(s, t, holder, phase)
    ensures Inv(SetHolder(s, t, holder, phase))
  {
    var n := SetHolder(s, t, holder, phase);
    forall k | k in n.entries ensures CountedAt(n, k) {
      assert CountedAt(s, k);
      assert Users(n, n.entries[k]) == Users(s, n.entries[k]);
    }
    LockKeepsHeld(s, t, holder, phase);
  }

  // The leaving thread's entry is dropped exactly when it was the last user.
  lemma DropsLastUser(s: Table, t: Tid)
    requires Shared(s) && Counted(s) && t in s.uses && s.uses[t].entry in s.heap
    ensures s.uses[t].key !in DoUnregister(s, t).entries <==> Users(s, s.uses[t].entry) == {t}
    ensures s.uses[t].key in DoUnregister(s, t).entries ==> CountedAt(DoUnregister(s, t), s.uses[t].key)
  {
    var n := DoUnregister(s, t);
    var use := s.uses[t];
    var users := Users(s, use.entry);
    assert CountedAt(s, use.key);
    assert t in users;
    assert Users(n, use.entry) == users - {t};
    assert |users - {t}| == |users| - 1;
    if |users - {t}| == 0 {
      assert users == (users - {t}) + {t};
    }
  }

  lemma UnregisterKeepsHeld(s: Table, t: Tid)
    requires Held(s) && Separate(s) && t in s.uses && s.uses[t].entry in s.heap && s.uses[t].phase == Leaving
    ensures Held(DoUnregister(s, t)) && Separate(DoUnregister(s, t))
  {
    var n := DoUnregister(s, t);
    forall u | u in n.uses && n.uses[u].phase == Holding
      ensures At(n, u, Holding) && n.heap[n.uses[u].entry].holder == Some(u)
    {
      assert At(s, u, Holding);
    }
    forall e | e in n.heap && n.heap[e].holder.Some?
      ensures At(n, n.heap[e].holder.value, Holding) && n.uses[n.heap[e].holder.value].entry == e
    {
      assert At(s, s.heap[e].holder.value, Holding);
    }
  }

  lemma UnregisterKeepsInv(s: Table, t: Tid)
    requires Inv(s) && t in s.uses && s.uses[t].entry in s.heap && s.uses[t].phase == Leaving
    ensures Inv(DoUnregister(s, t))
  {
    var n := DoUnregister(s, t);
    DropsLastUser(s, t);
    UnregisterKeepsHeld(s, t);
    forall k | k in n.entries ensures CountedAt(n, k) {
      if k != s.uses[t].key {
        assert CountedAt(s, k);
        assert Users(n, n.entries[k]) == Users(s, n.entries[k]);
      }
    }
    forall u | u in n.uses ensures n.uses[u].key in n.entries && n.entries[n.uses[u].key] == n.uses[u].entry {
      assert u in Users(s, s.uses[u].entry);
    }
  }

  lemma StepKeepsInv(s: Table, step: Step)
    requires Inv(s) && Enabled(s, step)
    ensures Inv(Next(s, step))
  {
    match step
    case Register(t, key) => RegisterKeepsInv(s, t, key);
    case Acquire(t) => LockKeepsInv(s, t, Some(t), Holding);
    case Unlock(t) => LockKeepsInv(s, t, None, Leaving);
    case Unregister(t) => UnregisterKeepsInv(s, t);
  }

  lemma {:induction false} RunKeepsInv(ss: seq<Table>, steps: seq<Step>, k: nat)
    requires IsRun(ss, steps) && k < |ss|
    ensures Inv(ss[k])
  {
    if k > 0 {
      RunKeepsInv(ss, steps, k - 1);
      StepKeepsInv(ss[k - 1], steps[k - 1]);
    }
  }

  // In every state of every run: at most one thread holds a key; all users of a key
  // share one entry whose count is their number; the entry a thread deregisters from
  // is the one the table has, so the identity guard on deletion always holds; and a
  // table nobody uses is empty.
  lemma LockTableIsSound(ss: seq<Table>, steps: seq<Step>, k: nat)
    requires IsRun(ss, steps) && k < |ss|
    ensures forall t, u | At(ss[k], t, Holding) && At(ss[k], u, Holding) &&
          ss[k].uses[t].key == ss[k].uses[u].key :: t == u
    ensures forall t, u | t in ss[k].uses && u in ss[k].uses && ss[k].uses[t].key == ss[k].uses[u].key ::
              ss[k].uses[t].entry == ss[k].uses[u].entry
    ensures forall t | t in ss[k].uses ::
              var use := ss[k].uses[t];
              use.key in ss[k].entries && ss[k].entries[use.key] == use.entry &&
              use.entry in ss[k].heap && ss[k].heap[use.entry].refs == |Users(ss[k], use.entry)|
    ensures ss[k].uses == map[] <==> ss[k].entries == map[]
  {
    RunKeepsInv(ss, steps, k);
    var s := ss[k];
    if key :| key in s.entries {
      var t :| t in Users(s, s.entries[key]);
      assert t in s.uses;
    }
    if t :| t in s.uses {
      assert s.uses[t].key in s.entries;
    }
  }

  // ---- Refinement of a per-key mutex that never deletes a key ----

  function HolderOf(s: Table, k: Key): Option<Tid> {
    if k in s.entries && s.entries[k] in s.heap then s.heap[s.entries[k]].holder else None
  }

  // Every key has its holder, if any.
  ghost function Mutexes(s: Table): imap<Key, Option<Tid>> {
    imap k: Key :: HolderOf(s, k)
  }

  // The thread takes the free key, or gives back the key it holds.
  ghost predicate MutexStep(m: imap<Key, Option<Tid>>, n: imap<Key, Option<Tid>>, t: Tid, key: Key) {
    key in m && ((m[key] == None && n == m[key := Some(t)]) || (m[key] == Some(t) && n == m[key := None]))
  }

  lemma UnregisterIsInvisible(s: Table, t: Tid, k: Key)
    requires Inv(s) && t in s.uses && s.uses[t].entry in s.heap && s.uses[t].phase == Leaving
    ensures HolderOf(DoUnregister(s, t), k) == HolderOf(s, k)
  {
    DropsLastUser(s, t);
    var holder := s.heap[s.uses[t].entry].holder;
    assert holder.Some? ==> holder.value in Users(s, s.uses[t].entry) && holder.value != t;
  }

  lemma LockIsVisible(s: Table, t: Tid, holder: Option<Tid>, phase: Phase, k: Key)
    requires Inv(s) && t in s.uses && s.uses[t].entry in s.heap
    ensures HolderOf(SetHolder(s, t, holder, phase), k) == if k == s.uses[t].key then holder else HolderOf(s, k)
  {
  }

  lemma StepRefinesMutex(s: Table, step: Step)
    requires Inv(s) && Enabled(s, step)
    ensures if step.Acquire? || step.Unlock?
            then MutexStep(Mutexes(s), Mutexes(Next(s, step)), step.t, s.uses[step.t].key)
            else Mutexes(Next(s, step)) == Mutexes(s)
  {
    match step
    case Register(t, key) => assert Mutexes(DoRegister(s, t, key)) == Mutexes(s);
    case Unregister(t) =>
      forall k: Key ensures HolderOf(DoUnregister(s, t), k) == HolderOf(s, k) { UnregisterIsInvisible(s, t, k); }
    case Acquire(t) =>
      forall k: Key ensures HolderOf(SetHolder(s, t, Some(t), Holding), k) == if k == s.uses[t].key then Some(t)
        else HolderOf(s, k) {
        LockIsVisible(s, t, Some(t), Holding, k);
      }
    case Unlock(t) =>
      forall k: Key ensures HolderOf(SetHolder(s, t, None, Leaving), k) == if k == s.uses[t].key then None
        else HolderOf(s, k) {
        LockIsVisible(s, t, None, Leaving, k);
      }
  }

  // In every run, every step of the table is a step of the mutex on that thread's
  // key, or changes nothing the mutex can see; and a waiting thread can enter exactly
  // when the mutex has its key free.
  lemma LockTableRefinesMutex(ss: seq<Table>, steps: seq<Step>, k: nat)
    requires IsRun(ss, steps) && k < |steps|
    ensures if steps[k].Acquire? || steps[k].Unlock?
            then MutexStep(Mutexes(ss[k]), Mutexes(ss[k + 1]), steps[k].t, ss[k].uses[steps[k].t].key)
            else Mutexes(ss[k + 1]) == Mutexes(ss[k])
    ensures forall t | At(ss[k], t, Waiting) :: Enabled(ss[k], Acquire(t)) <==>
          Mutexes(ss[k])[ss[k].uses[t].key] == None
  {
    RunKeepsInv(ss, steps, k);
    StepRefinesMutex(ss[k], steps[k]);
  }

  // ---- The table as the service updates it ----

  // The two sections under the table's guard, and the entry's own mutex between them.
  class KeyedLocks {
    var entries: map<Key, EntryId>
    var heap: map<EntryId, Entry>
    var allocations: EntryId
    var uses: map<Tid, Use>

    ghost function View(): Table
      reads this
    {
      Table(entries, heap, allocations, uses)
    }

    ghost predicate Valid()
      reads this
    {
      Inv(View())
    }

    constructor ()
      ensures Valid() && View() == EMPTY
    {
      entries, heap, allocations, uses := map[], map[], 0, map[];
    }

    method Begin(t: Tid, key: Key) returns (e: EntryId)
      requires Valid() && t !in uses
      modifies this
      ensures Valid() && View() == Next(old(View()), Register(t, key))
      ensures uses[t] == Use(key, e, Waiting)
    {
      RegisterKeepsInv(View(), t, key);
      assert forall k | k in entries :: CountedAt(View(), k);
      e := FindOrCreate(t, key);
    }

    // The section under the guard: the entry of the key, made if there is none, with one
    // user more.
    method FindOrCreate(t: Tid, key: Key) returns (e: EntryId)
      requires t !in uses && forall k | k in entries :: entries[k] in heap
      modifies this
      ensures View() == DoRegister(old(View()), t, key) && uses[t] == Use(key, e, Waiting)
    {
      if key in entries {
        e := entries[key];
        heap := heap[e := heap[e].(refs := heap[e].refs + 1)];
      } else {
        e := allocations;
        allocations := allocations + 1;
        heap := heap[e := Entry(key, 1, None)];
        entries := entries[key := e];
      }
      uses := uses[t := Use(key, e, Waiting)];
    }

    // Takes the entry's mutex if it is free; a caller that finds it taken waits.
    method TryLock(t: Tid) returns (taken: bool)
      requires Valid() && At(View(), t, Waiting)
      modifies this
      ensures Valid() && taken == (Mutexes(old(View()))[old(uses)[t].key] == None)
      ensures View() == if taken then Next(old(View()), Acquire(t)) else old(View())
    {
      assert HolderOf(View(), uses[t].key) == heap[uses[t].entry].holder;
      taken := heap[uses[t].entry].holder.None?;
      if taken {
        LockKeepsInv(View(), t, Some(t), Holding);
        Turn(t, Some(t), Holding);
      }
    }

    method Release(t: Tid)
      requires Valid() && At(View(), t, Holding)
      modifies this
      ensures Valid() && View() == Next(old(View()), Unlock(t))
    {
      LockKeepsInv(View(), t, None, Leaving);
      Turn(t, None, Leaving);
    }

    method Turn(t: Tid, holder: Option<Tid>, phase: Phase)
      requires t in uses && uses[t].entry in heap
      modifies this
      ensures View() == SetHolder(old(View()), t, holder, phase)
    {
      var e := uses[t].entry;
      heap := heap[e := heap[e].(holder := holder)];
      uses := uses[t := uses[t].(phase := phase)];
    }

    method End(t: Tid)
      requires Valid() && At(View(), t, Leaving)
      modifies this
      ensures Valid() && View() == Next(old(View()), Unregister(t))
    {
      UnregisterKeepsInv(View(), t);
      DropUser(t);
    }

    // The section under the guard that gives the entry up, and forgets it with its last
    // user.
    method DropUser(t: Tid)
      requires t in uses && uses[t].entry in heap
      modifies this
      ensures View() == DoUnregister(old(View()), t)
    {
      var use := uses[t];
      heap := heap[use.entry := heap[use.entry].(refs := heap[use.entry].refs - 1)];
      if heap[use.entry].refs == 0 && use.key in entries && entries[use.key] == use.entry {
        entries := entries - {use.key};
      }
      uses := uses - {t};
    }
  }
}
