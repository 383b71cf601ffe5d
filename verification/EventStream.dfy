// The resumable product event stream: cursor parsing, the expired-cursor answer, the
// batching loop over an ascending log, and the log while writers append to it.

module EventStream {
  import opened Membership
  import opened Decimal

  datatype Event = Event(seqNo: int, kind: string, payload: string)

  const BATCH: nat := 100

  // Rows come back in ascending sequence order.
  predicate Ascending(log: seq<Event>) {
    forall i, j | 0 <= i < j < |log| :: log[i].seqNo < log[j].seqNo
  }

  function Above(log: seq<Event>, cursor: int): seq<Event> {
    if log == [] then []
    else (if log[0].seqNo > cursor then [log[0]] else []) + Above(log[1..], cursor)
  }

  function Take(es: seq<Event>, n: nat): seq<Event> {
    if |es| <= n then es else es[..n]
  }

  function List(log: seq<Event>, since: int, limit: int): seq<Event> {
    Take(Above(log, since), if limit <= 0 || limit > 500 then BATCH else limit)
  }

  // A positive cursor below the oldest stored row cannot be resumed.
  predicate Expired(log: seq<Event>, cursor: int) {
    cursor > 0 && log != [] && log[0].seqNo > 0 && cursor < log[0].seqNo
  }

  predicate Writable(e: Event) {
    e.seqNo > 0 && !IsBlank(e.kind)
  }

  function WritablePrefix(es: seq<Event>): seq<Event> {
    if es == [] || !Writable(es[0]) then [] else [es[0]] + WritablePrefix(es[1..])
  }

  // ---- The cursor in the request ----

  // Each source is absent, or a list of the values given.
  function AfterSeq(query: Option<seq<string>>, header: Option<seq<string>>): Option<int> {
    if (query.Some? && |query.value| != 1) || (header.Some? && |header.value| != 1) then None
    else
      var q := if query.Some? then ParseInt(Trim(query.value[0])) else Some(0);
      var h := if header.Some? then ParseInt(Trim(header.value[0])) else Some(0);
      if q.None? || q.value < 0 || h.None? || h.value < 0 then None
      else if query.Some? && header.Some? && q.value != h.value then None
      else if header.Some? then h else q
  }

  // A source that is there gives one number, and it is this one.
  predicate Gives(source: Option<seq<string>>, cursor: int) {
    source.Some? ==> |source.value| == 1 && ParseInt(Trim(source.value[0])) == Some(cursor)
  }

  // A cursor is accepted exactly when it is not negative and every source given gives it;
  // without any source it is zero.
  lemma CursorExactly(query: Option<seq<string>>, header: Option<seq<string>>, cursor: int)
    ensures AfterSeq(query, header) == Some(cursor) <==>
              cursor >= 0 && Gives(query, cursor) && Gives(header, cursor) &&
              (query.None? && header.None? ==> cursor == 0)
  {
  }

  // The id a client echoes back from any event it was sent is the cursor of that
  // event, alone or with the same number in the query, and no other pair is accepted.
  lemma EchoedIdIsTheCursor(e: Event, query: nat)
    requires Writable(e) && e.seqNo <= MAX_INT64 && query <= MAX_INT64
    ensures AfterSeq(None, None) == Some(0) && AfterSeq(Some([Print(query)]), None) == Some(query)
    ensures AfterSeq(None, Some([Print(e.seqNo)])) == Some(e.seqNo)
    ensures AfterSeq(Some([Print(query)]), Some([Print(e.seqNo)])) == if query == e.seqNo then Some(e.seqNo) else None
  {
    PrintParse(e.seqNo);
    PrintParse(query);
  }

  // ---- The log seen from a cursor ----

  function UpTo(log: seq<Event>, cursor: int): nat {
    if log == [] then 0 else (if log[0].seqNo <= cursor then 1 else 0) + UpTo(log[1..], cursor)
  }

  lemma {:induction false} CountSplits(log: seq<Event>, cursor: int)
    requires Ascending(log)
    ensures UpTo(log, cursor) <= |log|
    ensures forall i | 0 <= i < |log| :: log[i].seqNo <= cursor <==> i < UpTo(log, cursor)
  {
    if log != [] {
      var rest := log[1..];
      CountSplits(rest, cursor);
      assert |rest| > 0 ==> log[0].seqNo < rest[0].seqNo;
      forall i | 0 <= i < |log| ensures log[i].seqNo <= cursor <==> i < UpTo(log, cursor) {
        if i > 0 { assert log[i] == rest[i - 1]; }
      }
    }
  }

  lemma {:induction false} AscendingSplits(log: seq<Event>, cursor: int)
    requires Ascending(log)
    ensures UpTo(log, cursor) <= |log| && Above(log, cursor) == log[UpTo(log, cursor)..]
    ensures forall i | 0 <= i < |log| :: log[i].seqNo <= cursor <==> i < UpTo(log, cursor)
  {
    CountSplits(log, cursor);
    if log != [] {
      var rest, u := log[1..], UpTo(log[1..], cursor);
      AscendingSplits(rest, cursor);
      if log[0].seqNo <= cursor {
        assert rest[u..] == log[u + 1..];
      } else {
        assert UpTo(log, cursor) == 0;
        assert log == [log[0]] + rest;
      }
    }
  }

  lemma UpToIs(log: seq<Event>, cursor: int, n: nat)
    requires Ascending(log) && n <= |log|
    requires n > 0 ==> log[n - 1].seqNo <= cursor
    requires n < |log| ==> log[n].seqNo > cursor
    ensures UpTo(log, cursor) == n
  {
    CountSplits(log, cursor);
  }

  // The cursor after i events of the log above a cursor.
  function CursorAfter(log: seq<Event>, cursor: int, i: nat): int
    requires i <= |Above(log, cursor)|
  {
    if i == 0 then cursor else Above(log, cursor)[i - 1].seqNo
  }

  lemma RestIsAbove(log: seq<Event>, cursor: int, i: nat)
    requires Ascending(log) && i <= |Above(log, cursor)|
    ensures Above(log, CursorAfter(log, cursor, i)) == Above(log, cursor)[i..]
  {
    var later := CursorAfter(log, cursor, i);
    AscendingSplits(log, cursor);
    var k := UpTo(log, cursor);
    if i > 0 {
      assert log[k + i - 1].seqNo == later;
      UpToIs(log, later, k + i);
      AscendingSplits(log, later);
    }
  }

  lemma {:induction false} PrefixIsTaken(es: seq<Event>)
    ensures |WritablePrefix(es)| <= |es| && WritablePrefix(es) == es[..|WritablePrefix(es)|]
    ensures |WritablePrefix(es)| < |es| ==> !Writable(es[|WritablePrefix(es)|])
    ensures forall i | 0 <= i < |WritablePrefix(es)| :: Writable(es[i])
  {
    if es != [] && Writable(es[0]) {
      PrefixIsTaken(es[1..]);
      var n := |WritablePrefix(es[1..])|;
      assert es[..n + 1] == [es[0]] + es[1..][..n];
    }
  }

  lemma {:induction false} PrefixIs(es: seq<Event>, m: nat)
    requires m <= |es| && (forall i | 0 <= i < m :: Writable(es[i])) && (m < |es| ==> !Writable(es[m]))
    ensures WritablePrefix(es) == es[..m]
  {
    if m > 0 {
      PrefixIs(es[1..], m - 1);
      assert es[..m] == [es[0]] + es[1..][..m - 1];
    }
  }

  lemma PrefixSplits(es: seq<Event>, i: nat)
    requires i <= |WritablePrefix(es)|
    ensures i <= |es| && WritablePrefix(es) == es[..i] + WritablePrefix(es[i..])
  {
    PrefixIsTaken(es);
    var m, rest := |WritablePrefix(es)|, es[i..];
    assert forall j | 0 <= j < |rest| :: rest[j] == es[i + j];
    PrefixIs(rest, m - i);
    assert es[..m] == es[..i] + rest[..m - i];
  }

  // ---- The stream over one log ----

  // What a connection that lasts long enough is sent.
  function Streamed(log: seq<Event>, after: int): seq<Event> {
    if Expired(log, after) then [] else WritablePrefix(Above(log, after))
  }

  datatype Ending = CursorReset | CaughtUp | Broken

  // Writes one batch; the connection takes that many writes before it breaks.
  method WriteBatch(batch: seq<Event>, writes: nat) returns (n: nat, failed: bool)
    ensures n <= |batch| && n <= writes && forall i | 0 <= i < n :: Writable(batch[i])
    ensures failed <==> n < |batch|
    ensures failed ==> n == writes || !Writable(batch[n])
  {
    n := 0;
    while n < |batch|
      invariant n <= |batch| && n <= writes && forall i | 0 <= i < n :: Writable(batch[i])
    {
      if !Writable(batch[n]) || n == writes {
        return n, true;
      }
      n := n + 1;
    }
    failed := false;
  }

  // How far the stream is: m of the rows above the cursor are written.
  ghost predicate Reached(log: seq<Event>, after: int, writes: nat, emitted: seq<Event>, cursor: int) {
    var rows := Above(log, after);
    var m := |emitted|;
    m <= |rows| && m <= writes && emitted == rows[..m] && (forall i | 0 <= i < m :: Writable(rows[i])) &&
    cursor == CursorAfter(log, after, m) && Above(log, cursor) == rows[m..]
  }

  lemma ReachedExtends(log: seq<Event>, after: int, writes: nat, emitted: seq<Event>, cursor: int, n: nat)
    requires Ascending(log) && Reached(log, after, writes, emitted, cursor)
    requires var batch := List(log, cursor, BATCH);
             n <= |batch| && n <= writes - |emitted| && forall i | 0 <= i < n :: Writable(batch[i])
    ensures var batch := List(log, cursor, BATCH);
            Reached(log, after, writes, emitted + batch[..n], if n == 0 then cursor else batch[n - 1].seqNo)
  {
    var rows, m, batch := Above(log, after), |emitted|, List(log, cursor, BATCH);
    BatchIsNext(rows, m, batch, n);
    RestIsAbove(log, after, m + n);
  }

  lemma BatchIsNext(rows: seq<Event>, m: nat, batch: seq<Event>, n: nat)
    requires m <= |rows| && batch == Take(rows[m..], BATCH) && n <= |batch|
    requires (forall i | 0 <= i < m :: Writable(rows[i])) && (forall i | 0 <= i < n :: Writable(batch[i]))
    ensures m + n <= |rows| && rows[..m] + batch[..n] == rows[..m + n]
    ensures forall i | 0 <= i < m + n :: Writable(rows[i])
    ensures n > 0 ==> batch[n - 1] == rows[m + n - 1]
  {
    assert forall i | 0 <= i < n :: batch[i] == rows[m + i];
    forall i | 0 <= i < m + n ensures Writable(rows[i]) {
      if i >= m { assert Writable(batch[i - m]); }
    }
  }

  lemma ReachedEnd(log: seq<Event>, after: int, writes: nat, emitted: seq<Event>, cursor: int)
    requires Reached(log, after, writes, emitted, cursor) && !Expired(log, after)
    requires |emitted| == writes || Above(log, cursor) == [] || !Writable(Above(log, cursor)[0])
    ensures emitted == Take(Streamed(log, after), writes)
  {
    var rows, m := Above(log, after), |emitted|;
    PrefixIsTaken(rows);
    if m == |rows| || !Writable(rows[m]) {
      PrefixIs(rows, m);
    } else {
      assert |WritablePrefix(rows)| >= m;
      assert rows[..|WritablePrefix(rows)|][..m] == rows[..m];
    }
  }

  // The handler's loop until it would wait for new events.
  method Stream(log: seq<Event>, after: int, writes: nat) returns (emitted: seq<Event>, cursor: int, ending: Ending)
    requires Ascending(log)
    ensures emitted == Take(Streamed(log, after), writes)
    ensures |emitted| <= |Above(log, after)| && cursor == CursorAfter(log, after, |emitted|)
    ensures ending == CursorReset <==> Expired(log, after)
    ensures ending == CaughtUp <==> !Expired(log, after) && emitted == Above(log, after)
  {
    emitted, cursor := [], after;
    if Expired(log, after) {
      return [], after, CursorReset;
    }
    while true
      invariant Reached(log, after, writes, emitted, cursor)
      decreases |Above(log, after)| - |emitted|
    {
      var batch := List(log, cursor, BATCH);
      if batch == [] {
        ReachedEnd(log, after, writes, emitted, cursor);
        return emitted, cursor, CaughtUp;
      }
      var n, failed := WriteBatch(batch, writes - |emitted|);
      ReachedExtends(log, after, writes, emitted, cursor, n);
      ghost var before := cursor;
      emitted, cursor := emitted + batch[..n], if n == 0 then cursor else batch[n - 1].seqNo;
      if failed {
        FailedBatch(log, after, writes, emitted, cursor, before, n);
        ReachedEnd(log, after, writes, emitted, cursor);
        return emitted, cursor, Broken;
      }
    }
  }

  // Where a batch failed, the next row above the cursor is the one that failed.
  lemma FailedBatch(log: seq<Event>, after: int, writes: nat, emitted: seq<Event>, cursor: int, before: int, n: nat)
    requires Reached(log, after, writes, emitted, cursor) && n <= |emitted|
    requires Above(log, before) == Above(log, after)[|emitted| - n..] && n < |List(log, before, BATCH)|
    ensures Above(log, cursor) != [] && Above(log, cursor)[0] == List(log, before, BATCH)[n]
  {
  }

  // Sent ids strictly increase above the cursor and skip no row up to the last.
  lemma StreamHasNoGap(log: seq<Event>, after: int)
    requires Ascending(log)
    ensures Ascending(Streamed(log, after))
    ensures forall i | 0 <= i < |Streamed(log, after)| ::
              after < Streamed(log, after)[i].seqNo && Streamed(log, after)[i] in log
    ensures forall e, i | e in log && 0 <= i < |Streamed(log, after)| ::
              after < e.seqNo <= Streamed(log, after)[i].seqNo ==> e in Streamed(log, after)
  {
    AscendingSplits(log, after);
    PrefixIsTaken(Above(log, after));
    var k, es := UpTo(log, after), Streamed(log, after);
    assert forall i | 0 <= i < |es| :: es[i] == log[k + i];
    forall e, i | e in log && 0 <= i < |es| && after < e.seqNo <= es[i].seqNo ensures e in es {
      var j :| 0 <= j < |log| && log[j] == e;
      assert k <= j <= k + i;
      assert es[j - k] == e;
    }
  }

  // The stream brings every row above the cursor exactly when each of them can be
  // written; the first that cannot ends it there, for every later resumption too.
  lemma CompleteIffWritable(log: seq<Event>, after: int)
    requires Ascending(log) && !Expired(log, after)
    ensures Streamed(log, after) == Above(log, after) <==>
              forall e | e in Above(log, after) :: e.seqNo > 0 && !IsBlank(e.kind)
    ensures |Streamed(log, after)| <= |Above(log, after)| &&
          Streamed(log, CursorAfter(log, after, |Streamed(log, after)|)) == []
  {
    var rows := Above(log, after);
    PrefixIsTaken(rows);
    var m := |WritablePrefix(rows)|;
    assert m < |rows| ==> rows[m] in rows;
    RestIsAbove(log, after, m);
  }

  // Cutting after any number of events and resuming from the last one sent gives the
  // same sequence as the uncut stream.
  lemma ResumeContinues(log: seq<Event>, after: int, i: nat)
    requires Ascending(log) && i <= |Streamed(log, after)|
    ensures i <= |Above(log, after)|
    ensures Streamed(log, after) == Streamed(log, after)[..i] + Streamed(log, CursorAfter(log, after, i))
  {
    if !Expired(log, after) {
      AscendingSplits(log, after);
      PrefixIsTaken(Above(log, after));
      PrefixSplits(Above(log, after), i);
      RestIsAbove(log, after, i);
    }
  }

  // A page of the log holds the rows above its start, as many as are asked for; a number
  // out of range asks for a hundred.
  lemma ListIs(log: seq<Event>, since: int, limit: int)
    ensures var rows, page := Above(log, since), List(log, since, limit);
            page <= rows &&
            (|page| < |rows| ==> |page| == if 1 <= limit <= 500 then limit else 100) &&
            (1 <= limit <= 500 ==> |page| <= limit) && (limit < 1 || limit > 500 ==> |page| <= 100)
  {
  }

  // A stream from the start never expires, nor one over a table whose oldest row has no
  // positive number.
  lemma FreshStreamsNeverExpire(log: seq<Event>, cursor: int)
    requires cursor <= 0 || (log != [] && log[0].seqNo <= 0)
    ensures !Expired(log, cursor) && Streamed(log, cursor) == WritablePrefix(Above(log, cursor))
  {
  }

  // ---- Pruning between the cut and the resumption ----

  // Of the rows a client resumes against, the oldest p were pruned and it had been
  // sent up to row d. Its cursor is reported expired exactly when its own row was
  // pruned and others remain; it misses events exactly when more than that was pruned.
  lemma PruningAndTheCursor(rows: seq<Event>, p: nat, d: nat)
    requires Ascending(rows) && d < |rows| && p <= |rows| && rows[0].seqNo > 0
    ensures Expired(rows[p..], rows[d].seqNo) <==> d < p < |rows|
    ensures Above(rows[p..], rows[d].seqNo) == Above(rows, rows[d].seqNo) <==> p <= d + 1 || d + 1 == |rows|
  {
    var kept, c := rows[p..], rows[d].seqNo;
    UpToIs(rows, c, d + 1);
    AscendingSplits(rows, c);
    KeptAbove(rows, p, d);
    if p <= d {
      assert kept[0].seqNo <= c;
      assert kept[d + 1 - p..] == rows[d + 1..];
    }
  }

  lemma KeptAbove(rows: seq<Event>, p: nat, d: nat)
    requires Ascending(rows) && d < |rows| && p <= |rows|
    ensures Above(rows[p..], rows[d].seqNo) == rows[p..][if p <= d then d + 1 - p else 0..]
  {
    var kept := rows[p..];
    assert Ascending(kept);
    var m := if p <= d then d + 1 - p else 0;
    assert m > 0 ==> kept[m - 1] == rows[d];
    assert m < |kept| ==> kept[m] == rows[p + m];
    UpToIs(kept, rows[d].seqNo, m);
    AscendingSplits(kept, rows[d].seqNo);
  }

  // So the reset is not exact either way: it is sent though nothing was lost exactly
  // when pruning stopped at the cursor's own row, and events are lost without it
  // exactly when every row was pruned.
  lemma ResetIsNotExact(rows: seq<Event>, p: nat, d: nat)
    requires Ascending(rows) && d < |rows| && p <= |rows| && rows[0].seqNo > 0
    ensures var kept, c := rows[p..], rows[d].seqNo;
            var lost := Above(kept, c) != Above(rows, c);
            (Expired(kept, c) && !lost <==> p == d + 1 < |rows|) && (!Expired(kept, c) && lost <==> d + 1 < |rows| == p)
  {
    PruningAndTheCursor(rows, p, d);
  }

  // ---- The log while writers append ----

  // A writer takes a sequence number under the mutex and inserts its row afterwards;
  // another transaction may insert a row of its own and then raise the counter; and a
  // restarted process starts the counter at zero over the table it finds.
  datatype Live = Live(rows: set<Event>, nextSeq: int, pending: map<nat, Event>, cursor: int, sent: set<Event>)

  datatype LiveStep =
    | Allocate(w: nat, given: Event, clock: int)
    | Insert(w: nat, duplicate: bool)
    | Persisted(e: Event)
    | Restart
    | Read(last: Event)

  function Allotted(nextSeq: int, given: int, clock: int): int {
    if given <= 0 || given <= nextSeq then if clock <= nextSeq then nextSeq + 1 else clock else given
  }

  predicate Taken(s: Live, n: int) {
    exists e | e in s.rows :: e.seqNo == n
  }

  // The rows of the batch that ends with the given row.
  function Batch(s: Live, last: Event): set<Event> {
    set e | e in s.rows && s.cursor < e.seqNo <= last.seqNo
  }

  predicate LiveEnabled(s: Live, step: LiveStep) {
    match step
    case Allocate(w, _, _) => w !in s.pending
    case Insert(w, _) => w in s.pending
    case Persisted(e) => !Taken(s, e.seqNo)
    case Restart => true
    case Read(last) => last in s.rows && s.cursor < last.seqNo && |Batch(s, last)| <= BATCH
  }

  function LiveNext(s: Live, step: LiveStep): Live
    requires LiveEnabled(s, step)
  {
    match step
    case Allocate(w, given, clock) =>
      var n := Allotted(s.nextSeq, given.seqNo, clock);
      s.(nextSeq := n, pending := s.pending[w := given.(seqNo := n)])
    case Insert(w, duplicate) =>
      s.(rows := if duplicate || Taken(s, s.pending[w].seqNo) then s.rows else s.rows + {s.pending[w]},
         pending := s.pending - {w})
    case Persisted(e) =>
      s.(rows := s.rows + {e}, nextSeq := if e.seqNo > s.nextSeq then e.seqNo else s.nextSeq)
    case Restart => s.(nextSeq := 0, pending := map[])
    case Read(last) => s.(cursor := last.seqNo, sent := s.sent + Batch(s, last))
  }

  // A run starts at any cursor over any table and any counter.
  predicate LiveRun(ss: seq<Live>, steps: seq<LiveStep>) {
    |ss| == |steps| + 1 && ss[0].sent == {} && ss[0].pending == map[] &&
    forall k | 0 <= k < |steps| :: LiveEnabled(ss[k], steps[k]) && ss[k + 1] == LiveNext(ss[k], steps[k])
  }

  // A writer is given a number above the counter: its own if that is ahead, else the
  // clock if that is, else the next one.
  lemma AllottedIsAhead(nextSeq: int, given: int, clock: int)
    ensures var n := Allotted(nextSeq, given, clock);
            n > nextSeq &&
            (given > 0 && given > nextSeq ==> n == given) &&
            (given <= 0 || given <= nextSeq ==> n >= clock && n in {clock, nextSeq + 1})
  {
  }

  predicate DistinctNumbers(rows: set<Event>) {
    forall d, e | d in rows && e in rows && d.seqNo == e.seqNo :: d == e
  }

  // The table never comes to hold two rows of one number.
  lemma {:induction false} NumbersStayDistinct(ss: seq<Live>, steps: seq<LiveStep>, k: nat)
    requires LiveRun(ss, steps) && k < |ss| && DistinctNumbers(ss[0].rows)
    ensures DistinctNumbers(ss[k].rows)
  {
    if k > 0 {
      NumbersStayDistinct(ss, steps, k - 1);
    }
  }

  // A row inserted is there afterwards, unless it is a duplicate or its number is taken,
  // and one that another transaction persists always is.
  lemma InsertsLandExactly(s: Live, step: LiveStep)
    requires LiveEnabled(s, step) && (step.Insert? || step.Persisted?)
    ensures var e := if step.Insert? then s.pending[step.w] else step.e;
            LiveNext(s, step).rows ==
              if step.Insert? && (step.duplicate || Taken(s, e.seqNo)) then s.rows else s.rows + {e}
  {
  }

  lemma {:induction false} SentAreRows(ss: seq<Live>, steps: seq<LiveStep>, k: nat)
    requires LiveRun(ss, steps) && k < |ss|
    ensures ss[k].sent <= ss[k].rows
  {
    if k > 0 { SentAreRows(ss, steps, k - 1); }
  }

  // What a step does to one event: rows stay, the cursor never falls, and the event is
  // sent exactly when the cursor passes it.
  predicate Passes(s: Live, n: Live, e: Event) {
    s.rows <= n.rows && s.cursor <= n.cursor &&
    (e in n.sent <==> e in s.sent || (e in s.rows && s.cursor < e.seqNo <= n.cursor)) &&
    (e !in s.rows && e in n.rows ==> n.cursor == s.cursor)
  }

  lemma StepPasses(s: Live, step: LiveStep, e: Event)
    requires LiveEnabled(s, step)
    ensures Passes(s, LiveNext(s, step), e)
  {
  }

  lemma RunPasses(ss: seq<Live>, steps: seq<LiveStep>, k: nat, e: Event)
    requires LiveRun(ss, steps) && k < |steps|
    ensures Passes(ss[k], ss[k + 1], e)
  {
    StepPasses(ss[k], steps[k], e);
  }

  // The event came in over a cursor, and now the cursor is where it is.
  predicate Delivered(s: Live, e: Event, over: int) {
    e in s.rows && over <= s.cursor && (e in s.sent <==> over < e.seqNo <= s.cursor)
  }

  lemma PassesOn(s: Live, n: Live, e: Event, over: int)
    requires Delivered(s, e, over) && Passes(s, n, e)
    ensures Delivered(n, e, over)
  {
  }

  lemma {:induction false} DeliveredAlong(ss: seq<Live>, e: Event, over: int, j: nat, k: nat)
    requires j <= k < |ss| && Delivered(ss[j], e, over) && forall m | j <= m < k :: Passes(ss[m], ss[m + 1], e)
    ensures Delivered(ss[k], e, over)
    decreases k
  {
    if j < k {
      DeliveredAlong(ss, e, over, j, k - 1);
      PassesOn(ss[k - 1], ss[k], e, over);
    }
  }

  // A row that came into the table at step i has been sent by step k exactly when it came
  // in above the cursor of that moment and the cursor has reached it.
  lemma DeliveredIffAboveCursor(ss: seq<Live>, steps: seq<LiveStep>, e: Event, i: nat, k: nat)
    requires LiveRun(ss, steps) && i < k < |ss| && e !in ss[i].rows && e in ss[i + 1].rows
    ensures e in ss[k].sent <==> ss[i].cursor < e.seqNo <= ss[k].cursor
  {
    SentAreRows(ss, steps, i);
    forall m | i <= m < k ensures Passes(ss[m], ss[m + 1], e) {
      RunPasses(ss, steps, m, e);
    }
    DeliveredAlong(ss, e, ss[i].cursor, i + 1, k);
  }

  // Writers do not overlap, with each other or with another transaction.
  ghost predicate Serial(ss: seq<Live>, steps: seq<LiveStep>)
    requires |ss| == |steps| + 1
  {
    (forall k, v, w | 0 <= k < |ss| && v in ss[k].pending && w in ss[k].pending :: v == w) &&
    (forall k | 0 <= k < |steps| && steps[k].Persisted? :: ss[k].pending == map[])
  }

  predicate Ahead(s: Live, n: int) {
    s.cursor < n && forall e | e in s.rows :: e.seqNo < n
  }

  // Every number taken, and every row another transaction brings, is above the cursor
  // and all rows of that moment.
  predicate NumbersAhead(ss: seq<Live>, steps: seq<LiveStep>)
    requires |ss| == |steps| + 1
  {
    forall k | 0 <= k < |steps| ::
      (steps[k].Allocate? ==> Ahead(ss[k], Allotted(ss[k].nextSeq, steps[k].given.seqNo, steps[k].clock))) &&
      (steps[k].Persisted? ==> Ahead(ss[k], steps[k].e.seqNo))
  }

  lemma {:induction false} PendingStaysAhead(ss: seq<Live>, steps: seq<LiveStep>, k: nat)
    requires LiveRun(ss, steps) && Serial(ss, steps) && NumbersAhead(ss, steps) && k < |ss|
    ensures forall w | w in ss[k].pending :: Ahead(ss[k], ss[k].pending[w].seqNo)
  {
    if k > 0 {
      PendingStaysAhead(ss, steps, k - 1);
      var s, step := ss[k - 1], steps[k - 1];
      assert step.Allocate? ==> ss[k].pending.Keys == s.pending.Keys + {step.w};
      assert step.Insert? ==> ss[k].pending.Keys == s.pending.Keys - {step.w};
    }
  }

  // Then every row that comes in is sent as soon as the cursor reaches it.
  lemma SerialAppendsAreDelivered(ss: seq<Live>, steps: seq<LiveStep>, e: Event, i: nat, k: nat)
    requires LiveRun(ss, steps) && Serial(ss, steps) && NumbersAhead(ss, steps)
    requires i < k < |ss| && e !in ss[i].rows && e in ss[i + 1].rows
    ensures e in ss[k].sent <==> e.seqNo <= ss[k].cursor
  {
    PendingStaysAhead(ss, steps, i);
    DeliveredIffAboveCursor(ss, steps, e, i, k);
  }

  // The counter keeps its own numbers ahead for as long as it started ahead and the
  // process was not restarted.
  lemma {:induction false} CounterStaysAhead(ss: seq<Live>, steps: seq<LiveStep>, k: nat)
    requires LiveRun(ss, steps) && Serial(ss, steps) && k < |ss|
    requires ss[0].cursor <= ss[0].nextSeq && forall e | e in ss[0].rows :: e.seqNo <= ss[0].nextSeq
    requires forall i | 0 <= i < |steps| :: !steps[i].Restart?
    ensures ss[k].cursor <= ss[k].nextSeq && forall e | e in ss[k].rows :: e.seqNo <= ss[k].nextSeq
    ensures forall w | w in ss[k].pending :: ss[k].pending[w].seqNo <= ss[k].nextSeq
    ensures k < |steps| && steps[k].Allocate? ==>
              Ahead(ss[k], Allotted(ss[k].nextSeq, steps[k].given.seqNo, steps[k].clock))
  {
    if k > 0 { CounterStaysAhead(ss, steps, k - 1); }
  }

  // A restarted process whose clock is behind the table can lose an event although
  // nothing overlaps.
  lemma RestartedCounterCanMiss() returns (ss: seq<Live>, steps: seq<LiveStep>, missed: Event)
    ensures LiveRun(ss, steps) && Serial(ss, steps) && |ss| == 4 && steps[0] == Restart
    ensures missed in ss[3].rows && missed.seqNo <= ss[3].cursor && missed !in ss[3].sent
  {
    var last, x := Event(100, "x", ""), Event(0, "y", "");
    missed := x.(seqNo := 90);
    var s0 := Live({last}, 100, map[], 100, {});
    var s1 := Live({last}, 0, map[], 100, {});
    var s2 := Live({last}, 90, map[0 := missed], 100, {});
    var s3 := Live({last, missed}, 90, map[], 100, {});
    ss, steps := [s0, s1, s2, s3], [Restart, Allocate(0, x, 90), Insert(0, false)];
    assert LiveNext(s2, steps[2]) == s3;
  }

  lemma RunExtends(ss: seq<Live>, steps: seq<LiveStep>, step: LiveStep, n: Live)
    requires LiveRun(ss, steps) && LiveEnabled(ss[|steps|], step) && n == LiveNext(ss[|steps|], step)
    ensures LiveRun(ss + [n], steps + [step])
  {
  }

  lemma LaterWriterIsRead(missed: Event, later: Event)
    requires missed.seqNo < later.seqNo && 0 < later.seqNo
    ensures var s2 := Live({}, 2, map[0 := missed, 1 := later], 0, {});
            var s3 := Live({later}, 2, map[0 := missed], 0, {});
            var s4 := Live({later}, 2, map[0 := missed], later.seqNo, {later});
            LiveEnabled(s2, Insert(1, false)) && LiveNext(s2, Insert(1, false)) == s3 &&
            LiveEnabled(s3, Read(later)) && LiveNext(s3, Read(later)) == s4
  {
    var s2 := Live({}, 2, map[0 := missed, 1 := later], 0, {});
    var s3 := Live({later}, 2, map[0 := missed], 0, {});
    assert s2.pending - {1} == s3.pending;
    assert Batch(s3, later) == {later};
  }

  // Writers that overlap can lose an event: the one that took the smaller number
  // inserts after the reader has passed it.
  lemma OverlappingAppendsCanMiss() returns (ss: seq<Live>, steps: seq<LiveStep>, missed: Event)
    ensures LiveRun(ss, steps) && |ss| == 6
    ensures missed in ss[5].rows && missed.seqNo <= ss[5].cursor && missed !in ss[5].sent
  {
    var x, y := Event(0, "x", ""), Event(0, "y", "");
    missed := x.(seqNo := 1);
    var later := y.(seqNo := 2);
    var s0 := Live({}, 0, map[], 0, {});
    var s1 := Live({}, 1, map[0 := missed], 0, {});
    var s2 := Live({}, 2, map[0 := missed, 1 := later], 0, {});
    var s3 := Live({later}, 2, map[0 := missed], 0, {});
    var s4 := Live({later}, 2, map[0 := missed], 2, {later});
    ss, steps := [s0], [];
    RunExtends(ss, steps, Allocate(0, x, 0), s1);
    ss, steps := ss + [s1], steps + [Allocate(0, x, 0)];
    RunExtends(ss, steps, Allocate(1, y, 0), s2);
    ss, steps := ss + [s2], steps + [Allocate(1, y, 0)];
    LaterWriterIsRead(missed, later);
    RunExtends(ss, steps, Insert(1, false), s3);
    ss, steps := ss + [s3], steps + [Insert(1, false)];
    RunExtends(ss, steps, Read(later), s4);
    ss, steps := ss + [s4], steps + [Read(later)];
    RunExtends(ss, steps, Insert(0, false), LiveNext(s4, Insert(0, false)));
    ss, steps := ss + [LiveNext(s4, Insert(0, false))], steps + [Insert(0, false)];
  }
}
