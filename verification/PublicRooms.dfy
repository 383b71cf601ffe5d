// The public room directory: filtering the cached list, slicing one page out of it,
// and following the page tokens.

module PublicRooms {
  import opened Membership
  import opened Decimal

  datatype Room = Room(id: string, name: string, topic: string, alias: string)

  // ---- Filtering ----

  predicate Contains(s: string, t: string) {
    t <= s || (s != [] && Contains(s[1..], t))
  }

  lemma {:induction false} ContainsExactly(s: string, t: string)
    ensures Contains(s, t) <==> exists i | 0 <= i <= |s| :: t <= s[i..]
  {
    if t <= s {
      assert s[0..] == s;
    } else if s != [] {
      ContainsExactly(s[1..], t);
      if i :| 0 <= i <= |s| && t <= s[i..] {
        assert i > 0 && s[1..][i - 1..] == s[i..];
      }
      if i :| 0 <= i <= |s[1..]| && t <= s[1..][i..] {
        assert s[1..][i..] == s[i + 1..];
      }
    }
  }

  // Case folding is a parameter.
  predicate Shown(r: Room, term: string, lower: string -> string) {
    term == "" ||
    Contains(lower(r.name), lower(term)) || Contains(lower(r.topic), lower(term)) ||
      Contains(lower(r.alias), lower(term))
  }

  function Filtered(rooms: seq<Room>, term: string, lower: string -> string): seq<Room> {
    if rooms == [] then []
    else
      var n := |rooms| - 1;
      Filtered(rooms[..n], term, lower) + if Shown(rooms[n], term, lower) then [rooms[n]] else []
  }

  method FilterRooms(rooms: seq<Room>, term: string, lower: string -> string) returns (result: seq<Room>)
    ensures result == Filtered(rooms, term, lower)
    ensures forall r :: r in result <==>
              r in rooms &&
              (term == "" || Contains(lower(r.name), lower(term)) || Contains(lower(r.topic), lower(term)) ||
               Contains(lower(r.alias), lower(term)))
  {
    if term == "" {
      EmptyTermShowsAll(rooms, lower);
      return rooms;
    }
    result := [];
    var i := 0;
    while i < |rooms|
      invariant 0 <= i <= |rooms| && result == Filtered(rooms[..i], term, lower)
      invariant forall r :: r in result <==> r in rooms[..i] && Shown(r, term, lower)
    {
      assert rooms[..i + 1][..i] == rooms[..i] && rooms[..i + 1] == rooms[..i] + [rooms[i]];
      if Shown(rooms[i], term, lower) {
        result := result + [rooms[i]];
      }
      i := i + 1;
    }
    assert rooms[..i] == rooms;
  }

  lemma {:induction false} EmptyTermShowsAll(rooms: seq<Room>, lower: string -> string)
    ensures Filtered(rooms, "", lower) == rooms
  {
    if rooms != [] {
      EmptyTermShowsAll(rooms[..|rooms| - 1], lower);
    }
  }

  // ---- One page ----

  // The 64-bit sum or difference of two 64-bit integers.
  function Wrap(x: int): int {
    if x > MAX_INT64 then x - 0x1_0000_0000_0000_0000
    else if x < MIN_INT64 then x + 0x1_0000_0000_0000_0000
    else x
  }

  predicate IsInt64(x: int) {
    MIN_INT64 <= x <= MAX_INT64
  }

  // A slice with bounds out of order is a run-time panic. Positions below zero mean
  // there is none.
  datatype Slice = Slice(subset: seq<Room>, prev: int, next: int) | Panics

  function SliceInto(rooms: seq<Room>, since: int, limit: int): Slice {
    var prev := if since > 0 then Wrap(since - limit) else -1;
    var ahead := Wrap(since + limit);
    var next := if |rooms| > ahead then ahead else -1;
    var from := if since < 0 then 0 else since;
    var to := if ahead > |rooms| then |rooms| else ahead;
    if from <= to then Slice(rooms[from..to], prev, next) else Panics
  }

  // Exactly when a page can be cut: the offset is within the list, and the limit is
  // not negative and does not carry the offset past the largest integer. A negative
  // offset is taken as zero, but only after it was added to the limit.
  lemma SliceIsDefinedIff(rooms: seq<Room>, since: int, limit: int)
    requires IsInt64(since) && IsInt64(limit) && |rooms| <= MAX_INT64
    ensures SliceInto(rooms, since, limit).Slice? <==>
              since <= |rooms| &&
              if since >= 0 then 0 <= limit <= MAX_INT64 - since else since + limit >= 0 || since + limit < MIN_INT64
  {
  }

  const DEFAULT_LIMIT := 50

  function Limit(limit: int): int {
    if limit == 0 then DEFAULT_LIMIT else limit
  }

  datatype Response = Page(chunk: seq<Room>, prevBatch: Option<string>, nextBatch: Option<string>) | BadToken | Panicked

  function Token(n: nat): string {
    "T" + Print(n)
  }

  function StripT(since: string): string {
    if since != "" && since[0] == 'T' then since[1..] else since
  }

  function Offset(since: string): Option<int> {
    var text := StripT(since);
    if text == "" then Some(0) else ParseInt(text)
  }

  // The answer over the filtered list.
  function Respond(rooms: seq<Room>, since: string, limit: int): Response {
    var offset := Offset(since);
    if offset.None? then BadToken
    else
      var s := SliceInto(rooms, offset.value, Limit(limit));
      if s.Panics? then Panicked
      else Page(s.subset,
                if s.prev >= 0 then Some(Token(s.prev)) else None,
                if s.next >= 0 then Some(Token(s.next)) else None)
  }

  function PageAt(rooms: seq<Room>, from: nat, limit: nat): seq<Room> {
    if from >= |rooms| then [] else if from + limit <= |rooms| then rooms[from..from + limit] else rooms[from..]
  }

  // A token the server printed leads back to its offset.
  lemma TokenLeadsBack(n: nat)
    requires n <= MAX_INT64
    ensures Offset(Token(n)) == Offset(Print(n)) == Some(n)
  {
    PrintParse(n);
    PrintsDigits(n);
    assert StripT(Token(n)) == Print(n);
    assert IsDigit(Print(n)[0]);
  }

  // What the client is sent for an offset within the list.
  lemma PageIs(rooms: seq<Room>, since: string, limit: int, from: nat)
    requires Offset(since) == Some(from) && 0 <= limit && from <= |rooms| <= MAX_INT64 &&
          from + Limit(limit) <= MAX_INT64
    ensures Respond(rooms, since, limit) ==
              Page(PageAt(rooms, from, Limit(limit)),
                   if from >= Limit(limit) then Some(Token(from - Limit(limit))) else None,
                   if from + Limit(limit) < |rooms| then Some(Token(from + Limit(limit))) else None)
  {
  }

  // ---- Following the tokens ----

  // Pages asked for one after the other, each with the token of the one before, until
  // a page without one.
  datatype Walk = End(since: string, page: Response) | Then(since: string, page: Response, rest: Walk)

  predicate IsWalk(rooms: seq<Room>, limit: int, w: Walk) {
    w.page == Respond(rooms, w.since, limit) &&
    match w
    case End(_, page) => page.Page? ==> page.nextBatch == None
    case Then(_, page, rest) => page.Page? && page.nextBatch == Some(rest.since) && IsWalk(rooms, limit, rest)
  }

  // No page start, from this one on, is carried past the largest integer by the limit.
  predicate Safe(count: nat, limit: nat, from: nat)
    requires limit > 0
    decreases count - from
  {
    from + limit <= MAX_INT64 && (from + limit < count ==> Safe(count, limit, from + limit))
  }

  predicate Fits(rooms: seq<Room>, limit: int, from: nat) {
    0 <= limit && |rooms| <= MAX_INT64 && Safe(|rooms|, Limit(limit), from)
  }

  function Chunk(page: Response): seq<Room> {
    if page.Page? then page.chunk else []
  }

  function Chunks(w: Walk): seq<Room> {
    match w
    case End(_, page) => Chunk(page)
    case Then(_, page, rest) => Chunk(page) + Chunks(rest)
  }

  // Every page is one, every page but the last is full, and none after the first is empty.
  predicate WellCut(w: Walk, limit: int) {
    w.page.Page? && (w.Then? ==> |Chunk(w.page)| == limit && Chunk(w.rest.page) != [] && WellCut(w.rest, limit))
  }

  // The previous token of every page leads back to the page before it.
  predicate Reversible(rooms: seq<Room>, limit: int, w: Walk) {
    w.Then? ==>
      w.rest.page.Page? && w.rest.page.prevBatch.Some? &&
        Respond(rooms, w.rest.page.prevBatch.value, limit) == w.page &&
      Reversible(rooms, limit, w.rest)
  }

  // A page that is not the last is full and its successor starts where it ends.
  lemma NextPage(rooms: seq<Room>, limit: int, since: string, from: nat, next: string)
    requires Offset(since) == Some(from) && from <= |rooms| && Fits(rooms, limit, from)
    requires var page := Respond(rooms, since, limit); page.Page? && page.nextBatch == Some(next)
    ensures Offset(next) == Some(from + Limit(limit)) && from + Limit(limit) < |rooms| &&
          Fits(rooms, limit, from + Limit(limit))
    ensures Respond(rooms, since, limit).chunk == rooms[from..from + Limit(limit)]
  {
    PageIs(rooms, since, limit, from);
    TokenLeadsBack(from + Limit(limit));
  }

  lemma LastPage(rooms: seq<Room>, limit: int, since: string, from: nat)
    requires Offset(since) == Some(from) && from <= |rooms| && Fits(rooms, limit, from)
    ensures var page := Respond(rooms, since, limit);
            page.Page? && (page.nextBatch == None ==> page.chunk == rooms[from..])
  {
    PageIs(rooms, since, limit, from);
  }

  lemma {:induction false} WalkCollects(rooms: seq<Room>, limit: int, w: Walk, from: nat)
    requires IsWalk(rooms, limit, w) && Offset(w.since) == Some(from) && from <= |rooms| && Fits(rooms, limit, from)
    ensures Chunks(w) == rooms[from..]
  {
    if w.Then? {
      NextPage(rooms, limit, w.since, from, w.rest.since);
      var to := from + Limit(limit);
      WalkCollects(rooms, limit, w.rest, to);
      SplitAt(rooms, from, to);
    } else {
      LastPage(rooms, limit, w.since, from);
    }
  }

  lemma SplitAt(rooms: seq<Room>, from: nat, to: nat)
    requires from <= to <= |rooms|
    ensures rooms[from..] == rooms[from..to] + rooms[to..]
  {
  }

  lemma {:induction false} WalkIsWellCut(rooms: seq<Room>, limit: int, w: Walk, from: nat)
    requires IsWalk(rooms, limit, w) && Offset(w.since) == Some(from) && from <= |rooms| && Fits(rooms, limit, from)
    ensures WellCut(w, Limit(limit))
  {
    if w.Then? {
      NextPage(rooms, limit, w.since, from, w.rest.since);
      NotEmpty(rooms, limit, w.rest.since, from + Limit(limit));
      WalkIsWellCut(rooms, limit, w.rest, from + Limit(limit));
    } else {
      LastPage(rooms, limit, w.since, from);
    }
  }

  lemma NotEmpty(rooms: seq<Room>, limit: int, since: string, from: nat)
    requires Offset(since) == Some(from) && from < |rooms| && Fits(rooms, limit, from)
    ensures Chunk(Respond(rooms, since, limit)) != []
  {
    PageIs(rooms, since, limit, from);
  }

  lemma CutNeedsRoom(rooms: seq<Room>, limit: int, since: string, from: nat)
    requires Offset(since) == Some(from) && from <= |rooms| <= MAX_INT64 && IsInt64(limit)
    requires Respond(rooms, since, limit).Page?
    ensures 0 <= limit && from + Limit(limit) <= MAX_INT64
  {
    SliceIsDefinedIff(rooms, from, Limit(limit));
  }

  // A page that is cut leaves room for the limit, and the next starts where it ends.
  lemma CutPageLeavesRoom(rooms: seq<Room>, limit: int, since: string, from: nat)
    requires Offset(since) == Some(from) && from <= |rooms| <= MAX_INT64 && IsInt64(limit) &&
          Respond(rooms, since, limit).Page?
    ensures 0 <= limit && from + Limit(limit) <= MAX_INT64
    ensures from + Limit(limit) < |rooms| <==> Respond(rooms, since, limit).nextBatch.Some?
    ensures from + Limit(limit) < |rooms| ==>
              Offset(Respond(rooms, since, limit).nextBatch.value) == Some(from + Limit(limit))
  {
    CutNeedsRoom(rooms, limit, since, from);
    PageIs(rooms, since, limit, from);
    TokenLeadsBack(from + Limit(limit));
  }

  lemma {:induction false} WellCutFits(rooms: seq<Room>, limit: int, w: Walk, from: nat)
    requires IsWalk(rooms, limit, w) && Offset(w.since) == Some(from) && from <= |rooms| <= MAX_INT64 && IsInt64(limit)
    requires WellCut(w, Limit(limit))
    ensures Fits(rooms, limit, from)
    decreases w
  {
    CutPageLeavesRoom(rooms, limit, w.since, from);
    if w.Then? {
      WellCutFits(rooms, limit, w.rest, from + Limit(limit));
    }
  }

  // Following the tokens from the start gives the list exactly once in order, in full
  // pages and without a trailing empty one, exactly when the limit is not negative and
  // no page start is carried past the largest integer.
  lemma WalkIsTheList(rooms: seq<Room>, limit: int, w: Walk)
    requires IsWalk(rooms, limit, w) && w.since == "" && |rooms| <= MAX_INT64 && IsInt64(limit)
    ensures Chunks(w) == rooms && WellCut(w, Limit(limit)) <==> limit >= 0 && Safe(|rooms|, Limit(limit), 0)
  {
    if limit >= 0 && Safe(|rooms|, Limit(limit), 0) {
      WalkCollects(rooms, limit, w, 0);
      WalkIsWellCut(rooms, limit, w, 0);
    } else if WellCut(w, Limit(limit)) {
      WellCutFits(rooms, limit, w, 0);
    }
  }

  lemma PrevOfNext(rooms: seq<Room>, limit: int, since: string, from: nat, next: string)
    requires Offset(since) == Some(from) && from <= |rooms| && Fits(rooms, limit, from)
    requires var page := Respond(rooms, since, limit); page.Page? && page.nextBatch == Some(next)
    ensures var back := Respond(rooms, next, limit); back.Page? && back.prevBatch == Some(Token(from))
  {
    NextPage(rooms, limit, since, from, next);
    PageIs(rooms, next, limit, from + Limit(limit));
  }

  lemma PrevStep(rooms: seq<Room>, limit: int, since: string, from: nat, next: string)
    requires Offset(since) == Some(from) && from <= |rooms| && Fits(rooms, limit, from)
    requires var page := Respond(rooms, since, limit); page.Page? && page.nextBatch == Some(next)
    ensures var back := Respond(rooms, next, limit);
            back.Page? && back.prevBatch.Some? &&
              Respond(rooms, back.prevBatch.value, limit) == Respond(rooms, since, limit)
    ensures Offset(next) == Some(from + Limit(limit)) && from + Limit(limit) < |rooms| &&
          Fits(rooms, limit, from + Limit(limit))
  {
    PrevOfNext(rooms, limit, since, from, next);
    NextPage(rooms, limit, since, from, next);
    TokenLeadsBack(from);
  }

  // The previous token of every page of a walk leads back to the page before it.
  lemma {:induction false} PrevUndoesNext(rooms: seq<Room>, limit: int, w: Walk, from: nat)
    requires IsWalk(rooms, limit, w) && Offset(w.since) == Some(from) && from <= |rooms| && Fits(rooms, limit, from)
    ensures Reversible(rooms, limit, w)
  {
    if w.Then? {
      PrevStep(rooms, limit, w.since, from, w.rest.since);
      PrevUndoesNext(rooms, limit, w.rest, from + Limit(limit));
    }
  }

  // The walk ends: there is one from every offset within the list.
  lemma {:induction false} WalkExists(rooms: seq<Room>, limit: int, since: string, from: nat) returns (w: Walk)
    requires Offset(since) == Some(from) && from <= |rooms| && Fits(rooms, limit, from)
    ensures IsWalk(rooms, limit, w) && w.since == since
    decreases |rooms| - from
  {
    LastPage(rooms, limit, since, from);
    var page := Respond(rooms, since, limit);
    if page.nextBatch.Some? {
      NextPage(rooms, limit, since, from, page.nextBatch.value);
      var rest := WalkExists(rooms, limit, page.nextBatch.value, from + Limit(limit));
      w := Then(since, page, rest);
    } else {
      w := End(since, page);
    }
  }
}
