/** `InMemoryAccessAuditRepository` and its pages. Reading a page records an event, lists and
    counts in three repository calls, so the log grows under its own reader, and whatever
    others record between the listing and the count is counted without having been listed. */
module AuditPaging {
  import opened Records

  datatype AuditEvent = AuditEvent(eventId: string, documentId: Option<DocumentId>, kind: string, createdAt: Instant)

  function Matching(events: seq<AuditEvent>, d: Option<DocumentId>): seq<AuditEvent> {
    if events == [] then []
    else (if events[0].documentId == d then [events[0]] else []) + Matching(events[1..], d)
  }

  /** `items[offset : offset + limit]`, for an offset that may lie past the end. */
  function Slice<T>(items: seq<T>, offset: nat, limit: Option<nat>): (r: seq<T>)
    ensures limit.Some? ==> |r| <= limit.value
  {
    if offset >= |items| then []
    else if limit.None? || offset + limit.value >= |items| then items[offset..]
    else items[offset..offset + limit.value]
  }

  lemma {:induction false} MatchingAppends(a: seq<AuditEvent>, b: seq<AuditEvent>, d: Option<DocumentId>)
    ensures Matching(a + b, d) == Matching(a, d) + Matching(b, d)
  {
    if a == [] { assert a + b == b; }
    else {
      var head := if a[0].documentId == d then [a[0]] else [];
      assert (a + b)[1..] == a[1..] + b;
      MatchingAppends(a[1..], b, d);
      assert Matching(a + b, d) == head + Matching(a[1..] + b, d);
    }
  }

  /** A page is the items from its offset on, in order, and stops early only at its limit. */
  lemma SlicesAreExact<T>(items: seq<T>, offset: nat, limit: Option<nat>)
    ensures var r := Slice(items, offset, limit);
            && (r == [] || offset + |r| <= |items|)
            && (forall i :: 0 <= i < |r| ==> r[i] == items[offset + i])
            && (offset + |r| < |items| ==> limit == Some(|r|))
  {
  }

  /** The positions of the document's events, all of them, in order. */
  ghost predicate Selects(events: seq<AuditEvent>, d: Option<DocumentId>, at: seq<nat>) {
    && (forall i, j :: 0 <= i < j < |at| ==> at[i] < at[j])
    && (forall i :: 0 <= i < |at| ==> at[i] < |events|)
    && (forall k: nat :: k < |events| ==> (k in at <==> events[k].documentId == d))
  }

  lemma SelectsOneMore(events: seq<AuditEvent>, d: Option<DocumentId>, at: seq<nat>, e: AuditEvent)
    requires Selects(events, d, at)
    ensures Selects(events + [e], d, if e.documentId == d then at + [|events|] else at)
  {
    var n, at' := |events|, at + [|events|];
    assert forall k: nat :: k in at' <==> k in at || k == n;
    assert forall k: nat :: k < n ==> (events + [e])[k] == events[k];
  }

  function Picked(events: seq<AuditEvent>, at: seq<nat>): seq<AuditEvent>
    requires forall i :: 0 <= i < |at| ==> at[i] < |events|
  {
    seq(|at|, i requires 0 <= i < |at| => events[at[i]])
  }

  lemma PickedOneMore(events: seq<AuditEvent>, at: seq<nat>, e: AuditEvent)
    requires forall i :: 0 <= i < |at| ==> at[i] < |events|
    ensures Picked(events + [e], at) == Picked(events, at)
    ensures Picked(events + [e], at + [|events|]) == Picked(events, at) + [e]
  {
  }

  lemma MatchingOneMore(events: seq<AuditEvent>, d: Option<DocumentId>, e: AuditEvent)
    ensures Matching(events + [e], d) == if e.documentId == d then Matching(events, d) + [e] else Matching(events, d)
  {
    MatchingAppends(events, [e], d);
  }

  ghost predicate Lists(events: seq<AuditEvent>, d: Option<DocumentId>, at: seq<nat>) {
    Selects(events, d, at) && Matching(events, d) == Picked(events, at)
  }

  lemma ListsOneMore(events: seq<AuditEvent>, d: Option<DocumentId>, at: seq<nat>, e: AuditEvent)
    requires Lists(events, d, at)
    ensures Lists(events + [e], d, if e.documentId == d then at + [|events|] else at)
  {
    SelectsOneMore(events, d, at, e);
    PickedOneMore(events, at, e);
    MatchingOneMore(events, d, e);
  }

  /** A document's log is its events and no others, each once, in the order recorded. */
  lemma {:induction false} MatchingIsExact(events: seq<AuditEvent>, d: Option<DocumentId>) returns (at: seq<nat>)
    ensures Lists(events, d, at)
  {
    if events == [] { at := []; }
    else {
      var n := |events| - 1;
      var before := MatchingIsExact(events[..n], d);
      ListsOneMore(events[..n], d, before, events[n]);
      assert events == events[..n] + [events[n]];
      at := if events[n].documentId == d then before + [n] else before;
    }
  }

  class InMemoryAccessAudit {
    var events: seq<AuditEvent>

    constructor ()
      ensures events == []
    {
      events := [];
    }

    method Record(event: AuditEvent)
      modifies this
      ensures events == old(events) + [event]
    {
      events := events + [event];
    }

    method ListByDocumentId(d: Option<DocumentId>, limit: Option<nat>, offset: nat) returns (page: seq<AuditEvent>)
      ensures page == Slice(Matching(events, d), offset, limit)
    {
      var matching := [];
      var i := 0;
      while i < |events|
        invariant 0 <= i <= |events|
        invariant matching == Matching(events[..i], d)
      {
        MatchingAppends(events[..i], [events[i]], d);
        assert events[..i + 1] == events[..i] + [events[i]];
        if events[i].documentId == d { matching := matching + [events[i]]; }
        i := i + 1;
      }
      assert events[..i] == events;
      page := Slice(matching, offset, limit);
    }

    method CountByDocumentId(d: Option<DocumentId>) returns (count: nat)
      ensures count == |Matching(events, d)|
    {
      count := 0;
      var i := 0;
      while i < |events|
        invariant 0 <= i <= |events|
        invariant count == |Matching(events[..i], d)|
      {
        MatchingAppends(events[..i], [events[i]], d);
        assert events[..i + 1] == events[..i] + [events[i]];
        if events[i].documentId == d { count := count + 1; }
        i := i + 1;
      }
      assert events[..i] == events;
    }

    /** `list_access_events` with the `next_offset` of its response, for a request during
        which nobody else records: the log counted is the log listed. */
    method ReadPage(d: DocumentId, read: AuditEvent, limit: nat, offset: nat)
      returns (page: seq<AuditEvent>, total: nat, next: Option<nat>)
      requires read.documentId == Some(d)
      modifies this
      ensures events == old(events) + [read]
      ensures Page(page, next) == PageOf(events, events, d, limit, offset)
      ensures total == |Matching(events, Some(d))|
    {
      Record(read);
      page := ListByDocumentId(Some(d), Some(limit), offset);
      total := CountByDocumentId(Some(d));
      next := if offset + limit < total then Some(offset + limit) else None;
    }
  }

  datatype Page = Page(events: seq<AuditEvent>, next: Option<nat>)

  /** The response of a request that listed one log and counted a later one. */
  function PageOf(listed: seq<AuditEvent>, counted: seq<AuditEvent>, d: DocumentId, limit: nat, offset: nat): Page {
    var total := |Matching(counted, Some(d))|;
    Page(Slice(Matching(listed, Some(d)), offset, Some(limit)),
         if offset + limit < total then Some(offset + limit) else None)
  }

  /** A page that comes with a next offset is the stretch of the log it stands for if and
      only if it is full - which its reader sees, as `returned_count == limit`. */
  lemma PageIsExact(listed: seq<AuditEvent>, later: seq<AuditEvent>, d: DocumentId, limit: nat, offset: nat)
    requires PageOf(listed, listed + later, d, limit, offset).next.Some?
    ensures var page := PageOf(listed, listed + later, d, limit, offset).events;
            var matching := Matching(listed + later, Some(d));
            offset + limit < |matching| && (page == matching[offset..offset + limit] <==> |page| == limit)
  {
    MatchingAppends(listed, later, Some(d));
    SliceIsExact(Matching(listed, Some(d)), Matching(listed + later, Some(d)), offset, limit);
  }

  lemma SliceIsExact<T>(seen: seq<T>, now: seq<T>, offset: nat, limit: nat)
    requires seen <= now && offset + limit < |now|
    ensures var page := Slice(seen, offset, Some(limit)); page == now[offset..offset + limit] <==> |page| == limit
  {
    if offset + limit <= |seen| { assert seen[offset..offset + limit] == now[offset..offset + limit]; }
  }

  // ---- a reader following next_offset -------------------------------------------

  /** One request: what others record before it, its own read event, and what others record
      before it lists and before it counts. */
  datatype Turn = Turn(before: seq<AuditEvent>, read: AuditEvent, listing: seq<AuditEvent>, counting: seq<AuditEvent>)

  /** `listed` is the log as the last page was listed, `log` as it was counted. */
  datatype Reading = Reading(log: seq<AuditEvent>, listed: seq<AuditEvent>, pages: seq<seq<AuditEvent>>,
                             next: Option<nat>)

  function Concat<T>(pages: seq<seq<T>>): seq<T> {
    if pages == [] then [] else Concat(pages[..|pages| - 1]) + pages[|pages| - 1]
  }

  function Listed(log: seq<AuditEvent>, turn: Turn): seq<AuditEvent> {
    log + turn.before + [turn.read] + turn.listing
  }

  function Continue(r: Reading, d: DocumentId, limit: nat, turn: Turn): Reading {
    match r.next
    case None => r
    case Some(offset) =>
      var listed := Listed(r.log, turn);
      var page := PageOf(listed, listed + turn.counting, d, limit, offset);
      Reading(listed + turn.counting, listed, r.pages + [page.events], page.next)
  }

  /** The reader after the first `k` turns. */
  function Follow(log: seq<AuditEvent>, d: DocumentId, limit: nat, turns: seq<Turn>, k: nat): Reading
    requires k <= |turns|
  {
    if k == 0 then Reading(log, log, [], Some(0))
    else Continue(Follow(log, d, limit, turns, k - 1), d, limit, turns[k - 1])
  }

  ghost predicate ReadsOf(turns: seq<Turn>, d: DocumentId) {
    forall i :: 0 <= i < |turns| ==> turns[i].read.documentId == Some(d)
  }

  /** Every page that came with a next offset was full. */
  ghost predicate FullPages(r: Reading, limit: nat) {
    forall i :: 0 <= i < |r.pages| - (if r.next.None? then 1 else 0) ==> |r.pages[i]| == limit
  }

  lemma ConcatAppends<T>(pages: seq<seq<T>>, page: seq<T>)
    ensures Concat(pages + [page]) == Concat(pages) + page
  {
    assert (pages + [page])[..|pages|] == pages;
  }

  lemma ListedMatches(log: seq<AuditEvent>, d: DocumentId, turn: Turn)
    requires turn.read.documentId == Some(d)
    ensures Matching(Listed(log, turn), Some(d))
            == Matching(log, Some(d)) + Matching(turn.before, Some(d)) + [turn.read] + Matching(turn.listing, Some(d))
  {
    MatchingAppends(log + turn.before + [turn.read], turn.listing, Some(d));
    MatchingAppends(log + turn.before, [turn.read], Some(d));
    MatchingAppends(log, turn.before, Some(d));
  }

  /** The pages read so far, `full` or not, against the log at each of two moments. */
  ghost predicate Covers<T>(pages: seq<T>, full: bool, log: seq<T>, offset: nat) {
    offset <= |log| && |pages| <= offset && (full <==> |pages| == offset) && (full ==> pages == log[..offset])
  }

  lemma PageCovers<T>(pages: seq<T>, full: bool, was: seq<T>, seen: seq<T>, now: seq<T>, offset: nat, limit: nat)
    requires Covers(pages, full, was, offset) && was <= seen <= now && offset + limit < |now|
    ensures var page := Slice(seen, offset, Some(limit));
            Covers(pages + page, full && |page| == limit, now, offset + limit)
  {
    var page := Slice(seen, offset, Some(limit));
    if full && |page| == limit && limit > 0 {
      assert now[..offset + limit] == now[..offset] + now[offset..offset + limit];
      assert was[..offset] == now[..offset] && seen[offset..offset + limit] == now[offset..offset + limit];
    }
  }

  lemma LastPageCovers<T>(pages: seq<T>, full: bool, was: seq<T>, seen: seq<T>, offset: nat, limit: nat)
    requires Covers(pages, full, was, offset) && was <= seen && |seen| <= offset + limit
    ensures full <==> pages + Slice(seen, offset, Some(limit)) == seen
  {
    var page := Slice(seen, offset, Some(limit));
    assert page == seen[offset..];
    if full { assert seen == was[..offset] + seen[offset..]; }
    if pages + page == seen { assert |pages| + |page| == |seen|; }
  }

  ghost predicate ReadSoFar(r: Reading, d: DocumentId, limit: nat, k: nat) {
    match r.next
    case Some(offset) =>
      |r.pages| == k && offset == Times(k, limit)
      && Covers(Concat(r.pages), FullPages(r, limit), Matching(r.log, Some(d)), offset)
    case None => r.pages != [] && (FullPages(r, limit) <==> Concat(r.pages) == Matching(r.listed, Some(d)))
  }

  lemma FullGrows(r: Reading, d: DocumentId, limit: nat, turn: Turn)
    requires r.next.Some?
    ensures var r' := Continue(r, d, limit, turn);
            FullPages(r', limit)
            <==> FullPages(r, limit) && (r'.next.Some? ==> |r'.pages[|r.pages|]| == limit)
  {
    var r' := Continue(r, d, limit, turn);
    assert forall i :: 0 <= i < |r.pages| ==> r'.pages[i] == r.pages[i];
  }

  lemma ReadsOn(r: Reading, d: DocumentId, limit: nat, turn: Turn, k: nat)
    requires turn.read.documentId == Some(d) && ReadSoFar(r, d, limit, k)
    ensures ReadSoFar(Continue(r, d, limit, turn), d, limit, k + 1)
  {
    if r.next.Some? {
      var offset, listed := r.next.value, Listed(r.log, turn);
      var was, seen := Matching(r.log, Some(d)), Matching(listed, Some(d));
      ListedMatches(r.log, d, turn);
      MatchingAppends(listed, turn.counting, Some(d));
      ConcatAppends(r.pages, Slice(seen, offset, Some(limit)));
      FullGrows(r, d, limit, turn);
      if Continue(r, d, limit, turn).next.Some? {
        var now := Matching(listed + turn.counting, Some(d));
        PageCovers(Concat(r.pages), FullPages(r, limit), was, seen, now, offset, limit);
      } else {
        LastPageCovers(Concat(r.pages), FullPages(r, limit), was, seen, offset, limit);
      }
    }
  }

  lemma {:induction false} TurnsAreRead(log: seq<AuditEvent>, d: DocumentId, limit: nat, turns: seq<Turn>, k: nat)
    requires ReadsOf(turns, d) && k <= |turns|
    ensures ReadSoFar(Follow(log, d, limit, turns, k), d, limit, k)
  {
    if k > 0 {
      TurnsAreRead(log, d, limit, turns, k - 1);
      var r := Follow(log, d, limit, turns, k - 1);
      assert Follow(log, d, limit, turns, k) == Continue(r, d, limit, turns[k - 1]);
      ReadsOn(r, d, limit, turns[k - 1], k - 1);
    }
  }

  /** Whatever others record, before, during and between the requests: the pages are the
      document's log, in order and without gap or repeat - up to the offset reached, or
      whole as the last page was listed - if and only if every page that came with a next
      offset was full. */
  lemma PagesAreTheLog(log: seq<AuditEvent>, d: DocumentId, limit: nat, turns: seq<Turn>, k: nat)
    requires ReadsOf(turns, d) && k <= |turns|
    ensures var r := Follow(log, d, limit, turns, k);
            match r.next
            case Some(offset) =>
              offset <= |Matching(r.log, Some(d))|
              && (FullPages(r, limit) <==> Concat(r.pages) == Matching(r.log, Some(d))[..offset])
            case None => FullPages(r, limit) <==> Concat(r.pages) == Matching(r.listed, Some(d))
  {
    TurnsAreRead(log, d, limit, turns, k);
  }

  /** Nobody else records an event of this document between a listing and its count. */
  ghost predicate Uninterrupted(turns: seq<Turn>, d: DocumentId) {
    ReadsOf(turns, d) && forall i :: 0 <= i < |turns| ==> Matching(turns[i].counting, Some(d)) == []
  }

  lemma UninterruptedPageIsFull(r: Reading, d: DocumentId, limit: nat, turn: Turn)
    requires FullPages(r, limit) && Matching(turn.counting, Some(d)) == []
    ensures FullPages(Continue(r, d, limit, turn), limit)
  {
    if r.next.Some? {
      MatchingAppends(Listed(r.log, turn), turn.counting, Some(d));
      FullGrows(r, d, limit, turn);
    }
  }

  /** Requests that nobody interrupts between listing and counting read the log without gap
      or repeat, whatever is recorded around them. */
  lemma {:induction false} UninterruptedPagesAreFull(log: seq<AuditEvent>, d: DocumentId, limit: nat,
                                                     turns: seq<Turn>, k: nat)
    requires Uninterrupted(turns, d) && k <= |turns|
    ensures FullPages(Follow(log, d, limit, turns, k), limit)
  {
    if k > 0 {
      UninterruptedPagesAreFull(log, d, limit, turns, k - 1);
      UninterruptedPageIsFull(Follow(log, d, limit, turns, k - 1), d, limit, turns[k - 1]);
    }
  }

  function Event(d: DocumentId, id: string): AuditEvent {
    AuditEvent(id, Some(d), "", 0)
  }

  lemma {:induction false} AllMatch(d: DocumentId, events: seq<AuditEvent>)
    requires forall i :: 0 <= i < |events| ==> events[i].documentId == Some(d)
    ensures Matching(events, Some(d)) == events
  {
    if events != [] { AllMatch(d, events[1..]); }
  }

  /** One turn of a log that holds this document's events only. */
  lemma TurnOfOne(r: Reading, d: DocumentId, limit: nat, turn: Turn, listed: seq<AuditEvent>)
    requires r.next.Some? && listed == Listed(r.log, turn)
    requires forall i :: 0 <= i < |listed + turn.counting| ==> (listed + turn.counting)[i].documentId == Some(d)
    ensures var next := r.next.value + limit;
            Continue(r, d, limit, turn)
            == Reading(listed + turn.counting, listed, r.pages + [Slice(listed, r.next.value, Some(limit))],
                       if next < |listed + turn.counting| then Some(next) else None)
  {
    assert forall i :: 0 <= i < |listed| ==> listed[i] == (listed + turn.counting)[i];
    AllMatch(d, listed);
    AllMatch(d, listed + turn.counting);
  }

  ghost predicate Skips(log: seq<AuditEvent>, d: DocumentId, limit: nat, turns: seq<Turn>, skipped: AuditEvent) {
    ReadsOf(turns, d)
    && var r := Follow(log, d, limit, turns, |turns|);
       r.next.None? && skipped in Matching(r.listed, Some(d)) && skipped !in Concat(r.pages)
  }

  const FIRST := "0"
  const SECOND := "1"
  const THIRD := "2"
  const FOURTH := "3"

  /** Two events are recorded between the first listing and its count: with a limit of two
      the reader is sent on past the first of them, finishes, and was never given it. */
  lemma CountedEventsAreSkipped(d: DocumentId)
    ensures Skips([], d, 2,
                  [Turn([], Event(d, FIRST), [], [Event(d, SECOND), Event(d, THIRD)]),
                   Turn([], Event(d, FOURTH), [], [])],
                  Event(d, SECOND))
  {
    var e0, e1, e2, e3 := Event(d, FIRST), Event(d, SECOND), Event(d, THIRD), Event(d, FOURTH);
    var turns := [Turn([], e0, [], [e1, e2]), Turn([], e3, [], [])];
    FirstOfTwo(d, turns[0], e0, e1, e2);
    var r1 := Reading([e0, e1, e2], [e0], [[e0]], Some(2));
    assert Follow([], d, 2, turns, 1) == Continue(Follow([], d, 2, turns, 0), d, 2, turns[0]) == r1;
    SecondOfTwo(d, r1, turns[1], [e0, e1, e2, e3]);
    assert Follow([], d, 2, turns, 2) == Continue(r1, d, 2, turns[1]);
    AllMatch(d, [e0, e1, e2, e3]);
    assert e1 == [e0, e1, e2, e3][1];
    TwoPages([e0], [e2, e3]);
  }

  lemma FirstOfTwo(d: DocumentId, turn: Turn, e0: AuditEvent, e1: AuditEvent, e2: AuditEvent)
    requires turn == Turn([], e0, [], [e1, e2])
    requires e0.documentId == Some(d) && e1.documentId == Some(d) && e2.documentId == Some(d)
    ensures Continue(Reading([], [], [], Some(0)), d, 2, turn) == Reading([e0, e1, e2], [e0], [[e0]], Some(2))
  {
    assert [e0] + turn.counting == [e0, e1, e2];
    TurnOfOne(Reading([], [], [], Some(0)), d, 2, turn, [e0]);
  }

  lemma SecondOfTwo(d: DocumentId, r: Reading, turn: Turn, listed: seq<AuditEvent>)
    requires |listed| == 4 && r.log == listed[..3] && r.next == Some(2) && |r.pages| == 1
        && turn == Turn([], listed[3], [], [])
    requires forall i :: 0 <= i < 4 ==> listed[i].documentId == Some(d)
    ensures Continue(r, d, 2, turn) == Reading(listed, listed, [r.pages[0], [listed[2], listed[3]]], None)
  {
    assert Listed(r.log, turn) == listed && listed + turn.counting == listed;
    TurnOfOne(r, d, 2, turn, listed);
    assert Slice(listed, 2, Some(2)) == [listed[2], listed[3]];
    assert r.pages == [r.pages[0]];
  }

  lemma TwoPages<T>(a: seq<T>, b: seq<T>)
    ensures Concat([a, b]) == a + b
  {
    ConcatAppends([], a);
    ConcatAppends([a], b);
    assert [] + [a] == [a] && [a] + [b] == [a, b];
  }

  /** `k * m`, by repeated addition. */
  function Times(k: nat, m: nat): nat {
    if k == 0 then 0 else Times(k - 1, m) + m
  }

  lemma {:induction false} TimesIsProduct(k: nat, m: nat)
    ensures Times(k, m) == k * m
  {
    if k > 0 { TimesIsProduct(k - 1, m); }
  }

  lemma {:induction false} TimesLess(k: nat, m: nat)
    requires m >= 1
    ensures Times(k, m) == Times(k, m - 1) + k
  {
    if k > 0 { TimesLess(k - 1, m); }
  }

  lemma {:induction false} TimesGrows(k: nat, m: nat)
    ensures if m == 0 then Times(k, m) == 0 else Times(k, m) >= k
  {
    if k > 0 { TimesGrows(k - 1, m); }
  }

  /** Nobody else records an event of this document during the turn. */
  ghost predicate Alone(turn: Turn, d: DocumentId) {
    && turn.read.documentId == Some(d)
    && Matching(turn.before, Some(d)) == [] && Matching(turn.listing, Some(d)) == []
        && Matching(turn.counting, Some(d)) == []
  }

  ghost predicate SoleReader(turns: seq<Turn>, d: DocumentId) {
    forall i :: 0 <= i < |turns| ==> Alone(turns[i], d)
  }

  lemma SoleTurn(r: Reading, d: DocumentId, limit: nat, turn: Turn, k: nat, n: nat)
    requires limit >= 1 && Alone(turn, d)
    requires |Matching(r.log, Some(d))| == n + |r.pages|
    requires r.next.Some? ==> |r.pages| == k && r.next.value == Times(k, limit)
    ensures var r' := Continue(r, d, limit, turn);
            && |Matching(r'.log, Some(d))| == n + |r'.pages|
            && (r.next.Some? ==> |r'.pages| == k + 1 && (r'.next.None? <==> n <= Times(k + 1, limit - 1)))
  {
    ListedMatches(r.log, d, turn);
    MatchingAppends(Listed(r.log, turn), turn.counting, Some(d));
    TimesLess(k + 1, limit);
  }

  /** Each page after the first gains `m` events on a log of `n`: the reader has ended when
      its pages have gained them all, and not a page earlier. */
  ghost predicate CaughtUp(n: nat, m: nat, turns: nat, pages: nat, ended: bool) {
    && (ended ==> pages >= 1 && n <= Times(pages, m) && (pages == 1 || Times(pages - 1, m) < n))
    && (if turns == 0 then !ended else ended <==> n <= Times(turns, m))
  }

  lemma CatchesUp(n: nat, m: nat, k: nat, pages: nat, ended: bool, pages': nat, ended': bool)
    requires CaughtUp(n, m, k, pages, ended)
    requires ended ==> ended' && pages' == pages
    requires !ended ==> pages' == k + 1 && (ended' <==> n <= Times(k + 1, m))
    ensures CaughtUp(n, m, k + 1, pages', ended')
  {
  }

  ghost predicate ReadAlone(r: Reading, d: DocumentId, limit: nat, n: nat, k: nat) {
    limit >= 1 && |Matching(r.log, Some(d))| == n + |r.pages| && CaughtUp(n, limit - 1, k, |r.pages|, r.next.None?)
  }

  lemma ReadsOnAlone(r: Reading, d: DocumentId, limit: nat, turn: Turn, n: nat, k: nat)
    requires ReadAlone(r, d, limit, n, k)
    requires Alone(turn, d)
    requires r.next.Some? ==> |r.pages| == k && r.next.value == Times(k, limit)
    ensures ReadAlone(Continue(r, d, limit, turn), d, limit, n, k + 1)
  {
    SoleTurn(r, d, limit, turn, k, n);
    var r' := Continue(r, d, limit, turn);
    assert r.next.None? ==> r' == r;
    CatchesUp(n, limit - 1, k, |r.pages|, r.next.None?, |r'.pages|, r'.next.None?);
  }

  lemma {:induction false} OffsetReached(log: seq<AuditEvent>, d: DocumentId, limit: nat, turns: seq<Turn>, k: nat)
    requires k <= |turns|
    ensures var r := Follow(log, d, limit, turns, k);
            r.next.Some? ==> |r.pages| == k && r.next.value == Times(k, limit)
  {
    if k > 0 { OffsetReached(log, d, limit, turns, k - 1); }
  }

  lemma FollowOnce(log: seq<AuditEvent>, d: DocumentId, limit: nat, turns: seq<Turn>, k: nat)
    requires 0 < k <= |turns|
    ensures Follow(log, d, limit, turns, k) == Continue(Follow(log, d, limit, turns, k - 1), d, limit, turns[k - 1])
  {
  }

  lemma {:induction false} SoleReading(log: seq<AuditEvent>, d: DocumentId, limit: nat, turns: seq<Turn>, k: nat)
    requires limit >= 1 && SoleReader(turns, d) && k <= |turns|
    ensures ReadAlone(Follow(log, d, limit, turns, k), d, limit, |Matching(log, Some(d))|, k)
  {
    if k == 0 { NothingRead(log, d, limit); }
    else {
      SoleReading(log, d, limit, turns, k - 1);
      OffsetReached(log, d, limit, turns, k - 1);
      FollowOnce(log, d, limit, turns, k);
      assert Alone(turns[k - 1], d);
      ReadsOnAlone(Follow(log, d, limit, turns, k - 1), d, limit, turns[k - 1], |Matching(log, Some(d))|, k - 1);
    }
  }

  lemma NothingRead(log: seq<AuditEvent>, d: DocumentId, limit: nat)
    requires limit >= 1
    ensures ReadAlone(Reading(log, log, [], Some(0)), d, limit, |Matching(log, Some(d))|, 0)
  {
  }

  lemma NothingUnlisted(log: seq<AuditEvent>, d: DocumentId, limit: nat, turns: seq<Turn>, k: nat)
    requires SoleReader(turns, d) && k <= |turns|
    ensures var r := Follow(log, d, limit, turns, k); Matching(r.listed, Some(d)) == Matching(r.log, Some(d))
    decreases k
  {
    if k > 0 {
      NothingUnlisted(log, d, limit, turns, k - 1);
      var r := Follow(log, d, limit, turns, k - 1);
      if r.next.Some? { MatchingAppends(Listed(r.log, turns[k - 1]), turns[k - 1].counting, Some(d)); }
    }
  }

  /** The pages a reader needs from `n` events: `n / (limit - 1)`, rounded up. */
  function PagesNeeded(n: nat, limit: nat): (pages: nat)
    requires limit >= 2
    ensures n > 0 ==> (pages - 1) * (limit - 1) < n <= pages * (limit - 1)
  {
    (n + limit - 2) / (limit - 1)
  }

  lemma OneCount(n: nat, m: nat, a: nat, b: nat)
    requires n > 0 && (a - 1) * m < n <= a * m && (b - 1) * m < n <= b * m
    ensures a == b
  {
    if a < b { Multiples(a, b - 1, m); }
    if b < a { Multiples(b, a - 1, m); }
  }

  lemma Multiples(a: nat, b: nat, m: nat)
    requires a <= b
    ensures a * m <= b * m
  {
  }

  lemma EndsWhenNeeded(n: nat, limit: nat, turns: nat, pages: nat, ended: bool)
    requires n > 0 && limit >= 2 && CaughtUp(n, limit - 1, turns, pages, ended)
    ensures ended <==> turns >= PagesNeeded(n, limit)
    ensures ended ==> pages == PagesNeeded(n, limit)
  {
    var m, needed := limit - 1, PagesNeeded(n, limit);
    TimesIsProduct(turns, m);
    if ended {
      TimesIsProduct(pages, m);
      TimesIsProduct(pages - 1, m);
      assert pages == 1 ==> (pages - 1) * m == 0;
      OneCount(n, m, pages, needed);
    }
    if turns >= needed { Multiples(needed, turns, m); } else if turns > 0 { Multiples(turns, needed - 1, m); }
  }

  /** A sole reader with a limit of at least two is done after exactly that many pages,
      and has then read the whole final log, its own reads included. */
  lemma SoleReaderFinishes(log: seq<AuditEvent>, d: DocumentId, limit: nat, turns: seq<Turn>, k: nat)
    requires limit >= 2 && SoleReader(turns, d) && k <= |turns| && Matching(log, Some(d)) != []
    ensures var r, n := Follow(log, d, limit, turns, k), |Matching(log, Some(d))|;
            && (r.next.None? <==> k >= PagesNeeded(n, limit))
            && (r.next.None? ==> |r.pages| == PagesNeeded(n, limit)
                                 && Concat(r.pages) == Matching(r.log, Some(d))
                                 && |Concat(r.pages)| == n + PagesNeeded(n, limit))
  {
    SoleReading(log, d, limit, turns, k);
    PagesAreTheLog(log, d, limit, turns, k);
    UninterruptedPagesAreFull(log, d, limit, turns, k);
    NothingUnlisted(log, d, limit, turns, k);
    var r, n := Follow(log, d, limit, turns, k), |Matching(log, Some(d))|;
    EndsWhenNeeded(n, limit, k, |r.pages|, r.next.None?);
  }

  /** A limit of one, which the interface admits, never catches up with its own reads once
      the document has an event: given enough turns, a sole reader finishes if and only if
      the limit is at least two or there was nothing to read. */
  lemma FinishingIsExact(log: seq<AuditEvent>, d: DocumentId, limit: nat, turns: seq<Turn>, k: nat)
    requires limit >= 1 && SoleReader(turns, d) && |Matching(log, Some(d))| < k <= |turns|
    ensures Follow(log, d, limit, turns, k).next.None? <==> limit >= 2 || Matching(log, Some(d)) == []
  {
    SoleReading(log, d, limit, turns, k);
    TimesGrows(k, limit - 1);
  }
}
