/** Keyset paging through activity events (server/modules/activity/service.ts and repository.ts). */
module ActivityPaging {
  import opened Common

  /** An event as the query orders it: time in microseconds, as the database stores it, and its unique key in text order. */
  datatype Event = Event(at: int, key: nat)

  /** What a cursor carries: the time has been through a Date, which keeps whole milliseconds. */
  datatype Cursor = Cursor(at: int, key: nat)

  datatype Page = Page(events: seq<Event>, next: Option<Cursor>)

  const MICROSECONDS := 1000

  /** b comes after a in order by occurred_at desc, stable_event_key desc. */
  predicate Follows(a: Event, b: Event) {
    b.at < a.at || (b.at == a.at && b.key < a.key)
  }

  /** The events the query may return, in its order. */
  predicate Descending(events: seq<Event>) {
    forall i, j :: 0 <= i < j < |events| ==> Follows(events[i], events[j])
  }

  /** The cursor filter. */
  predicate Passes(e: Event, c: Cursor) {
    e.at < c.at || (e.at == c.at && e.key < c.key)
  }

  /** toISOString() of the row's Date: microseconds are cut off. */
  function CursorOf(e: Event): Cursor {
    Cursor(e.at - e.at % MICROSECONDS, e.key)
  }

  /** The event if the cursor lets it through. */
  function Kept(e: Event, c: Cursor): seq<Event> {
    if Passes(e, c) then [e] else []
  }

  function Remaining(events: seq<Event>, cursor: Option<Cursor>): (r: seq<Event>)
    ensures |r| <= |events|
  {
    if events == [] then []
    else if cursor.None? then events
    else Kept(events[0], cursor.value) + Remaining(events[1..], cursor)
  }

  /** queryActivity. */
  function Query(events: seq<Event>, cursor: Option<Cursor>, limit: nat): seq<Event> {
    var r := Remaining(events, cursor);
    r[..Min(limit, |r|)]
  }

  /** list: asks for one record more than the page holds. */
  function List(events: seq<Event>, cursor: Option<Cursor>, limit: nat): Page
    requires limit > 0
  {
    var records := Query(events, cursor, limit + 1);
    var hasMore := |records| > limit;
    var page := records[..Min(limit, |records|)];
    Page(page, if hasMore && page != [] then Some(CursorOf(page[|page| - 1])) else None)
  }

  // ---------------------------------------------------------------- where a cursor leads

  lemma {:induction false} DescendingTail(events: seq<Event>)
    requires Descending(events) && events != []
    ensures Descending(events[1..])
  {
    forall i, j | 0 <= i < j < |events[1..]|
      ensures Follows(events[1..][i], events[1..][j])
    {
      assert Follows(events[i + 1], events[j + 1]);
    }
  }

  lemma {:induction false} AllOfItRemains(events: seq<Event>, c: Cursor)
    requires forall i :: 0 <= i < |events| ==> Passes(events[i], c)
    ensures Remaining(events, Some(c)) == events
  {
    hide Passes;
    if events != [] {
      AllOfItRemains(events[1..], c);
      assert Kept(events[0], c) == [events[0]];
    }
  }

  lemma LaterOnesPass(events: seq<Event>, c: Cursor)
    requires Descending(events) && events != [] && Passes(events[0], c)
    ensures forall i :: 0 <= i < |events| ==> Passes(events[i], c)
  {
    forall i | 0 < i < |events|
      ensures Passes(events[i], c)
    {
      assert Follows(events[0], events[i]);
    }
  }

  /** The filter is passed by everything after an event that passes it: what remains is a tail of the list. */
  lemma {:induction false} RemainingIsATail(events: seq<Event>, c: Cursor)
    requires Descending(events)
    ensures var r := Remaining(events, Some(c));
      r == events[|events| - |r|..] && forall i :: 0 <= i < |events| ==> (Passes(events[i], c) <==> i >= |events| - |r|)
  {
    hide Passes, Descending;
    if events != [] {
      if Passes(events[0], c) {
        LaterOnesPass(events, c);
        AllOfItRemains(events, c);
      } else {
        var rest := events[1..];
        DescendingTail(events);
        RemainingIsATail(rest, c);
        assert Remaining(events, Some(c)) == Remaining(rest, Some(c));
        forall i | 1 <= i < |events|
          ensures Passes(events[i], c) <==> i >= |events| - |Remaining(events, Some(c))|
        {
          assert rest[i - 1] == events[i];
        }
      }
    }
  }

  /** No event up to and including the one a cursor names passes its filter. */
  lemma NamedEventsAreBehind(events: seq<Event>, i: nat, k: nat)
    requires Descending(events) && k <= i < |events|
    ensures !Passes(events[k], CursorOf(events[i]))
  {
    if k < i {
      assert Follows(events[k], events[i]);
    }
  }

  /** The page after the one that ends with event i starts at the next event exactly when that event passes the filter. */
  predicate Continues(events: seq<Event>, i: nat)
    requires i < |events|
  {
    i + 1 < |events| ==> Passes(events[i + 1], CursorOf(events[i]))
  }

  lemma CursorLeads(events: seq<Event>, i: nat)
    requires Descending(events) && i < |events|
    ensures |Remaining(events, Some(CursorOf(events[i])))| <= |events| - i - 1
    ensures Continues(events, i) <==> Remaining(events, Some(CursorOf(events[i]))) == events[i + 1..]
  {
    RemainingIsATail(events, CursorOf(events[i]));
    NamedEventsAreBehind(events, i, i);
    var r := Remaining(events, Some(CursorOf(events[i])));
    if i + 1 < |events| && |r| == |events| - i - 1 {
      assert r == events[i + 1..];
    }
  }

  // ---------------------------------------------------------------- following nextCursor to the end

  /** Everything a client sees that follows nextCursor from this cursor on. */
  function FollowFrom(events: seq<Event>, cursor: Option<Cursor>, limit: nat): seq<Event>
    requires limit > 0 && Descending(events)
    decreases |Remaining(events, cursor)|
  {
    var page := List(events, cursor, limit);
    if page.next.None? then page.events
    else
      NextPageIsShorter(events, cursor, limit);
      page.events + FollowFrom(events, page.next, limit)
  }

  /** Following cursors ends: each leaves fewer events. */
  lemma NextPageIsShorter(events: seq<Event>, cursor: Option<Cursor>, limit: nat)
    requires limit > 0 && Descending(events) && List(events, cursor, limit).next.Some?
    ensures |Remaining(events, List(events, cursor, limit).next)| < |Remaining(events, cursor)|
  {
    var r := Remaining(events, cursor);
    PagesAreTails(events, cursor);
    var i := |events| - |r| + limit - 1;
    assert List(events, cursor, limit).events == r[..limit];
    assert r[limit - 1] == events[i];
    CursorLeads(events, i);
  }

  lemma PagesAreTails(events: seq<Event>, cursor: Option<Cursor>)
    requires Descending(events)
    ensures var r := Remaining(events, cursor); r == events[|events| - |r|..]
  {
    if cursor.Some? {
      RemainingIsATail(events, cursor.value);
    }
  }

  /** From position p on, every page boundary leads to the very next event. */
  predicate BoundariesContinue(events: seq<Event>, p: nat, limit: nat)
    requires limit > 0
    decreases |events| - p
  {
    p + limit < |events| ==> Continues(events, p + limit - 1) && BoundariesContinue(events, p + limit, limit)
  }

  /** A page is the front of what remains, and its cursor names its last event when more remains. */
  lemma PageShape(events: seq<Event>, cursor: Option<Cursor>, limit: nat)
    requires limit > 0 && Descending(events)
    ensures var r, page := Remaining(events, cursor), List(events, cursor, limit);
      if |r| <= limit then page == Page(r, None)
      else page == Page(r[..limit], Some(CursorOf(events[|events| - |r| + limit - 1])))
  {
    hide Remaining, CursorOf, Descending;
    PagesAreTails(events, cursor);
    var r := Remaining(events, cursor);
    if |r| > limit {
      assert r[..limit + 1][..limit] == r[..limit];
      assert r[limit - 1] == events[|events| - |r| + limit - 1];
    }
  }

  /** Where the next page starts: at the next event, or further on. */
  lemma NextPageStarts(events: seq<Event>, cursor: Option<Cursor>, limit: nat)
    requires limit > 0 && Descending(events) && |Remaining(events, cursor)| > limit
    ensures var r, i := Remaining(events, cursor), |events| - |Remaining(events, cursor)| + limit - 1;
      var rest := Remaining(events, Some(CursorOf(events[i])));
      && r[limit..] == events[i + 1..]
      && |rest| <= |r| - limit
      && (Continues(events, i) <==> rest == r[limit..])
      && (!Continues(events, i) ==> |rest| < |r| - limit)
  {
    hide Remaining, CursorOf, Passes, Descending;
    PagesAreTails(events, cursor);
    var i := |events| - |Remaining(events, cursor)| + limit - 1;
    CursorLeads(events, i);
    PagesAreTails(events, Some(CursorOf(events[i])));
  }

  /** Pages never repeat an event and never leave the order; what they show is everything exactly when no boundary skips. */
  lemma {:induction false} FollowingShowsTheTail(events: seq<Event>, cursor: Option<Cursor>, limit: nat)
    requires limit > 0 && Descending(events)
    ensures var r := Remaining(events, cursor);
      && |FollowFrom(events, cursor, limit)| <= |r|
      && (FollowFrom(events, cursor, limit) == r <==> BoundariesContinue(events, |events| - |r|, limit))
    decreases |Remaining(events, cursor)|
  {
    hide Remaining, CursorOf, Descending, Continues, List;
    var r := Remaining(events, cursor);
    PageShape(events, cursor, limit);
    if |r| > limit {
      var i := |events| - |r| + limit - 1;
      var next := Some(CursorOf(events[i]));
      NextPageStarts(events, cursor, limit);
      FollowingShowsTheTail(events, next, limit);
      var shown, rest := FollowFrom(events, next, limit), Remaining(events, next);
      assert FollowFrom(events, cursor, limit) == r[..limit] + shown;
      assert r == r[..limit] + r[limit..];
      if Continues(events, i) {
        SamePrefix(r[..limit], shown, rest);
      }
    }
  }

  lemma SamePrefix(a: seq<Event>, b: seq<Event>, c: seq<Event>)
    ensures a + b == a + c <==> b == c
  {
    if a + b == a + c {
      assert b == (a + b)[|a|..] && c == (a + c)[|a|..];
    }
  }

  /**
   * Following nextCursor from the first page over fixed data shows every event exactly once, in order, if and only if
   * at every page boundary the next event passes the filter of the cursor that names the last one.
   */
  lemma PagingIsCompleteIff(events: seq<Event>, limit: nat)
    requires limit > 0 && Descending(events)
    ensures FollowFrom(events, None, limit) == events <==> BoundariesContinue(events, 0, limit)
  {
    FollowingShowsTheTail(events, None, limit);
    assert Remaining(events, None) == events;
  }

  predicate WholeMilliseconds(events: seq<Event>) {
    forall i :: 0 <= i < |events| ==> events[i].at % MICROSECONDS == 0
  }

  lemma {:induction false} WholeMillisecondsContinue(events: seq<Event>, p: nat, limit: nat)
    requires limit > 0 && Descending(events) && WholeMilliseconds(events)
    ensures BoundariesContinue(events, p, limit)
    decreases |events| - p
  {
    if p + limit < |events| {
      assert Follows(events[p + limit - 1], events[p + limit]);
      WholeMillisecondsContinue(events, p + limit, limit);
    }
  }

  /** The application stamps its rows with JavaScript dates, so its own events are all paged through exactly once. */
  lemma PagingIsComplete(events: seq<Event>, limit: nat)
    requires limit > 0 && Descending(events) && WholeMilliseconds(events)
    ensures FollowFrom(events, None, limit) == events
  {
    WholeMillisecondsContinue(events, 0, limit);
    PagingIsCompleteIff(events, limit);
  }

  /** Times finer than a millisecond, which the column can hold, make a page boundary skip an event. */
  lemma FinerTimesAreSkipped()
    ensures var events := [Event(2_000_700, 2), Event(2_000_300, 1)];
      Descending(events) && FollowFrom(events, None, 1) != events
  {
    var events := [Event(2_000_700, 2), Event(2_000_300, 1)];
    assert !Passes(events[1], CursorOf(events[0]));
    PagingIsCompleteIff(events, 1);
  }

  // ---------------------------------------------------------------- inserts while paging

  /** The newer event x has joined the list at position i. */
  function Inserted(events: seq<Event>, i: nat, x: Event): seq<Event>
    requires i <= |events|
  {
    events[..i] + [x] + events[i..]
  }

  lemma RemainingStep(e: Event, events: seq<Event>, c: Cursor)
    ensures Remaining([e] + events, Some(c)) == Kept(e, c) + Remaining(events, Some(c))
  {
    assert ([e] + events)[1..] == events;
  }

  lemma {:induction false} InsertedIsInvisible(events: seq<Event>, i: nat, x: Event, c: Cursor)
    requires i <= |events| && !Passes(x, c)
    ensures Remaining(Inserted(events, i, x), Some(c)) == Remaining(events, Some(c))
    decreases i
  {
    hide Remaining, Passes;
    if i == 0 {
      RemainingStep(x, events, c);
      assert Inserted(events, 0, x) == [x] + events;
    } else {
      var e, rest := events[0], events[1..];
      InsertedIsInvisible(rest, i - 1, x, c);
      RemainingStep(e, rest, c);
      RemainingStep(e, Inserted(rest, i - 1, x), c);
      assert [e] + rest == events && [e] + Inserted(rest, i - 1, x) == Inserted(events, i, x);
    }
  }

  /** An event inserted ahead of a cursor never disturbs the pages that remain. */
  lemma {:induction false} InsertsDoNotDisturb(events: seq<Event>, i: nat, x: Event, c: Cursor, limit: nat)
    requires limit > 0 && Descending(events) && i <= |events| && Descending(Inserted(events, i, x))
    requires !Passes(x, c)
    ensures FollowFrom(Inserted(events, i, x), Some(c), limit) == FollowFrom(events, Some(c), limit)
    decreases |Remaining(events, Some(c))|
  {
    hide Follows, Descending;
    InsertedIsInvisible(events, i, x, c);
    var page := List(events, Some(c), limit);
    assert List(Inserted(events, i, x), Some(c), limit) == page;
    if page.next.Some? {
      NextPageIsShorter(events, Some(c), limit);
      LaterCursorsAreLower(events, c, limit);
      InsertsDoNotDisturb(events, i, x, page.next.value, limit);
    }
  }

  /** Whatever a cursor hides, every later cursor hides too. */
  lemma LaterCursorsAreLower(events: seq<Event>, c: Cursor, limit: nat)
    requires limit > 0 && Descending(events) && List(events, Some(c), limit).next.Some?
    ensures forall x :: Passes(x, List(events, Some(c), limit).next.value) ==> Passes(x, c)
  {
    var r := Remaining(events, Some(c));
    RemainingIsATail(events, c);
    assert List(events, Some(c), limit).events == r[..limit];
    assert r[limit - 1] == events[|events| - |r| + limit - 1];
  }
}
