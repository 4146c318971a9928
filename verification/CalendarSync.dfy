/** Syncing one feed and sweeping all of them (app/services/calendar_sync.py). */
module CalendarSync {
  import opened Prelude
  import opened Folds
  import opened Nights
  import opened Model
  import opened ICalParser
  import opened ContentHash
  import opened Diff
  import opened Crud
  import opened Cache
  import opened Reconciliation

  /** What came back from the feed's host: nothing, something unreadable, or a calendar. */
  datatype Fetch = Unreachable | Malformed | Body(components: seq<Component>)

  /** Everything one sync learns from outside: the fetched body, the owner of the property if it
      could be looked up, the primary keys drawn for new rows, and the local day. */
  datatype Outcome = Outcome(fetch: Fetch, owner: Option<UserId>, ids: Draw, today: Day)

  function FeedEvents(fetch: Fetch): (r: Result<seq<Event>, SyncStatus>)
    ensures r.Ok? ==> forall e :: e in r.value ==> e.start < e.end
    ensures r.Err? ==> r.error != SyncOk
  {
    match fetch
    case Unreachable => Err(FetchError)
    case Malformed => Err(ParseError)
    case Body(components) =>
      var p := Parsed(components);
      if p.Ok? then Ok(p.value) else Err(ParseError)
  }

  predicate Unchanged(feed: Feed, events: seq<Event>)
  {
    feed.hash == Some(Canonical(events))
  }

  /** The status a sync records and returns. */
  function StatusOf(feed: Feed, o: Outcome): SyncStatus
  {
    var events := FeedEvents(o.fetch);
    if events.Err? then events.error
    else if Unchanged(feed, events.value) || o.owner.Some? then SyncOk
    else FetchError
  }

  /** The full path: reconcile the rows, record the hash, drop the cached slots. */
  ghost function FullSync(s: Stored, fid: FeedId, feed: Feed, events: seq<Event>, owner: UserId, ids: Draw,
          today: Day): Stored
  {
    Stored(Reconcile(s.bookings, feed.property, feed.channel, owner, LastWins(events), today, ids),
           Recorded(s.feeds, fid, SyncOk, Some(Canonical(events))),
           s.slots - {feed.property})
  }

  /** One sync of a feed as it was loaded (`feed`), on the stored state. */
  ghost function Sync(s: Stored, fid: FeedId, feed: Feed, o: Outcome): Stored
  {
    var events := FeedEvents(o.fetch);
    if events.Err? then s.(feeds := Recorded(s.feeds, fid, events.error, None))
    else if Unchanged(feed, events.value) then
      s.(feeds := Recorded(s.feeds, fid, SyncOk, Some(Canonical(events.value))))
    else if o.owner.None? then s.(feeds := Recorded(s.feeds, fid, FetchError, None))
    else FullSync(s, fid, feed, events.value, o.owner.value, o.ids, o.today)
  }

  /** Every listed uid has a key drawn for it, and the keys are new to the table. */
  ghost predicate FreshDraw(t: Table, o: Outcome)
  {
    && o.ids.Values !! t.Keys
    && (FeedEvents(o.fetch).Ok? ==> forall e :: e in FeedEvents(o.fetch).value ==> e.uid in o.ids)
  }

  predicate OverlapsAny(start: Day, end: Day, ranges: seq<Slot>)
  {
    exists r | r in ranges :: Overlap(start, end, r.start, r.end)
  }

  /** The imported event overlaps a pending or confirmed platform booking of the property. */
  ghost predicate Overbooks(t: Table, p: PropertyId, e: Event)
  {
    exists id :: id in t && Imported(t[id], p, Platform) && (t[id].status == Pending || t[id].status == Confirmed)
      && Overlap(e.start, e.end, t[id].start, t[id].end)
  }

  /** A listed reservation the table did not know yet, recorded although the nights are sold. */
  ghost predicate NewOverbooking(t: Table, p: PropertyId, c: Channel, incoming: map<Uid, Event>, e: Event)
  {
    e.uid in incoming && incoming[e.uid] == e && !HasUid(t, p, c, e.uid) && Overbooks(t, p, e)
  }

  /** The sync goes past the fetch, the hash comparison and the owner lookup. */
  predicate FullPath(feed: Feed, o: Outcome)
  {
    FeedEvents(o.fetch).Ok? && !Unchanged(feed, FeedEvents(o.fetch).value) && o.owner.Some?
  }

  method SyncFeed(db: Database, cache: SlotsCache, fid: FeedId, feed: Feed, o: Outcome)
      returns (status: SyncStatus, overbooked: seq<Event>)
    requires db.Valid() && FreshDraw(db.bookings, o)
    modifies db, cache
    ensures db.Valid()
    ensures StoredIn(db, cache) == Sync(old(StoredIn(db, cache)), fid, feed, o)
    ensures status == StatusOf(feed, o)
    ensures !FullPath(feed, o) ==> overbooked == []
    ensures FullPath(feed, o) ==> forall e :: e in overbooked <==>
      NewOverbooking(old(db.bookings), feed.property, feed.channel, LastWins(FeedEvents(o.fetch).value), e)
  {
    overbooked := [];
    var events := [];
    match o.fetch {
      case Unreachable =>
        db.RecordSync(fid, FetchError, None);
        return FetchError, [];
      case Malformed =>
        db.RecordSync(fid, ParseError, None);
        return ParseError, [];
      case Body(components) =>
        var parsed := ParseIcs(components);
        if parsed.Err? {
          db.RecordSync(fid, ParseError, None);
          return ParseError, [];
        }
        events := parsed.value;
    }
    var contentHash := Canonical(events);
    if Some(contentHash) == feed.hash {
      db.RecordSync(fid, SyncOk, Some(contentHash));
      return SyncOk, [];
    }
    if o.owner.None? {
      db.RecordSync(fid, FetchError, None);
      return FetchError, [];
    }
    overbooked := ReconcileRows(db, feed.property, feed.channel, o.owner.value, events, o.today, o.ids);
    db.RecordSync(fid, SyncOk, Some(contentHash));
    cache.Invalidate(feed.property, true);
    return SyncOk, overbooked;
  }

  /** Diff the imported rows against the feed and apply the four bulk writes. */
  method ReconcileRows(db: Database, p: PropertyId, c: Channel, owner: UserId, events: seq<Event>, today: Day, ids: Draw)
      returns (overbooked: seq<Event>)
    requires db.Valid()
    requires ids.Values !! db.bookings.Keys
    requires forall e :: e in events ==> e.uid in ids
    modifies db`bookings
    ensures db.Valid()
    ensures db.bookings == Reconcile(old(db.bookings), p, c, owner, LastWins(events), today, ids)
    ensures forall e :: e in overbooked <==> NewOverbooking(old(db.bookings), p, c, LastWins(events), e)
  {
    ghost var t := db.bookings;
    overbooked := [];
    var existing := db.ListChannelBookings(p, c);
    var actions := DiffFeed(existing, events, today);
    forall u | u in LastWins(events)
      ensures u in RowsByUid(existing) <==> HasUid(t, p, c, u)
    {
      KnownUids(existing, t, p, c, u);
    }
    ActionsAreDisjoint(actions, existing, t, p, c, LastWins(events), today);
    WritesReconcile(actions, existing, t, p, c, owner, LastWins(events), today, ids);
    assert forall e :: e in actions.creates ==> Creates(e, RowsByUid(existing), LastWins(events));
    assert forall u :: u in LastWins(events) && !HasUid(t, p, c, u) ==>
        Creates(LastWins(events)[u], RowsByUid(existing), LastWins(events));
    if actions.creates != [] {
      var ranges := db.ActivePlatformRanges(p);
      overbooked := FlagOverbookings(actions.creates, ranges);
      forall e: Event
        ensures OverlapsAny(e.start, e.end, ranges) <==> Overbooks(t, p, e)
      {
        RangesOverbook(t, p, ranges, e);
      }
      db.BulkUpsertChannelBookings(p, c, owner, actions.creates, ids);
    }
    db.BulkSetChannelBookingDates(actions.updates);
    db.BulkCancelChannelBookings(actions.cancels);
    db.BulkTruncateChannelBookings(actions.truncations);
  }

  /** For stays of at least one night, an overbooking is a night sold twice. */
  lemma OverbookingIsSharedNight(t: Table, p: PropertyId, e: Event)
    requires e.start < e.end && forall id :: id in t ==> t[id].start < t[id].end
    ensures Overbooks(t, p, e) <==>
      exists id, n :: id in t && t[id].property == p && t[id].channel == Platform
        && (t[id].status == Pending || t[id].status == Confirmed)
        && Covers(t[id].start, t[id].end, n) && Covers(e.start, e.end, n)
  {
    if Overbooks(t, p, e) {
      var id :| id in t && Imported(t[id], p, Platform) && (t[id].status == Pending || t[id].status == Confirmed)
        && Overlap(e.start, e.end, t[id].start, t[id].end);
      OverlapIsSharedNight(e.start, e.end, t[id].start, t[id].end);
      var n :| Covers(e.start, e.end, n) && Covers(t[id].start, t[id].end, n);
    }
  }

  lemma RangesOverbook(t: Table, p: PropertyId, ranges: seq<Slot>, e: Event)
    requires forall s :: s in ranges <==>
        exists id :: id in t && Imported(t[id], p, Platform)
          && (t[id].status == Pending || t[id].status == Confirmed) && Slot(t[id].start, t[id].end) == s
    ensures OverlapsAny(e.start, e.end, ranges) <==> Overbooks(t, p, e)
  {
    if Overbooks(t, p, e) {
      var id :| id in t && Imported(t[id], p, Platform) && (t[id].status == Pending || t[id].status == Confirmed)
        && Overlap(e.start, e.end, t[id].start, t[id].end);
      assert Slot(t[id].start, t[id].end) in ranges;
    }
  }

  method FlagOverbookings(creates: seq<Event>, ranges: seq<Slot>) returns (flagged: seq<Event>)
    ensures forall e :: e in flagged <==> e in creates && OverlapsAny(e.start, e.end, ranges)
  {
    flagged := [];
    for i := 0 to |creates|
      invariant forall e :: e in flagged <==> e in creates[..i] && OverlapsAny(e.start, e.end, ranges)
    {
      var ev := creates[i];
      assert creates[..i + 1] == creates[..i] + [ev];
      if OverlapsAny(ev.start, ev.end, ranges) {
        flagged := flagged + [ev];
      }
    }
    assert creates[..|creates|] == creates;
  }

  // ---- The sweep ------------------------------------------------------------------------------

  /** One feed's turn in a sweep: the feed as listed at the start, and what its sync met. */
  datatype Visit = Visit(fid: FeedId, feed: Feed, outcome: Outcome)

  datatype Tally = Tally(total: nat, ok: nat, fetchError: nat, parseError: nat)

  ghost function VisitOne(s: Stored, v: Visit): Stored
  {
    Sync(s, v.fid, v.feed, v.outcome)
  }

  function CountOne(t: Tally, v: Visit): Tally
  {
    CountStatus(t, StatusOf(v.feed, v.outcome))
  }

  function CountStatus(t: Tally, status: SyncStatus): Tally
  {
    match status
    case SyncOk => t.(ok := t.ok + 1)
    case FetchError => t.(fetchError := t.fetchError + 1)
    case ParseError => t.(parseError := t.parseError + 1)
  }

  function VisitsOf(feeds: map<FeedId, Feed>, outcomes: map<FeedId, Outcome>, order: seq<FeedId>): (r: seq<Visit>)
    requires forall f :: f in order ==> f in feeds && f in outcomes
    ensures |r| == |order|
    ensures forall i :: 0 <= i < |r| ==> r[i] == Visit(order[i], feeds[order[i]], outcomes[order[i]])
  {
    if order == [] then []
    else VisitsOf(feeds, outcomes, order[..|order| - 1])
         + [Visit(order[|order| - 1], feeds[order[|order| - 1]], outcomes[order[|order| - 1]])]
  }

  /** The outcomes met in one sweep: one for every active feed, no primary key drawn twice. */
  ghost predicate SweepOutcomes(s: Stored, outcomes: map<FeedId, Outcome>)
  {
    && (forall f :: f in s.feeds && s.feeds[f].active ==> f in outcomes)
    && (forall f :: f in outcomes ==> FreshDraw(s.bookings, outcomes[f]))
    && (forall f, g :: f in outcomes && g in outcomes && f != g ==> outcomes[f].ids.Values !! outcomes[g].ids.Values)
  }

  lemma SyncAddsOnlyDrawn(s: Stored, fid: FeedId, feed: Feed, o: Outcome)
    ensures Sync(s, fid, feed, o).bookings.Keys <= s.bookings.Keys + o.ids.Values
  {
    if FullPath(feed, o) {
      ReconcileKeys(s.bookings, feed.property, feed.channel, o.owner.value, LastWins(FeedEvents(o.fetch).value), o.today, o.ids);
    }
  }

  /** Every row the sweep added so far carries a key drawn for a feed already visited. */
  ghost predicate OnlyVisited(t: Table, t0: Table, outcomes: map<FeedId, Outcome>, done: seq<FeedId>)
  {
    forall id :: id in t && id !in t0 ==> exists f :: f in done && f in outcomes && id in outcomes[f].ids.Values
  }

  lemma StillFresh(s0: Stored, t: Table, outcomes: map<FeedId, Outcome>, done: seq<FeedId>, fid: FeedId)
    requires SweepOutcomes(s0, outcomes) && OnlyVisited(t, s0.bookings, outcomes, done)
    requires fid in outcomes && fid !in done
    ensures FreshDraw(t, outcomes[fid])
  {
    hide FeedEvents;
  }

  lemma VisitedOneMore(s0: Stored, s: Stored, outcomes: map<FeedId, Outcome>, done: seq<FeedId>, fid: FeedId, feed: Feed)
    requires OnlyVisited(s.bookings, s0.bookings, outcomes, done) && fid in outcomes
    ensures OnlyVisited(Sync(s, fid, feed, outcomes[fid]).bookings, s0.bookings, outcomes, done + [fid])
  {
    SyncAddsOnlyDrawn(s, fid, feed, outcomes[fid]);
    hide Sync;
    var t := Sync(s, fid, feed, outcomes[fid]).bookings;
    forall id | id in t && id !in s0.bookings
      ensures exists f :: f in done + [fid] && f in outcomes && id in outcomes[f].ids.Values
    {
      if id in s.bookings {
        var f :| f in done && f in outcomes && id in outcomes[f].ids.Values;
        assert f in done + [fid];
      } else {
        assert fid in done + [fid];
      }
    }
  }

  method SyncAllActiveFeeds(db: Database, cache: SlotsCache, outcomes: map<FeedId, Outcome>)
      returns (counts: Tally, order: seq<FeedId>)
    requires db.Valid() && SweepOutcomes(StoredIn(db, cache), outcomes)
    modifies db, cache
    ensures db.Valid()
    ensures DistinctSeq(order) && forall f :: f in order <==> old(f in db.feeds && db.feeds[f].active)
    ensures StoredIn(db, cache) == Fold(VisitOne, old(StoredIn(db, cache)), VisitsOf(old(db.feeds), outcomes, order))
    ensures counts == Fold(CountOne, Tally(|order|, 0, 0, 0), VisitsOf(old(db.feeds), outcomes, order))
    ensures counts.total == |order|
    ensures counts.ok == |SweptAs(db.feeds, order, SyncOk)|
    ensures counts.fetchError == |SweptAs(db.feeds, order, FetchError)|
    ensures counts.parseError == |SweptAs(db.feeds, order, ParseError)|
  {
    hide Sync, FreshDraw, StatusOf, NewOverbooking, FullPath, UniqueUids, FeedEvents, LastWins;
    order := db.ListActive();
    var feeds := db.feeds;
    ghost var s0 := StoredIn(db, cache);
    counts := Tally(|order|, 0, 0, 0);
    ghost var zero := counts;
    assert forall f :: f in order ==> f in feeds && f in outcomes;
    NoVisit(s0, zero, feeds, outcomes, order);
    hide Fold, OnlyVisited, VisitsOf, SweepOutcomes;
    for i := 0 to |order|
      invariant db.Valid()
      invariant StoredIn(db, cache) == Fold(VisitOne, s0, VisitsOf(feeds, outcomes, order[..i]))
      invariant counts == Fold(CountOne, zero, VisitsOf(feeds, outcomes, order[..i]))
      invariant OnlyVisited(db.bookings, s0.bookings, outcomes, order[..i])
    {
      var fid := order[i];
      ghost var before := StoredIn(db, cache);
      assert order[..i + 1] == order[..i] + [fid];
      StillFresh(s0, db.bookings, outcomes, order[..i], fid);
      VisitedOneMore(s0, before, outcomes, order[..i], fid, feeds[fid]);
      NextVisit(s0, zero, feeds, outcomes, order, i);
      var status, overbooked := SyncFeed(db, cache, fid, feeds[fid], outcomes[fid]);
      counts := CountStatus(counts, status);
    }
    assert order[..|order|] == order;
    CountsAreStatuses(s0, feeds, outcomes, order);
  }

  /** The swept feeds that carry this status. */
  ghost function SweptAs(feeds: map<FeedId, Feed>, order: seq<FeedId>, status: SyncStatus): set<FeedId>
  {
    set f | f in order && f in feeds && feeds[f].lastStatus == Some(status)
  }

  /** After a sweep each swept feed carries the status its sync returned, and each counter is the
      number of swept feeds that carry its status. */
  lemma {:induction false} CountsAreStatuses(s: Stored, feeds: map<FeedId, Feed>, outcomes: map<FeedId, Outcome>,
          order: seq<FeedId>)
    requires DistinctSeq(order) && forall f :: f in order ==> f in s.feeds && f in feeds && f in outcomes
    ensures var visits := VisitsOf(feeds, outcomes, order);
      var r, counts := Fold(VisitOne, s, visits), Fold(CountOne, Tally(|order|, 0, 0, 0), visits);
      && r.feeds.Keys == s.feeds.Keys
      && (forall f :: f in order ==> r.feeds[f].lastStatus == Some(StatusOf(feeds[f], outcomes[f])))
      && counts.total == |order|
      && counts.ok == |SweptAs(r.feeds, order, SyncOk)|
      && counts.fetchError == |SweptAs(r.feeds, order, FetchError)|
      && counts.parseError == |SweptAs(r.feeds, order, ParseError)|
  {
    var zero := Tally(|order|, 0, 0, 0);
    assert order[..|order|] == order;
    CountedUpTo(s, zero, feeds, outcomes, order, |order|);
  }

  ghost predicate Counted(s: Stored, r: Stored, counts: Tally, feeds: map<FeedId, Feed>, outcomes: map<FeedId, Outcome>,
          done: seq<FeedId>)
  {
    && r.feeds.Keys == s.feeds.Keys
    && (forall f :: f in done ==> f in r.feeds && f in feeds && f in outcomes)
    && (forall f :: f in done ==> r.feeds[f].lastStatus == Some(StatusOf(feeds[f], outcomes[f])))
    && counts.ok == |SweptAs(r.feeds, done, SyncOk)|
    && counts.fetchError == |SweptAs(r.feeds, done, FetchError)|
    && counts.parseError == |SweptAs(r.feeds, done, ParseError)|
  }

  lemma {:induction false} CountedUpTo(s: Stored, zero: Tally, feeds: map<FeedId, Feed>, outcomes: map<FeedId, Outcome>,
          order: seq<FeedId>, i: nat)
    requires DistinctSeq(order) && forall f :: f in order ==> f in s.feeds && f in feeds && f in outcomes
    requires zero == Tally(|order|, 0, 0, 0) && i <= |order|
    ensures var visits := VisitsOf(feeds, outcomes, order[..i]);
      var r, counts := Fold(VisitOne, s, visits), Fold(CountOne, zero, visits);
      Counted(s, r, counts, feeds, outcomes, order[..i]) && counts.total == |order|
    decreases i
  {
    hide VisitOne, CountOne, Counted;
    if i == 0 {
      NothingCounted(s, zero, feeds, outcomes);
    } else {
      var done, last := order[..i - 1], order[i - 1];
      assert order[..i] == done + [last] && last !in done;
      CountedUpTo(s, zero, feeds, outcomes, order, i - 1);
      NextVisit(s, zero, feeds, outcomes, order, i - 1);
      var visits := VisitsOf(feeds, outcomes, done);
      OneMoreVisit(s, Fold(VisitOne, s, visits), Fold(CountOne, zero, visits), feeds, outcomes, done, last);
    }
  }

  lemma NothingCounted(s: Stored, zero: Tally, feeds: map<FeedId, Feed>, outcomes: map<FeedId, Outcome>)
    requires zero.ok == 0 && zero.fetchError == 0 && zero.parseError == 0
    ensures Counted(s, s, zero, feeds, outcomes, [])
  {
    forall status
      ensures SweptAs(s.feeds, [], status) == {}
    {
    }
  }

  lemma OneMoreVisit(s: Stored, r: Stored, counts: Tally, feeds: map<FeedId, Feed>, outcomes: map<FeedId, Outcome>,
          done: seq<FeedId>, last: FeedId)
    requires Counted(s, r, counts, feeds, outcomes, done) && last !in done
    requires last in s.feeds && last in feeds && last in outcomes
    ensures var v := Visit(last, feeds[last], outcomes[last]);
      && Counted(s, VisitOne(r, v), CountOne(counts, v), feeds, outcomes, done + [last])
      && CountOne(counts, v).total == counts.total
  {
    var v := Visit(last, feeds[last], outcomes[last]);
    SyncByStore(r, v);
    hide Sync, StatusOf, HashOf, FullPath, BookingsAfter, SweptAs;
    forall status {
      OneMoreSwept(r.feeds, done, last, StatusOf(v.feed, v.outcome), HashOf(v.feed, v.outcome), status);
    }
  }

  lemma OneMoreSwept(feeds: map<FeedId, Feed>, init: seq<FeedId>, last: FeedId, returned: SyncStatus,
          hash: Option<seq<Event>>, status: SyncStatus)
    requires last in feeds && last !in init
    ensures |SweptAs(Recorded(feeds, last, returned, hash), init + [last], status)|
         == |SweptAs(feeds, init, status)| + (if returned == status then 1 else 0)
  {
    var r := Recorded(feeds, last, returned, hash);
    if returned == status {
      assert SweptAs(r, init + [last], status) == SweptAs(feeds, init, status) + {last};
    } else {
      assert SweptAs(r, init + [last], status) == SweptAs(feeds, init, status);
    }
  }

  lemma NoVisit(s0: Stored, zero: Tally, feeds: map<FeedId, Feed>, outcomes: map<FeedId, Outcome>, order: seq<FeedId>)
    requires forall f :: f in order ==> f in feeds && f in outcomes
    ensures Fold(VisitOne, s0, VisitsOf(feeds, outcomes, order[..0])) == s0
    ensures Fold(CountOne, zero, VisitsOf(feeds, outcomes, order[..0])) == zero
    ensures OnlyVisited(s0.bookings, s0.bookings, outcomes, order[..0])
  {
  }

  lemma {:induction false} NextVisit(s0: Stored, zero: Tally, feeds: map<FeedId, Feed>, outcomes: map<FeedId, Outcome>,
          order: seq<FeedId>, i: nat)
    requires i < |order| && forall f :: f in order ==> f in feeds && f in outcomes
    ensures var done, v := VisitsOf(feeds, outcomes, order[..i]), Visit(order[i], feeds[order[i]], outcomes[order[i]]);
      && Fold(VisitOne, s0, VisitsOf(feeds, outcomes, order[..i + 1])) == VisitOne(Fold(VisitOne, s0, done), v)
      && Fold(CountOne, zero, VisitsOf(feeds, outcomes, order[..i + 1])) == CountOne(Fold(CountOne, zero, done), v)
  {
    var done, v := VisitsOf(feeds, outcomes, order[..i]), Visit(order[i], feeds[order[i]], outcomes[order[i]]);
    assert order[..i + 1][..i] == order[..i];
    FoldAppend(VisitOne, s0, done, [v]);
    FoldAppend(CountOne, zero, done, [v]);
  }

  lemma {:induction false} TallyAddsUp(t: Tally, visits: seq<Visit>)
    ensures var r := Fold(CountOne, t, visits);
      r.total == t.total && r.ok + r.fetchError + r.parseError == t.ok + t.fetchError + t.parseError + |visits|
    decreases |visits|
  {
    if visits != [] {
      TallyAddsUp(CountOne(t, visits[0]), visits[1..]);
    }
  }

  // ---- Order of the sweep -----------------------------------------------------------------------

  /** Two syncs that own different rows, different feed records and different drawn keys. */
  predicate Independent(x: Visit, y: Visit)
  {
    && x.fid != y.fid
    && (x.feed.property != y.feed.property || x.feed.channel != y.feed.channel)
    && x.outcome.ids.Values !! y.outcome.ids.Values
  }

  /** A drawn key is inserted by one sync or not, whether or not the other sync ran before. */
  lemma InsertedAfter(t: Table, x: Visit, y: Visit, xs: map<Uid, Event>, ox: UserId, ys: map<Uid, Event>, id: BookingId)
    requires Independent(x, y)
    ensures var r := Reconcile(t, x.feed.property, x.feed.channel, ox, xs, x.outcome.today, x.outcome.ids);
      Inserted(r, y.feed.property, y.feed.channel, ys, y.outcome.ids, id)
      == Inserted(t, y.feed.property, y.feed.channel, ys, y.outcome.ids, id)
  {
    var px, cx := x.feed.property, x.feed.channel;
    var r := Reconcile(t, px, cx, ox, xs, x.outcome.today, x.outcome.ids);
    ReconcileKeys(t, px, cx, ox, xs, x.outcome.today, x.outcome.ids);
    if id in y.outcome.ids.Values {
      ReconcileKeepsOwners(t, px, cx, ox, xs, x.outcome.today, x.outcome.ids);
      OthersUidsKept(t, r, px, cx, y.feed.property, y.feed.channel, UidOf(y.outcome.ids, id));
      assert id in r <==> id in t;
    }
  }

  lemma {:induction false} ReconcilesCommuteAt(t: Table, x: Visit, y: Visit, xs: map<Uid, Event>, ys: map<Uid, Event>,
          ox: UserId, oy: UserId, id: BookingId)
    requires Independent(x, y)
    ensures var tx := Reconcile(t, x.feed.property, x.feed.channel, ox, xs, x.outcome.today, x.outcome.ids);
      var ty := Reconcile(t, y.feed.property, y.feed.channel, oy, ys, y.outcome.today, y.outcome.ids);
      var txy := Reconcile(tx, y.feed.property, y.feed.channel, oy, ys, y.outcome.today, y.outcome.ids);
      var tyx := Reconcile(ty, x.feed.property, x.feed.channel, ox, xs, x.outcome.today, x.outcome.ids);
      (id in txy <==> id in tyx) && (id in txy ==> txy[id] == tyx[id])
  {
    hide Reconcile, HasUid, Decide;
    var px, cx, py, cy := x.feed.property, x.feed.channel, y.feed.property, y.feed.channel;
    var tx := Reconcile(t, px, cx, ox, xs, x.outcome.today, x.outcome.ids);
    var ty := Reconcile(t, py, cy, oy, ys, y.outcome.today, y.outcome.ids);
    ReconcileAt(t, px, cx, ox, xs, x.outcome.today, x.outcome.ids, id);
    ReconcileAt(t, py, cy, oy, ys, y.outcome.today, y.outcome.ids, id);
    ReconcileAt(tx, py, cy, oy, ys, y.outcome.today, y.outcome.ids, id);
    ReconcileAt(ty, px, cx, ox, xs, x.outcome.today, x.outcome.ids, id);
    InsertedAfter(t, x, y, xs, ox, ys, id);
    InsertedAfter(t, y, x, ys, oy, xs, id);
  }

  lemma {:induction false} ReconcilesCommute(t: Table, x: Visit, y: Visit, xs: map<Uid, Event>, ys: map<Uid, Event>,
          ox: UserId, oy: UserId)
    requires Independent(x, y)
    ensures var tx := Reconcile(t, x.feed.property, x.feed.channel, ox, xs, x.outcome.today, x.outcome.ids);
      var ty := Reconcile(t, y.feed.property, y.feed.channel, oy, ys, y.outcome.today, y.outcome.ids);
      Reconcile(tx, y.feed.property, y.feed.channel, oy, ys, y.outcome.today, y.outcome.ids)
      == Reconcile(ty, x.feed.property, x.feed.channel, ox, xs, x.outcome.today, x.outcome.ids)
  {
    forall id {
      ReconcilesCommuteAt(t, x, y, xs, ys, ox, oy, id);
    }
  }

  lemma RecordsCommute(feeds: map<FeedId, Feed>, x: FeedId, y: FeedId, sx: SyncStatus, sy: SyncStatus,
          hx: Option<seq<Event>>, hy: Option<seq<Event>>)
    requires x != y
    ensures Recorded(Recorded(feeds, x, sx, hx), y, sy, hy) == Recorded(Recorded(feeds, y, sy, hy), x, sx, hx)
  {
  }

  /** The hash a sync writes, if it writes one. */
  function HashOf(feed: Feed, o: Outcome): Option<seq<Event>>
  {
    if StatusOf(feed, o) == SyncOk then Some(Canonical(FeedEvents(o.fetch).value)) else None
  }

  ghost function BookingsAfter(t: Table, v: Visit): Table
  {
    if !FullPath(v.feed, v.outcome) then t
    else Reconcile(t, v.feed.property, v.feed.channel, v.outcome.owner.value, LastWins(FeedEvents(v.outcome.fetch).value),
                   v.outcome.today, v.outcome.ids)
  }

  /** The three stores change independently of each other. */
  lemma SyncByStore(s: Stored, v: Visit)
    ensures VisitOne(s, v) == Stored(
      BookingsAfter(s.bookings, v),
      Recorded(s.feeds, v.fid, StatusOf(v.feed, v.outcome), HashOf(v.feed, v.outcome)),
      if FullPath(v.feed, v.outcome) then s.slots - {v.feed.property} else s.slots)
  {
  }

  // ---- Failing safe -----------------------------------------------------------------------------

  /** The sync returns this error and records it; nothing else changes. */
  ghost predicate FailsWith(s: Stored, fid: FeedId, feed: Feed, o: Outcome, error: SyncStatus)
    requires fid in s.feeds
  {
    && StatusOf(feed, o) == error
    && Sync(s, fid, feed, o) == s.(feeds := s.feeds[fid := s.feeds[fid].(lastStatus := Some(error))])
  }

  /** The calendar has an entry with uid and start whose start or end cannot be read as a date. */
  ghost predicate Unreadable(components: seq<Component>)
  {
    exists c :: c in components && c.uid.Some? && c.dtstart.Some?
      && (c.dtstart == Some(Unsupported) || c.dtend == Some(Unsupported))
  }

  lemma ReadableIsSound(components: seq<Component>)
    requires !Unreadable(components)
    ensures forall i :: 0 <= i < |components| ==> !Broken(components[i])
  {
    forall i | 0 <= i < |components|
      ensures !Broken(components[i])
    {
      assert components[i] in components;
    }
  }

  /** The events of a readable calendar. */
  ghost function Listing(components: seq<Component>): seq<Event>
    requires !Unreadable(components)
  {
    ReadableIsSound(components);
    EventsOf(components)
  }

  lemma WhatWasRead(fetch: Fetch)
    ensures fetch == Unreachable ==> FeedEvents(fetch) == Err(FetchError)
    ensures fetch == Malformed ==> FeedEvents(fetch) == Err(ParseError)
    ensures fetch.Body? && Unreadable(fetch.components) ==> FeedEvents(fetch) == Err(ParseError)
    ensures fetch.Body? && !Unreadable(fetch.components) ==> FeedEvents(fetch) == Ok(Listing(fetch.components))
  {
    hide EventsOf;
    if fetch.Body? && !Unreadable(fetch.components) {
      ReadableIsSound(fetch.components);
    }
  }

  /** Failing safe, by what the host sent: an unreachable host, a body that is no calendar, a date
      that cannot be read and an owner that cannot be looked up leave every row, every cached list
      and every hash as they were, under the error recorded for each of them. */
  lemma {:induction false} FailSafe(s: Stored, fid: FeedId, feed: Feed, o: Outcome)
    requires fid in s.feeds
    ensures o.fetch == Unreachable ==> FailsWith(s, fid, feed, o, FetchError)
    ensures o.fetch == Malformed ==> FailsWith(s, fid, feed, o, ParseError)
    ensures o.fetch.Body? && Unreadable(o.fetch.components) ==> FailsWith(s, fid, feed, o, ParseError)
    ensures o.fetch.Body? && !Unreadable(o.fetch.components) && o.owner == None ==>
      feed.hash != Some(Canonical(Listing(o.fetch.components))) ==> FailsWith(s, fid, feed, o, FetchError)
  {
    WhatWasRead(o.fetch);
    SyncByStore(s, Visit(fid, feed, o));
    hide Sync, Reconcile, FeedEvents, Listing, Canonical, Unreadable;
  }

  /** Everything else succeeds: a readable calendar whose hash is known, or whose property has an
      owner. The hash is recorded; a known one changes no row and no cached list. */
  lemma {:induction false} ReadableSucceeds(s: Stored, fid: FeedId, feed: Feed, o: Outcome)
    requires fid in s.feeds && o.fetch.Body? && !Unreadable(o.fetch.components)
    ensures var hash := Some(Canonical(Listing(o.fetch.components)));
      && (o.owner.Some? || feed.hash == hash ==>
            && StatusOf(feed, o) == SyncOk
            && Sync(s, fid, feed, o).feeds == s.feeds[fid := s.feeds[fid].(lastStatus := Some(SyncOk), hash := hash)])
      && (feed.hash == hash ==> Sync(s, fid, feed, o).bookings == s.bookings && Sync(s, fid, feed, o).slots == s.slots)
  {
    WhatWasRead(o.fetch);
    SyncByStore(s, Visit(fid, feed, o));
    hide Sync, Reconcile, FeedEvents, Listing, Canonical, Unreadable;
  }

  lemma {:induction false} BookingsCommute(t: Table, x: Visit, y: Visit)
    requires Independent(x, y)
    ensures BookingsAfter(BookingsAfter(t, x), y) == BookingsAfter(BookingsAfter(t, y), x)
  {
    if FullPath(x.feed, x.outcome) && FullPath(y.feed, y.outcome) {
      ReconcilesCommute(t, x, y, LastWins(FeedEvents(x.outcome.fetch).value), LastWins(FeedEvents(y.outcome.fetch).value),
                        x.outcome.owner.value, y.outcome.owner.value);
    }
  }

  lemma {:induction false} VisitsCommute(s: Stored, x: Visit, y: Visit)
    requires Independent(x, y)
    ensures VisitOne(VisitOne(s, x), y) == VisitOne(VisitOne(s, y), x)
  {
    hide Sync, StatusOf, HashOf, Recorded, BookingsAfter, FullPath;
    SyncByStore(s, x);
    SyncByStore(s, y);
    SyncByStore(VisitOne(s, x), y);
    SyncByStore(VisitOne(s, y), x);
    BookingsCommute(s.bookings, x, y);
    RecordsCommute(s.feeds, x.fid, y.fid, StatusOf(x.feed, x.outcome), StatusOf(y.feed, y.outcome),
                   HashOf(x.feed, x.outcome), HashOf(y.feed, y.outcome));
    assert s.slots - {x.feed.property} - {y.feed.property} == s.slots - {y.feed.property} - {x.feed.property};
  }

  lemma {:induction false} SweepCommutes(visits: seq<Visit>)
    requires forall x, y :: x in visits && y in visits && x != y ==> Independent(x, y)
    ensures Commute(VisitOne, visits)
  {
    hide VisitOne, Independent;
    forall s: Stored, x: Visit, y: Visit | x in visits && y in visits
      ensures VisitOne(VisitOne(s, x), y) == VisitOne(VisitOne(s, y), x)
    {
      if x != y {
        VisitsCommute(s, x, y);
      }
    }
  }

  lemma CountsCommute(visits: seq<Visit>)
    ensures Commute(CountOne, visits)
  {
    hide StatusOf;
  }

  /** For feeds of pairwise different (property, channel) the order of the sweep is irrelevant:
      the same bookings, feed hashes, cached slots and counts, and the counts add up. */
  lemma {:induction false} SweepOrderIrrelevant(s: Stored, a: seq<Visit>, b: seq<Visit>)
    requires multiset(a) == multiset(b)
    requires forall x, y :: x in a && y in a && x != y ==> Independent(x, y)
    ensures Fold(VisitOne, s, a) == Fold(VisitOne, s, b)
    ensures var zero := Tally(|a|, 0, 0, 0); var counts := Fold(CountOne, zero, a);
      counts == Fold(CountOne, zero, b) && counts.total == counts.ok + counts.fetchError + counts.parseError
  {
    hide VisitOne, CountOne, Independent;
    SweepCommutes(a);
    FoldPermutation(VisitOne, s, a, b);
    CountsCommute(a);
    FoldPermutation(CountOne, Tally(|a|, 0, 0, 0), a, b);
    TallyAddsUp(Tally(|a|, 0, 0, 0), a);
  }
}
