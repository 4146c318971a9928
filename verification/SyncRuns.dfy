/** Whole runs of the calendar sync: the short cut for unchanged feeds is sound, the future is the
    feed, the past stays, and failed syncs leave no trace. */
module SyncRuns {
  import opened Prelude
  import opened Folds
  import opened Nights
  import opened Model
  import opened ICalParser
  import opened ContentHash
  import opened Diff
  import opened Crud
  import opened Reconciliation
  import opened Mirror
  import opened CalendarSync
  import opened BookingRouter
  import opened Service

  // ---- The short cut --------------------------------------------------------------------------

  /** The row stands for an event of the feed that was last synced. */
  predicate ListedByFeed(b: Booking, feed: Feed)
  {
    feed.hash.Some? && Imported(b, feed.property, feed.channel) && Listed(b, LastWins(feed.hash.value))
  }

  /** What the short cut relies on: feeds tell one stay for each uid, no second feed is linked for
      the same property and channel, and no row that a feed lists is deleted by an admin. Lemmas
      SkipIsSafeExactly, SecondFeedKeepsMirrorExactly and DeleteKeepsMirrorExactly of module Mirror
      say what happens otherwise. */
  ghost predicate Disciplined(s: State, step: Step)
  {
    match step
    case SyncOne(_, fetch, _, _) => FeedEvents(fetch).Ok? ==> ConsistentUids(FeedEvents(fetch).value)
    case AddFeed(_, p, c) =>
      forall f :: f in s.stored.feeds ==> s.stored.feeds[f].property != p || s.stored.feeds[f].channel != c
    case Delete(id) =>
      id in s.stored.bookings ==>
        forall f :: f in s.stored.feeds ==> !ListedByFeed(s.stored.bookings[id], s.stored.feeds[f])
    case _ => true
  }

  ghost predicate DisciplinedRun(s: State, steps: seq<Step>)
    requires Legal(s, steps)
    decreases |steps|
  {
    steps == [] || (Disciplined(s, steps[0]) && DisciplinedRun(Next(s, steps[0]), steps[1..]))
  }

  /** The feed's rows mirror the events its hash was computed from. */
  ghost predicate FeedMirrored(t: Table, feed: Feed, today: Day)
  {
    feed.hash.Some? ==>
      && ConsistentUids(feed.hash.value)
      && (forall e :: e in feed.hash.value ==> e.start < e.end)
      && Mirrors(t, feed.property, feed.channel, LastWins(feed.hash.value), today)
  }

  ghost predicate OneFeedEach(feeds: map<FeedId, Feed>)
  {
    forall f, g :: f in feeds && g in feeds && f != g ==>
      feeds[f].property != feeds[g].property || feeds[f].channel != feeds[g].channel
  }

  ghost predicate AllMirrored(s: State)
  {
    && OneFeedEach(s.stored.feeds)
    && (forall f :: f in s.stored.feeds ==> FeedMirrored(s.stored.bookings, s.stored.feeds[f], s.today))
  }

  /** Mirroring only looks at the rows of (property, channel). */
  ghost predicate SameImported(t: Table, t': Table, p: PropertyId, c: Channel)
  {
    && (forall id :: id in t && Imported(t[id], p, c) ==> id in t' && t'[id] == t[id])
    && (forall id :: id in t' && Imported(t'[id], p, c) ==> id in t && t[id] == t'[id])
  }

  lemma MirrorsFrame(t: Table, t': Table, p: PropertyId, c: Channel, incoming: map<Uid, Event>, day: Day)
    requires SameImported(t, t', p, c)
    requires Mirrors(t, p, c, incoming, day)
    ensures Mirrors(t', p, c, incoming, day)
  {
    forall u | u in incoming
      ensures HasRow(t', p, c, incoming[u])
    {
      var id :| id in t && StandsFor(t[id], p, c, incoming[u]);
      assert id in t' && StandsFor(t'[id], p, c, incoming[u]);
    }
  }

  lemma FrameFeeds(t: Table, t': Table, feed: Feed, today: Day)
    requires FeedMirrored(t, feed, today)
    requires SameImported(t, t', feed.property, feed.channel)
    ensures FeedMirrored(t', feed, today)
  {
    if feed.hash.Some? {
      MirrorsFrame(t, t', feed.property, feed.channel, LastWins(feed.hash.value), today);
    }
  }

  /** Requests on platform bookings leave imported rows alone. */
  lemma RequestsKeepImported(s: State, step: Step, p: PropertyId, c: Channel)
    requires c != Platform && Enabled(s, step) && s.stored.bookings.Keys <= s.used
    requires step.Create? || step.SetStatus?
    ensures SameImported(s.stored.bookings, Next(s, step).stored.bookings, p, c)
  {
    hide Decision, RefundOf, TransitionError;
    if step.Create? {
      CreatedRows(s.stored, step.id, step.user, step.request, step.world);
    }
  }

  lemma DeleteKeepsFeed(t: Table, id: BookingId, feed: Feed, today: Day)
    requires id in t && UniqueUids(t)
    requires FeedMirrored(t, feed, today) && !ListedByFeed(t[id], feed)
    ensures FeedMirrored(t - {id}, feed, today)
  {
    if feed.hash.Some? {
      EventsAreKeyed(feed.hash.value);
      DeleteKeepsMirrorExactly(t, feed.property, feed.channel, LastWins(feed.hash.value), today, id);
    }
  }

  /** The canonical form of a feed tells the same stays as the feed. */
  lemma CanonicalTells(events: seq<Event>)
    requires ConsistentUids(events)
    ensures ConsistentUids(Canonical(events)) && LastWins(Canonical(events)) == LastWins(events)
    ensures forall e :: e in Canonical(events) <==> e in events
  {
    SamePermutation(events, Canonical(events));
    ConsistentLookup(events, Canonical(events));
  }

  /** After a successful sync the synced feed is mirrored, whichever path was taken. */
  lemma SyncMirrorsFeed(s: Stored, fid: FeedId, o: Outcome)
    requires fid in s.feeds && s.feeds[fid].channel != Platform
    requires SoundRows(s.bookings) && UniqueUids(s.bookings) && FreshDraw(s.bookings, o)
    requires FeedEvents(o.fetch).Ok? ==> ConsistentUids(FeedEvents(o.fetch).value)
    requires FeedMirrored(s.bookings, s.feeds[fid], o.today)
    ensures var r := Sync(s, fid, s.feeds[fid], o);
      fid in r.feeds && FeedMirrored(r.bookings, r.feeds[fid], o.today)
  {
    var feed := s.feeds[fid];
    SyncByStore(s, Visit(fid, feed, o));
    if FullPath(feed, o) {
      var events := FeedEvents(o.fetch).value;
      CanonicalTells(events);
      EventsAreKeyed(events);
      assert forall u :: u in LastWins(events) ==> LastWins(events)[u] in events;
      hide Sync, Reconcile, Mirrors, LastWins, Canonical, FeedEvents, SoundRows, UniqueUids, ConsistentUids;
      SyncMirrors(s.bookings, feed.property, feed.channel, o.owner.value, LastWins(events), o.today, o.ids);
    }
  }

  lemma ReconcileKeepsOtherRows(t: Table, p: PropertyId, c: Channel, owner: UserId, incoming: map<Uid, Event>,
          today: Day, ids: Draw, p': PropertyId, c': Channel)
    requires p != p' || c != c'
    ensures SameImported(t, Reconcile(t, p, c, owner, incoming, today, ids), p', c')
  {
    hide Reconcile, HasUid, Decide;
    var r := Reconcile(t, p, c, owner, incoming, today, ids);
    forall id | id in r || id in t
      ensures id in t && Imported(t[id], p', c') ==> id in r && r[id] == t[id]
      ensures id in r && Imported(r[id], p', c') ==> id in t && r[id] == t[id]
    {
      ReconcileAt(t, p, c, owner, incoming, today, ids, id);
    }
  }

  /** A sync of one channel leaves the other channels' rows alone. */
  lemma SyncKeepsOtherRows(s: Stored, fid: FeedId, feed: Feed, o: Outcome, p: PropertyId, c: Channel)
    requires feed.property != p || feed.channel != c
    ensures SameImported(s.bookings, Sync(s, fid, feed, o).bookings, p, c)
  {
    if FullPath(feed, o) {
      ReconcileKeepsOtherRows(s.bookings, feed.property, feed.channel, o.owner.value, LastWins(FeedEvents(o.fetch).value),
                              o.today, o.ids, p, c);
    }
    hide Reconcile, FeedEvents, SameImported;
    if !FullPath(feed, o) {
      SameImportedReflexive(s.bookings, p, c);
    }
  }

  lemma SameImportedReflexive(t: Table, p: PropertyId, c: Channel)
    ensures SameImported(t, t, p, c)
  {
  }

  lemma SyncKeepsOtherFeeds(s: Stored, fid: FeedId, feed: Feed, o: Outcome)
    ensures var r := Sync(s, fid, feed, o);
      r.feeds.Keys == s.feeds.Keys && forall f :: f in s.feeds ==>
        r.feeds[f].property == s.feeds[f].property && r.feeds[f].channel == s.feeds[f].channel
        && (f != fid ==> r.feeds[f] == s.feeds[f])
  {
    SyncByStore(s, Visit(fid, feed, o));
    hide Sync, StatusOf, HashOf, FullPath, BookingsAfter;
  }

  lemma {:induction false} NextKeepsMirrors(s: State, step: Step)
    requires Inv(s) && AllMirrored(s) && Enabled(s, step) && Disciplined(s, step)
    ensures AllMirrored(Next(s, step))
  {
    hide SoundRows, UniqueUids, ChannelRows, NoDoubleBooking, Sync, Created, StatusChanged, Lists, FreshDraw, FeedMirrored,
      ListedByFeed, FeedEvents;
    var r := Next(s, step);
    match step {
      case Tick(days) =>
        forall f | f in s.stored.feeds ensures FeedMirrored(s.stored.bookings, s.stored.feeds[f], r.today) {
          MirroredLater(s.stored.bookings, s.stored.feeds[f], s.today, r.today);
        }
      case Create(id, user, req, w) =>
        CreatedKeepsFeeds(s.stored, id, user, req, w);
        forall f | f in s.stored.feeds ensures FeedMirrored(r.stored.bookings, s.stored.feeds[f], s.today) {
          RequestsKeepImported(s, step, s.stored.feeds[f].property, s.stored.feeds[f].channel);
          FrameFeeds(s.stored.bookings, r.stored.bookings, s.stored.feeds[f], s.today);
        }
      case SetStatus(id, to, caller, w) =>
        StatusKeepsFeeds(s.stored, id, to, caller);
        forall f | f in s.stored.feeds ensures FeedMirrored(r.stored.bookings, s.stored.feeds[f], s.today) {
          RequestsKeepImported(s, step, s.stored.feeds[f].property, s.stored.feeds[f].channel);
          FrameFeeds(s.stored.bookings, r.stored.bookings, s.stored.feeds[f], s.today);
        }
      case Delete(id) =>
        if id in s.stored.bookings {
          forall f | f in s.stored.feeds ensures FeedMirrored(r.stored.bookings, s.stored.feeds[f], s.today) {
            DeleteKeepsFeed(s.stored.bookings, id, s.stored.feeds[f], s.today);
          }
        }
      case AddFeed(fid, p, c) =>
        NewFeedMirrored(s.stored.bookings, p, c, s.today);
      case SyncOne(fid, fetch, owner, ids) =>
        if fid in s.stored.feeds {
          SyncKeepsMirrors(s, fid, Outcome(fetch, owner, ids, s.today));
        }
      case _ =>
    }
  }

  lemma MirroredLater(t: Table, feed: Feed, day: Day, later: Day)
    requires FeedMirrored(t, feed, day) && day <= later
    ensures FeedMirrored(t, feed, later)
  {
    if feed.hash.Some? {
      MirrorsLater(t, feed.property, feed.channel, LastWins(feed.hash.value), day, later);
    }
  }

  lemma NewFeedMirrored(t: Table, p: PropertyId, c: Channel, today: Day)
    ensures FeedMirrored(t, Feed(p, c, true, None, None), today)
  {
  }

  lemma SyncKeepsMirrors(s: State, fid: FeedId, o: Outcome)
    requires Inv(s) && AllMirrored(s) && fid in s.stored.feeds && o.today == s.today && FreshDraw(s.stored.bookings, o)
    requires FeedEvents(o.fetch).Ok? ==> ConsistentUids(FeedEvents(o.fetch).value)
    ensures var r := Sync(s.stored, fid, s.stored.feeds[fid], o);
      OneFeedEach(r.feeds) && forall f :: f in r.feeds ==> FeedMirrored(r.bookings, r.feeds[f], s.today)
  {
    hide SoundRows, UniqueUids, ChannelRows, NoDoubleBooking, Sync, FreshDraw, FeedMirrored, FeedEvents;
    var feed := s.stored.feeds[fid];
    var r := Sync(s.stored, fid, feed, o);
    SyncKeepsOtherFeeds(s.stored, fid, feed, o);
    SyncMirrorsFeed(s.stored, fid, o);
    forall f | f in s.stored.feeds && f != fid
      ensures FeedMirrored(r.bookings, r.feeds[f], s.today)
    {
      SyncKeepsOtherRows(s.stored, fid, feed, o, s.stored.feeds[f].property, s.stored.feeds[f].channel);
      FrameFeeds(s.stored.bookings, r.bookings, s.stored.feeds[f], s.today);
    }
  }

  lemma {:induction false} RunKeepsMirrors(s: State, steps: seq<Step>)
    requires Inv(s) && AllMirrored(s) && Legal(s, steps) && DisciplinedRun(s, steps)
    ensures AllMirrored(Run(s, steps))
    decreases |steps|
  {
    if steps != [] {
      NextKeepsInv(s, steps[0]);
      NextKeepsMirrors(s, steps[0]);
      RunKeepsMirrors(Next(s, steps[0]), steps[1..]);
    }
  }

  /** The fast path agrees with the slow one, now and later: in every state of every disciplined
      run, a feed whose new hash equals its stored hash would have nothing to write, neither today
      nor on any later day, whatever syncs failed in between. */
  lemma {:induction false} ShortCutIsSound(s: State, steps: seq<Step>, fid: FeedId, events: seq<Event>, day: Day)
    requires Initial(s) && Legal(s, steps) && DisciplinedRun(s, steps)
    requires var r := Run(s, steps); fid in r.stored.feeds && Unchanged(r.stored.feeds[fid], events) && day >= r.today
    ensures var r := Run(s, steps);
      Quiet(r.stored.bookings, r.stored.feeds[fid].property, r.stored.feeds[fid].channel, LastWins(events), day)
  {
    ReachableStatesAreSound(s, steps);
    RunKeepsMirrors(s, steps);
    var r := Run(s, steps);
    assert FeedMirrored(r.stored.bookings, r.stored.feeds[fid], r.today);
    MirroredIsQuiet(r.stored.bookings, r.stored.feeds[fid], events, r.today, day);
  }

  lemma MirroredIsQuiet(t: Table, feed: Feed, events: seq<Event>, today: Day, day: Day)
    requires SoundRows(t) && UniqueUids(t) && feed.channel != Platform
    requires FeedMirrored(t, feed, today) && Unchanged(feed, events) && today <= day
    ensures Quiet(t, feed.property, feed.channel, LastWins(events), day)
  {
    var h := feed.hash.value;
    SamePermutation(h, events);
    ConsistentLookup(h, events);
    EventsAreKeyed(h);
    MirrorsLater(t, feed.property, feed.channel, LastWins(h), today, day);
    MirrorIsQuiet(t, feed.property, feed.channel, LastWins(h), day);
  }

  /** Diff and apply is idempotent: after a full sync the diff with the same events, on the same or
      any later day, is empty. */
  lemma {:induction false} DiffAndApplyIsIdempotent(t: Table, p: PropertyId, c: Channel, owner: UserId,
          incoming: map<Uid, Event>, today: Day, ids: Draw, later: Day, existing: seq<Row>, a: SyncActions)
    requires SoundRows(t) && UniqueUids(t) && ChannelRows(t) && Keyed(incoming) && c != Platform
    requires ids.Values !! t.Keys && forall u :: u in incoming ==> u in ids
    requires later >= today
    requires Snapshot(existing, Reconcile(t, p, c, owner, incoming, today, ids), p, c)
    requires Exact(a, RowsByUid(existing), incoming, later)
    ensures a == SyncActions([], [], [], [])
  {
    hide Reconcile, Mirrors, Quiet, Exact, Snapshot, SoundRows, UniqueUids, ChannelRows, Keyed;
    var r := Reconcile(t, p, c, owner, incoming, today, ids);
    SyncMirrors(t, p, c, owner, incoming, today, ids);
    MirrorsLater(r, p, c, incoming, today, later);
    ReconcileKeepsUnique(t, p, c, owner, incoming, today, ids);
    ReconcileKeepsSound(t, p, c, owner, incoming, today, ids);
    MirrorIsQuiet(r, p, c, incoming, later);
    QuietIsEmptyDiff(r, p, c, incoming, later, existing, a);
  }

  // ---- The program without the short cut ------------------------------------------------------

  /** A sync that always takes the full path. */
  ghost function SlowSync(s: Stored, fid: FeedId, feed: Feed, o: Outcome): Stored
  {
    var events := FeedEvents(o.fetch);
    if events.Err? then s.(feeds := Recorded(s.feeds, fid, events.error, None))
    else if o.owner.None? then s.(feeds := Recorded(s.feeds, fid, FetchError, None))
    else FullSync(s, fid, feed, events.value, o.owner.value, o.ids, o.today)
  }

  ghost function SlowNext(s: State, step: Step): State
    requires Enabled(s, step)
  {
    if step.SyncOne? && step.fid in s.stored.feeds then
      var r := SlowSync(s.stored, step.fid, s.stored.feeds[step.fid], Outcome(step.fetch, step.owner, step.ids, s.today));
      s.(stored := r, used := s.used + r.bookings.Keys)
    else Next(s, step)
  }

  ghost predicate SlowLegal(s: State, steps: seq<Step>)
    decreases |steps|
  {
    steps == [] || (Enabled(s, steps[0]) && SlowLegal(SlowNext(s, steps[0]), steps[1..]))
  }

  ghost function SlowRun(s: State, steps: seq<Step>): State
    requires SlowLegal(s, steps)
    decreases |steps|
  {
    if steps == [] then s else SlowRun(SlowNext(s, steps[0]), steps[1..])
  }

  /** Equal bookings, feed hashes and history; the cache and the recorded statuses may differ. */
  ghost predicate SameTables(a: State, b: State)
  {
    && a.stored.bookings == b.stored.bookings
    && SameFeeds(a.stored.feeds, b.stored.feeds)
    && a.today == b.today && a.used == b.used && a.moves == b.moves && a.refunds == b.refunds
  }

  lemma SlowSyncAlike(a: Stored, b: Stored, fid: FeedId, o: Outcome)
    requires fid in a.feeds && a.bookings == b.bookings && SameFeeds(a.feeds, b.feeds)
    requires SoundRows(a.bookings) && UniqueUids(a.bookings) && a.feeds[fid].channel != Platform
    requires FeedMirrored(a.bookings, a.feeds[fid], o.today)
    ensures var a', b' := Sync(a, fid, a.feeds[fid], o), SlowSync(b, fid, b.feeds[fid], o);
      a'.bookings == b'.bookings && SameFeeds(a'.feeds, b'.feeds)
  {
    var feed, v := a.feeds[fid], Visit(fid, a.feeds[fid], o);
    SyncByStore(a, v);
    SlowSyncByStore(b, fid, b.feeds[fid], o);
    SlowBookings(a.bookings, feed, o);
    SameHashRecorded(a.feeds, b.feeds, fid, StatusOf(feed, o), SlowStatus(o), HashOf(feed, o), SlowHash(o));
  }

  function SlowStatus(o: Outcome): SyncStatus
  {
    var events := FeedEvents(o.fetch);
    if events.Err? then events.error else if o.owner.None? then FetchError else SyncOk
  }

  function SlowHash(o: Outcome): Option<seq<Event>>
  {
    if SlowStatus(o) == SyncOk then Some(Canonical(FeedEvents(o.fetch).value)) else None
  }

  ghost function SlowBookingsAfter(t: Table, feed: Feed, o: Outcome): Table
  {
    if SlowStatus(o) != SyncOk then t
    else Reconcile(t, feed.property, feed.channel, o.owner.value, LastWins(FeedEvents(o.fetch).value), o.today, o.ids)
  }

  lemma SlowSyncByStore(s: Stored, fid: FeedId, feed: Feed, o: Outcome)
    ensures SlowSync(s, fid, feed, o).bookings == SlowBookingsAfter(s.bookings, feed, o)
    ensures SlowSync(s, fid, feed, o).feeds == Recorded(s.feeds, fid, SlowStatus(o), SlowHash(o))
  {
    hide Reconcile, Recorded, Canonical;
  }

  lemma SlowBookings(t: Table, feed: Feed, o: Outcome)
    requires SoundRows(t) && UniqueUids(t) && feed.channel != Platform && FeedMirrored(t, feed, o.today)
    ensures BookingsAfter(t, Visit(0, feed, o)) == SlowBookingsAfter(t, feed, o)
  {
    hide Reconcile;
    if SlowStatus(o) == SyncOk && Unchanged(feed, FeedEvents(o.fetch).value) {
      var events := FeedEvents(o.fetch).value;
      MirroredIsQuiet(t, feed, events, o.today, o.today);
      QuietChangesNothing(t, feed.property, feed.channel, o.owner.value, LastWins(events), o.today, o.ids);
    }
  }

  lemma SameHashRecorded(a: map<FeedId, Feed>, b: map<FeedId, Feed>, fid: FeedId, sa: SyncStatus, sb: SyncStatus,
          ha: Option<seq<Event>>, hb: Option<seq<Event>>)
    requires fid in a && SameFeeds(a, b)
    requires (if ha.Some? then ha else a[fid].hash) == (if hb.Some? then hb else a[fid].hash)
    ensures SameFeeds(Recorded(a, fid, sa, ha), Recorded(b, fid, sb, hb))
  {
    assert a[fid].(lastStatus := None) == b[fid].(lastStatus := None);
  }

  lemma OtherNextAlike(a: State, b: State, step: Step)
    requires SameTables(a, b) && Enabled(a, step) && Enabled(b, step) && !(step.SyncOne? && step.fid in a.stored.feeds)
    ensures SameTables(Next(a, step), Next(b, step))
  {
    hide Sync, FreshDraw, Lists, Decision, RefundOf, TransitionError;
  }

  lemma {:induction false} SlowNextAlike(a: State, b: State, step: Step)
    requires Inv(a) && AllMirrored(a) && SameTables(a, b) && Enabled(a, step)
    ensures Enabled(b, step)
    ensures SameTables(Next(a, step), SlowNext(b, step))
  {
    hide Sync, SlowSync, Lists, Created, StatusChanged, FeedMirrored, SoundRows, UniqueUids, FeedEvents;
    if step.SyncOne? && step.fid in a.stored.feeds {
      SlowSyncAlike(a.stored, b.stored, step.fid, Outcome(step.fetch, step.owner, step.ids, a.today));
    } else {
      OtherNextAlike(a, b, step);
    }
  }

  /** Along every disciplined run the program with the short cut and the program without it keep
      the same bookings and the same feed hashes. */
  lemma {:induction false} ShortCutRefinesFullPath(a: State, b: State, steps: seq<Step>)
    requires Inv(a) && AllMirrored(a) && SameTables(a, b) && Legal(a, steps) && DisciplinedRun(a, steps)
    ensures SlowLegal(b, steps)
    ensures SameTables(Run(a, steps), SlowRun(b, steps))
    decreases |steps|
  {
    if steps != [] {
      SlowNextAlike(a, b, steps[0]);
      NextKeepsInv(a, steps[0]);
      NextKeepsMirrors(a, steps[0]);
      ShortCutRefinesFullPath(Next(a, steps[0]), SlowNext(b, steps[0]), steps[1..]);
    }
  }

  // ---- The future is the feed -----------------------------------------------------------------

  /** Some event of the feed covers the night. */
  ghost predicate EventNight(events: seq<Event>, n: Day)
  {
    exists e :: e in events && Covers(e.start, e.end, n)
  }

  /** After any disciplined run that ends in a successful sync, by either path, the channel occupies
      a night from that day on exactly when the feed does, whatever came before. */
  lemma {:induction false} FutureIsTheFeed(s: State, steps: seq<Step>, fid: FeedId, fetch: Fetch, owner: Option<UserId>,
          ids: Draw, n: Day)
    requires Initial(s) && Legal(s, steps) && DisciplinedRun(s, steps)
    requires var r := Run(s, steps); var step := SyncOne(fid, fetch, owner, ids);
      && Enabled(r, step) && Disciplined(r, step) && fid in r.stored.feeds && n >= r.today
      && StatusOf(r.stored.feeds[fid], Outcome(fetch, owner, ids, r.today)) == SyncOk
    ensures var r := Run(s, steps); var feed := r.stored.feeds[fid];
      ChannelNight(Next(r, SyncOne(fid, fetch, owner, ids)).stored.bookings, feed.property, feed.channel, n) <==>
      EventNight(FeedEvents(fetch).value, n)
  {
    ReachableStatesAreSound(s, steps);
    RunKeepsMirrors(s, steps);
    var r := Run(s, steps);
    var step := SyncOne(fid, fetch, owner, ids);
    var feed := r.stored.feeds[fid];
    var o := Outcome(fetch, owner, ids, r.today);
    NextKeepsInv(r, step);
    SyncMirrorsFeed(r.stored, fid, o);
    SyncRecordsHash(r.stored, fid, o);
    var r' := Sync(r.stored, fid, feed, o);
    MirroredFeedNights(r'.bookings, r'.feeds[fid], FeedEvents(fetch).value, r.today, n);
  }

  lemma SyncRecordsHash(s: Stored, fid: FeedId, o: Outcome)
    requires fid in s.feeds && StatusOf(s.feeds[fid], o) == SyncOk
    ensures var r := Sync(s, fid, s.feeds[fid], o);
      && FeedEvents(o.fetch).Ok? && fid in r.feeds && Unchanged(r.feeds[fid], FeedEvents(o.fetch).value)
      && r.feeds[fid].property == s.feeds[fid].property && r.feeds[fid].channel == s.feeds[fid].channel
  {
    SyncByStore(s, Visit(fid, s.feeds[fid], o));
    hide Sync, BookingsAfter;
  }

  lemma MirroredFeedNights(t: Table, feed: Feed, events: seq<Event>, today: Day, n: Day)
    requires UniqueUids(t) && FeedMirrored(t, feed, today) && Unchanged(feed, events) && n >= today
    ensures ChannelNight(t, feed.property, feed.channel, n) <==> EventNight(events, n)
  {
    var h := feed.hash.value;
    SamePermutation(h, events);
    EventsAreKeyed(h);
    MirroredNights(t, feed.property, feed.channel, LastWins(h), today, n);
    if e :| e in events && Covers(e.start, e.end, n) {
      assert LastWins(h)[e.uid] == e;
    }
  }

  /** No uid is reported with two different stays. */
  ghost predicate OneStayEach(components: seq<Component>)
  {
    forall c, d, e, f :: c in components && d in components && Reports(c, e) && Reports(d, f) && e.uid == f.uid ==> e == f
  }

  /** Some entry of the calendar reports a stay that covers the night. */
  ghost predicate ReportedNight(components: seq<Component>, n: Day)
  {
    exists c, e :: c in components && Reports(c, e) && Covers(e.start, e.end, n)
  }

  lemma CalendarNights(components: seq<Component>, n: Day)
    requires !Unreadable(components)
    ensures FeedEvents(Body(components)) == Ok(Listing(components))
    ensures OneStayEach(components) ==> ConsistentUids(Listing(components))
    ensures EventNight(Listing(components), n) <==> ReportedNight(components, n)
  {
    WhatWasRead(Body(components));
    ReadableIsSound(components);
    forall e
      ensures e in Listing(components) <==> exists c :: c in components && Reports(c, e)
    {
      EventsExact(components, e);
    }
    hide Reports, EventsOf, Listing, FeedEvents, Unreadable;
  }

  /** The same, from the calendar itself: from that day on the channel occupies a night exactly when
      some entry of the calendar reports a stay covering it. */
  lemma {:induction false} FutureIsTheCalendar(s: State, steps: seq<Step>, fid: FeedId, components: seq<Component>,
          owner: Option<UserId>, ids: Draw, n: Day)
    requires Initial(s) && Legal(s, steps) && DisciplinedRun(s, steps)
    requires !Unreadable(components) && OneStayEach(components)
    requires var r := Run(s, steps); fid in r.stored.feeds && n >= r.today && Enabled(r, SyncOne(fid, Body(components), owner, ids))
    requires owner.Some? || Run(s, steps).stored.feeds[fid].hash == Some(Canonical(Listing(components)))
    ensures var r := Run(s, steps); var feed := r.stored.feeds[fid];
      ChannelNight(Next(r, SyncOne(fid, Body(components), owner, ids)).stored.bookings, feed.property, feed.channel, n) <==>
      ReportedNight(components, n)
  {
    hide Initial, Legal, Run, DisciplinedRun, Enabled, Next, ChannelNight, StatusOf, Sync, Listing, FeedEvents, Unreadable,
      OneStayEach, ReportedNight, EventNight, Canonical, ConsistentUids;
    var r := Run(s, steps);
    ReadableSucceeds(r.stored, fid, r.stored.feeds[fid], Outcome(Body(components), owner, ids, r.today));
    CalendarNights(components, n);
    FutureIsTheFeed(s, steps, fid, Body(components), owner, ids, n);
  }

  // ---- The past stays -------------------------------------------------------------------------

  /** The step does not take night `n` from the imported row: it does not delete the row, and if it
      is a sync that goes through for the row's channel, the feed does not list the row's uid with
      dates that leave the night out. */
  ghost predicate Spares(s: State, step: Step, id: BookingId, n: Day)
    requires id in s.stored.bookings && s.stored.bookings[id].uid.Some?
  {
    var b := s.stored.bookings[id];
    match step
    case Delete(victim) => victim != id
    case SyncOne(fid, fetch, owner, ids) =>
      fid in s.stored.feeds ==>
        var feed := s.stored.feeds[fid];
        FullPath(feed, Outcome(fetch, owner, ids, s.today)) && Imported(b, feed.property, feed.channel) ==>
          var incoming := LastWins(FeedEvents(fetch).value);
          b.uid.value in incoming ==> Covers(incoming[b.uid.value].start, incoming[b.uid.value].end, n)
    case _ => true
  }

  /** The imported row holds the night. */
  ghost predicate Holds(t: Table, id: BookingId, n: Day)
  {
    id in t && t[id].uid.Some? && t[id].status.Confirmed? && Covers(t[id].start, t[id].end, n)
  }

  /** A past night of an imported row survives a step exactly when the step spares it. */
  lemma {:induction false} StepKeepsPastNightExactly(s: State, step: Step, id: BookingId, n: Day)
    requires Inv(s) && Enabled(s, step) && Holds(s.stored.bookings, id, n) && n < s.today
    ensures Holds(Next(s, step).stored.bookings, id, n) <==> Spares(s, step, id, n)
  {
    hide Sync, FreshDraw, FeedEvents, Decision, RefundOf, TransitionError, Lists;
    match step {
      case Create(k, user, r, w) => CreatedRows(s.stored, k, user, r, w);
      case SyncOne(fid, fetch, owner, ids) =>
        if fid in s.stored.feeds {
          SyncKeepsPastNightExactly(s.stored, fid, s.stored.feeds[fid], Outcome(fetch, owner, ids, s.today), id, n);
        }
      case _ =>
    }
  }

  lemma SyncKeepsPastNightExactly(s: Stored, fid: FeedId, feed: Feed, o: Outcome, id: BookingId, n: Day)
    requires Holds(s.bookings, id, n) && n < o.today
    ensures var b := s.bookings[id];
      Holds(Sync(s, fid, feed, o).bookings, id, n) <==>
      (FullPath(feed, o) && Imported(b, feed.property, feed.channel) ==>
        var incoming := LastWins(FeedEvents(o.fetch).value);
        b.uid.value in incoming ==> Covers(incoming[b.uid.value].start, incoming[b.uid.value].end, n))
  {
    SyncByStore(s, Visit(fid, feed, o));
    hide Sync, Reconcile, HasUid, FeedEvents;
    if FullPath(feed, o) {
      ReconcileAt(s.bookings, feed.property, feed.channel, o.owner.value, LastWins(FeedEvents(o.fetch).value), o.today, o.ids, id);
    }
  }

  ghost predicate SparedThroughout(s: State, steps: seq<Step>, id: BookingId, n: Day)
    requires Legal(s, steps)
    decreases |steps|
  {
    steps == [] || (id in s.stored.bookings && s.stored.bookings[id].uid.Some? && Spares(s, steps[0], id, n)
                    && SparedThroughout(Next(s, steps[0]), steps[1..], id, n))
  }

  /** The past never vanishes: a past night held by an imported row is still held, by the same
      confirmed row, after any further run that does not delete the row and in which no feed comes
      to list its uid with other dates. Dropping out of the feed never costs a past night. */
  lemma {:induction false} PastNeverVanishes(s: State, steps: seq<Step>, id: BookingId, n: Day)
    requires Inv(s) && Legal(s, steps)
    requires Holds(s.stored.bookings, id, n) && n < s.today
    requires SparedThroughout(s, steps, id, n)
    ensures Holds(Run(s, steps).stored.bookings, id, n)
    decreases |steps|
  {
    if steps != [] {
      NextKeepsInv(s, steps[0]);
      StepKeepsPastNightExactly(s, steps[0], id, n);
      DaysOnlyGrow(s, steps[0]);
      PastNeverVanishes(Next(s, steps[0]), steps[1..], id, n);
    }
  }

  lemma DaysOnlyGrow(s: State, step: Step)
    requires Enabled(s, step)
    ensures s.today <= Next(s, step).today
  {
    hide Sync, Created, StatusChanged, Lists, FreshDraw;
  }

  // ---- Failed syncs leave no trace ------------------------------------------------------------

  /** The step is a sync that records an error. */
  ghost predicate FailedSync(s: State, step: Step)
  {
    step.SyncOne? && step.fid in s.stored.feeds
      && StatusOf(s.stored.feeds[step.fid], Outcome(step.fetch, step.owner, step.ids, s.today)) != SyncOk
  }

  /** Which syncs fail, by what the host sent. */
  lemma FailedSyncExactly(s: State, step: Step)
    requires Enabled(s, step) && step.SyncOne? && step.fid in s.stored.feeds
    ensures FailedSync(s, step) <==>
      || step.fetch == Unreachable
      || step.fetch == Malformed
      || (step.fetch.Body? && Unreadable(step.fetch.components))
      || (&& step.fetch.Body? && !Unreadable(step.fetch.components) && step.owner == None
          && s.stored.feeds[step.fid].hash != Some(Canonical(Listing(step.fetch.components))))
  {
    var feed, o := s.stored.feeds[step.fid], Outcome(step.fetch, step.owner, step.ids, s.today);
    FailSafe(s.stored, step.fid, feed, o);
    if step.fetch.Body? && !Unreadable(step.fetch.components) {
      ReadableSucceeds(s.stored, step.fid, feed, o);
    }
    hide Enabled, StatusOf, Sync;
  }

  /** The run without its failed syncs. */
  ghost function Erased(s: State, steps: seq<Step>): seq<Step>
    requires Legal(s, steps)
    decreases |steps|
  {
    if steps == [] then []
    else
      var rest := Erased(Next(s, steps[0]), steps[1..]);
      if FailedSync(s, steps[0]) then rest else [steps[0]] + rest
  }

  /** Equal but for the recorded sync statuses. */
  ghost predicate SameButStatus(a: State, b: State)
  {
    && a.stored.bookings == b.stored.bookings
    && a.stored.slots == b.stored.slots
    && SameFeeds(a.stored.feeds, b.stored.feeds)
    && a.today == b.today && a.used == b.used && a.moves == b.moves && a.refunds == b.refunds && a.stale == b.stale
  }

  ghost predicate SameFeeds(a: map<FeedId, Feed>, b: map<FeedId, Feed>)
  {
    a.Keys == b.Keys && forall f :: f in a ==> a[f].(lastStatus := None) == b[f].(lastStatus := None)
  }

  lemma FailedSyncChangesStatusOnly(s: State, step: Step)
    requires Inv(s) && Enabled(s, step) && FailedSync(s, step)
    ensures SameButStatus(Next(s, step), s)
  {
    SyncByStore(s.stored, Visit(step.fid, s.stored.feeds[step.fid], Outcome(step.fetch, step.owner, step.ids, s.today)));
    hide Sync, Reconcile, FeedEvents, FreshDraw;
  }

  lemma EnabledAlike(a: State, b: State, step: Step)
    requires SameButStatus(a, b) && Enabled(a, step)
    ensures Enabled(b, step)
  {
  }

  lemma SyncAlike(a: Stored, b: Stored, fid: FeedId, o: Outcome)
    requires fid in a.feeds && a.bookings == b.bookings && a.slots == b.slots && SameFeeds(a.feeds, b.feeds)
    ensures var a', b' := Sync(a, fid, a.feeds[fid], o), Sync(b, fid, b.feeds[fid], o);
      a'.bookings == b'.bookings && a'.slots == b'.slots && SameFeeds(a'.feeds, b'.feeds)
  {
    SyncByStore(a, Visit(fid, a.feeds[fid], o));
    SyncByStore(b, Visit(fid, b.feeds[fid], o));
    hide Sync, Reconcile, FeedEvents;
    assert a.feeds[fid].(lastStatus := None) == b.feeds[fid].(lastStatus := None);
  }

  lemma {:induction false} NextAlike(a: State, b: State, step: Step)
    requires SameButStatus(a, b) && Enabled(a, step) && Enabled(b, step)
    ensures SameButStatus(Next(a, step), Next(b, step))
  {
    hide Sync, Lists, FreshDraw, Decision, RefundOf, TransitionError;
    if step.SyncOne? && step.fid in a.stored.feeds {
      SyncAlike(a.stored, b.stored, step.fid, Outcome(step.fetch, step.owner, step.ids, a.today));
    }
  }

  /** Erasing every failed sync from a run leaves a legal run with the same bookings, cached slots
      and feed hashes. */
  lemma {:induction false} FailedSyncsLeaveNoTrace(s: State, b: State, steps: seq<Step>)
    requires Inv(s) && Legal(s, steps) && SameButStatus(s, b)
    ensures Legal(b, Erased(s, steps))
    ensures SameButStatus(Run(s, steps), Run(b, Erased(s, steps)))
    decreases |steps|
  {
    if steps != [] {
      var step, r := steps[0], Next(s, steps[0]);
      NextKeepsInv(s, step);
      if FailedSync(s, step) {
        FailedSyncChangesStatusOnly(s, step);
        FailedSyncsLeaveNoTrace(r, b, steps[1..]);
      } else {
        EnabledAlike(s, b, step);
        NextAlike(s, b, step);
        FailedSyncsLeaveNoTrace(r, Next(b, step), steps[1..]);
        var kept := Erased(s, steps);
        assert kept[0] == step && kept[1..] == Erased(r, steps[1..]);
      }
    }
  }

  // ---- A sweep is a run -----------------------------------------------------------------------

  /** The feeds of a sweep are as they were loaded, and the keys drawn for them are new. */
  ghost predicate SweepReady(s: State, feeds: map<FeedId, Feed>, outcomes: map<FeedId, Outcome>, order: seq<FeedId>)
  {
    && DistinctSeq(order) && s.stored.bookings.Keys <= s.used
    && (forall f :: f in order ==> f in feeds && f in s.stored.feeds && s.stored.feeds[f] == feeds[f])
    && (forall f :: f in order ==> f in outcomes && Ready(s, outcomes[f]))
    && (forall f, g :: f in order && g in order && f != g ==> outcomes[f].ids.Values !! outcomes[g].ids.Values)
  }

  ghost predicate Ready(s: State, o: Outcome)
  {
    o.today == s.today && o.ids.Values !! s.used && FreshDraw(s.stored.bookings, o)
  }

  function SyncStep(fid: FeedId, o: Outcome): Step
  {
    SyncOne(fid, o.fetch, o.owner, o.ids)
  }

  function SweepSteps(outcomes: map<FeedId, Outcome>, order: seq<FeedId>): seq<Step>
    requires forall f :: f in order ==> f in outcomes
  {
    if order == [] then [] else [SyncStep(order[0], outcomes[order[0]])] + SweepSteps(outcomes, order[1..])
  }

  lemma FirstVisit(feeds: map<FeedId, Feed>, outcomes: map<FeedId, Outcome>, order: seq<FeedId>)
    requires order != [] && forall f :: f in order ==> f in feeds && f in outcomes
    ensures var visits := VisitsOf(feeds, outcomes, order);
      visits[0] == Visit(order[0], feeds[order[0]], outcomes[order[0]]) && visits[1..] == VisitsOf(feeds, outcomes, order[1..])
  {
  }

  lemma ReadyAfter(s: State, feeds: map<FeedId, Feed>, outcomes: map<FeedId, Outcome>, order: seq<FeedId>)
    requires SweepReady(s, feeds, outcomes, order) && order != []
    ensures var step := SyncStep(order[0], outcomes[order[0]]);
      Enabled(s, step) && SweepReady(Next(s, step), feeds, outcomes, order[1..])
      && Next(s, step).stored == VisitOne(s.stored, Visit(order[0], feeds[order[0]], outcomes[order[0]]))
  {
    hide Sync, FeedEvents;
    var fid := order[0];
    SyncAddsOnlyDrawn(s.stored, fid, feeds[fid], outcomes[fid]);
    SyncKeepsOtherFeeds(s.stored, fid, feeds[fid], outcomes[fid]);
  }

  /** A sweep over the feeds as loaded at its start is a run of single syncs, each of the feed as it
      stands when its turn comes: what holds in every run holds through every sweep. */
  lemma {:induction false} SweepIsARun(s: State, feeds: map<FeedId, Feed>, outcomes: map<FeedId, Outcome>,
          order: seq<FeedId>)
    requires SweepReady(s, feeds, outcomes, order)
    ensures Legal(s, SweepSteps(outcomes, order))
    ensures Run(s, SweepSteps(outcomes, order)).stored == Fold(VisitOne, s.stored, VisitsOf(feeds, outcomes, order))
    decreases |order|
  {
    hide VisitOne, Next, Enabled;
    if order != [] {
      ReadyAfter(s, feeds, outcomes, order);
      FirstVisit(feeds, outcomes, order);
      SweepIsARun(Next(s, SyncStep(order[0], outcomes[order[0]])), feeds, outcomes, order[1..]);
    }
  }
}
