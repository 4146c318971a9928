/** Where the short cut for unchanged feeds ends: a run for each condition it relies on in which the
    service, with that condition broken, skips a feed it should not skip; and what a sweep does with
    a copy of the feed that was loaded before. */
module ShortCutLimits {
  import opened Prelude
  import opened Nights
  import opened Model
  import opened ICalParser
  import opened ContentHash
  import opened Diff
  import opened Crud
  import opened Reconciliation
  import opened Mirror
  import opened CalendarSync
  import opened Service
  import opened SyncRuns

  // ---- Calendars made from events ---------------------------------------------------------------

  function ComponentOf(e: Event): Component
  {
    Component(Some(e.uid), Some(DateOnly(e.start)), Some(DateOnly(e.end)))
  }

  /** A calendar that reports exactly these events. */
  function Calendar(events: seq<Event>): Fetch
  {
    Body(seq(|events|, i requires 0 <= i < |events| => ComponentOf(events[i])))
  }

  /** Written as a calendar and parsed again, events come back as they were. */
  lemma {:induction false} CalendarParses(events: seq<Event>)
    requires forall e :: e in events ==> e.start < e.end
    ensures FeedEvents(Calendar(events)) == Ok(events)
    decreases |events|
  {
    var cs := Calendar(events).components;
    assert forall i :: 0 <= i < |cs| ==> !Broken(cs[i]);
    if events != [] {
      var init, last := events[..|events| - 1], events[|events| - 1];
      CalendarParses(init);
      assert cs[..|cs| - 1] == Calendar(init).components;
      assert last in events && EventOf(cs[|cs| - 1]) == Some(last);
      assert events == init + [last];
    }
  }

  // ---- One step of a run ------------------------------------------------------------------------

  /** A feed of this property and channel whose last synced events were these. */
  ghost predicate Synced(s: State, fid: FeedId, p: PropertyId, c: Channel, events: seq<Event>)
  {
    && fid in s.stored.feeds
    && s.stored.feeds[fid].property == p && s.stored.feeds[fid].channel == c
    && s.stored.feeds[fid].hash == Some(Canonical(events))
  }

  /** A linked feed that was never synced. */
  ghost predicate Linked(s: State, fid: FeedId, p: PropertyId, c: Channel)
  {
    fid in s.stored.feeds && s.stored.feeds[fid] == Feed(p, c, true, None, None)
  }

  function Import(fid: FeedId, events: seq<Event>, ids: Draw): Step
  {
    SyncOne(fid, Calendar(events), Some(0), ids)
  }

  lemma LinkStep(s: State, fid: FeedId, p: PropertyId, c: Channel)
    requires fid !in s.stored.feeds && c != Platform
    ensures Linked(Next(s, AddFeed(fid, p, c)), fid, p, c)
    ensures forall f, p', c' :: Linked(s, f, p', c') ==> Linked(Next(s, AddFeed(fid, p, c)), f, p', c')
  {
  }

  /** An import of a changed feed leaves the rows reconciled with it and its hash recorded. */
  lemma ImportStep(s: State, fid: FeedId, p: PropertyId, c: Channel, events: seq<Event>, ids: Draw)
    requires Inv(s) && fid in s.stored.feeds && s.stored.feeds[fid].property == p && s.stored.feeds[fid].channel == c
    requires s.stored.feeds[fid].hash != Some(Canonical(events))
    requires forall e :: e in events ==> e.start < e.end && e.uid in ids
    requires ids.Values !! s.used
    ensures Enabled(s, Import(fid, events, ids))
    ensures var r := Next(s, Import(fid, events, ids));
      && Synced(r, fid, p, c, events) && r.today == s.today && Inv(r)
      && r.stored.bookings == Reconcile(s.stored.bookings, p, c, 0, LastWins(events), s.today, ids)
      && (forall f :: f in s.stored.feeds && f != fid ==> f in r.stored.feeds && r.stored.feeds[f] == s.stored.feeds[f])
      && Mirrors(r.stored.bookings, p, c, LastWins(events), s.today)
  {
    hide Sync, Calendar, Canonical, LastWins, Reconcile, SoundRows, UniqueUids, ChannelRows, NoDoubleBooking, FeedEvents,
      Mirrors, FreshDraw, Keyed;
    var feed, o := s.stored.feeds[fid], Outcome(Calendar(events), Some(0), ids, s.today);
    CalendarIsTaken(s.stored.bookings, feed, events, ids, s.today);
    SyncByStore(s.stored, Visit(fid, feed, o));
    NextKeepsInv(s, Import(fid, events, ids));
    EventsAreKeyed(events);
    assert forall u :: u in LastWins(events) ==> LastWins(events)[u] in events;
    SyncMirrors(s.stored.bookings, p, c, 0, LastWins(events), s.today, ids);
  }

  lemma CalendarIsTaken(t: Table, feed: Feed, events: seq<Event>, ids: Draw, today: Day)
    requires feed.hash != Some(Canonical(events))
    requires forall e :: e in events ==> e.start < e.end && e.uid in ids
    requires ids.Values !! t.Keys
    ensures var o := Outcome(Calendar(events), Some(0), ids, today);
      FeedEvents(o.fetch) == Ok(events) && FreshDraw(t, o) && FullPath(feed, o) && StatusOf(feed, o) == SyncOk
  {
    CalendarParses(events);
    hide Calendar, Canonical, FeedEvents;
  }

  lemma TwoStepRun(s: State, x: Step, y: Step)
    requires Enabled(s, x) && Enabled(Next(s, x), y)
    ensures Legal(s, [x, y]) && Run(s, [x, y]) == Next(Next(s, x), y)
  {
    hide Next, Enabled;
    assert [x, y][1..] == [y];
    assert Legal(Next(s, x), [y]);
    assert Run(Next(s, x), [y]) == Next(Next(s, x), y);
  }

  lemma ThreeStepRun(s: State, x: Step, y: Step, z: Step)
    requires Enabled(s, x) && Enabled(Next(s, x), y) && Enabled(Next(Next(s, x), y), z)
    ensures Legal(s, [x, y, z]) && Run(s, [x, y, z]) == Next(Next(Next(s, x), y), z)
  {
    TwoStepRun(Next(s, x), y, z);
    hide Next, Enabled;
    assert [x, y, z][1..] == [y, z];
  }

  lemma FourStepRun(s: State, w: Step, x: Step, y: Step, z: Step)
    requires Enabled(s, w) && Enabled(Next(s, w), x) && Enabled(Next(Next(s, w), x), y)
    requires Enabled(Next(Next(Next(s, w), x), y), z)
    ensures Legal(s, [w, x, y, z]) && Run(s, [w, x, y, z]) == Next(Next(Next(Next(s, w), x), y), z)
  {
    ThreeStepRun(Next(s, w), x, y, z);
    hide Next, Enabled;
    assert [w, x, y, z][1..] == [x, y, z];
  }

  // ---- A run for each condition -----------------------------------------------------------------

  /** The feed's stored hash is that of these events, so a sync meeting them again takes the short
      cut; yet the rows do not show them. */
  ghost predicate Missed(s: State, fid: FeedId, p: PropertyId, c: Channel, events: seq<Event>)
  {
    Synced(s, fid, p, c, events) && !Quiet(s.stored.bookings, p, c, LastWins(events), s.today)
  }

  const FIRST_KEY: Draw := map["u" := 0]

  /** The run all examples begin with: a feed is linked and imported. */
  function Opening(p: PropertyId, c: Channel, events: seq<Event>): seq<Step>
  {
    [AddFeed(0, p, c), Import(0, events, FIRST_KEY)]
  }

  lemma Opened(s: State, p: PropertyId, c: Channel, events: seq<Event>)
    requires Initial(s) && c != Platform
    requires forall e :: e in events ==> e.start < e.end && e.uid == "u"
    ensures Legal(s, Opening(p, c, events))
    ensures var r := Run(s, Opening(p, c, events));
      && Enabled(s, AddFeed(0, p, c)) && Enabled(Next(s, AddFeed(0, p, c)), Import(0, events, FIRST_KEY))
      && r == Next(Next(s, AddFeed(0, p, c)), Import(0, events, FIRST_KEY))
      && Synced(r, 0, p, c, events) && r.today == s.today && Inv(r) && r.used <= {0}
      && Mirrors(r.stored.bookings, p, c, LastWins(events), r.today)
  {
    var linked := Next(s, AddFeed(0, p, c));
    LinkStep(s, 0, p, c);
    assert Inv(linked);
    ImportStep(linked, 0, p, c, events, FIRST_KEY);
    ReconcileKeys(linked.stored.bookings, p, c, 0, LastWins(events), s.today, FIRST_KEY);
    TwoStepRun(s, AddFeed(0, p, c), Import(0, events, FIRST_KEY));
    hide Sync, Mirrors, LastWins, Canonical, Reconcile, Synced, SoundRows, UniqueUids, NoDoubleBooking, ChannelRows;
  }

  /** A uid listed with two stays: from the empty service, a linked and imported feed whose reversal
      is skipped although it means something else. */
  lemma RepeatedUidIsReachable(s: State, p: PropertyId, c: Channel)
    requires Initial(s) && c != Platform
    ensures var a, b := [Event("u", 5, 6), Event("u", 7, 8)], [Event("u", 7, 8), Event("u", 5, 6)];
      Legal(s, Opening(p, c, a)) && Missed(Run(s, Opening(p, c, a)), 0, p, c, b)
  {
    var a := [Event("u", 5, 6), Event("u", 7, 8)];
    Opened(s, p, c, a);
    var r := Run(s, Opening(p, c, a));
    RepeatedUidIsMissed(r.stored.bookings, p, c, r.today);
    hide Run, Legal, Quiet, LastWins, Canonical, Mirrors;
  }

  /** A row that the feed lists is deleted: the next sweep skips the feed and leaves its nights free. */
  lemma DeletedRowIsReachable(s: State, p: PropertyId, c: Channel, e: Event)
    requires Initial(s) && c != Platform && e.start < e.end && e.uid == "u"
    ensures var steps := Opening(p, c, [e]) + [Delete(0)];
      Legal(s, steps) && Missed(Run(s, steps), 0, p, c, [e])
  {
    Opened(s, p, c, [e]);
    var link, r := Next(s, AddFeed(0, p, c)), Run(s, Opening(p, c, [e]));
    ThreeStepRun(s, AddFeed(0, p, c), Import(0, [e], FIRST_KEY), Delete(0));
    assert Opening(p, c, [e]) + [Delete(0)] == [AddFeed(0, p, c), Import(0, [e], FIRST_KEY), Delete(0)];
    EventsAreKeyed([e]);
    OnlyEvent(e);
    assert HasRow(r.stored.bookings, p, c, LastWins([e])["u"]);
    var id :| id in r.stored.bookings && StandsFor(r.stored.bookings[id], p, c, LastWins([e])["u"]);
    assert id == 0;
    DeleteKeepsMirrorExactly(r.stored.bookings, p, c, LastWins([e]), r.today, 0);
    NextKeepsInv(r, Delete(0));
    MirrorIsQuiet(r.stored.bookings - {0}, p, c, LastWins([e]), r.today);
    hide Run, Legal, Quiet, LastWins, Canonical, Mirrors;
  }

  lemma OnlyEvent(e: Event)
    ensures LastWins([e]) == map[e.uid := e]
    ensures Canonical([e]) != Canonical([])
  {
    assert [e][..0] == [];
    CanonicalSeparates([e], []);
    assert e in multiset([e]);
  }

  /** A second feed of the same property and channel: syncing it, empty, cancels what the first one
      lists, and the first one is skipped from then on. */
  lemma SecondFeedIsReachable(s: State, p: PropertyId, c: Channel, e: Event)
    requires Initial(s) && c != Platform && e.start < e.end && e.uid == "u" && e.end > s.today
    ensures var steps := [AddFeed(0, p, c), AddFeed(1, p, c), Import(0, [e], FIRST_KEY), Import(1, [], map[])];
      Legal(s, steps) && Missed(Run(s, steps), 0, p, c, [e])
  {
    var w, x, y, z := AddFeed(0, p, c), AddFeed(1, p, c), Import(0, [e], FIRST_KEY), Import(1, [], map[]);
    TwoLinked(s, p, c);
    var two := Next(Next(s, w), x);
    hide Initial, Inv, Next, Enabled, Quiet, LastWins, Canonical, Mirrors, Reconcile;
    ImportStep(two, 0, p, c, [e], FIRST_KEY);
    var r := Next(two, y);
    ImportStep(r, 1, p, c, [], map[]);
    FourStepRun(s, w, x, y, z);
    EmptiedIsNotQuiet(r, Next(r, z), p, c, e);
  }

  lemma TwoLinked(s: State, p: PropertyId, c: Channel)
    requires Initial(s) && c != Platform
    ensures Enabled(s, AddFeed(0, p, c)) && Enabled(Next(s, AddFeed(0, p, c)), AddFeed(1, p, c))
    ensures var r := Next(Next(s, AddFeed(0, p, c)), AddFeed(1, p, c));
      Inv(r) && Linked(r, 0, p, c) && Linked(r, 1, p, c) && r.used == {} && r.today == s.today
  {
    LinkStep(s, 0, p, c);
    LinkStep(Next(s, AddFeed(0, p, c)), 1, p, c);
    assert Inv(s);
    NextKeepsInv(s, AddFeed(0, p, c));
    NextKeepsInv(Next(s, AddFeed(0, p, c)), AddFeed(1, p, c));
  }

  /** Rows that mirror one future event, reconciled with an empty feed. */
  lemma EmptiedIsNotQuiet(s: State, r: State, p: PropertyId, c: Channel, e: Event)
    requires Inv(s) && Inv(r) && c != Platform && e.start < e.end && e.end > s.today
    requires Mirrors(r.stored.bookings, p, c, LastWins([]), r.today) && r.today == s.today
    ensures !Quiet(r.stored.bookings, p, c, LastWins([e]), r.today)
  {
    OnlyEvent(e);
    EventsAreKeyed([e]);
    EventsAreKeyed([]);
    MirrorIsQuiet(r.stored.bookings, p, c, LastWins([e]), r.today);
    assert e.uid in LastWins([e]);
    if Mirrors(r.stored.bookings, p, c, LastWins([e]), r.today) {
      TwoMirrorsAgree(r.stored.bookings, p, c, LastWins([e]), LastWins([]), r.today);
    }
  }

  // ---- A sweep on feeds loaded before -----------------------------------------------------------

  /** The copy of a feed a sweep loaded at its start, which other requests may have synced since. */
  ghost predicate CopyOf(loaded: Feed, feed: Feed)
  {
    loaded.property == feed.property && loaded.channel == feed.channel
  }

  /** A sweep that loaded the feed before it was synced again: its turn, meeting the events of its
      copy, changes no row and records their hash, and they are missed from then on. The run keeps to
      the discipline; a sync between the listing and the turn is enough. */
  lemma StaleCopyIsReachable(s: State, p: PropertyId, c: Channel, e: Event, o: Outcome)
    requires Initial(s) && c != Platform && e.start < e.end && e.uid == "u" && e.end > s.today
    requires o.fetch == Calendar([e]) && o.today == s.today
    ensures var opening := Opening(p, c, [e]);
      var steps := opening + [Import(0, [], map[])];
      && Legal(s, opening) && Legal(s, steps) && DisciplinedRun(s, steps)
      && 0 in Run(s, opening).stored.feeds
      && var visited := Run(s, steps).(stored := Sync(Run(s, steps).stored, 0, Run(s, opening).stored.feeds[0], o));
        visited.stored.bookings == Run(s, steps).stored.bookings && Missed(visited, 0, p, c, [e])
  {
    OpenedAndEmptied(s, p, c, e);
    var x, y, z := AddFeed(0, p, c), Import(0, [e], FIRST_KEY), Import(0, [], map[]);
    ThreeStepRun(s, x, y, z);
    assert Opening(p, c, [e]) + [z] == [x, y, z];
    var r := Run(s, Opening(p, c, [e]));
    hide Run, Legal, Next, Enabled, Quiet, LastWins, Canonical, Mirrors, Sync, FeedEvents, Calendar, DisciplinedRun, Disciplined;
    EmptiedIsNotQuiet(r, Next(r, z), p, c, e);
    SkipRecordsHash(Next(r, z).stored, r.stored.feeds[0], [e], o);
  }

  lemma OpenedAndEmptied(s: State, p: PropertyId, c: Channel, e: Event)
    requires Initial(s) && c != Platform && e.start < e.end && e.uid == "u"
    ensures var x, y, z := AddFeed(0, p, c), Import(0, [e], FIRST_KEY), Import(0, [], map[]);
      && Legal(s, Opening(p, c, [e])) && Enabled(s, x) && Enabled(Next(s, x), y) && Enabled(Next(Next(s, x), y), z)
      && Legal(s, [x, y, z]) && DisciplinedRun(s, [x, y, z])
      && var r := Run(s, Opening(p, c, [e]));
        && r == Next(Next(s, x), y) && Synced(r, 0, p, c, [e]) && Inv(r) && r.today == s.today
        && Synced(Next(r, z), 0, p, c, []) && Inv(Next(r, z)) && Next(r, z).today == r.today
        && Mirrors(Next(r, z).stored.bookings, p, c, LastWins([]), r.today)
  {
    var x, y, z := AddFeed(0, p, c), Import(0, [e], FIRST_KEY), Import(0, [], map[]);
    Opened(s, p, c, [e]);
    OnlyEvent(e);
    assert Disciplined(s, x);
    hide Initial, Run, Legal, Next, Enabled, Quiet, LastWins, Canonical, Mirrors, Sync, FeedEvents, Calendar, Reconcile, Inv;
    var r := Run(s, Opening(p, c, [e]));
    ImportStep(r, 0, p, c, [], map[]);
    ThreeStepRun(s, x, y, z);
    CalendarParses([e]);
    CalendarParses([]);
    ThreeDisciplined(s, x, y, z);
  }

  lemma SkipRecordsHash(s: Stored, loaded: Feed, events: seq<Event>, o: Outcome)
    requires loaded.hash == Some(Canonical(events)) && o.fetch == Calendar(events) && 0 in s.feeds
    requires forall e :: e in events ==> e.start < e.end
    ensures Sync(s, 0, loaded, o).bookings == s.bookings
    ensures Sync(s, 0, loaded, o).feeds == s.feeds[0 := s.feeds[0].(lastStatus := Some(SyncOk), hash := Some(Canonical(events)))]
  {
    CalendarParses(events);
    hide Calendar, Canonical, FeedEvents;
  }

  lemma ThreeDisciplined(s: State, x: Step, y: Step, z: Step)
    requires Legal(s, [x, y, z]) && Enabled(s, x) && Enabled(Next(s, x), y) && Enabled(Next(Next(s, x), y), z)
    requires Disciplined(s, x) && Disciplined(Next(s, x), y) && Disciplined(Next(Next(s, x), y), z)
    ensures DisciplinedRun(s, [x, y, z])
  {
    TwoStepRun(Next(s, x), y, z);
    hide Next, Enabled, Disciplined;
    var last := Next(Next(s, x), y);
    assert [x, y, z][1..] == [y, z] && [y, z][1..] == [z] && [z][1..] == [];
    assert Legal(last, [z]) && DisciplinedRun(last, [z]);
    assert DisciplinedRun(Next(s, x), [y, z]);
  }

  /** In every state of every disciplined run, for a turn that skips on a loaded copy: it changes no
      row, and the skipped events have nothing to write, today and on every later day, exactly when
      they still stand beside the events that were synced last. */
  lemma {:induction false} StaleSkipIsSafeExactly(s: State, steps: seq<Step>, fid: FeedId, loaded: Feed, o: Outcome)
    requires Initial(s) && Legal(s, steps) && DisciplinedRun(s, steps)
    requires var r := Run(s, steps); fid in r.stored.feeds && CopyOf(loaded, r.stored.feeds[fid]) && r.stored.feeds[fid].hash.Some?
    requires FeedEvents(o.fetch).Ok? && Unchanged(loaded, FeedEvents(o.fetch).value)
    ensures var r := Run(s, steps);
      var t, p, c := Sync(r.stored, fid, loaded, o).bookings, loaded.property, loaded.channel;
      var events, current := LastWins(FeedEvents(o.fetch).value), LastWins(r.stored.feeds[fid].hash.value);
      && t == r.stored.bookings
      && ((forall day :: day >= r.today ==> Quiet(t, p, c, events, day)) <==> StillStands(t, p, c, events, current, r.today))
  {
    ReachableStatesAreSound(s, steps);
    RunKeepsMirrors(s, steps);
    var r := Run(s, steps);
    var feed, events := r.stored.feeds[fid], FeedEvents(o.fetch).value;
    assert FeedMirrored(r.stored.bookings, feed, r.today);
    EventsAreKeyed(events);
    EventsAreKeyed(feed.hash.value);
    StaleSkipIsQuietExactly(r.stored.bookings, loaded.property, loaded.channel, LastWins(events), LastWins(feed.hash.value), r.today);
  }

  /** That the two tell the same future would not be enough: an elapsed stay may have been moved, by
      an import in between, before it dropped out of the feed. */
  lemma MovedInBetweenIsReachable(s: State, p: PropertyId, c: Channel, e: Event, moved: Event)
    requires Initial(s) && c != Platform && e.uid == "u" && moved.uid == "u" && e != moved
    requires e.start < e.end <= s.today && moved.start < moved.end <= s.today
    ensures var steps := [AddFeed(0, p, c), Import(0, [e], FIRST_KEY), Import(0, [moved], map["u" := 1]), Import(0, [], map[])];
      && Legal(s, steps)
      && var t := Run(s, steps).stored.bookings;
        SameFuture(LastWins([e]), LastWins([]), s.today) && !StillStands(t, p, c, LastWins([e]), LastWins([]), s.today)
  {
    var w, x, y, z := AddFeed(0, p, c), Import(0, [e], FIRST_KEY), Import(0, [moved], map["u" := 1]), Import(0, [], map[]);
    Opened(s, p, c, [e]);
    OnlyEvent(e);
    var r := Run(s, Opening(p, c, [e]));
    hide Initial, Run, Legal, Next, Enabled, Canonical, Mirrors, Synced, HasRow, Inv, LastWins;
    MovedAndDropped(r, p, c, e, moved);
    FourStepRun(s, w, x, y, z);
  }

  lemma MovedAndDropped(s: State, p: PropertyId, c: Channel, e: Event, moved: Event)
    requires Inv(s) && Synced(s, 0, p, c, [e]) && s.used <= {0} && c != Platform
    requires e.uid == "u" && moved.uid == "u" && e != moved && moved.start < moved.end <= s.today
    ensures var y, z := Import(0, [moved], map["u" := 1]), Import(0, [], map[]);
      && Enabled(s, y) && Enabled(Next(s, y), z)
      && !HasRow(Next(Next(s, y), z).stored.bookings, p, c, e)
  {
    var y, z := Import(0, [moved], map["u" := 1]), Import(0, [], map[]);
    OnlyEvent(moved);
    DifferentEvents(e, moved);
    hide Next, Enabled, Canonical, LastWins, Reconcile, HasRow;
    ImportStep(s, 0, p, c, [moved], map["u" := 1]);
    var r := Next(s, y);
    ImportStep(r, 0, p, c, [], map[]);
    assert "u" in LastWins([moved]) && HasRow(r.stored.bookings, p, c, LastWins([moved])["u"]);
    ElapsedRowStays(r.stored.bookings, p, c, 0, r.today, map[], moved);
    if HasRow(Next(r, z).stored.bookings, p, c, e) {
      OneRowOneStay(Next(r, z).stored.bookings, p, c, e, moved);
    }
  }

  lemma DifferentEvents(e: Event, f: Event)
    requires e != f
    ensures Canonical([e]) != Canonical([f])
  {
    CanonicalSeparates([e], [f]);
    assert e in multiset([e]) && e !in multiset([f]);
  }

  lemma ElapsedRowStays(t: Table, p: PropertyId, c: Channel, owner: UserId, today: Day, ids: Draw, e: Event)
    requires HasRow(t, p, c, e) && e.end <= today && e.start < e.end
    ensures HasRow(Reconcile(t, p, c, owner, LastWins([]), today, ids), p, c, e)
  {
    var id :| id in t && StandsFor(t[id], p, c, e);
    ReconcileAt(t, p, c, owner, LastWins([]), today, ids, id);
    assert StandsFor(Reconcile(t, p, c, owner, LastWins([]), today, ids)[id], p, c, e);
  }

  /** Any other turn on a loaded copy is the sync of the feed as it stands: unless the copy's hash
      makes it skip where the current one would not, bookings and feed hashes come out the same. */
  lemma {:induction false} LoadedCopyServes(s: State, fid: FeedId, loaded: Feed, o: Outcome)
    requires Inv(s) && AllMirrored(s) && fid in s.stored.feeds && CopyOf(loaded, s.stored.feeds[fid])
    requires o.today == s.today
    requires FeedEvents(o.fetch).Ok? && Unchanged(loaded, FeedEvents(o.fetch).value) ==>
      Unchanged(s.stored.feeds[fid], FeedEvents(o.fetch).value)
    ensures var a, b := Sync(s.stored, fid, loaded, o), Sync(s.stored, fid, s.stored.feeds[fid], o);
      a.bookings == b.bookings && SameFeeds(a.feeds, b.feeds)
  {
    var feed := s.stored.feeds[fid];
    SyncByStore(s.stored, Visit(fid, feed, o));
    SyncByStore(s.stored, Visit(fid, loaded, o));
    CopyBookings(s.stored.bookings, feed, loaded, o);
    hide Sync, BookingsAfter, Recorded, FeedMirrored, SameFeeds, FeedEvents, Canonical, SoundRows, UniqueUids;
    SameFeedsReflexive(s.stored.feeds);
    SameHashRecorded(s.stored.feeds, s.stored.feeds, fid, StatusOf(loaded, o), StatusOf(feed, o), HashOf(loaded, o), HashOf(feed, o));
  }

  lemma SameFeedsReflexive(feeds: map<FeedId, Feed>)
    ensures SameFeeds(feeds, feeds)
  {
  }

  lemma CopyBookings(t: Table, feed: Feed, loaded: Feed, o: Outcome)
    requires SoundRows(t) && UniqueUids(t) && feed.channel != Platform && FeedMirrored(t, feed, o.today)
    requires CopyOf(loaded, feed)
    requires FeedEvents(o.fetch).Ok? && Unchanged(loaded, FeedEvents(o.fetch).value) ==> Unchanged(feed, FeedEvents(o.fetch).value)
    ensures forall fid :: BookingsAfter(t, Visit(fid, loaded, o)) == BookingsAfter(t, Visit(fid, feed, o))
  {
    hide Reconcile, FeedMirrored, SoundRows, UniqueUids, Canonical, LastWins, FeedEvents;
    if FeedEvents(o.fetch).Ok? && o.owner.Some? && Unchanged(feed, FeedEvents(o.fetch).value) {
      var events := FeedEvents(o.fetch).value;
      MirroredIsQuiet(t, feed, events, o.today, o.today);
      QuietChangesNothing(t, feed.property, feed.channel, o.owner.value, LastWins(events), o.today, o.ids);
    }
  }
}
