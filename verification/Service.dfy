/** The service as one state machine: requests, syncs, cache reads and the passing of days, one
    atomic step each, and what every run of it keeps. */
module Service {
  import opened Prelude
  import opened Nights
  import opened Model
  import opened Diff
  import opened Crud
  import opened Cache
  import opened Reconciliation
  import opened Mirror
  import opened CalendarSync
  import opened BookingRouter

  /** A status change that was carried out. */
  datatype Move = Move(id: BookingId, from: Status, to: Status)

  /** The stored tables and cache, the local day, and the history a run leaves: every key that was
      ever in the table, the status moves, the refund requests, and the properties that lost a
      booking since their slots were cached. */
  datatype State = State(
    stored: Stored,
    today: Day,
    used: set<BookingId>,
    moves: seq<Move>,
    refunds: seq<Refund>,
    stale: set<PropertyId>)

  datatype Step =
    | Tick(days: nat)
    | Create(id: BookingId, user: UserId, request: Request, world: World)
    | SetStatus(target: BookingId, to: Status, caller: Caller, refundWorld: RefundWorld)
    | Delete(victim: BookingId)
    | AddFeed(fid: FeedId, property: PropertyId, channel: Channel)
    | RemoveFeed(fid: FeedId)
    | SyncOne(fid: FeedId, fetch: Fetch, owner: Option<UserId>, ids: Draw)
    | ReadSlots(property: PropertyId, listing: seq<Slot>)
    | ExpireSlots(property: PropertyId)

  /** The keys drawn are new and the outside data is well formed. */
  ghost predicate Enabled(s: State, step: Step)
  {
    match step
    case Create(id, _, _, w) => id !in s.used && ValidWorld(w)
    case SyncOne(_, fetch, owner, ids) =>
      ids.Values !! s.used && FreshDraw(s.stored.bookings, Outcome(fetch, owner, ids, s.today))
    case _ => true
  }

  ghost function Effect(s: State, step: Step): State
    requires Enabled(s, step)
  {
    match step
    case Tick(days) => s.(today := s.today + days)
    case Create(id, user, r, w) => s.(stored := Created(s.stored, id, user, r, w))
    case SetStatus(id, to, caller, w) => ChangeStatus(s, id, to, caller, w)
    case Delete(id) => Remove(s, id)
    case AddFeed(fid, p, c) =>
      if fid in s.stored.feeds || c == Platform then s
      else s.(stored := s.stored.(feeds := s.stored.feeds[fid := Feed(p, c, true, None, None)]))
    case RemoveFeed(fid) => s.(stored := s.stored.(feeds := s.stored.feeds - {fid}))
    case SyncOne(fid, fetch, owner, ids) =>
      if fid !in s.stored.feeds then s
      else s.(stored := Sync(s.stored, fid, s.stored.feeds[fid], Outcome(fetch, owner, ids, s.today)))
    case ReadSlots(p, listing) =>
      if p in s.stored.slots || !Lists(listing, s.stored.bookings, p) then s
      else s.(stored := s.stored.(slots := s.stored.slots[p := listing]), stale := s.stale - {p})
    case ExpireSlots(p) => s.(stored := s.stored.(slots := s.stored.slots - {p}))
  }

  function ChangeStatus(s: State, id: BookingId, to: Status, caller: Caller, w: RefundWorld): State
  {
    if StatusRefusal(s.stored.bookings, id, to, caller).Some? then s
    else
      var b := s.stored.bookings[id];
      var refund := RefundOf(b, id, to, caller, w);
      s.(stored := StatusChanged(s.stored, id, to, caller),
         moves := s.moves + [Move(id, b.status, to)],
         refunds := s.refunds + (if refund.Some? then [refund.value] else []))
  }

  function Remove(s: State, id: BookingId): State
  {
    if id !in s.stored.bookings then s
    else s.(stored := s.stored.(bookings := s.stored.bookings - {id}), stale := s.stale + {s.stored.bookings[id].property})
  }

  ghost function Next(s: State, step: Step): State
    requires Enabled(s, step)
  {
    var r := Effect(s, step);
    r.(used := s.used + r.stored.bookings.Keys)
  }

  /** Every step of the run can be taken when its turn comes. */
  ghost predicate Legal(s: State, steps: seq<Step>)
    decreases |steps|
  {
    steps == [] || (Enabled(s, steps[0]) && Legal(Next(s, steps[0]), steps[1..]))
  }

  ghost function Run(s: State, steps: seq<Step>): State
    requires Legal(s, steps)
    decreases |steps|
  {
    if steps == [] then s else Run(Next(s, steps[0]), steps[1..])
  }

  ghost predicate Initial(s: State)
  {
    s.stored == Stored(map[], map[], map[]) && s.used == {} && s.moves == [] && s.refunds == [] && s.stale == {}
  }

  // ---- What every reachable state satisfies ---------------------------------------------------

  /** Imported rows are confirmed or cancelled, never anything else; they are booked by the channel
      guest and cost nothing. */
  ghost predicate ChannelRows(t: Table)
  {
    && (forall id :: id in t && t[id].channel != Platform ==> t[id].status == Confirmed || t[id].status == Cancelled)
    && (forall id :: id in t && t[id].channel != Platform ==>
          t[id].user == CHANNEL_GUEST && t[id].nightly == 0 && t[id].total == 0)
  }

  /** Two pending or confirmed platform bookings of one property share no night. */
  ghost predicate NoDoubleBooking(t: Table)
  {
    forall i, j :: i in t && j in t && i != j && t[i].property == t[j].property
      && t[i].channel == Platform && t[j].channel == Platform
      && (t[i].status == Pending || t[i].status == Confirmed) && (t[j].status == Pending || t[j].status == Confirmed)
      ==> !ShareNight(t[i].start, t[i].end, t[j].start, t[j].end)
  }

  ghost predicate FeedChannels(feeds: map<FeedId, Feed>)
  {
    forall f :: f in feeds ==> feeds[f].channel != Platform
  }

  ghost predicate Inv(s: State)
  {
    && SoundRows(s.stored.bookings)
    && UniqueUids(s.stored.bookings)
    && ChannelRows(s.stored.bookings)
    && NoDoubleBooking(s.stored.bookings)
    && FeedChannels(s.stored.feeds)
    && s.stored.bookings.Keys <= s.used
  }

  /** An accepted request shares no night with any active booking of the property, whatever its
      channel, and its row keeps all that is required of the table. */
  lemma CreatedKeepsInv(s: State, id: BookingId, user: UserId, r: Request, w: World)
    requires Inv(s) && id !in s.used && ValidWorld(w)
    ensures var t := Created(s.stored, id, user, r, w).bookings;
      SoundRows(t) && UniqueUids(t) && ChannelRows(t) && NoDoubleBooking(t)
    ensures var t := s.stored.bookings;
      Decision(t, user, r, w).Ok? ==>
        forall i :: i in t && t[i].property == r.property && Active(t[i]) ==> !ShareNight(t[i].start, t[i].end, r.start, r.end)
  {
    var t := s.stored.bookings;
    var d := Decision(t, user, r, w);
    if d.Ok? {
      var row := PendingRow(d.value);
      var t' := t[id := row];
      assert row.start == r.start && row.end == r.end && row.property == r.property;
      forall i | i in t && t[i].property == r.property && Active(t[i])
        ensures !ShareNight(t[i].start, t[i].end, r.start, r.end)
        ensures !ShareNight(r.start, r.end, t[i].start, t[i].end)
      {
        OverlapIsSharedNight(t[i].start, t[i].end, r.start, r.end);
        assert !Conflicts(t, r.property, r.start, r.end);
        if n :| Covers(r.start, r.end, n) && Covers(t[i].start, t[i].end, n) {
          assert ShareNight(t[i].start, t[i].end, r.start, r.end);
        }
      }
    }
  }

  lemma StatusKeepsInv(s: State, id: BookingId, to: Status, caller: Caller)
    requires Inv(s)
    ensures var t := StatusChanged(s.stored, id, to, caller).bookings;
      SoundRows(t) && UniqueUids(t) && ChannelRows(t) && NoDoubleBooking(t)
  {
    if StatusRefusal(s.stored.bookings, id, to, caller).None? {
      var b := s.stored.bookings[id];
      assert Active(b.(status := to)) ==> Active(b);
    }
  }

  lemma DeleteKeepsInv(s: State, id: BookingId)
    requires Inv(s)
    ensures var t := s.stored.bookings - {id};
      SoundRows(t) && UniqueUids(t) && ChannelRows(t) && NoDoubleBooking(t)
  {
  }

  lemma ReconcileKeepsSound(t: Table, p: PropertyId, c: Channel, owner: UserId, incoming: map<Uid, Event>, today: Day,
          ids: Draw)
    requires SoundRows(t) && ChannelRows(t) && Keyed(incoming) && c != Platform
    ensures SoundRows(Reconcile(t, p, c, owner, incoming, today, ids))
    ensures ChannelRows(Reconcile(t, p, c, owner, incoming, today, ids))
  {
    hide Reconcile, HasUid;
    var r := Reconcile(t, p, c, owner, incoming, today, ids);
    forall id | id in r
      ensures r[id].start < r[id].end && (r[id].channel != Platform <==> r[id].uid.Some?)
      ensures r[id].channel != Platform ==> r[id].status == Confirmed || r[id].status == Cancelled
      ensures r[id].channel != Platform ==> r[id].user == CHANNEL_GUEST && r[id].nightly == 0 && r[id].total == 0
    {
      ReconcileAt(t, p, c, owner, incoming, today, ids, id);
    }
  }

  /** A sync of a channel leaves every platform row as it is. */
  lemma ReconcileKeepsPlatform(t: Table, p: PropertyId, c: Channel, owner: UserId, incoming: map<Uid, Event>,
          today: Day, ids: Draw)
    requires c != Platform
    ensures var r := Reconcile(t, p, c, owner, incoming, today, ids);
      && (forall id :: id in t && t[id].channel == Platform ==> id in r && r[id] == t[id])
      && (forall id :: id in r && r[id].channel == Platform ==> id in t && r[id] == t[id])
      && (NoDoubleBooking(t) ==> NoDoubleBooking(r))
  {
    hide Reconcile, HasUid;
    var r := Reconcile(t, p, c, owner, incoming, today, ids);
    forall id | id in r || id in t
      ensures id in r && r[id].channel == Platform ==> id in t && r[id] == t[id]
      ensures id in t && t[id].channel == Platform ==> id in r && r[id] == t[id]
    {
      ReconcileAt(t, p, c, owner, incoming, today, ids, id);
    }
  }

  lemma SyncKeepsInv(s: Stored, fid: FeedId, feed: Feed, o: Outcome)
    requires SoundRows(s.bookings) && UniqueUids(s.bookings) && ChannelRows(s.bookings) && NoDoubleBooking(s.bookings)
    requires feed.channel != Platform
    ensures var t := Sync(s, fid, feed, o).bookings;
      SoundRows(t) && UniqueUids(t) && ChannelRows(t) && NoDoubleBooking(t)
  {
    hide SoundRows, UniqueUids, ChannelRows, NoDoubleBooking, Reconcile;
    if FullPath(feed, o) {
      var events := FeedEvents(o.fetch).value;
      EventsAreKeyed(events);
      ReconcileKeepsSound(s.bookings, feed.property, feed.channel, o.owner.value, LastWins(events), o.today, o.ids);
      ReconcileKeepsUnique(s.bookings, feed.property, feed.channel, o.owner.value, LastWins(events), o.today, o.ids);
      ReconcileKeepsPlatform(s.bookings, feed.property, feed.channel, o.owner.value, LastWins(events), o.today, o.ids);
    }
  }

  lemma EventsAreKeyed(events: seq<Event>)
    requires forall e :: e in events ==> e.start < e.end
    ensures Keyed(LastWins(events))
  {
  }

  lemma {:induction false} NextKeepsInv(s: State, step: Step)
    requires Inv(s) && Enabled(s, step)
    ensures Inv(Next(s, step))
  {
    hide SoundRows, UniqueUids, ChannelRows, NoDoubleBooking, Sync, Created, StatusChanged, Lists, FreshDraw;
    match step {
      case Create(id, user, r, w) =>
        CreatedKeepsInv(s, id, user, r, w);
        CreatedKeepsFeeds(s.stored, id, user, r, w);
      case SetStatus(id, to, caller, w) =>
        StatusKeepsInv(s, id, to, caller);
        StatusKeepsFeeds(s.stored, id, to, caller);
      case Delete(id) =>
        DeleteKeepsInv(s, id);
      case SyncOne(fid, fetch, owner, ids) =>
        if fid in s.stored.feeds {
          SyncKeepsInv(s.stored, fid, s.stored.feeds[fid], Outcome(fetch, owner, ids, s.today));
          SyncKeepsFeedChannels(s.stored, fid, s.stored.feeds[fid], Outcome(fetch, owner, ids, s.today));
        }
      case _ =>
    }
  }

  /** The rows and cached slots after a create request: one pending row more, or nothing changed. */
  lemma CreatedRows(s: Stored, id: BookingId, user: UserId, r: Request, w: World)
    requires ValidWorld(w)
    ensures var d := Created(s, id, user, r, w);
      || d == s
      || (&& d.slots == s.slots - {r.property} && d.bookings.Keys == s.bookings.Keys + {id}
          && d.bookings[id].property == r.property && d.bookings[id].channel == Platform
          && forall i :: i in s.bookings && i != id ==> d.bookings[i] == s.bookings[i])
  {
  }

  lemma CreatedKeepsFeeds(s: Stored, id: BookingId, user: UserId, r: Request, w: World)
    requires ValidWorld(w)
    ensures Created(s, id, user, r, w).feeds == s.feeds
  {
  }

  lemma StatusKeepsFeeds(s: Stored, id: BookingId, to: Status, caller: Caller)
    ensures StatusChanged(s, id, to, caller).feeds == s.feeds
  {
  }

  lemma SyncKeepsFeedChannels(s: Stored, fid: FeedId, feed: Feed, o: Outcome)
    requires FeedChannels(s.feeds)
    ensures FeedChannels(Sync(s, fid, feed, o).feeds)
  {
    SyncByStore(s, Visit(fid, feed, o));
    hide Sync, StatusOf, HashOf, FullPath, BookingsAfter;
  }

  /** Every reachable state satisfies the invariant, so in every run no property is ever sold
      twice for one night on the platform. */
  lemma {:induction false} ReachableStatesAreSound(s: State, steps: seq<Step>)
    requires Inv(s) && Legal(s, steps)
    ensures Inv(Run(s, steps))
    decreases |steps|
  {
    if steps != [] {
      NextKeepsInv(s, steps[0]);
      ReachableStatesAreSound(Next(s, steps[0]), steps[1..]);
    }
  }

  lemma {:induction false} NightIsSoldOnce(s: State, steps: seq<Step>, i: BookingId, j: BookingId, n: Day)
    requires Initial(s) && Legal(s, steps)
    requires var t := Run(s, steps).stored.bookings;
      && i in t && j in t && t[i].property == t[j].property
      && t[i].channel == Platform && t[j].channel == Platform
      && (t[i].status == Pending || t[i].status == Confirmed) && (t[j].status == Pending || t[j].status == Confirmed)
      && Covers(t[i].start, t[i].end, n) && Covers(t[j].start, t[j].end, n)
    ensures i == j
  {
    ReachableStatesAreSound(s, steps);
    var t := Run(s, steps).stored.bookings;
    assert ShareNight(t[i].start, t[i].end, t[j].start, t[j].end);
  }

  // ---- The machine and the program ------------------------------------------------------------

  /** The program takes the steps of the machine: running the endpoint or job of a step on the tables
      and the cache leads to the stored state after the step, and asks for the refund that the step
      records. A read brings its own listing, in whatever order the query returned it. */
  method Perform(db: Database, cache: SlotsCache, today: Day, ghost s: State, step: Step)
      returns (ghost taken: Step, refund: Option<Refund>)
    requires StoredIn(db, cache) == s.stored && today == s.today && Inv(s) && Enabled(s, step)
    modifies db, cache
    ensures db.Valid()
    ensures step.ReadSlots? ==> taken.ReadSlots? && taken.property == step.property
    ensures !step.ReadSlots? ==> taken == step
    ensures Enabled(s, taken) && StoredIn(db, cache) == Next(s, taken).stored
    ensures Next(s, taken).refunds == s.refunds + (if refund.Some? then [refund.value] else [])
  {
    hide SoundRows, UniqueUids, ChannelRows, NoDoubleBooking, Sync, Decision, RefundOf, TransitionError, Lists, FreshDraw;
    taken, refund := step, None;
    match step {
      case Tick(_) =>
      case Create(id, user, request, world) =>
        var _ := CreateBooking(db, cache, id, user, request, world);
      case SetStatus(id, to, caller, world) =>
        var _, r := UpdateBookingStatus(db, cache, id, to, caller, world);
        refund := r;
      case Delete(id) =>
        var _ := DeleteBooking(db, id);
      case AddFeed(fid, p, c) =>
        if fid !in db.feeds && c != Platform {
          db.feeds := db.feeds[fid := Feed(p, c, true, None, None)];
        }
      case RemoveFeed(fid) =>
        db.feeds := db.feeds - {fid};
      case SyncOne(fid, fetch, owner, ids) =>
        if fid in db.feeds {
          var _, _ := SyncFeed(db, cache, fid, db.feeds[fid], Outcome(fetch, owner, ids, today));
        }
      case ReadSlots(p, _) =>
        var slots := GetPropertySlots(db, cache, p, true, true);
        taken := ReadSlots(p, slots);
      case ExpireSlots(p) =>
        cache.entries := cache.entries - {p};
    }
  }
}
