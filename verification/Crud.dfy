/** The tables and the statements run against them (app/crud.py). */
module Crud {
  import opened Prelude
  import opened Nights
  import opened Model
  import opened Diff

  /** The random primary keys one import draws, by the uid of the event they are for. */
  type Draw = m: map<Uid, BookingId> | forall u, v :: u in m && v in m && m[u] == m[v] ==> u == v
    witness map[]

  /** The account that owns every imported row; no real user has it. */
  const CHANNEL_GUEST: UserId := 0

  function NewRow(p: PropertyId, c: Channel, owner: UserId, e: Event): Booking
  {
    Booking(p, owner, CHANNEL_GUEST, e.start, e.end, Confirmed, 0, 0, c, Some(e.uid), false, false)
  }

  /** INSERT ... ON CONFLICT DO NOTHING of one imported row. */
  function InsertOne(t: Table, p: PropertyId, c: Channel, owner: UserId, e: Event, ids: Draw): Table
  {
    if e.uid !in ids || ids[e.uid] in t || HasUid(t, p, c, e.uid) then t
    else t[ids[e.uid] := NewRow(p, c, owner, e)]
  }

  function InsertAll(t: Table, p: PropertyId, c: Channel, owner: UserId, events: seq<Event>, ids: Draw): Table
  {
    if events == [] then t
    else
      InsertOne(InsertAll(t, p, c, owner, events[..|events| - 1], ids), p, c, owner, events[|events| - 1], ids)
  }

  /** The first listed change of a row: an UPDATE with a CASE takes the first matching branch. */
  function ChangeOf(changes: seq<DateChange>, id: BookingId): (r: Option<DateChange>)
    ensures r.Some? ==> r.value in changes && r.value.id == id
    ensures r.None? ==> forall d :: d in changes ==> d.id != id
  {
    if changes == [] then None
    else if changes[0].id == id then Some(changes[0])
    else ChangeOf(changes[1..], id)
  }

  /** No earlier change is for the same row. */
  ghost predicate FirstFor(changes: seq<DateChange>, i: nat)
    requires i < |changes|
  {
    forall j :: 0 <= j < i ==> changes[j].id != changes[i].id
  }

  lemma {:induction false} FirstCounts(changes: seq<DateChange>, i: nat)
    requires i < |changes| && FirstFor(changes, i)
    ensures ChangeOf(changes, changes[i].id) == Some(changes[i])
    decreases i
  {
    if i > 0 {
      assert forall j :: 0 <= j < i - 1 ==> changes[1..][j] == changes[j + 1];
      FirstCounts(changes[1..], i - 1);
    }
  }

  function SetDates(t: Table, changes: seq<DateChange>): Table
  {
    map id | id in t :: var d := ChangeOf(changes, id);
      if d.Some? then t[id].(start := d.value.start, end := d.value.end, status := Confirmed) else t[id]
  }

  function CancelAll(t: Table, ids: seq<BookingId>): Table
  {
    map id | id in t :: if id in ids then t[id].(status := Cancelled) else t[id]
  }

  /** The different new ends, in order of first appearance: one UPDATE for each. */
  function Ends(truncations: seq<NewEnd>): (r: seq<Day>)
    ensures forall d :: d in r <==> exists c :: c in truncations && c.end == d
    ensures DistinctSeq(r)
  {
    if truncations == [] then []
    else
      var init, last := truncations[..|truncations| - 1], truncations[|truncations| - 1];
      assert truncations == init + [last];
      assert last in truncations;
      if last.end in Ends(init) then Ends(init) else Ends(init) + [last.end]
  }

  /** Of the updates run for these ends, the last one that addresses the row. */
  function LastUpdate(ends: seq<Day>, truncations: seq<NewEnd>, id: BookingId): (r: Option<Day>)
    ensures r.Some? ==> r.value in ends && NewEnd(id, r.value) in truncations
    ensures r.None? ==> forall d :: d in ends ==> NewEnd(id, d) !in truncations
  {
    if ends == [] then None
    else
      var init, last := ends[..|ends| - 1], ends[|ends| - 1];
      assert ends == init + [last];
      if NewEnd(id, last) in truncations then Some(last) else LastUpdate(init, truncations, id)
  }

  /** The end a row is left with: a row listed with several ends takes the one whose group is
      updated last. */
  function EndOf(truncations: seq<NewEnd>, id: BookingId): (r: Option<Day>)
    ensures r.Some? ==> NewEnd(id, r.value) in truncations
    ensures r.None? ==> forall c :: c in truncations ==> c.id != id
  {
    var r := LastUpdate(Ends(truncations), truncations, id);
    assert r.None? ==> forall c :: c in truncations && c.id == id ==> c == NewEnd(id, c.end) && c.end in Ends(truncations);
    r
  }

  function TruncateAll(t: Table, ends: seq<NewEnd>): Table
  {
    map id | id in t :: var e := EndOf(ends, id); if e.Some? then t[id].(end := e.value) else t[id]
  }

  /** The same, with updates run for some of the ends only. */
  function TruncateTo(t: Table, ends: seq<Day>, truncations: seq<NewEnd>): Table
  {
    map id | id in t :: var e := LastUpdate(ends, truncations, id); if e.Some? then t[id].(end := e.value) else t[id]
  }

  lemma TruncatedInTurn(t: Table, truncations: seq<NewEnd>)
    ensures TruncateTo(t, [], truncations) == t
    ensures TruncateTo(t, Ends(truncations), truncations) == TruncateAll(t, truncations)
    ensures UniqueUids(t) ==> UniqueUids(TruncateAll(t, truncations))
  {
  }

  lemma OneMoreEnd(t: Table, ends: seq<Day>, newEnd: Day, truncations: seq<NewEnd>, group: set<BookingId>)
    requires forall id :: id in group <==> NewEnd(id, newEnd) in truncations
    ensures var r := TruncateTo(t, ends, truncations);
      TruncateTo(t, ends + [newEnd], truncations) ==
      map id | id in r :: if id in group then r[id].(end := newEnd) else r[id]
  {
    assert (ends + [newEnd])[..|ends|] == ends;
  }

  function Recorded(feeds: map<FeedId, Feed>, fid: FeedId, status: SyncStatus, hash: Option<seq<Event>>)
      : map<FeedId, Feed>
  {
    if fid !in feeds then feeds
    else feeds[fid := feeds[fid].(lastStatus := Some(status), hash := if hash.Some? then hash else feeds[fid].hash)]
  }

  /** An active booking of the property overlaps `[start, end)`. */
  predicate Conflicts(t: Table, p: PropertyId, start: Day, end: Day)
  {
    exists id | id in t :: t[id].property == p && Active(t[id]) && Overlap(t[id].start, t[id].end, start, end)
  }

  predicate Unavailable(windows: seq<Slot>, start: Day, end: Day)
  {
    exists w | w in windows :: Overlap(start, end, w.start, w.end)
  }

  /** The pending and confirmed bookings of a property that occupy exactly this slot. */
  function SlotIds(t: Table, p: PropertyId, s: Slot): set<BookingId>
  {
    set id | id in t && t[id].property == p && (t[id].status == Pending || t[id].status == Confirmed)
      && Slot(t[id].start, t[id].end) == s
  }

  /** `slots` lists the active slots of the property, each as often as there are such bookings. */
  ghost predicate Lists(slots: seq<Slot>, t: Table, p: PropertyId)
  {
    forall s :: multiset(slots)[s] == |SlotIds(t, p, s)|
  }

  /** The same, counting the listed bookings only. */
  ghost predicate ListsOf(slots: seq<Slot>, t: Table, p: PropertyId, done: set<BookingId>)
  {
    forall s :: multiset(slots)[s] == |SlotIds(t, p, s) * done|
  }

  lemma OneMoreCounted(s: set<BookingId>, done: set<BookingId>, id: BookingId)
    requires id !in done
    ensures |s * (done + {id})| == |s * done| + (if id in s then 1 else 0)
  {
    if id in s {
      assert s * (done + {id}) == s * done + {id};
    } else {
      assert s * (done + {id}) == s * done;
    }
  }

  lemma CountOneMore(slots: seq<Slot>, t: Table, p: PropertyId, done: set<BookingId>, id: BookingId)
    requires ListsOf(slots, t, p, done) && id in t && id !in done
    ensures var active := t[id].property == p && Active(t[id]);
      ListsOf(slots + (if active then [Slot(t[id].start, t[id].end)] else []), t, p, done + {id})
  {
    var more := if t[id].property == p && Active(t[id]) then [Slot(t[id].start, t[id].end)] else [];
    forall s
      ensures multiset(slots + more)[s] == |SlotIds(t, p, s) * (done + {id})|
    {
      OneMoreCounted(SlotIds(t, p, s), done, id);
      assert id in SlotIds(t, p, s) <==> more == [s];
    }
  }

  lemma AllListed(slots: seq<Slot>, t: Table, p: PropertyId, done: set<BookingId>)
    requires ListsOf(slots, t, p, done) && done == t.Keys
    ensures Lists(slots, t, p)
  {
    forall s
      ensures multiset(slots)[s] == |SlotIds(t, p, s)|
    {
      assert SlotIds(t, p, s) * done == SlotIds(t, p, s);
    }
  }

  datatype CreateError = UnavailablePeriod | BookingConflict

  datatype NewBooking = NewBooking(
    property: PropertyId,
    owner: UserId,
    user: UserId,
    start: Day,
    end: Day,
    nightly: Cents,
    total: Option<Cents>)

  function PendingRow(n: NewBooking): Booking
  {
    Booking(n.property, n.owner, n.user, n.start, n.end, Pending, n.nightly,
            if n.total.Some? then n.total.value else n.nightly * (n.end - n.start),
            Platform, None, false, false)
  }

  method OverlapsUnavailabilities(start: Day, end: Day, windows: seq<Slot>) returns (r: bool)
    ensures r <==> Unavailable(windows, start, end)
  {
    for i := 0 to |windows|
      invariant forall k :: 0 <= k < i ==> !Overlap(start, end, windows[k].start, windows[k].end)
    {
      var u := windows[i];
      if start < u.end && end > u.start {
        return true;
      }
    }
    return false;
  }

  /** Grouping the rows to shorten by their new end, ends in order of first appearance. */
  lemma OneMoreTruncation(truncations: seq<NewEnd>, i: nat)
    requires i < |truncations|
    ensures truncations[..i + 1] == truncations[..i] + [truncations[i]]
    ensures var ends, d := Ends(truncations[..i]), truncations[i].end;
      Ends(truncations[..i + 1]) == if d in ends then ends else ends + [d]
  {
    assert truncations[..i + 1][..i] == truncations[..i];
  }

  method GroupByEnd(truncations: seq<NewEnd>) returns (ends: seq<Day>, byEnd: map<Day, set<BookingId>>)
    ensures ends == Ends(truncations)
    ensures forall d :: d in ends <==> d in byEnd
    ensures forall d, id :: d in byEnd ==> (id in byEnd[d] <==> NewEnd(id, d) in truncations)
  {
    ends, byEnd := [], map[];
    assert Ends(truncations[..0]) == [];
    hide Ends, DistinctSeq;
    for i := 0 to |truncations|
      invariant ends == Ends(truncations[..i])
      invariant forall d :: d in ends <==> d in byEnd
      invariant forall d, id :: d in byEnd ==> (id in byEnd[d] <==> NewEnd(id, d) in truncations[..i])
    {
      var c := truncations[i];
      OneMoreTruncation(truncations, i);
      if c.end !in byEnd {
        ends := ends + [c.end];
        byEnd := byEnd[c.end := {}];
      }
      byEnd := byEnd[c.end := byEnd[c.end] + {c.id}];
    }
    assert truncations[..|truncations|] == truncations;
  }

  class Database {
    var bookings: Table
    var feeds: map<FeedId, Feed>

    /** The unique constraint of the bookings table. */
    ghost predicate Valid()
      reads this
    {
      UniqueUids(bookings)
    }

    method CreateBooking(id: BookingId, n: NewBooking, windows: seq<Slot>) returns (r: Result<Booking, CreateError>)
      requires Valid()
      requires id !in bookings
      modifies this`bookings
      ensures Valid()
      ensures r.Ok? <==> !Unavailable(windows, n.start, n.end) && !old(Conflicts(bookings, n.property, n.start, n.end))
      ensures r == Err(UnavailablePeriod) <==> Unavailable(windows, n.start, n.end)
      ensures r == Err(BookingConflict) <==>
        !Unavailable(windows, n.start, n.end) && old(Conflicts(bookings, n.property, n.start, n.end))
      ensures r.Ok? ==> r.value == PendingRow(n) && bookings == old(bookings)[id := r.value]
      ensures r.Ok? ==> r.value.total == if n.total == None then n.nightly * (n.end - n.start) else n.total.value
      ensures r.Err? ==> bookings == old(bookings)
    {
      var blocked := OverlapsUnavailabilities(n.start, n.end, windows);
      if blocked {
        return Err(UnavailablePeriod);
      }
      var total;
      if n.total.None? {
        var nights := n.end - n.start;
        total := n.nightly * nights;
      } else {
        total := n.total.value;
      }
      if Conflicts(bookings, n.property, n.start, n.end) {
        return Err(BookingConflict);
      }
      var row := Booking(n.property, n.owner, n.user, n.start, n.end, Pending, n.nightly, total,
                         Platform, None, false, false);
      bookings := bookings[id := row];
      return Ok(row);
    }

    method UpdateBookingStatus(id: BookingId, status: Status) returns (r: Option<Booking>)
      requires Valid()
      modifies this`bookings
      ensures Valid()
      ensures old(id !in bookings) ==> r == None && bookings == old(bookings)
      ensures old(id in bookings) ==> r == Some(old(bookings)[id].(status := status))
      ensures old(id in bookings) ==> bookings == old(bookings)[id := old(bookings)[id].(status := status)]
    {
      if id !in bookings {
        return None;
      }
      var inst := bookings[id].(status := status);
      bookings := bookings[id := inst];
      return Some(inst);
    }

    method DeleteBooking(id: BookingId) returns (deleted: bool)
      requires Valid()
      modifies this`bookings
      ensures Valid()
      ensures deleted == old(id in bookings)
      ensures bookings == old(bookings) - {id}
    {
      deleted := id in bookings;
      bookings := bookings - {id};
    }

    /** The active slots of a property, one per booking. */
    method ListOccupiedSlots(p: PropertyId) returns (slots: seq<Slot>)
      ensures Lists(slots, bookings, p)
    {
      slots := [];
      var todo := bookings.Keys;
      ghost var done: set<BookingId> := {};
      while todo != {}
        invariant done + todo == bookings.Keys && done !! todo
        invariant ListsOf(slots, bookings, p, done)
        decreases todo
      {
        hide ListsOf;
        var id :| id in todo;
        var b := bookings[id];
        CountOneMore(slots, bookings, p, done, id);
        if b.property == p && Active(b) {
          slots := slots + [Slot(b.start, b.end)];
        } else {
          assert slots + [] == slots;
        }
        todo := todo - {id};
        done := done + {id};
      }
      AllListed(slots, bookings, p, done);
    }

    method ListChannelBookings(p: PropertyId, c: Channel) returns (rows: seq<Row>)
      ensures forall r :: r in rows <==> r.id in bookings && bookings[r.id] == r.booking && Imported(r.booking, p, c)
    {
      rows := [];
      var todo := bookings.Keys;
      while todo != {}
        invariant todo <= bookings.Keys
        invariant forall r :: r in rows <==>
          r.id in bookings && r.id !in todo && bookings[r.id] == r.booking && Imported(r.booking, p, c)
        decreases todo
      {
        var id :| id in todo;
        if Imported(bookings[id], p, c) {
          rows := rows + [Row(id, bookings[id])];
        }
        todo := todo - {id};
      }
    }

    method ActivePlatformRanges(p: PropertyId) returns (ranges: seq<Slot>)
      ensures forall s :: s in ranges <==>
        exists id :: id in bookings && Imported(bookings[id], p, Platform)
          && (bookings[id].status == Pending || bookings[id].status == Confirmed)
          && Slot(bookings[id].start, bookings[id].end) == s
    {
      ranges := [];
      var todo := bookings.Keys;
      while todo != {}
        invariant todo <= bookings.Keys
        invariant forall s :: s in ranges ==>
          exists id :: id in bookings && Imported(bookings[id], p, Platform) && Active(bookings[id])
            && Slot(bookings[id].start, bookings[id].end) == s
        invariant forall id :: id in bookings && id !in todo ==>
          Imported(bookings[id], p, Platform) && Active(bookings[id]) ==>
          Slot(bookings[id].start, bookings[id].end) in ranges
        decreases todo
      {
        var id :| id in todo;
        if Imported(bookings[id], p, Platform) && Active(bookings[id]) {
          ranges := ranges + [Slot(bookings[id].start, bookings[id].end)];
        }
        todo := todo - {id};
      }
    }

    method BulkUpsertChannelBookings(p: PropertyId, c: Channel, owner: UserId, events: seq<Event>, ids: Draw)
      requires Valid()
      modifies this`bookings
      ensures Valid()
      ensures bookings == InsertAll(old(bookings), p, c, owner, events, ids)
    {
      for i := 0 to |events|
        invariant Valid()
        invariant bookings == InsertAll(old(bookings), p, c, owner, events[..i], ids)
      {
        assert events[..i + 1][..i] == events[..i];
        bookings := InsertOne(bookings, p, c, owner, events[i], ids);
      }
      assert events[..|events|] == events;
    }

    method BulkSetChannelBookingDates(updates: seq<DateChange>)
      requires Valid()
      modifies this`bookings
      ensures Valid()
      ensures bookings == SetDates(old(bookings), updates)
      ensures forall id :: id in bookings && (forall d :: d in updates ==> d.id != id) ==> bookings[id] == old(bookings)[id]
      ensures forall i :: 0 <= i < |updates| && updates[i].id in bookings && FirstFor(updates, i) ==>
        bookings[updates[i].id] ==
        old(bookings)[updates[i].id].(start := updates[i].start, end := updates[i].end, status := Confirmed)
    {
      forall i | 0 <= i < |updates| && FirstFor(updates, i) {
        FirstCounts(updates, i);
      }
      if updates == [] {
        return;
      }
      bookings := SetDates(bookings, updates);
    }

    method BulkCancelChannelBookings(ids: seq<BookingId>)
      requires Valid()
      modifies this`bookings
      ensures Valid()
      ensures bookings == CancelAll(old(bookings), ids)
      ensures forall id :: id in bookings && id !in ids ==> bookings[id] == old(bookings)[id]
      ensures forall id :: id in ids && id in old(bookings) ==>
        id in bookings && bookings[id] == old(bookings)[id].(status := Cancelled)
    {
      if ids == [] {
        return;
      }
      bookings := CancelAll(bookings, ids);
    }

    /** One UPDATE for each distinct new end. */
    method BulkTruncateChannelBookings(truncations: seq<NewEnd>)
      requires Valid()
      modifies this`bookings
      ensures Valid()
      ensures bookings == TruncateAll(old(bookings), truncations)
    {
      if truncations == [] {
        return;
      }
      hide TruncateTo, TruncateAll, UniqueUids;
      var ends, byEnd := GroupByEnd(truncations);
      ghost var before := bookings;
      TruncatedInTurn(before, truncations);
      for i := 0 to |ends|
        invariant bookings == TruncateTo(before, ends[..i], truncations)
      {
        var newEnd := ends[i];
        var group := byEnd[newEnd];
        assert ends[..i + 1] == ends[..i] + [newEnd];
        OneMoreEnd(before, ends[..i], newEnd, truncations, group);
        bookings := map id | id in bookings :: if id in group then bookings[id].(end := newEnd) else bookings[id];
      }
      assert ends[..|ends|] == ends;
    }

    method RecordSync(fid: FeedId, status: SyncStatus, hash: Option<seq<Event>>)
      modifies this`feeds
      ensures feeds == Recorded(old(feeds), fid, status, hash)
    {
      if fid in feeds {
        var feed := feeds[fid].(lastStatus := Some(status));
        if hash.Some? {
          feed := feed.(hash := hash);
        }
        feeds := feeds[fid := feed];
      }
    }

    /** The feeds a sweep polls, in whatever order the query returns them. */
    method ListActive() returns (order: seq<FeedId>)
      ensures forall f :: f in order <==> f in feeds && feeds[f].active
      ensures DistinctSeq(order)
    {
      order := [];
      var todo := feeds.Keys;
      while todo != {}
        invariant todo <= feeds.Keys
        invariant forall f :: f in order <==> f in feeds && f !in todo && feeds[f].active
        invariant DistinctSeq(order)
        decreases todo
      {
        var f :| f in todo;
        if feeds[f].active {
          order := order + [f];
        }
        todo := todo - {f};
      }
    }
  }
}
