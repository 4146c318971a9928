/** What the four bulk writes of one sync add up to, row by row and night by night. */
module Reconciliation {
  import opened Prelude
  import opened Folds
  import opened Nights
  import opened Model
  import opened Diff
  import opened Crud

  function Resolve(b: Booking, v: Verdict, today: Day): Booking
  {
    match v
    case Keep => b
    case Redate(s, e) => b.(start := s, end := e, status := Confirmed)
    case Cancel => b.(status := Cancelled)
    case Truncate => b.(end := today)
  }

  function Resolved(t: Table, p: PropertyId, c: Channel, incoming: map<Uid, Event>, today: Day): Table
  {
    map id | id in t :: if Imported(t[id], p, c) then Resolve(t[id], Decide(t[id], incoming, today), today) else t[id]
  }

  /** The uid a primary key was drawn for. */
  ghost function UidOf(ids: Draw, id: BookingId): (u: Uid)
    requires id in ids.Values
    ensures u in ids && ids[u] == id
    ensures forall v :: v in ids && ids[v] == id ==> v == u
  {
    var u :| u in ids && ids[u] == id;
    u
  }

  /** The key was drawn for a listed uid that had no row. */
  ghost predicate Inserted(t: Table, p: PropertyId, c: Channel, incoming: map<Uid, Event>, ids: Draw, id: BookingId)
  {
    id !in t && id in ids.Values && UidOf(ids, id) in incoming && !HasUid(t, p, c, UidOf(ids, id))
  }

  ghost function NewRows(t: Table, p: PropertyId, c: Channel, owner: UserId, incoming: map<Uid, Event>, ids: Draw): Table
  {
    map id | id in ids.Values && Inserted(t, p, c, incoming, ids, id) :: NewRow(p, c, owner, incoming[UidOf(ids, id)])
  }

  /** The table after a sync: every imported row of (property, channel) as decided, a new row for
      each listed uid that had none, every other row as it was. */
  ghost function Reconcile(t: Table, p: PropertyId, c: Channel, owner: UserId, incoming: map<Uid, Event>, today: Day,
          ids: Draw): Table
  {
    Resolved(t, p, c, incoming, today) + NewRows(t, p, c, owner, incoming, ids)
  }

  lemma ReconcileKeys(t: Table, p: PropertyId, c: Channel, owner: UserId, incoming: map<Uid, Event>, today: Day, ids: Draw)
    ensures t.Keys <= Reconcile(t, p, c, owner, incoming, today, ids).Keys <= t.Keys + ids.Values
  {
  }

  /** One row of the table after a sync. */
  lemma ReconcileAt(t: Table, p: PropertyId, c: Channel, owner: UserId, incoming: map<Uid, Event>, today: Day,
          ids: Draw, id: BookingId)
    ensures var r := Reconcile(t, p, c, owner, incoming, today, ids);
      && (id in r <==> id in t || Inserted(t, p, c, incoming, ids, id))
      && (id in t ==> r[id] == if Imported(t[id], p, c) then Resolve(t[id], Decide(t[id], incoming, today), today) else t[id])
      && (id in r && id !in t ==> r[id] == NewRow(p, c, owner, incoming[UidOf(ids, id)]))
  {
  }

  /** A row that a sync adds is that of a listed event whose uid had no row: confirmed, free of charge,
      booked by the channel guest, owned by the owner that was looked up. */
  lemma AddedRowIsAnEvent(t: Table, p: PropertyId, c: Channel, owner: UserId, incoming: map<Uid, Event>, today: Day,
          ids: Draw, id: BookingId)
    requires forall u :: u in incoming ==> incoming[u].uid == u
    requires id in Reconcile(t, p, c, owner, incoming, today, ids) && id !in t
    ensures var b := Reconcile(t, p, c, owner, incoming, today, ids)[id];
      exists u :: u in incoming && u in ids && ids[u] == id && !HasUid(t, p, c, u)
        && b == Booking(p, owner, CHANNEL_GUEST, incoming[u].start, incoming[u].end, Confirmed, 0, 0, c, Some(u), false, false)
  {
    ReconcileAt(t, p, c, owner, incoming, today, ids, id);
    assert UidOf(ids, id) in incoming;
  }

  /** Inserting never touches a row that is there and never repeats a uid, whatever the events and keys. */
  lemma {:induction false} InsertIgnoresConflicts(t: Table, p: PropertyId, c: Channel, owner: UserId,
          events: seq<Event>, ids: Draw)
    ensures var r := InsertAll(t, p, c, owner, events, ids);
      && (forall id :: id in t ==> id in r && r[id] == t[id])
      && (forall id :: id in r && id !in t ==> InsertedFrom(events, ids, id, r[id], p, c, owner))
      && (forall e :: e in events && e.uid in ids ==> ids[e.uid] in r || HasUid(r, p, c, e.uid))
      && (UniqueUids(t) ==> UniqueUids(r))
    decreases |events|
  {
    if events != [] {
      var init, last := events[..|events| - 1], events[|events| - 1];
      assert events == init + [last];
      InsertIgnoresConflicts(t, p, c, owner, init, ids);
      InsertOneIgnores(t, InsertAll(t, p, c, owner, init, ids), p, c, owner, init, last, ids);
    }
  }

  lemma InsertOneIgnores(t: Table, r: Table, p: PropertyId, c: Channel, owner: UserId, init: seq<Event>, last: Event,
          ids: Draw)
    requires forall id :: id in t ==> id in r && r[id] == t[id]
    requires forall id :: id in r && id !in t ==> InsertedFrom(init, ids, id, r[id], p, c, owner)
    requires forall e :: e in init && e.uid in ids ==> ids[e.uid] in r || HasUid(r, p, c, e.uid)
    ensures var r' := InsertOne(r, p, c, owner, last, ids);
      && (forall id :: id in t ==> id in r' && r'[id] == t[id])
      && (forall id :: id in r' && id !in t ==> InsertedFrom(init + [last], ids, id, r'[id], p, c, owner))
      && (forall e :: e in init + [last] && e.uid in ids ==> ids[e.uid] in r' || HasUid(r', p, c, e.uid))
      && (UniqueUids(r) ==> UniqueUids(r'))
  {
    var r' := InsertOne(r, p, c, owner, last, ids);
    forall id | id in r' && id !in t
      ensures InsertedFrom(init + [last], ids, id, r'[id], p, c, owner)
    {
      if id in r {
        var e :| e in init && e.uid in ids && ids[e.uid] == id && r[id] == NewRow(p, c, owner, e);
        assert e in init + [last];
      } else {
        assert last in init + [last];
      }
    }
    forall e | e in init + [last] && e.uid in ids
      ensures ids[e.uid] in r' || HasUid(r', p, c, e.uid)
    {
      if e in init && HasUid(r, p, c, e.uid) {
        var id :| id in r && Imported(r[id], p, c) && r[id].uid == Some(e.uid);
        assert id in r' && r'[id] == r[id];
      }
    }
    if UniqueUids(r) {
      OneMoreUnique(r, p, c, owner, last, ids);
    }
    hide UniqueUids;
  }

  lemma OneMoreUnique(r: Table, p: PropertyId, c: Channel, owner: UserId, e: Event, ids: Draw)
    requires UniqueUids(r)
    ensures UniqueUids(InsertOne(r, p, c, owner, e, ids))
  {
  }

  /** Rows keep property, channel and uid; new rows belong to (property, channel). */
  ghost predicate SameOwners(t: Table, r: Table, p: PropertyId, c: Channel)
  {
    && t.Keys <= r.Keys
    && (forall id :: id in t ==> r[id].property == t[id].property && r[id].channel == t[id].channel && r[id].uid == t[id].uid)
    && (forall id :: id in r && id !in t ==> Imported(r[id], p, c))
  }

  lemma {:induction false} ReconcileKeepsOwners(t: Table, p: PropertyId, c: Channel, owner: UserId,
          incoming: map<Uid, Event>, today: Day, ids: Draw)
    ensures SameOwners(t, Reconcile(t, p, c, owner, incoming, today, ids), p, c)
  {
    hide Reconcile, Decide, HasUid;
    var r := Reconcile(t, p, c, owner, incoming, today, ids);
    forall id
      ensures id in t ==> id in r
      ensures id in t ==> r[id].property == t[id].property && r[id].channel == t[id].channel && r[id].uid == t[id].uid
      ensures id in r && id !in t ==> Imported(r[id], p, c)
    {
      ReconcileAt(t, p, c, owner, incoming, today, ids, id);
    }
  }

  lemma OthersUidsKept(t: Table, r: Table, p: PropertyId, c: Channel, p': PropertyId, c': Channel, u: Uid)
    requires SameOwners(t, r, p, c)
    requires p != p' || c != c'
    ensures HasUid(r, p', c', u) == HasUid(t, p', c', u)
  {
    if HasUid(t, p', c', u) {
      var id :| id in t && Imported(t[id], p', c') && t[id].uid == Some(u);
      assert id in r && Imported(r[id], p', c') && r[id].uid == Some(u);
    }
    if HasUid(r, p', c', u) {
      var id :| id in r && Imported(r[id], p', c') && r[id].uid == Some(u);
      assert id in t && Imported(t[id], p', c') && t[id].uid == Some(u);
    }
  }

  ghost predicate InsertedFrom(events: seq<Event>, ids: Draw, id: BookingId, b: Booking, p: PropertyId, c: Channel,
          owner: UserId)
  {
    exists e :: e in events && e.uid in ids && ids[e.uid] == id && b == NewRow(p, c, owner, e)
  }

  /** `r` is `t` with one new row for each event. */
  ghost predicate Extended(t: Table, r: Table, p: PropertyId, c: Channel, owner: UserId, events: seq<Event>, ids: Draw)
  {
    && (forall id :: id in t ==> id in r && r[id] == t[id])
    && (forall id :: id in r && id !in t ==> InsertedFrom(events, ids, id, r[id], p, c, owner))
    && (forall e :: e in events && e.uid in ids ==> ids[e.uid] in r)
  }

  lemma InsertOneRow(t: Table, r: Table, p: PropertyId, c: Channel, owner: UserId, init: seq<Event>, last: Event, ids: Draw)
    requires Extended(t, r, p, c, owner, init, ids)
    requires last.uid in ids && !HasUid(t, p, c, last.uid)
    requires forall e :: e in init ==> e.uid == last.uid ==> e == last
    ensures Extended(t, InsertOne(r, p, c, owner, last, ids), p, c, owner, init + [last], ids)
  {
    var r' := InsertOne(r, p, c, owner, last, ids);
    var id := ids[last.uid];
    if id !in r {
      forall i | i in r
        ensures !(Imported(r[i], p, c) && r[i].uid == Some(last.uid))
      {
        if i !in t {
          var e :| e in init && e.uid in ids && ids[e.uid] == i && r[i] == NewRow(p, c, owner, e);
        }
      }
      assert !HasUid(r, p, c, last.uid);
      assert last in init + [last];
      assert InsertedFrom(init + [last], ids, id, r'[id], p, c, owner);
    }
    forall i | i in r && i !in t
      ensures InsertedFrom(init + [last], ids, i, r[i], p, c, owner)
    {
      var e :| e in init && e.uid in ids && ids[e.uid] == i && r[i] == NewRow(p, c, owner, e);
      assert e in init + [last];
    }
  }

  /** Bulk insertion of events whose uids the table does not know yet. */
  lemma {:induction false} InsertAllRows(t: Table, p: PropertyId, c: Channel, owner: UserId, events: seq<Event>, ids: Draw)
    requires ConsistentUids(events)
    requires forall e :: e in events ==> e.uid in ids && !HasUid(t, p, c, e.uid)
    ensures Extended(t, InsertAll(t, p, c, owner, events, ids), p, c, owner, events, ids)
    decreases |events|
  {
    if events != [] {
      var init, last := events[..|events| - 1], events[|events| - 1];
      assert events == init + [last];
      InsertAllRows(t, p, c, owner, init, ids);
      InsertOneRow(t, InsertAll(t, p, c, owner, init, ids), p, c, owner, init, last, ids);
    }
  }

  /** The rows handed to the diff are those of (property, channel). */
  ghost predicate Snapshot(existing: seq<Row>, t: Table, p: PropertyId, c: Channel)
  {
    forall r :: r in existing <==> r.id in t && t[r.id] == r.booking && Imported(r.booking, p, c)
  }

  /** With the uid constraint, looking a row up by uid and by id is the same thing. */
  lemma WantsIsDecide(existing: seq<Row>, t: Table, p: PropertyId, c: Channel, incoming: map<Uid, Event>, today: Day,
          id: BookingId, v: Verdict)
    requires Snapshot(existing, t, p, c) && UniqueUids(t)
    ensures (exists u :: Wants(RowsByUid(existing), u, id, v, incoming, today)) ==>
        id in t && Imported(t[id], p, c) && Decide(t[id], incoming, today) == v
    ensures v != Keep && id in t && Imported(t[id], p, c) && Decide(t[id], incoming, today) == v ==>
        exists u :: Wants(RowsByUid(existing), u, id, v, incoming, today)
  {
    var rows := RowsByUid(existing);
    if u :| Wants(rows, u, id, v, incoming, today) {
      assert rows[u] in existing;
    }
    if v != Keep && id in t && Imported(t[id], p, c) && Decide(t[id], incoming, today) == v {
      var row := Row(id, t[id]);
      assert row in existing;
      var u := t[id].uid.value;
      assert u in rows && rows[u] in existing && rows[u].booking.uid == Some(u);
      assert rows[u].id == id;
      assert Wants(rows, u, id, v, incoming, today);
    }
  }

  lemma KnownUids(existing: seq<Row>, t: Table, p: PropertyId, c: Channel, u: Uid)
    requires Snapshot(existing, t, p, c)
    ensures u in RowsByUid(existing) <==> HasUid(t, p, c, u)
  {
    var rows := RowsByUid(existing);
    if u in rows {
      assert rows[u] in existing;
    }
    if HasUid(t, p, c, u) {
      var id :| id in t && Imported(t[id], p, c) && t[id].uid == Some(u);
      assert Row(id, t[id]) in existing;
    }
  }

  lemma SnapshotFiledOnce(existing: seq<Row>, t: Table, p: PropertyId, c: Channel)
    requires Snapshot(existing, t, p, c)
    ensures FiledOnce(RowsByUid(existing))
  {
    var rows := RowsByUid(existing);
    forall u, v | u in rows && v in rows && rows[u].id == rows[v].id
      ensures u == v
    {
      assert rows[u] in existing && rows[v] in existing;
    }
  }

  /** No row is written twice, and nothing is both written and created. */
  lemma ActionsAreDisjoint(a: SyncActions, existing: seq<Row>, t: Table, p: PropertyId, c: Channel,
          incoming: map<Uid, Event>, today: Day)
    requires Snapshot(existing, t, p, c) && UniqueUids(t)
    requires Exact(a, RowsByUid(existing), incoming, today)
    requires forall u :: u in incoming ==> incoming[u].uid == u
    ensures forall d :: d in a.updates ==> d.id in t && d.id !in a.cancels && forall x :: x in a.truncations ==> x.id != d.id
    ensures forall id :: id in a.cancels ==> id in t && forall x :: x in a.truncations ==> x.id != id
    ensures forall x :: x in a.truncations ==> x.id in t
    ensures forall d, d' :: d in a.updates && d' in a.updates && d.id == d'.id ==> d == d'
    ensures forall e :: e in a.creates ==> !HasUid(t, p, c, e.uid)
    ensures ConsistentUids(a.creates) && DistinctSeq(a.creates)
    ensures DistinctSeq(a.updates) && DistinctSeq(a.cancels) && DistinctSeq(a.truncations)
  {
    SnapshotFiledOnce(existing, t, p, c);
    forall d | d in a.updates
      ensures d.id in t && Imported(t[d.id], p, c) && Decide(t[d.id], incoming, today) == Redate(d.start, d.end)
    {
      WantsIsDecide(existing, t, p, c, incoming, today, d.id, Redate(d.start, d.end));
    }
    forall id | id in a.cancels
      ensures id in t && Imported(t[id], p, c) && Decide(t[id], incoming, today) == Cancel
    {
      WantsIsDecide(existing, t, p, c, incoming, today, id, Cancel);
    }
    forall x | x in a.truncations
      ensures x.id in t && Imported(t[x.id], p, c) && Decide(t[x.id], incoming, today) == Truncate
    {
      WantsIsDecide(existing, t, p, c, incoming, today, x.id, Truncate);
    }
    forall e | e in a.creates
      ensures !HasUid(t, p, c, e.uid)
    {
      KnownUids(existing, t, p, c, e.uid);
    }
  }

  /** A bulk write as an operation on the table. */
  datatype Write =
    | Inserts(p: PropertyId, c: Channel, owner: UserId, events: seq<Event>, ids: Draw)
    | Dates(changes: seq<DateChange>)
    | Cancels(cancelled: seq<BookingId>)
    | Truncations(ends: seq<NewEnd>)

  function Apply(t: Table, w: Write): Table
  {
    match w
    case Inserts(p, c, owner, events, ids) => InsertAll(t, p, c, owner, events, ids)
    case Dates(changes) => SetDates(t, changes)
    case Cancels(ids) => CancelAll(t, ids)
    case Truncations(ends) => TruncateAll(t, ends)
  }

  /** The writes of one sync in the order of the program. */
  function Writes(p: PropertyId, c: Channel, owner: UserId, a: SyncActions, ids: Draw): seq<Write>
  {
    [Inserts(p, c, owner, a.creates, ids), Dates(a.updates), Cancels(a.cancels), Truncations(a.truncations)]
  }

  /** The four writes in the order of the program. */
  function Written(t: Table, p: PropertyId, c: Channel, owner: UserId, a: SyncActions, ids: Draw): Table
  {
    Updated(InsertAll(t, p, c, owner, a.creates, ids), a)
  }

  function Updated(t: Table, a: SyncActions): Table
  {
    TruncateAll(CancelAll(SetDates(t, a.updates), a.cancels), a.truncations)
  }

  /** A row that no list mentions is left alone; a row keeps its outcome when the table grows. */
  lemma UpdatedRow(t: Table, t': Table, a: SyncActions, id: BookingId)
    requires id in t && id in t' && t[id] == t'[id]
    ensures Updated(t, a).Keys == t.Keys
    ensures Updated(t, a)[id] == Updated(t', a)[id]
    ensures ChangeOf(a.updates, id).None? && id !in a.cancels && EndOf(a.truncations, id).None?
        ==> Updated(t, a)[id] == t[id]
  {
  }

  /** The four writes in sequence give the row-by-row reconciliation. */
  lemma WritesReconcile(a: SyncActions, existing: seq<Row>, t: Table, p: PropertyId, c: Channel, owner: UserId,
          incoming: map<Uid, Event>, today: Day, ids: Draw)
    requires Snapshot(existing, t, p, c) && UniqueUids(t)
    requires Exact(a, RowsByUid(existing), incoming, today)
    requires forall u :: u in incoming ==> incoming[u].uid == u && u in ids
    requires ids.Values !! t.Keys
    ensures Written(t, p, c, owner, a, ids) == Reconcile(t, p, c, owner, incoming, today, ids)
  {
    hide Written, Reconcile, Exact, Snapshot, UniqueUids;
    var out := Written(t, p, c, owner, a, ids);
    var r := Reconcile(t, p, c, owner, incoming, today, ids);
    forall id
      ensures id in out <==> id in r
      ensures id in out ==> out[id] == r[id]
    {
      RowReconciled(a, existing, t, p, c, owner, incoming, today, ids, id);
    }
  }

  lemma RowReconciled(a: SyncActions, existing: seq<Row>, t: Table, p: PropertyId, c: Channel, owner: UserId,
          incoming: map<Uid, Event>, today: Day, ids: Draw, id: BookingId)
    requires Snapshot(existing, t, p, c) && UniqueUids(t)
    requires Exact(a, RowsByUid(existing), incoming, today)
    requires forall u :: u in incoming ==> incoming[u].uid == u && u in ids
    requires ids.Values !! t.Keys
    ensures var out, r := Written(t, p, c, owner, a, ids), Reconcile(t, p, c, owner, incoming, today, ids);
      (id in out <==> id in r) && (id in out ==> out[id] == r[id])
  {
    var t1 := InsertAll(t, p, c, owner, a.creates, ids);
    var out := Updated(t1, a);
    assert out.Keys == t1.Keys;
    if id in t {
      assert t1[id] == t[id] by {
        ActionsAreDisjoint(a, existing, t, p, c, incoming, today);
        InsertAllRows(t, p, c, owner, a.creates, ids);
      }
      UpdatedRow(t1, t, a, id);
      WrittenAsDecided(a, existing, t, p, c, incoming, today, id);
      assert id !in NewRows(t, p, c, owner, incoming, ids);
    } else {
      CreatedAsDecided(a, existing, t, p, c, owner, incoming, today, ids, id);
      if id in t1 {
        assert ChangeOf(a.updates, id).None? && id !in a.cancels && EndOf(a.truncations, id).None? by {
          ActionsAreDisjoint(a, existing, t, p, c, incoming, today);
        }
        UpdatedRow(t1, t1, a, id);
      }
    }
  }

  lemma CreatedAsDecided(a: SyncActions, existing: seq<Row>, t: Table, p: PropertyId, c: Channel, owner: UserId,
          incoming: map<Uid, Event>, today: Day, ids: Draw, id: BookingId)
    requires Snapshot(existing, t, p, c) && UniqueUids(t)
    requires Exact(a, RowsByUid(existing), incoming, today)
    requires forall u :: u in incoming ==> incoming[u].uid == u && u in ids
    requires ids.Values !! t.Keys && id !in t
    ensures var t1, r := InsertAll(t, p, c, owner, a.creates, ids), NewRows(t, p, c, owner, incoming, ids);
      (id in t1 <==> id in r) && (id in t1 ==> t1[id] == r[id])
  {
    ActionsAreDisjoint(a, existing, t, p, c, incoming, today);
    InsertAllRows(t, p, c, owner, a.creates, ids);
    var t1, r := InsertAll(t, p, c, owner, a.creates, ids), NewRows(t, p, c, owner, incoming, ids);
    if id in t1 {
      assert InsertedFrom(a.creates, ids, id, t1[id], p, c, owner);
      var e :| e in a.creates && e.uid in ids && ids[e.uid] == id && t1[id] == NewRow(p, c, owner, e);
      assert Creates(e, RowsByUid(existing), incoming);
      assert UidOf(ids, id) == e.uid;
    }
    if id in r {
      var u := UidOf(ids, id);
      KnownUids(existing, t, p, c, u);
      assert Creates(incoming[u], RowsByUid(existing), incoming);
      assert ids[incoming[u].uid] in t1;
    }
  }

  lemma WrittenAsDecided(a: SyncActions, existing: seq<Row>, t: Table, p: PropertyId, c: Channel,
          incoming: map<Uid, Event>, today: Day, id: BookingId)
    requires Snapshot(existing, t, p, c) && UniqueUids(t)
    requires Exact(a, RowsByUid(existing), incoming, today)
    requires id in t
    ensures Updated(t, a)[id]
         == if Imported(t[id], p, c) then Resolve(t[id], Decide(t[id], incoming, today), today) else t[id]
  {
    var d := ChangeOf(a.updates, id);
    if d.Some? {
      WantsIsDecide(existing, t, p, c, incoming, today, id, Redate(d.value.start, d.value.end));
    }
    var e := EndOf(a.truncations, id);
    WantsIsDecide(existing, t, p, c, incoming, today, id, Truncate);
    WantsIsDecide(existing, t, p, c, incoming, today, id, Cancel);
    if Imported(t[id], p, c) {
      var v := Decide(t[id], incoming, today);
      WantsIsDecide(existing, t, p, c, incoming, today, id, v);
      if v.Redate? {
        assert DateChange(id, v.start, v.end) in a.updates;
      } else if v.Truncate? {
        assert NewEnd(id, today) in a.truncations;
      }
    }
  }

  /** Inserted keys are not among the rows another write addresses. */
  ghost predicate Apart(w: Write, ids: Draw)
  {
    match w
    case Inserts(_, _, _, _, _) => false
    case Dates(changes) => forall d :: d in changes ==> d.id !in ids.Values
    case Cancels(cancelled) => forall id :: id in cancelled ==> id !in ids.Values
    case Truncations(ends) => forall x :: x in ends ==> x.id !in ids.Values
  }

  lemma SameUids(t: Table, t': Table, p: PropertyId, c: Channel, u: Uid)
    requires t.Keys == t'.Keys
    requires forall id :: id in t ==>
      t[id].property == t'[id].property && t[id].channel == t'[id].channel && t[id].uid == t'[id].uid
    ensures HasUid(t, p, c, u) == HasUid(t', p, c, u)
  {
    if HasUid(t, p, c, u) {
      var id :| id in t && Imported(t[id], p, c) && t[id].uid == Some(u);
      assert id in t' && Imported(t'[id], p, c) && t'[id].uid == Some(u);
    }
    if HasUid(t', p, c, u) {
      var id :| id in t' && Imported(t'[id], p, c) && t'[id].uid == Some(u);
      assert id in t && Imported(t[id], p, c) && t[id].uid == Some(u);
    }
  }

  lemma {:induction false} InsertCommutes(s: Table, p: PropertyId, c: Channel, owner: UserId, events: seq<Event>,
          ids: Draw, w: Write)
    requires Apart(w, ids)
    ensures Apply(InsertAll(s, p, c, owner, events, ids), w) == InsertAll(Apply(s, w), p, c, owner, events, ids)
    decreases |events|
  {
    if events != [] {
      var init, last := events[..|events| - 1], events[|events| - 1];
      InsertCommutes(s, p, c, owner, init, ids, w);
      var r := InsertAll(s, p, c, owner, init, ids);
      SameUids(r, Apply(r, w), p, c, last.uid);
      assert Apply(r, w).Keys == r.Keys;
      InsertOneCommutes(r, p, c, owner, last, ids, w);
    }
  }

  /** An update passes by a new row that it does not address. */
  lemma PassesBy(r: Table, id: BookingId, b: Booking, w: Write, ids: Draw)
    requires Apart(w, ids) && id in ids.Values
    ensures Apply(r, w).Keys == r.Keys
    ensures Apply(r[id := b], w) == Apply(r, w)[id := b]
  {
    match w {
      case Inserts(_, _, _, _, _) =>
      case Dates(changes) => assert ChangeOf(changes, id).None?;
      case Cancels(cancelled) => assert id !in cancelled;
      case Truncations(ends) => assert EndOf(ends, id).None?;
    }
  }

  lemma InsertOneCommutes(r: Table, p: PropertyId, c: Channel, owner: UserId, e: Event, ids: Draw, w: Write)
    requires Apart(w, ids)
    ensures Apply(InsertOne(r, p, c, owner, e, ids), w) == InsertOne(Apply(r, w), p, c, owner, e, ids)
  {
    SameUids(r, Apply(r, w), p, c, e.uid);
    hide HasUid, Apply;
    if e.uid in ids {
      PassesBy(r, ids[e.uid], NewRow(p, c, owner, e), w, ids);
    }
  }

  /** Writes that touch different rows commute. */
  lemma WritesCommute(a: SyncActions, p: PropertyId, c: Channel, owner: UserId, ids: Draw)
    requires forall d :: d in a.updates ==> d.id !in ids.Values && d.id !in a.cancels
    requires forall d, x :: d in a.updates && x in a.truncations ==> x.id != d.id
    requires forall id :: id in a.cancels ==> id !in ids.Values
    requires forall x :: x in a.truncations ==> x.id !in a.cancels && x.id !in ids.Values
    ensures Commute(Apply, Writes(p, c, owner, a, ids))
  {
    forall s: Table, x: Write, y: Write | x in Writes(p, c, owner, a, ids) && y in Writes(p, c, owner, a, ids)
      ensures Apply(Apply(s, x), y) == Apply(Apply(s, y), x)
    {
      if x == y {
      } else if x.Inserts? {
        InsertCommutes(s, p, c, owner, a.creates, ids, y);
      } else if y.Inserts? {
        InsertCommutes(s, p, c, owner, a.creates, ids, x);
      } else {
        UpdatesCommute(s, a);
      }
    }
  }

  lemma UpdatesCommute(s: Table, a: SyncActions)
    requires forall d :: d in a.updates ==> d.id !in a.cancels
    requires forall d, x :: d in a.updates && x in a.truncations ==> x.id != d.id
    requires forall x :: x in a.truncations ==> x.id !in a.cancels
    ensures CancelAll(SetDates(s, a.updates), a.cancels) == SetDates(CancelAll(s, a.cancels), a.updates)
    ensures TruncateAll(SetDates(s, a.updates), a.truncations) == SetDates(TruncateAll(s, a.truncations), a.updates)
    ensures TruncateAll(CancelAll(s, a.cancels), a.truncations) == CancelAll(TruncateAll(s, a.truncations), a.cancels)
  {
    forall id
      ensures !(ChangeOf(a.updates, id).Some? && (id in a.cancels || EndOf(a.truncations, id).Some?))
      ensures !(id in a.cancels && EndOf(a.truncations, id).Some?)
    {
    }
  }

  /** Diff and apply is exact: the four bulk writes, run in any order whatever, give the same
      table, the row-by-row reconciliation of the imported rows with the feed. */
  lemma {:induction false} AnyWriteOrderReconciles(a: SyncActions, existing: seq<Row>, t: Table, p: PropertyId,
          c: Channel, owner: UserId, incoming: map<Uid, Event>, today: Day, ids: Draw, order: seq<Write>)
    requires Snapshot(existing, t, p, c) && UniqueUids(t)
    requires Exact(a, RowsByUid(existing), incoming, today)
    requires forall u :: u in incoming ==> incoming[u].uid == u && u in ids
    requires ids.Values !! t.Keys
    requires multiset(order) == multiset(Writes(p, c, owner, a, ids))
    ensures Fold(Apply, t, order) == Reconcile(t, p, c, owner, incoming, today, ids)
  {
    var program := Writes(p, c, owner, a, ids);
    ActionsAreDisjoint(a, existing, t, p, c, incoming, today);
    WritesCommute(a, p, c, owner, ids);
    FoldPermutation(Apply, t, program, order);
    FoldOfWrites(t, p, c, owner, a, ids);
    WritesReconcile(a, existing, t, p, c, owner, incoming, today, ids);
  }

  lemma FoldOfWrites(t: Table, p: PropertyId, c: Channel, owner: UserId, a: SyncActions, ids: Draw)
    ensures Fold(Apply, t, Writes(p, c, owner, a, ids)) == Written(t, p, c, owner, a, ids)
  {
    var w := Writes(p, c, owner, a, ids);
    FoldAppend(Apply, t, w[..3], w[3..]);
    FoldAppend(Apply, t, w[..2], [w[2]]);
    FoldAppend(Apply, t, [w[0]], [w[1]]);
    assert w == w[..3] + w[3..] && w[..3] == w[..2] + [w[2]] && w[..2] == [w[0]] + [w[1]] && w[3..] == [w[3]];
  }
}
