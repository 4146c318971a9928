/** The reconciliation of imported rows with a fresh feed (app/services/calendar_sync.py, diff_feed). */
module Diff {
  import opened Prelude
  import opened Nights
  import opened Model

  datatype Row = Row(id: BookingId, booking: Booking)

  datatype DateChange = DateChange(id: BookingId, start: Day, end: Day)

  datatype NewEnd = NewEnd(id: BookingId, end: Day)

  datatype SyncActions = SyncActions(
    creates: seq<Event>,
    updates: seq<DateChange>,
    cancels: seq<BookingId>,
    truncations: seq<NewEnd>)

  /** A dictionary keyed by uid: of several events with one uid the last one stays. */
  function LastWins(events: seq<Event>): (m: map<Uid, Event>)
    ensures forall u :: u in m ==> m[u].uid == u && m[u] in events
    ensures forall e :: e in events ==> e.uid in m
  {
    if events == [] then map[]
    else
      var last := events[|events| - 1];
      assert events == events[..|events| - 1] + [last];
      LastWins(events[..|events| - 1])[last.uid := last]
  }

  function RowsByUid(rows: seq<Row>): (m: map<Uid, Row>)
    ensures forall u :: u in m ==> m[u].booking.uid == Some(u) && m[u] in rows
    ensures forall r :: r in rows && r.booking.uid.Some? ==> r.booking.uid.value in m
  {
    if rows == [] then map[]
    else
      var last := rows[|rows| - 1];
      assert rows == rows[..|rows| - 1] + [last];
      var m := RowsByUid(rows[..|rows| - 1]);
      if last.booking.uid.Some? then m[last.booking.uid.value := last] else m
  }

  /** What one sync does to one imported row. */
  datatype Verdict = Keep | Redate(start: Day, end: Day) | Cancel | Truncate

  function Decide(b: Booking, incoming: map<Uid, Event>, today: Day): Verdict
  {
    if b.uid.None? then Keep
    else if b.uid.value in incoming then
      var ev := incoming[b.uid.value];
      if b.start != ev.start || b.end != ev.end || !b.status.Confirmed? then Redate(ev.start, ev.end) else Keep
    else if !b.status.Confirmed? then Keep
    else if b.start >= today then Cancel
    else if b.end > today then Truncate
    else Keep
  }

  lemma DecideListed(b: Booking, incoming: map<Uid, Event>, today: Day)
    requires b.uid.Some? && b.uid.value in incoming
    ensures var ev := incoming[b.uid.value];
      Decide(b, incoming, today) ==
        if b.start != ev.start || b.end != ev.end || !b.status.Confirmed? then Redate(ev.start, ev.end) else Keep
  {
  }

  lemma DecideVanished(b: Booking, incoming: map<Uid, Event>, today: Day)
    requires b.uid.Some? && b.uid.value !in incoming
    ensures Decide(b, incoming, today) == Cancel <==> b.status.Confirmed? && b.start >= today
    ensures Decide(b, incoming, today) == Truncate <==> b.status.Confirmed? && b.start < today < b.end
    ensures !Decide(b, incoming, today).Redate?
  {
  }

  /** The row filed under uid `u` has this id, and the sync decides `v` about it. */
  ghost predicate Wants(rows: map<Uid, Row>, u: Uid, id: BookingId, v: Verdict, incoming: map<Uid, Event>, today: Day)
  {
    u in rows && rows[u].id == id && Decide(rows[u].booking, incoming, today) == v
  }

  ghost predicate Creates(e: Event, existing: map<Uid, Row>, incoming: map<Uid, Event>)
  {
    e.uid in incoming && incoming[e.uid] == e && e.uid !in existing
  }

  /** No row is filed under two uids. */
  ghost predicate FiledOnce(rows: map<Uid, Row>)
  {
    forall u, v :: u in rows && v in rows && rows[u].id == rows[v].id ==> u == v
  }

  /** The four lists say exactly what has to be written, one entry for each thing to write. */
  ghost predicate Exact(a: SyncActions, existing: map<Uid, Row>, incoming: map<Uid, Event>, today: Day)
  {
    && (forall e :: e in a.creates <==> Creates(e, existing, incoming))
    && (forall d :: d in a.updates <==> exists u :: Wants(existing, u, d.id, Redate(d.start, d.end), incoming, today))
    && (forall id :: id in a.cancels <==> exists u :: Wants(existing, u, id, Cancel, incoming, today))
    && (forall c :: c in a.truncations <==>
          c.end == today && exists u :: Wants(existing, u, c.id, Truncate, incoming, today))
    && DistinctSeq(a.creates)
    && (FiledOnce(existing) ==> DistinctSeq(a.updates) && DistinctSeq(a.cancels) && DistinctSeq(a.truncations))
  }

  method IndexEvents(events: seq<Event>) returns (keys: seq<Uid>, byUid: map<Uid, Event>)
    ensures byUid == LastWins(events)
    ensures forall u :: u in keys <==> u in byUid
    ensures DistinctSeq(keys)
  {
    keys, byUid := [], map[];
    for i := 0 to |events|
      invariant byUid == LastWins(events[..i])
      invariant forall u :: u in keys <==> u in byUid
      invariant DistinctSeq(keys)
    {
      assert events[..i + 1][..i] == events[..i];
      if events[i].uid !in byUid {
        keys := keys + [events[i].uid];
      }
      byUid := byUid[events[i].uid := events[i]];
    }
    assert events[..|events|] == events;
  }

  method IndexRows(rows: seq<Row>) returns (keys: seq<Uid>, byUid: map<Uid, Row>)
    ensures byUid == RowsByUid(rows)
    ensures forall u :: u in keys <==> u in byUid
    ensures DistinctSeq(keys)
  {
    keys, byUid := [], map[];
    for i := 0 to |rows|
      invariant byUid == RowsByUid(rows[..i])
      invariant forall u :: u in keys <==> u in byUid
      invariant DistinctSeq(keys)
    {
      assert rows[..i + 1][..i] == rows[..i];
      var uid := rows[i].booking.uid;
      if uid.Some? {
        if uid.value !in byUid {
          keys := keys + [uid.value];
        }
        byUid := byUid[uid.value := rows[i]];
      }
    }
    assert rows[..|rows|] == rows;
  }

  method DiffFeed(existing: seq<Row>, incoming: seq<Event>, today: Day) returns (a: SyncActions)
    ensures Exact(a, RowsByUid(existing), LastWins(incoming), today)
  {
    var oldKeys, rows := IndexRows(existing);
    var newKeys, events := IndexEvents(incoming);
    var creates, updates := ListIncoming(newKeys, events, rows, today);
    var cancels, truncations := ListVanished(oldKeys, rows, events, today);
    a := SyncActions(creates, updates, cancels, truncations);
  }

  /** First loop: what the feed lists. */
  method ListIncoming(keys: seq<Uid>, events: map<Uid, Event>, rows: map<Uid, Row>, today: Day)
      returns (creates: seq<Event>, updates: seq<DateChange>)
    requires forall u :: u in keys <==> u in events
    requires forall u :: u in events ==> events[u].uid == u
    requires forall u :: u in rows ==> rows[u].booking.uid == Some(u)
    requires DistinctSeq(keys)
    ensures forall e :: e in creates <==> Creates(e, rows, events)
    ensures DistinctSeq(creates) && (FiledOnce(rows) ==> DistinctSeq(updates))
    ensures forall d :: d in updates <==> exists u :: Wants(rows, u, d.id, Redate(d.start, d.end), events, today)
  {
    hide Decide;
    creates, updates := [], [];
    for i := 0 to |keys|
      invariant forall e :: e in creates <==> e.uid in keys[..i] && Creates(e, rows, events)
      invariant DistinctSeq(creates) && (FiledOnce(rows) ==> DistinctSeq(updates))
      invariant forall d :: d in updates ==>
        exists u :: u in keys[..i] && Wants(rows, u, d.id, Redate(d.start, d.end), events, today)
      invariant forall u, id, s, e :: u in keys[..i] && Wants(rows, u, id, Redate(s, e), events, today)
                  ==> DateChange(id, s, e) in updates
    {
      var uid := keys[i];
      var ev := events[uid];
      assert keys[..i + 1] == keys[..i] + [uid];
      if uid !in rows {
        creates := creates + [ev];
      } else {
        var cur := rows[uid].booking;
        DecideListed(cur, events, today);
        if cur.start != ev.start || cur.end != ev.end || cur.status != Confirmed {
          updates := updates + [DateChange(rows[uid].id, ev.start, ev.end)];
          assert Wants(rows, uid, rows[uid].id, Redate(ev.start, ev.end), events, today);
        }
      }
    }
    assert keys[..|keys|] == keys;
    forall u | u in rows && u !in events {
      DecideVanished(rows[u].booking, events, today);
    }
  }

  /** Second loop: what the feed no longer lists. */
  method ListVanished(keys: seq<Uid>, rows: map<Uid, Row>, events: map<Uid, Event>, today: Day)
      returns (cancels: seq<BookingId>, truncations: seq<NewEnd>)
    requires forall u :: u in keys <==> u in rows
    requires forall u :: u in rows ==> rows[u].booking.uid == Some(u)
    requires DistinctSeq(keys)
    ensures forall id :: id in cancels <==> exists u :: Wants(rows, u, id, Cancel, events, today)
    ensures forall c :: c in truncations <==>
      c.end == today && exists u :: Wants(rows, u, c.id, Truncate, events, today)
    ensures FiledOnce(rows) ==> DistinctSeq(cancels) && DistinctSeq(truncations)
  {
    hide Decide;
    cancels, truncations := [], [];
    for i := 0 to |keys|
      invariant FiledOnce(rows) ==> DistinctSeq(cancels) && DistinctSeq(truncations)
      invariant forall id :: id in cancels ==> exists u :: u in keys[..i] && Wants(rows, u, id, Cancel, events, today)
      invariant forall u, id :: u in keys[..i] && Wants(rows, u, id, Cancel, events, today) ==> id in cancels
      invariant forall c :: c in truncations ==>
        c.end == today && exists u :: u in keys[..i] && Wants(rows, u, c.id, Truncate, events, today)
      invariant forall u, id :: u in keys[..i] && Wants(rows, u, id, Truncate, events, today)
                  ==> NewEnd(id, today) in truncations
    {
      var uid := keys[i];
      var cur := rows[uid].booking;
      assert keys[..i + 1] == keys[..i] + [uid];
      if uid in events {
        DecideListed(cur, events, today);
        continue;
      }
      DecideVanished(cur, events, today);
      if cur.status != Confirmed {
        continue;
      }
      assert uid !in keys[..i];
      if cur.start >= today {
        assert FiledOnce(rows) ==> rows[uid].id !in cancels;
        cancels := cancels + [rows[uid].id];
        assert Wants(rows, uid, rows[uid].id, Cancel, events, today);
      } else if cur.end > today {
        assert FiledOnce(rows) ==> NewEnd(rows[uid].id, today) !in truncations;
        truncations := truncations + [NewEnd(rows[uid].id, today)];
        assert Wants(rows, uid, rows[uid].id, Truncate, events, today);
      }
    }
    assert keys[..|keys|] == keys;
  }

  /** Of each uid the feed tells one story: repeated entries are identical. */
  ghost predicate ConsistentUids(events: seq<Event>)
  {
    forall e, f :: e in events && f in events && e.uid == f.uid ==> e == f
  }

  lemma SamePermutation(a: seq<Event>, b: seq<Event>)
    requires multiset(a) == multiset(b)
    ensures forall e :: e in a <==> e in b
    ensures ConsistentUids(a) <==> ConsistentUids(b)
  {
    forall e ensures e in a <==> e in b {
      assert e in a <==> e in multiset(a);
      assert e in b <==> e in multiset(b);
    }
  }

  lemma {:induction false} ConsistentLookup(a: seq<Event>, b: seq<Event>)
    requires ConsistentUids(a) && multiset(a) == multiset(b)
    ensures LastWins(a) == LastWins(b)
  {
    SamePermutation(a, b);
    var m, n := LastWins(a), LastWins(b);
    forall u
      ensures u in m <==> u in n
      ensures u in m ==> m[u] == n[u]
    {
      if u in m {
        assert m[u] in b && m[u].uid in n;
      }
      if u in n {
        assert n[u] in a && n[u].uid in m;
      }
    }
  }

  /** Moving one entry to the end of the feed makes it the one that counts. */
  lemma MoveToEnd(events: seq<Event>, e: Event) returns (moved: seq<Event>)
    requires e in events
    ensures multiset(moved) == multiset(events)
    ensures e.uid in LastWins(moved) && LastWins(moved)[e.uid] == e
  {
    var k :| 0 <= k < |events| && events[k] == e;
    var rest := events[..k] + events[k + 1..];
    moved := rest + [e];
    assert moved[..|moved| - 1] == rest;
    assert events == events[..k] + [e] + events[k + 1..];
  }

  /** The order of a feed is immaterial exactly when no uid comes with two different stays. */
  lemma {:induction false} OrderImmaterialExactly(events: seq<Event>)
    ensures ConsistentUids(events)
       <==> forall other :: multiset(other) == multiset(events) ==> LastWins(other) == LastWins(events)
  {
    if ConsistentUids(events) {
      forall other | multiset(other) == multiset(events)
        ensures LastWins(other) == LastWins(events)
      {
        ConsistentLookup(events, other);
      }
    } else {
      var e, f :| e in events && f in events && e.uid == f.uid && e != f;
      var a := MoveToEnd(events, e);
      var b := MoveToEnd(events, f);
      assert LastWins(a) != LastWins(b);
    }
  }
}
