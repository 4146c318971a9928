/** What it means that the imported rows mirror a feed, in nights, and why a mirrored feed may be
    skipped: its next reconciliation would write nothing. */
module Mirror {
  import opened Prelude
  import opened Nights
  import opened Model
  import opened ContentHash
  import opened Diff
  import opened Crud
  import opened Reconciliation

  /** Every stay has a night, and exactly the imported rows carry a uid. */
  ghost predicate SoundRows(t: Table)
  {
    && (forall id :: id in t ==> t[id].start < t[id].end)
    && (forall id :: id in t ==> (t[id].channel != Platform <==> t[id].uid.Some?))
  }

  ghost predicate Keyed(incoming: map<Uid, Event>)
  {
    forall u :: u in incoming ==> incoming[u].uid == u && incoming[u].start < incoming[u].end
  }

  /** Some listed event covers the night. */
  ghost predicate FeedNight(incoming: map<Uid, Event>, n: Day)
  {
    exists u :: u in incoming && Covers(incoming[u].start, incoming[u].end, n)
  }

  /** A confirmed imported row whose uid the feed does not list covers the night. */
  ghost predicate UnlistedNight(t: Table, p: PropertyId, c: Channel, incoming: map<Uid, Event>, n: Day)
  {
    exists id :: id in t && Imported(t[id], p, c) && !Listed(t[id], incoming) && t[id].status.Confirmed?
      && Covers(t[id].start, t[id].end, n)
  }

  predicate Listed(b: Booking, incoming: map<Uid, Event>)
  {
    b.uid.Some? && b.uid.value in incoming
  }

  /** The row that stands for the event is there, confirmed, with the event's dates. */
  ghost predicate HasRow(t: Table, p: PropertyId, c: Channel, e: Event)
  {
    exists id :: id in t && StandsFor(t[id], p, c, e)
  }

  predicate StandsFor(b: Booking, p: PropertyId, c: Channel, e: Event)
  {
    Imported(b, p, c) && b.uid == Some(e.uid) && b.status.Confirmed? && b.start == e.start && b.end == e.end
  }

  /** The rows of (property, channel) mirror the feed as of `day`: a row for each event, and no
      confirmed row of an unlisted uid reaching past the day. */
  ghost predicate Mirrors(t: Table, p: PropertyId, c: Channel, incoming: map<Uid, Event>, day: Day)
  {
    && (forall u :: u in incoming ==> HasRow(t, p, c, incoming[u]))
    && (forall id :: id in t && Imported(t[id], p, c) && !Listed(t[id], incoming) && t[id].status.Confirmed? ==>
          t[id].end <= day)
  }

  /** A reconciliation on `day` would write nothing. */
  ghost predicate Quiet(t: Table, p: PropertyId, c: Channel, incoming: map<Uid, Event>, day: Day)
  {
    && (forall id :: id in t && Imported(t[id], p, c) ==> Decide(t[id], incoming, day) == Keep)
    && (forall u :: u in incoming ==> HasUid(t, p, c, u))
  }

  /** What one sync means in nights, past and future. From today on the channel occupies exactly
      the listed nights; before today it also keeps the nights of confirmed rows that dropped out
      of the feed. */
  lemma {:induction false} SyncNights(t: Table, p: PropertyId, c: Channel, owner: UserId, incoming: map<Uid, Event>,
          today: Day, ids: Draw, n: Day)
    requires SoundRows(t) && c != Platform && Keyed(incoming)
    requires ids.Values !! t.Keys && forall u :: u in incoming ==> u in ids
    ensures ChannelNight(Reconcile(t, p, c, owner, incoming, today, ids), p, c, n)
       <==> FeedNight(incoming, n) || (n < today && UnlistedNight(t, p, c, incoming, n))
  {
    hide Reconcile, HasUid;
    var r := Reconcile(t, p, c, owner, incoming, today, ids);
    if ChannelNight(r, p, c, n) {
      var id :| id in r && Imported(r[id], p, c) && r[id].status.Confirmed? && Covers(r[id].start, r[id].end, n);
      ReconcileAt(t, p, c, owner, incoming, today, ids, id);
      if id in t && !Listed(t[id], incoming) {
        assert UnlistedNight(t, p, c, incoming, n);
      }
    }
    if FeedNight(incoming, n) {
      var u :| u in incoming && Covers(incoming[u].start, incoming[u].end, n);
      ListedRowAfter(t, p, c, owner, incoming, today, ids, u);
    }
    if n < today && UnlistedNight(t, p, c, incoming, n) {
      var id :| id in t && Imported(t[id], p, c) && !Listed(t[id], incoming) && t[id].status.Confirmed?
        && Covers(t[id].start, t[id].end, n);
      ReconcileAt(t, p, c, owner, incoming, today, ids, id);
      assert r[id].status.Confirmed? && Covers(r[id].start, r[id].end, n);
    }
  }

  lemma ListedRowAfter(t: Table, p: PropertyId, c: Channel, owner: UserId, incoming: map<Uid, Event>, today: Day,
          ids: Draw, u: Uid)
    requires Keyed(incoming) && u in incoming && u in ids && ids.Values !! t.Keys
    ensures HasRow(Reconcile(t, p, c, owner, incoming, today, ids), p, c, incoming[u])
  {
    hide Reconcile;
    var r := Reconcile(t, p, c, owner, incoming, today, ids);
    if HasUid(t, p, c, u) {
      var id :| id in t && Imported(t[id], p, c) && t[id].uid == Some(u);
      ReconcileAt(t, p, c, owner, incoming, today, ids, id);
      assert StandsFor(r[id], p, c, incoming[u]);
    } else {
      var id := ids[u];
      ReconcileAt(t, p, c, owner, incoming, today, ids, id);
      assert id in ids.Values && UidOf(ids, id) == u;
      assert Inserted(t, p, c, incoming, ids, id);
      assert StandsFor(r[id], p, c, incoming[u]);
    }
  }

  /** A full sync leaves a mirror of the feed. */
  lemma {:induction false} SyncMirrors(t: Table, p: PropertyId, c: Channel, owner: UserId, incoming: map<Uid, Event>,
          today: Day, ids: Draw)
    requires SoundRows(t) && c != Platform && Keyed(incoming)
    requires ids.Values !! t.Keys && forall u :: u in incoming ==> u in ids
    ensures Mirrors(Reconcile(t, p, c, owner, incoming, today, ids), p, c, incoming, today)
  {
    hide Reconcile, HasUid;
    var r := Reconcile(t, p, c, owner, incoming, today, ids);
    forall u | u in incoming {
      ListedRowAfter(t, p, c, owner, incoming, today, ids, u);
    }
    forall id | id in r && Imported(r[id], p, c) && !Listed(r[id], incoming) && r[id].status.Confirmed?
      ensures r[id].end <= today
    {
      ReconcileAt(t, p, c, owner, incoming, today, ids, id);
    }
  }

  /** In nights: from `day` on the channel occupies exactly what the mirrored feed lists. */
  lemma {:induction false} MirroredNights(t: Table, p: PropertyId, c: Channel, incoming: map<Uid, Event>, day: Day, n: Day)
    requires Mirrors(t, p, c, incoming, day) && UniqueUids(t) && Keyed(incoming)
    requires n >= day
    ensures ChannelNight(t, p, c, n) <==> FeedNight(incoming, n)
  {
    if ChannelNight(t, p, c, n) {
      var id :| id in t && Imported(t[id], p, c) && t[id].status.Confirmed? && Covers(t[id].start, t[id].end, n);
      assert Listed(t[id], incoming);
      TheRow(t, p, c, incoming, day, id);
    }
    if FeedNight(incoming, n) {
      var u :| u in incoming && Covers(incoming[u].start, incoming[u].end, n);
      var id :| id in t && StandsFor(t[id], p, c, incoming[u]);
    }
  }

  /** With unique uids a listed imported row is the row standing for its event. */
  lemma TheRow(t: Table, p: PropertyId, c: Channel, incoming: map<Uid, Event>, day: Day, id: BookingId)
    requires Mirrors(t, p, c, incoming, day) && UniqueUids(t) && Keyed(incoming)
    requires id in t && Imported(t[id], p, c) && Listed(t[id], incoming)
    ensures StandsFor(t[id], p, c, incoming[t[id].uid.value])
  {
    var e := incoming[t[id].uid.value];
    var k :| k in t && StandsFor(t[k], p, c, e);
    assert k == id;
  }

  /** The mirror relation is the emptiness of the next diff. */
  lemma {:induction false} MirrorIsQuiet(t: Table, p: PropertyId, c: Channel, incoming: map<Uid, Event>, day: Day)
    requires SoundRows(t) && UniqueUids(t) && Keyed(incoming) && c != Platform
    ensures Mirrors(t, p, c, incoming, day) <==> Quiet(t, p, c, incoming, day)
  {
    if Mirrors(t, p, c, incoming, day) {
      forall id | id in t && Imported(t[id], p, c)
        ensures Decide(t[id], incoming, day) == Keep
      {
        if Listed(t[id], incoming) {
          TheRow(t, p, c, incoming, day, id);
        }
      }
      forall u | u in incoming
        ensures HasUid(t, p, c, u)
      {
        var id :| id in t && StandsFor(t[id], p, c, incoming[u]);
        assert t[id].uid == Some(u);
      }
    }
    if Quiet(t, p, c, incoming, day) {
      forall u | u in incoming
        ensures HasRow(t, p, c, incoming[u])
      {
        assert HasUid(t, p, c, u);
        var id :| id in t && Imported(t[id], p, c) && t[id].uid == Some(u);
        assert StandsFor(t[id], p, c, incoming[u]);
      }
    }
  }

  /** Time passing does not spoil a mirror. */
  lemma MirrorsLater(t: Table, p: PropertyId, c: Channel, incoming: map<Uid, Event>, day: Day, later: Day)
    requires Mirrors(t, p, c, incoming, day) && day <= later
    ensures Mirrors(t, p, c, incoming, later)
  {
  }

  /** When the diff is quiet, running the full path changes no row. */
  lemma QuietChangesNothing(t: Table, p: PropertyId, c: Channel, owner: UserId, incoming: map<Uid, Event>, today: Day,
          ids: Draw)
    requires Quiet(t, p, c, incoming, today)
    ensures Reconcile(t, p, c, owner, incoming, today, ids) == t
  {
    var r := Reconcile(t, p, c, owner, incoming, today, ids);
    hide Reconcile;
    forall id
      ensures id in r <==> id in t
      ensures id in t ==> r[id] == t[id]
    {
      ReconcileAt(t, p, c, owner, incoming, today, ids, id);
    }
  }

  /** And only then: with fresh keys for the listed uids, whatever is not quiet changes some row. */
  lemma {:induction false} WritesNothingExactly(t: Table, p: PropertyId, c: Channel, owner: UserId,
          incoming: map<Uid, Event>, today: Day, ids: Draw)
    requires ids.Values !! t.Keys && forall u :: u in incoming ==> u in ids
    ensures Reconcile(t, p, c, owner, incoming, today, ids) == t <==> Quiet(t, p, c, incoming, today)
  {
    hide Reconcile, HasUid;
    var r := Reconcile(t, p, c, owner, incoming, today, ids);
    if Quiet(t, p, c, incoming, today) {
      QuietChangesNothing(t, p, c, owner, incoming, today, ids);
    }
    if r == t {
      forall id | id in t && Imported(t[id], p, c)
        ensures Decide(t[id], incoming, today) == Keep
      {
        ReconcileAt(t, p, c, owner, incoming, today, ids, id);
      }
      forall u | u in incoming
        ensures HasUid(t, p, c, u)
      {
        ReconcileAt(t, p, c, owner, incoming, today, ids, ids[u]);
        assert ids[u] in ids.Values && UidOf(ids, ids[u]) == u;
      }
    }
  }

  lemma EmptyMeansNoElement<T>(s: seq<T>)
    ensures s == [] <==> forall x :: x !in s
  {
    if s != [] {
      assert s[0] in s;
    }
  }

  /** The computed action lists are all empty exactly when the diff is quiet. */
  lemma {:induction false} QuietIsEmptyDiff(t: Table, p: PropertyId, c: Channel, incoming: map<Uid, Event>, today: Day,
          existing: seq<Row>, a: SyncActions)
    requires Snapshot(existing, t, p, c) && UniqueUids(t) && Keyed(incoming)
    requires Exact(a, RowsByUid(existing), incoming, today)
    ensures Quiet(t, p, c, incoming, today)
       <==> a.creates == [] && a.updates == [] && a.cancels == [] && a.truncations == []
  {
    if Quiet(t, p, c, incoming, today) {
      forall d | d in a.updates ensures false {
        WantsIsDecide(existing, t, p, c, incoming, today, d.id, Redate(d.start, d.end));
      }
      forall id | id in a.cancels ensures false {
        WantsIsDecide(existing, t, p, c, incoming, today, id, Cancel);
      }
      forall x | x in a.truncations ensures false {
        WantsIsDecide(existing, t, p, c, incoming, today, x.id, Truncate);
      }
      forall e | e in a.creates ensures false {
        assert Creates(e, RowsByUid(existing), incoming);
        KnownUids(existing, t, p, c, e.uid);
      }
      EmptyMeansNoElement(a.creates);
      EmptyMeansNoElement(a.updates);
      EmptyMeansNoElement(a.cancels);
      EmptyMeansNoElement(a.truncations);
    }
    if a.creates == [] && a.updates == [] && a.cancels == [] && a.truncations == [] {
      forall id | id in t && Imported(t[id], p, c)
        ensures Decide(t[id], incoming, today) == Keep
      {
        var v := Decide(t[id], incoming, today);
        WantsIsDecide(existing, t, p, c, incoming, today, id, v);
        if v.Redate? {
          assert DateChange(id, v.start, v.end) !in a.updates;
        } else if v.Truncate? {
          assert NewEnd(id, today) !in a.truncations;
        } else if v.Cancel? {
          assert id !in a.cancels;
        }
      }
      forall u | u in incoming
        ensures HasUid(t, p, c, u)
      {
        KnownUids(existing, t, p, c, u);
        assert incoming[u] !in a.creates;
      }
    }
  }

  // ---- When exactly an unchanged feed may be skipped ------------------------------------------

  /** After a full sync, every feed with the same hash would be quiet on every later day, exactly
      when the feed gives each uid one stay. */
  lemma {:induction false} SkipIsSafeExactly(t: Table, p: PropertyId, c: Channel, events: seq<Event>, today: Day)
    requires SoundRows(t) && UniqueUids(t) && c != Platform
    requires forall e :: e in events ==> e.start < e.end
    requires Mirrors(t, p, c, LastWins(events), today)
    ensures ConsistentUids(events) <==>
      forall other, day :: Canonical(other) == Canonical(events) && day >= today ==> Quiet(t, p, c, LastWins(other), day)
  {
    hide Canonical, Quiet, Mirrors, SoundRows, LastWins, UniqueUids;
    if ConsistentUids(events) {
      forall other, day | Canonical(other) == Canonical(events) && day >= today
        ensures Quiet(t, p, c, LastWins(other), day)
      {
        CanonicalSeparates(other, events);
        ConsistentLookup(events, other);
        MirrorsLater(t, p, c, LastWins(events), today, day);
        MirrorIsQuiet(t, p, c, LastWins(events), day);
      }
    } else {
      var e, f :| e in events && f in events && e.uid == f.uid && e != f;
      var a := MoveToEnd(events, e);
      var b := MoveToEnd(events, f);
      CanonicalSeparates(a, events);
      CanonicalSeparates(b, events);
      if Quiet(t, p, c, LastWins(a), today) && Quiet(t, p, c, LastWins(b), today) {
        QuietRow(t, p, c, a, today, e);
        QuietRow(t, p, c, b, today, f);
        OneRowOneStay(t, p, c, e, f);
      }
    }
  }

  /** A feed that names one uid twice, and the same feed listed the other way round: one hash, two
      meanings. With the first one synced, the second would have something to write, and the short
      cut skips it. */
  lemma RepeatedUidIsMissed(t: Table, p: PropertyId, c: Channel, today: Day)
    requires SoundRows(t) && UniqueUids(t) && c != Platform
    ensures var a, b := [Event("u", 5, 6), Event("u", 7, 8)], [Event("u", 7, 8), Event("u", 5, 6)];
      Canonical(a) == Canonical(b) && (Mirrors(t, p, c, LastWins(a), today) ==> !Quiet(t, p, c, LastWins(b), today))
  {
    var early, late := Event("u", 5, 6), Event("u", 7, 8);
    var a, b := [early, late], [late, early];
    hide Canonical, LastWins, SoundRows, UniqueUids, Mirrors, Quiet, HasRow;
    SwappedHash(early, late);
    LastOfTwo(early, late);
    LastOfTwo(late, early);
    if Mirrors(t, p, c, LastWins(a), today) && Quiet(t, p, c, LastWins(b), today) {
      MirrorHasRow(t, p, c, LastWins(a), today, "u");
      QuietRow(t, p, c, b, today, early);
      OneRowOneStay(t, p, c, early, late);
    }
  }

  lemma SwappedHash(e: Event, f: Event)
    ensures Canonical([e, f]) == Canonical([f, e])
  {
    assert multiset([e, f]) == multiset([f, e]);
    CanonicalSeparates([e, f], [f, e]);
  }

  lemma LastOfTwo(e: Event, f: Event)
    requires e.uid == f.uid
    ensures LastWins([e, f]) == map[e.uid := f]
  {
    assert [e, f][..1] == [e] && [e][..0] == [];
    assert LastWins([e]) == map[e.uid := e];
  }

  lemma MirrorHasRow(t: Table, p: PropertyId, c: Channel, incoming: map<Uid, Event>, day: Day, u: Uid)
    requires u in incoming && Mirrors(t, p, c, incoming, day)
    ensures HasRow(t, p, c, incoming[u])
  {
  }

  lemma QuietRow(t: Table, p: PropertyId, c: Channel, events: seq<Event>, day: Day, e: Event)
    requires SoundRows(t) && UniqueUids(t) && c != Platform
    requires forall x :: x in multiset(events) ==> x.start < x.end
    requires Quiet(t, p, c, LastWins(events), day)
    requires e.uid in LastWins(events) && LastWins(events)[e.uid] == e
    ensures HasRow(t, p, c, e)
  {
    MirrorIsQuiet(t, p, c, LastWins(events), day);
  }

  lemma OneRowOneStay(t: Table, p: PropertyId, c: Channel, e: Event, f: Event)
    requires UniqueUids(t) && HasRow(t, p, c, e) && HasRow(t, p, c, f) && e.uid == f.uid
    ensures e == f
  {
    var i :| i in t && StandsFor(t[i], p, c, e);
    var j :| j in t && StandsFor(t[j], p, c, f);
    assert i == j;
  }

  /** Deleting a row keeps a mirror exactly when the row does not stand for a listed event. */
  lemma {:induction false} DeleteKeepsMirrorExactly(t: Table, p: PropertyId, c: Channel, incoming: map<Uid, Event>,
          day: Day, id: BookingId)
    requires Mirrors(t, p, c, incoming, day) && UniqueUids(t) && Keyed(incoming)
    requires id in t
    ensures Mirrors(t - {id}, p, c, incoming, day) <==> !(Imported(t[id], p, c) && Listed(t[id], incoming))
  {
    var r := t - {id};
    if Imported(t[id], p, c) && Listed(t[id], incoming) {
      var e := incoming[t[id].uid.value];
      forall k | k in r
        ensures !StandsFor(r[k], p, c, e)
      {
        assert k in t && k != id;
      }
      assert !HasRow(r, p, c, e);
    } else {
      forall u | u in incoming
        ensures HasRow(r, p, c, incoming[u])
      {
        var k :| k in t && StandsFor(t[k], p, c, incoming[u]);
        assert k in r && StandsFor(r[k], p, c, incoming[u]);
      }
    }
  }

  /** What two feeds of one (property, channel) must agree on for the older to stay mirrored. */
  ghost predicate SameFuture(a: map<Uid, Event>, b: map<Uid, Event>, day: Day)
  {
    && (forall u :: u in a && u in b ==> a[u] == b[u])
    && (forall u :: u in a && u !in b ==> a[u].end <= day)
    && (forall u :: u in b && u !in a ==> b[u].end <= day)
  }

  /** A full sync of a second feed of the same (property, channel) keeps the first one's mirror
      exactly when the two agree on every uid they share and list nothing else from today on. */
  lemma {:induction false} SecondFeedKeepsMirrorExactly(t: Table, p: PropertyId, c: Channel, owner: UserId,
          first: map<Uid, Event>, second: map<Uid, Event>, today: Day, ids: Draw)
    requires SoundRows(t) && UniqueUids(t) && c != Platform && Keyed(first) && Keyed(second)
    requires ids.Values !! t.Keys && forall u :: u in second ==> u in ids
    requires Mirrors(t, p, c, first, today)
    ensures Mirrors(Reconcile(t, p, c, owner, second, today, ids), p, c, first, today) <==> SameFuture(first, second, today)
  {
    hide Reconcile, Mirrors, UniqueUids, SoundRows, Keyed, SameFuture;
    var r := Reconcile(t, p, c, owner, second, today, ids);
    SyncMirrors(t, p, c, owner, second, today, ids);
    ReconcileKeepsUnique(t, p, c, owner, second, today, ids);
    if SameFuture(first, second, today) {
      AgreeingFeedKeepsMirror(t, p, c, owner, first, second, today, ids);
    }
    if Mirrors(r, p, c, first, today) {
      TwoMirrorsAgree(r, p, c, first, second, today);
    }
  }

  lemma AgreeingFeedKeepsMirror(t: Table, p: PropertyId, c: Channel, owner: UserId, first: map<Uid, Event>,
          second: map<Uid, Event>, today: Day, ids: Draw)
    requires SoundRows(t) && UniqueUids(t) && c != Platform && Keyed(first) && Keyed(second)
    requires Mirrors(t, p, c, first, today) && SameFuture(first, second, today)
    requires Mirrors(Reconcile(t, p, c, owner, second, today, ids), p, c, second, today)
    requires UniqueUids(Reconcile(t, p, c, owner, second, today, ids))
    ensures Mirrors(Reconcile(t, p, c, owner, second, today, ids), p, c, first, today)
  {
    hide Reconcile, HasUid;
    var r := Reconcile(t, p, c, owner, second, today, ids);
    forall u | u in first
      ensures HasRow(r, p, c, first[u])
    {
      if u !in second {
        var id :| id in t && StandsFor(t[id], p, c, first[u]);
        ReconcileAt(t, p, c, owner, second, today, ids, id);
        assert StandsFor(r[id], p, c, first[u]);
      } else {
        assert HasRow(r, p, c, second[u]);
      }
    }
    forall id | id in r && Imported(r[id], p, c) && !Listed(r[id], first) && r[id].status.Confirmed?
      ensures r[id].end <= today
    {
      if Listed(r[id], second) {
        TheRow(r, p, c, second, today, id);
      }
    }
  }

  lemma TwoMirrorsAgree(r: Table, p: PropertyId, c: Channel, first: map<Uid, Event>, second: map<Uid, Event>, today: Day)
    requires UniqueUids(r) && Keyed(first) && Keyed(second)
    requires Mirrors(r, p, c, first, today) && Mirrors(r, p, c, second, today)
    ensures SameFuture(first, second, today)
  {
    forall u | u in first || u in second
      ensures u in first && u in second ==> first[u] == second[u]
      ensures u in first && u !in second ==> first[u].end <= today
      ensures u in second && u !in first ==> second[u].end <= today
    {
      if u in first && u in second {
        OneRowOneStay(r, p, c, first[u], second[u]);
      } else if u in first {
        var id :| id in r && StandsFor(r[id], p, c, first[u]);
        assert !Listed(r[id], second);
      } else {
        var id :| id in r && StandsFor(r[id], p, c, second[u]);
        assert !Listed(r[id], first);
      }
    }
  }

  lemma {:induction false} ReconcileKeepsUnique(t: Table, p: PropertyId, c: Channel, owner: UserId,
          incoming: map<Uid, Event>, today: Day, ids: Draw)
    requires UniqueUids(t) && Keyed(incoming)
    ensures UniqueUids(Reconcile(t, p, c, owner, incoming, today, ids))
  {
    hide Reconcile;
    var r := Reconcile(t, p, c, owner, incoming, today, ids);
    ReconcileKeepsOwners(t, p, c, owner, incoming, today, ids);
    forall i, j | i in r && j in r && i != j && r[i].uid.Some?
        && r[i].property == r[j].property && r[i].channel == r[j].channel
      ensures r[i].uid != r[j].uid
    {
      ReconcileAt(t, p, c, owner, incoming, today, ids, i);
      ReconcileAt(t, p, c, owner, incoming, today, ids, j);
      if i in t && j !in t {
        assert !HasUid(t, p, c, UidOf(ids, j));
      }
      if j in t && i !in t {
        assert !HasUid(t, p, c, UidOf(ids, i));
      }
    }
  }

  // ---- Skipping on a copy of the feed that was loaded earlier ----------------------------------

  /** What the rows, which mirror the `current` events, must still have of the events `loaded` before:
      the two tell the same future, and every elapsed event only the older one lists has its row. */
  ghost predicate StillStands(t: Table, p: PropertyId, c: Channel, loaded: map<Uid, Event>, current: map<Uid, Event>,
          today: Day)
  {
    && SameFuture(loaded, current, today)
    && (forall u :: u in loaded && u !in current ==> HasRow(t, p, c, loaded[u]))
  }

  /** With the rows mirroring the current events, the loaded ones would be quiet today and on every
      later day exactly when they still stand. */
  lemma {:induction false} StaleSkipIsQuietExactly(t: Table, p: PropertyId, c: Channel, loaded: map<Uid, Event>,
          current: map<Uid, Event>, today: Day)
    requires SoundRows(t) && UniqueUids(t) && c != Platform && Keyed(loaded) && Keyed(current)
    requires Mirrors(t, p, c, current, today)
    ensures (forall day :: day >= today ==> Quiet(t, p, c, loaded, day)) <==> StillStands(t, p, c, loaded, current, today)
  {
    hide Quiet, SoundRows;
    MirrorIsQuiet(t, p, c, loaded, today);
    if Mirrors(t, p, c, loaded, today) {
      TwoMirrorsAgree(t, p, c, loaded, current, today);
      forall day | day >= today
        ensures Quiet(t, p, c, loaded, day)
      {
        MirrorIsQuiet(t, p, c, loaded, day);
      }
    } else if StillStands(t, p, c, loaded, current, today) {
      StandingMirrors(t, p, c, loaded, current, today);
    }
  }

  lemma StandingMirrors(t: Table, p: PropertyId, c: Channel, loaded: map<Uid, Event>, current: map<Uid, Event>, today: Day)
    requires UniqueUids(t) && Keyed(current)
    requires Mirrors(t, p, c, current, today) && StillStands(t, p, c, loaded, current, today)
    ensures Mirrors(t, p, c, loaded, today)
  {
    forall u | u in loaded
      ensures HasRow(t, p, c, loaded[u])
    {
      assert u in current ==> HasRow(t, p, c, current[u]);
    }
    forall id | id in t && Imported(t[id], p, c) && !Listed(t[id], loaded) && t[id].status.Confirmed?
      ensures t[id].end <= today
    {
      if Listed(t[id], current) {
        TheRow(t, p, c, current, today, id);
      }
    }
  }

  /** Where just one full sync came between, that the loaded events still stand is that the two
      tell the same future. */
  lemma {:induction false} StaleSkipAfterOneSync(t: Table, p: PropertyId, c: Channel, owner: UserId,
          loaded: map<Uid, Event>, current: map<Uid, Event>, today: Day, ids: Draw)
    requires SoundRows(t) && UniqueUids(t) && c != Platform && Keyed(loaded) && Keyed(current)
    requires ids.Values !! t.Keys && forall u :: u in current ==> u in ids
    requires Mirrors(t, p, c, loaded, today)
    ensures var r := Reconcile(t, p, c, owner, current, today, ids);
      StillStands(r, p, c, loaded, current, today) <==> SameFuture(loaded, current, today)
  {
    hide Reconcile, SoundRows;
    SecondFeedKeepsMirrorExactly(t, p, c, owner, loaded, current, today, ids);
  }
}
