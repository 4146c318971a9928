/** The batch jobs that drain due bookings (app/routers/internal_checkin.py), run without
    interference. */
module CheckinLoops {
  import opened Prelude
  import opened Nights
  import opened Model
  import opened Crud
  import Protocol = CheckinDispatch

  const BATCH_SIZE: nat := 100

  type Mail = Protocol.Mail

  predicate Raises(m: Mail) { m.Bounces? || m.Unresolved? }

  class Outbox {
    var sent: seq<BookingId>
  }

  function MarkSent(t: Table, ids: set<BookingId>): Table
  {
    map id | id in t :: if id in ids then t[id].(linkSent := true) else t[id]
  }

  /** The dispatch query: confirmed, starting by the cutoff, not yet marked. */
  function Due(t: Table, cutoff: Day): set<BookingId>
  {
    set id | id in t && t[id].start <= cutoff && t[id].status.Confirmed? && !t[id].linkSent
  }

  /** Up to `limit` members of the set, each once. */
  method TakeBatch(all: set<BookingId>, limit: nat) returns (batch: seq<BookingId>)
    ensures DistinctSeq(batch) && forall id :: id in batch ==> id in all
    ensures |batch| == if |all| < limit then |all| else limit
    ensures |batch| < limit ==> forall id :: id in all ==> id in batch
  {
    batch := [];
    var rest := all;
    while |batch| < limit && rest != {}
      invariant DistinctSeq(batch) && |batch| <= limit && |batch| + |rest| == |all|
      invariant forall id :: id in all <==> id in batch || id in rest
      invariant forall id :: id in batch ==> id !in rest
      decreases rest
    {
      var id :| id in rest;
      batch := batch + [id];
      rest := rest - {id};
    }
  }

  /** The marker of the booking is null, so a claim succeeds. */
  predicate Claimable(t: Table, id: BookingId)
  {
    id in t && !t[id].linkSent
  }

  function MarkedAfter(t: Table, id: BookingId, mail: Mail): Table
  {
    if Claimable(t, id) && !mail.Bounces? then MarkSent(t, {id}) else t
  }

  function SentAfter(sent: seq<BookingId>, t: Table, id: BookingId, mail: Mail): seq<BookingId>
  {
    if Claimable(t, id) && mail.Delivers? then sent + [id] else sent
  }

  /** Claim, send, release on failure. `raised` tells that the call raised. */
  method SendCheckinLink(db: Database, outbox: Outbox, id: BookingId, mail: Mail) returns (raised: bool)
    requires db.Valid()
    modifies db`bookings, outbox
    ensures db.Valid()
    ensures raised == (old(Claimable(db.bookings, id)) && Raises(mail))
    ensures db.bookings == MarkedAfter(old(db.bookings), id, mail)
    ensures outbox.sent == SentAfter(old(outbox.sent), old(db.bookings), id, mail)
  {
    var claimed := id in db.bookings && !db.bookings[id].linkSent;
    if !claimed {
      return false;
    }
    db.bookings := db.bookings[id := db.bookings[id].(linkSent := true)];
    match mail {
      case Unresolved => return true;
      case NoRecipient => return false;
      case Delivers =>
        outbox.sent := outbox.sent + [id];
        return false;
      case Bounces =>
        db.bookings := db.bookings[id := db.bookings[id].(linkSent := false)];
        return true;
    }
  }

  /** For one booking: exactly a confirmed, unmarked one that starts by the cutoff is marked, unless its
      send raises, and sent its link if it can be delivered; nothing else changes. */
  ghost predicate NearLinkSent(t0: Table, t: Table, sent0: seq<BookingId>, sent: seq<BookingId>, id: BookingId,
          cutoff: Day, mail: Mail)
  {
    var near := id in t0 && t0[id].status == Confirmed && t0[id].start <= cutoff && !t0[id].linkSent;
    && t == (if near && mail != Protocol.Bounces then t0[id := t0[id].(linkSent := true)] else t0)
    && sent == (if near && mail == Protocol.Delivers then sent0 + [id] else sent0)
  }

  /** The immediate task of a just-confirmed booking: it attempts a send exactly when the booking,
      as loaded, is due, and it never raises. */
  method MaybeSendCheckinLink(db: Database, outbox: Outbox, id: BookingId, cutoff: Day, mail: Mail)
    requires db.Valid()
    modifies db`bookings, outbox
    ensures db.Valid()
    ensures db.bookings == if id in Due(old(db.bookings), cutoff) then MarkedAfter(old(db.bookings), id, mail) else old(db.bookings)
    ensures outbox.sent ==
      if id in Due(old(db.bookings), cutoff) then SentAfter(old(outbox.sent), old(db.bookings), id, mail) else old(outbox.sent)
    ensures NearLinkSent(old(db.bookings), db.bookings, old(outbox.sent), outbox.sent, id, cutoff, mail)
  {
    if id !in db.bookings || db.bookings[id].status != Confirmed {
      return;
    }
    if db.bookings[id].linkSent {
      return;
    }
    if db.bookings[id].start > cutoff {
      return;
    }
    var _ := SendCheckinLink(db, outbox, id, mail);
  }

  /** The tables as the protocol sees them. */
  ghost predicate Shows(s: Protocol.System, t: Table, sent: seq<BookingId>)
  {
    && s.marker.Keys == t.Keys
    && (forall id :: id in t ==> (s.marker[id].Some? <==> t[id].linkSent))
    && s.sent == multiset(sent)
  }

  /** The sequential send is one worker's undisturbed attempt in the protocol of many workers. */
  lemma SendIsAnAttempt(s: Protocol.System, t: Table, sent: seq<BookingId>, w: Protocol.WorkerId, id: BookingId, mail: Mail)
    requires Shows(s, t, sent) && s.PhaseOf(w) == Protocol.Loaded(id)
    ensures var steps := if Claimable(t, id) then Protocol.Attempt(w, mail) else [Protocol.Claim(w)];
      && Protocol.Legal(s, steps)
      && Shows(Protocol.Run(s, steps), MarkedAfter(t, id, mail), SentAfter(sent, t, id, mail))
  {
    if Claimable(t, id) {
      Protocol.AttemptAlone(s, w, id, mail);
    } else {
      var steps := [Protocol.Claim(w)];
      assert Protocol.Legal(Protocol.Next(s, steps[0]), steps[1..]);
      assert Protocol.Run(s, steps) == Protocol.Next(s, Protocol.Claim(w));
    }
  }

  function Delivered(ids: set<BookingId>, mail: BookingId -> Mail): set<BookingId>
  {
    set id | id in ids && mail(id).Delivers?
  }

  /** What the dispatch has done so far: `done` of the due bookings are marked, and each of them
      that has an address was sent its link once. */
  ghost predicate Dispatched(t0: Table, t: Table, sent0: seq<BookingId>, sent: seq<BookingId>, cutoff: Day,
          done: set<BookingId>, mail: BookingId -> Mail)
  {
    && done <= Due(t0, cutoff)
    && t == MarkSent(t0, done)
    && sent0 <= sent
    && multiset(sent[|sent0|..]) == multiset(Delivered(done, mail))
  }

  lemma DueShrinks(t0: Table, cutoff: Day, done: set<BookingId>)
    ensures Due(MarkSent(t0, done), cutoff) == Due(t0, cutoff) - done
  {
  }

  lemma OneMoreDispatched(t0: Table, t: Table, sent0: seq<BookingId>, sent: seq<BookingId>, cutoff: Day,
          done: set<BookingId>, mail: BookingId -> Mail, id: BookingId)
    requires Dispatched(t0, t, sent0, sent, cutoff, done, mail)
    requires id in Due(t0, cutoff) && id !in done && !mail(id).Bounces?
    ensures Dispatched(t0, MarkSent(t, {id}), sent0, if mail(id).Delivers? then sent + [id] else sent, cutoff, done + {id}, mail)
    ensures |done + {id}| == |done| + 1
  {
    assert MarkSent(t, {id}) == MarkSent(t0, done + {id});
    if mail(id).Delivers? {
      assert (sent + [id])[|sent0|..] == sent[|sent0|..] + [id];
      assert Delivered(done + {id}, mail) == Delivered(done, mail) + {id};
    } else {
      assert Delivered(done + {id}, mail) == Delivered(done, mail);
    }
  }

  /** One batch: send the links one after the other, until one raises. */
  method SendBatch(db: Database, outbox: Outbox, due: seq<BookingId>, mail: BookingId -> Mail, ghost t0: Table,
          ghost sent0: seq<BookingId>, ghost cutoff: Day, ghost before: set<BookingId>)
      returns (raised: bool, ghost done: set<BookingId>)
    requires db.Valid() && Dispatched(t0, db.bookings, sent0, outbox.sent, cutoff, before, mail)
    requires DistinctSeq(due) && forall id :: id in due ==> id in Due(t0, cutoff) && id !in before
    modifies db`bookings, outbox
    ensures db.Valid() && Dispatched(t0, db.bookings, sent0, outbox.sent, cutoff, done, mail)
    ensures before <= done
    ensures raised <==> exists id :: id in due && Raises(mail(id))
    ensures !raised ==> |done| == |before| + |due| && forall id :: id in done <==> id in before || id in due
  {
    done := before;
    for i := 0 to |due|
      invariant db.Valid() && Dispatched(t0, db.bookings, sent0, outbox.sent, cutoff, done, mail)
      invariant |done| == |before| + i
      invariant forall id :: id in due[..i] ==> !Raises(mail(id))
      invariant forall id :: id in done <==> id in before || id in due[..i]
    {
      var id := due[i];
      assert due[..i + 1] == due[..i] + [id];
      assert id in due && id !in due[..i];
      ghost var t, sent := db.bookings, outbox.sent;
      raised := SendCheckinLink(db, outbox, id, mail(id));
      if !mail(id).Bounces? {
        OneMoreDispatched(t0, t, sent0, sent, cutoff, done, mail, id);
        done := done + {id};
      }
      if raised {
        return;
      }
    }
    assert due[..|due|] == due;
    raised := false;
  }

  /** The dispatch job. Without a raising send it returns the number of initially due bookings,
      marks exactly those, sends each link once where there is an address, and leaves nothing due.
      A raising send ends it early with some of the due bookings done. */
  method DispatchCheckinLinks(db: Database, outbox: Outbox, cutoff: Day,
          mail: BookingId -> Mail) returns (dispatched: Option<nat>)
    requires db.Valid()
    modifies db`bookings, outbox
    ensures db.Valid()
    ensures dispatched.Some? <==> forall id :: id in Due(old(db.bookings), cutoff) ==> !Raises(mail(id))
    ensures dispatched.Some? ==>
      && dispatched.value == |Due(old(db.bookings), cutoff)|
      && Dispatched(old(db.bookings), db.bookings, old(outbox.sent), outbox.sent, cutoff, Due(old(db.bookings), cutoff), mail)
      && Due(db.bookings, cutoff) == {}
    ensures dispatched.Some? <==> NearLinksGoThrough(old(db.bookings), cutoff, mail)
    ensures dispatched.Some? ==>
      && NearLinksSent(old(db.bookings), db.bookings, old(outbox.sent), outbox.sent, cutoff, mail)
      && dispatched.value == |NewlyMarked(old(db.bookings), db.bookings)|
    ensures dispatched.None? ==>
      exists done :: Dispatched(old(db.bookings), db.bookings, old(outbox.sent), outbox.sent, cutoff, done, mail)
  {
    ghost var t0, sent0, done := db.bookings, outbox.sent, {};
    var count := 0;
    assert MarkSent(t0, {}) == t0;
    NearIsDue(t0, cutoff, mail);
    hide NearLinksGoThrough, NearLinksSent, NewlyMarked;
    while true
      invariant db.Valid() && Dispatched(t0, db.bookings, sent0, outbox.sent, cutoff, done, mail)
      invariant count == |done|
      invariant forall id :: id in done ==> !Raises(mail(id))
      decreases Due(t0, cutoff) - done
    {
      DueShrinks(t0, cutoff, done);
      var due := TakeBatch(Due(db.bookings, cutoff), BATCH_SIZE);
      hide Due, Dispatched, MarkSent;
      if |due| == 0 {
        AllDone(t0, db.bookings, sent0, outbox.sent, cutoff, done, due, done, mail);
        DispatchedRows(t0, db.bookings, sent0, outbox.sent, cutoff, mail);
        return Some(count);
      }
      var raised;
      ghost var before := done;
      raised, done := SendBatch(db, outbox, due, mail, t0, sent0, cutoff, before);
      if raised {
        return None;
      }
      count := count + |due|;
      assert due[0] in done && due[0] !in before && due[0] in Due(t0, cutoff);
      if |due| < BATCH_SIZE {
        AllDone(t0, db.bookings, sent0, outbox.sent, cutoff, before, due, done, mail);
        DispatchedRows(t0, db.bookings, sent0, outbox.sent, cutoff, mail);
        return Some(count);
      }
    }
  }

  /** Row by row: the confirmed bookings starting by the cutoff are marked now, every row is otherwise
      as it was, and the links added are those of the newly marked bookings that can be delivered,
      one for each. */
  ghost predicate NearLinksSent(t0: Table, t: Table, sent0: seq<BookingId>, sent: seq<BookingId>, cutoff: Day,
          mail: BookingId -> Mail)
  {
    && t.Keys == t0.Keys
    && (forall id :: id in t0 ==>
          t[id] == t0[id].(linkSent := t0[id].linkSent || (t0[id].status == Confirmed && t0[id].start <= cutoff)))
    && sent0 <= sent
    && (forall id :: multiset(sent[|sent0|..])[id] ==
          if id in t0 && !t0[id].linkSent && t[id].linkSent && mail(id) == Protocol.Delivers then 1 else 0)
  }

  /** No send is in the way: each confirmed, unmarked booking starting by the cutoff has no address or
      takes delivery. */
  ghost predicate NearLinksGoThrough(t0: Table, cutoff: Day, mail: BookingId -> Mail)
  {
    forall id :: id in t0 && t0[id].status == Confirmed && t0[id].start <= cutoff && !t0[id].linkSent ==>
      mail(id) == Protocol.NoRecipient || mail(id) == Protocol.Delivers
  }

  ghost function NewlyMarked(t0: Table, t: Table): set<BookingId>
    requires t0.Keys == t.Keys
  {
    set id | id in t0 && !t0[id].linkSent && t[id].linkSent
  }

  lemma NearIsDue(t0: Table, cutoff: Day, mail: BookingId -> Mail)
    ensures NearLinksGoThrough(t0, cutoff, mail) <==> forall id :: id in Due(t0, cutoff) ==> !Raises(mail(id))
  {
  }

  lemma DispatchedRows(t0: Table, t: Table, sent0: seq<BookingId>, sent: seq<BookingId>, cutoff: Day,
          mail: BookingId -> Mail)
    requires Dispatched(t0, t, sent0, sent, cutoff, Due(t0, cutoff), mail)
    ensures NearLinksSent(t0, t, sent0, sent, cutoff, mail)
    ensures |NewlyMarked(t0, t)| == |Due(t0, cutoff)|
  {
    assert NewlyMarked(t0, t) == Due(t0, cutoff);
  }

  /** A later cutoff never marks fewer bookings. */
  lemma LaterCutoffMarksMore(t0: Table, t: Table, t': Table, sent0: seq<BookingId>, sent: seq<BookingId>,
          sent': seq<BookingId>, cutoff: Day, later: Day, mail: BookingId -> Mail)
    requires cutoff <= later
    requires NearLinksSent(t0, t, sent0, sent, cutoff, mail) && NearLinksSent(t0, t', sent0, sent', later, mail)
    ensures forall id :: id in t && t[id].linkSent ==> id in t' && t'[id].linkSent
  {
  }

  /** A short batch held everything that was left. */
  lemma AllDone(t0: Table, t: Table, sent0: seq<BookingId>, sent: seq<BookingId>, cutoff: Day, before: set<BookingId>,
          due: seq<BookingId>, done: set<BookingId>, mail: BookingId -> Mail)
    requires Dispatched(t0, t, sent0, sent, cutoff, done, mail)
    requires forall id :: id in Due(t0, cutoff) - before ==> id in due
    requires forall id :: id in done <==> id in before || id in due
    ensures done == Due(t0, cutoff) && Due(t, cutoff) == {}
  {
    DueShrinks(t0, cutoff, done);
    forall id | id in Due(t0, cutoff)
      ensures id in done
    {
      assert id in before || id in Due(t0, cutoff) - before;
    }
  }

  // ---- Purging guest identities ---------------------------------------------------------------

  type GuestId = nat

  datatype Guest = Guest(
    booking: BookingId,
    firstName: string,
    middleName: Option<string>,
    lastName: string,
    dateOfBirth: Option<Day>,
    gender: Option<string>,
    citizenship: Option<string>,
    documentType: Option<string>,
    documentNumber: Option<string>,
    issuingCountry: Option<string>,
    pin: Option<string>)

  /** Everything but the names is cleared. */
  function Cleared(g: Guest): Guest
  {
    g.(dateOfBirth := None, gender := None, citizenship := None, documentType := None, documentNumber := None,
       issuingCountry := None, pin := None)
  }

  function ClearAll(guests: map<GuestId, Guest>, ids: set<BookingId>): map<GuestId, Guest>
  {
    map g | g in guests :: if guests[g].booking in ids then Cleared(guests[g]) else guests[g]
  }

  function MarkPurged(t: Table, ids: set<BookingId>): Table
  {
    map id | id in t :: if id in ids then t[id].(purged := true) else t[id]
  }

  function PurgeDue(t: Table, cutoff: Day): set<BookingId>
  {
    set id | id in t && t[id].end <= cutoff && !t[id].purged
  }

  class GuestTable {
    var guests: map<GuestId, Guest>
  }

  lemma PurgeDueShrinks(t0: Table, cutoff: Day, done: set<BookingId>)
    ensures PurgeDue(MarkPurged(t0, done), cutoff) == PurgeDue(t0, cutoff) - done
  {
  }

  /** What the purge has done so far: `done` of the due bookings are marked and their guests cleared. */
  ghost predicate Purged(t0: Table, t: Table, g0: map<GuestId, Guest>, g: map<GuestId, Guest>, cutoff: Day,
          done: set<BookingId>)
  {
    && done <= PurgeDue(t0, cutoff)
    && t == MarkPurged(t0, done)
    && g == ClearAll(g0, done)
  }

  lemma NothingPurged(t: Table, g: map<GuestId, Guest>, cutoff: Day)
    ensures Purged(t, t, g, g, cutoff, {})
  {
  }

  /** A drawn batch is new, and drawing less than a full batch leaves nothing due. */
  lemma PurgeBatch(t0: Table, t: Table, g0: map<GuestId, Guest>, g: map<GuestId, Guest>, cutoff: Day,
          done: set<BookingId>, ids: set<BookingId>)
    requires Purged(t0, t, g0, g, cutoff, done) && ids <= PurgeDue(t, cutoff)
    ensures Purged(t0, MarkPurged(t, ids), g0, ClearAll(g, ids), cutoff, done + ids)
    ensures ids !! done && PurgeDue(t, cutoff) == PurgeDue(t0, cutoff) - done
    ensures ids == PurgeDue(t, cutoff) ==> done + ids == PurgeDue(t0, cutoff) && PurgeDue(MarkPurged(t, ids), cutoff) == {}
  {
    PurgeDueShrinks(t0, cutoff, done);
    PurgeDueShrinks(t, cutoff, ids);
    assert MarkPurged(t, ids) == MarkPurged(t0, done + ids);
    assert ClearAll(g, ids) == ClearAll(g0, done + ids);
  }

  /** Row by row: the bookings that ended by the cutoff are marked now, whatever their status, and the
      guests of those marked only now have lost everything but their names. */
  ghost predicate OldGuestsPurged(t0: Table, t: Table, g0: map<GuestId, Guest>, g: map<GuestId, Guest>, cutoff: Day)
  {
    && t.Keys == t0.Keys && g.Keys == g0.Keys
    && (forall id :: id in t0 ==> t[id] == t0[id].(purged := t0[id].purged || t0[id].end <= cutoff))
    && (forall k :: k in g0 ==>
          g[k] == if g0[k].booking in t0 && !t0[g0[k].booking].purged && t[g0[k].booking].purged
                  then Guest(g0[k].booking, g0[k].firstName, g0[k].middleName, g0[k].lastName,
                             None, None, None, None, None, None, None)
                  else g0[k])
  }

  lemma PurgedRows(t0: Table, t: Table, g0: map<GuestId, Guest>, g: map<GuestId, Guest>, cutoff: Day)
    requires Purged(t0, t, g0, g, cutoff, PurgeDue(t0, cutoff))
    ensures OldGuestsPurged(t0, t, g0, g, cutoff)
  {
  }

  /** The purge job: it returns the number of initially due bookings, marks exactly those, clears
      exactly their guests, and leaves nothing due. */
  method PurgeGuestIdentities(db: Database, table: GuestTable, cutoff: Day) returns (purgedBookings: nat)
    requires db.Valid()
    modifies db`bookings, table
    ensures db.Valid()
    ensures purgedBookings == |PurgeDue(old(db.bookings), cutoff)|
    ensures db.bookings == MarkPurged(old(db.bookings), PurgeDue(old(db.bookings), cutoff))
    ensures table.guests == ClearAll(old(table.guests), PurgeDue(old(db.bookings), cutoff))
    ensures PurgeDue(db.bookings, cutoff) == {}
    ensures OldGuestsPurged(old(db.bookings), db.bookings, old(table.guests), table.guests, cutoff)
  {
    hide MarkPurged, ClearAll, PurgeDue;
    ghost var t0, g0, done := db.bookings, table.guests, {};
    purgedBookings := 0;
    NothingPurged(t0, g0, cutoff);
    while true
      invariant db.Valid() && Purged(t0, db.bookings, g0, table.guests, cutoff, done)
      invariant purgedBookings == |done|
      decreases PurgeDue(t0, cutoff) - done
    {
      var due := TakeBatch(PurgeDue(db.bookings, cutoff), BATCH_SIZE);
      var ids := set id | id in due;
      BatchSize(due, ids);
      PurgeBatch(t0, db.bookings, g0, table.guests, cutoff, done, ids);
      if |due| == 0 {
        assert ids == {} && done + ids == done;
        MarkNone(db.bookings);
        PurgedRows(t0, db.bookings, g0, table.guests, cutoff);
        return;
      }
      assert due[0] in ids;
      ClearBookings(db, table, ids);
      done := done + ids;
      purgedBookings := purgedBookings + |due|;
      if |due| < BATCH_SIZE {
        PurgedRows(t0, db.bookings, g0, table.guests, cutoff);
        return;
      }
    }
  }

  lemma MarkNone(t: Table)
    ensures MarkPurged(t, {}) == t
  {
  }

  /** The two updates of a batch: the guests' details, then the bookings' markers. */
  method ClearBookings(db: Database, table: GuestTable, ids: set<BookingId>)
    requires db.Valid()
    modifies db`bookings, table
    ensures db.Valid()
    ensures table.guests == ClearAll(old(table.guests), ids)
    ensures db.bookings == MarkPurged(old(db.bookings), ids)
  {
    table.guests := ClearAll(table.guests, ids);
    db.bookings := MarkPurged(db.bookings, ids);
  }

  lemma {:induction false} BatchSize(batch: seq<BookingId>, ids: set<BookingId>)
    requires DistinctSeq(batch) && ids == set id | id in batch
    ensures |ids| == |batch|
    decreases |batch|
  {
    if batch != [] {
      var rest, last := batch[..|batch| - 1], batch[|batch| - 1];
      assert batch == rest + [last];
      BatchSize(rest, ids - {last});
    }
  }

  /** A guest of a purged booking keeps the names and loses every other detail; other guests keep
      everything. */
  lemma PurgeKeepsNames(guests: map<GuestId, Guest>, t: Table, cutoff: Day, g: GuestId)
    requires g in guests
    ensures var after := ClearAll(guests, PurgeDue(t, cutoff))[g];
      && after.booking == guests[g].booking && after.firstName == guests[g].firstName
      && after.middleName == guests[g].middleName && after.lastName == guests[g].lastName
      && (guests[g].booking !in PurgeDue(t, cutoff) ==> after == guests[g])
      && (guests[g].booking in PurgeDue(t, cutoff) ==>
            after.dateOfBirth.None? && after.gender.None? && after.citizenship.None? && after.documentType.None?
            && after.documentNumber.None? && after.issuingCountry.None? && after.pin.None?)
  {
  }
}
