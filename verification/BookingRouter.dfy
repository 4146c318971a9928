/** The booking endpoints that touch occupancy (app/routers/booking.py). */
module BookingRouter {
  import opened Prelude
  import opened Nights
  import opened Model
  import opened Crud
  import opened Cache
  import opened Pricing
  import opened RefundSchedule

  // ---- Creating a booking -----------------------------------------------------------------------

  /** The requested stay, as the request body carries it. */
  datatype Request = Request(property: PropertyId, start: Day, end: Day)

  datatype PropertyInfo = PropertyInfo(
    owner: UserId,
    active: bool,
    windowDays: int,
    minNights: int,
    gapFiller: bool,
    gapWindow: int,
    adjacentOnly: bool,
    gapTax: Percent)

  datatype Quote = UnpricedNights | PricingDown | Quoted(total: Cents)

  /** What the request meets: the property, its unavailable windows, a price, the server's date. */
  datatype World = World(info: Option<PropertyInfo>, windows: seq<Slot>, quote: Quote, clock: Day)

  datatype Refusal =
    | InvalidDates | NoProperty | NotActive | TooFarAhead | TooShort
    | Unpriced | PricingUnavailable | Refused(reason: CreateError)

  function StayNights(r: Request): int { r.end - r.start }

  predicate HasBefore(t: Table, p: PropertyId, start: Day)
  {
    exists id | id in t :: t[id].property == p && Active(t[id]) && t[id].end == start
  }

  predicate HasAfter(t: Table, p: PropertyId, end: Day)
  {
    exists id | id in t :: t[id].property == p && Active(t[id]) && t[id].start == end
  }

  /** A stay below the minimum is let through only as a gap filler. */
  predicate ShortStayAllowed(t: Table, r: Request, info: PropertyInfo, clock: Day)
  {
    && info.gapFiller
    && r.start - clock <= info.gapWindow
    && (info.adjacentOnly ==> HasBefore(t, r.property, r.start) && HasAfter(t, r.property, r.end))
  }

  predicate GapTaxed(r: Request, info: PropertyInfo)
  {
    StayNights(r) < info.minNights && info.gapFiller && info.gapTax.num != 0
  }

  /** The row to be inserted: resolved price, average per night, gap tax on both. */
  function Draft(r: Request, user: UserId, info: PropertyInfo, total: Cents): NewBooking
    requires r.start < r.end && info.gapTax.Valid()
  {
    var avg := Average(total, StayNights(r));
    if GapTaxed(r, info) then
      NewBooking(r.property, info.owner, user, r.start, r.end, Taxed(avg, info.gapTax), Some(Taxed(total, info.gapTax)))
    else NewBooking(r.property, info.owner, user, r.start, r.end, avg, Some(total))
  }

  /** The property data is usable: its gap percentage is a number. */
  predicate ValidWorld(w: World)
  {
    w.info.Some? ==> w.info.value.gapTax.Valid()
  }

  /** The outcome of a create request, checks in the order they are made. */
  function Decision(t: Table, user: UserId, r: Request, w: World): Result<NewBooking, Refusal>
    requires ValidWorld(w)
  {
    if r.end <= r.start then Err(InvalidDates)
    else if w.info.None? then Err(NoProperty)
    else
      var info := w.info.value;
      if !info.active then Err(NotActive)
      else if r.start > w.clock + info.windowDays then Err(TooFarAhead)
      else if StayNights(r) < info.minNights && !ShortStayAllowed(t, r, info, w.clock) then Err(TooShort)
      else if w.quote.UnpricedNights? then Err(Unpriced)
      else if w.quote.PricingDown? then Err(PricingUnavailable)
      else if Unavailable(w.windows, r.start, r.end) then Err(Refused(UnavailablePeriod))
      else if Conflicts(t, r.property, r.start, r.end) then Err(Refused(BookingConflict))
      else Ok(Draft(r, user, info, w.quote.total))
  }

  function Created(s: Stored, id: BookingId, user: UserId, r: Request, w: World): Stored
    requires ValidWorld(w)
  {
    var d := Decision(s.bookings, user, r, w);
    if d.Err? then s
    else s.(bookings := s.bookings[id := PendingRow(d.value)], slots := s.slots - {r.property})
  }

  method CreateBooking(db: Database, cache: SlotsCache, id: BookingId, user: UserId, r: Request, w: World)
      returns (result: Result<Booking, Refusal>)
    requires db.Valid() && ValidWorld(w)
    requires id !in db.bookings
    modifies db, cache
    ensures db.Valid()
    ensures StoredIn(db, cache) == old(Created(StoredIn(db, cache), id, user, r, w))
    ensures var d := old(Decision(db.bookings, user, r, w));
      result == if d.Ok? then Ok(PendingRow(d.value)) else Err(d.error)
  {
    if r.end <= r.start {
      return Err(InvalidDates);
    }
    if w.info.None? {
      return Err(NoProperty);
    }
    var info := w.info.value;
    if !info.active {
      return Err(NotActive);
    }
    var maxStart := w.clock + info.windowDays;
    if r.start > maxStart {
      return Err(TooFarAhead);
    }
    var nights := r.end - r.start;
    if nights < info.minNights {
      if !info.gapFiller {
        return Err(TooShort);
      }
      if r.start - w.clock > info.gapWindow {
        return Err(TooShort);
      }
      if info.adjacentOnly {
        var slots := db.ListOccupiedSlots(r.property);
        var before := exists s | s in slots :: s.end == r.start;
        var after := exists s | s in slots :: s.start == r.end;
        ListedNeighbours(db.bookings, r.property, slots, r.start, r.end);
        if !(before && after) {
          return Err(TooShort);
        }
      }
    }
    if w.quote.UnpricedNights? {
      return Err(Unpriced);
    }
    if w.quote.PricingDown? {
      return Err(PricingUnavailable);
    }
    var total := w.quote.total;
    var avg := Average(total, nights);
    if nights < info.minNights && info.gapFiller && info.gapTax.num != 0 {
      total := Taxed(total, info.gapTax);
      avg := Taxed(avg, info.gapTax);
    }
    var created := db.CreateBooking(id, NewBooking(r.property, info.owner, user, r.start, r.end, avg, Some(total)), w.windows);
    if created.Err? {
      return Err(Refused(created.error));
    }
    cache.Invalidate(r.property, true);
    return Ok(created.value);
  }

  /** Looking for neighbours in the slot list is looking for them in the table. */
  lemma ListedNeighbours(t: Table, p: PropertyId, slots: seq<Slot>, start: Day, end: Day)
    requires Lists(slots, t, p)
    ensures (exists s :: s in slots && s.end == start) <==> HasBefore(t, p, start)
    ensures (exists s :: s in slots && s.start == end) <==> HasAfter(t, p, end)
  {
    forall s
      ensures s in slots <==> SlotIds(t, p, s) != {}
    {
      assert s in slots <==> multiset(slots)[s] > 0;
    }
    if s :| s in slots && s.end == start {
      var id :| id in SlotIds(t, p, s);
    }
    if s :| s in slots && s.start == end {
      var id :| id in SlotIds(t, p, s);
    }
    if HasBefore(t, p, start) {
      var id :| id in t && t[id].property == p && Active(t[id]) && t[id].end == start;
      assert id in SlotIds(t, p, Slot(t[id].start, t[id].end));
    }
    if HasAfter(t, p, end) {
      var id :| id in t && t[id].property == p && Active(t[id]) && t[id].start == end;
      assert id in SlotIds(t, p, Slot(t[id].start, t[id].end));
    }
  }

  ghost predicate PositiveStays(t: Table)
  {
    forall id :: id in t ==> t[id].start < t[id].end
  }

  /** The conflict query in nights: it finds something exactly when a pending or confirmed booking
      shares a night with the stay, that is, when a night of the stay is occupied. */
  lemma ConflictIsOccupiedNight(t: Table, p: PropertyId, start: Day, end: Day)
    requires PositiveStays(t) && start < end
    ensures Conflicts(t, p, start, end) <==>
      exists id :: id in t && t[id].property == p && (t[id].status == Pending || t[id].status == Confirmed)
        && ShareNight(t[id].start, t[id].end, start, end)
    ensures Conflicts(t, p, start, end) <==> exists n :: Covers(start, end, n) && Occupied(t, p, n)
  {
    forall id | id in t
      ensures Overlap(t[id].start, t[id].end, start, end) <==> ShareNight(t[id].start, t[id].end, start, end)
    {
      OverlapIsSharedNight(t[id].start, t[id].end, start, end);
    }
    if Conflicts(t, p, start, end) {
      var id :| id in t && t[id].property == p && Active(t[id]) && Overlap(t[id].start, t[id].end, start, end);
      OverlapIsSharedNight(t[id].start, t[id].end, start, end);
      var n :| Covers(t[id].start, t[id].end, n) && Covers(start, end, n);
      assert Occupied(t, p, n);
    }
    if n :| Covers(start, end, n) && Occupied(t, p, n) {
      var id :| id in t && t[id].property == p && (t[id].status == Pending || t[id].status == Confirmed)
        && Covers(t[id].start, t[id].end, n);
      assert Overlap(t[id].start, t[id].end, start, end);
    }
  }

  /** An accepted stay was wholly free, by the platform and by every channel, and afterwards exactly
      its nights are taken in addition; nothing changes for other properties. */
  lemma AcceptedStayAddsItsNights(s: Stored, id: BookingId, user: UserId, r: Request, w: World, p: PropertyId, n: Day)
    requires PositiveStays(s.bookings) && ValidWorld(w) && id !in s.bookings
    requires Decision(s.bookings, user, r, w).Ok?
    ensures var mine := p == r.property && Covers(r.start, r.end, n);
      && (mine ==> !Occupied(s.bookings, p, n))
      && (Occupied(Created(s, id, user, r, w).bookings, p, n) <==> Occupied(s.bookings, p, n) || mine)
  {
    ConflictIsOccupiedNight(s.bookings, r.property, r.start, r.end);
    var t, t' := s.bookings, Created(s, id, user, r, w).bookings;
    assert t'[id].property == r.property && t'[id].start == r.start && t'[id].end == r.end && Active(t'[id]);
    if Occupied(t, p, n) {
      var i :| i in t && t[i].property == p && (t[i].status == Pending || t[i].status == Confirmed)
        && Covers(t[i].start, t[i].end, n);
      assert i in t' && t'[i] == t[i];
    }
  }

  /** The stay is a whole gap: all its nights free, the nights on both sides taken. */
  ghost predicate WholeGap(t: Table, p: PropertyId, start: Day, end: Day)
  {
    && (forall n :: Covers(start, end, n) ==> !Occupied(t, p, n))
    && Occupied(t, p, start - 1)
    && Occupied(t, p, end)
  }

  /** The neighbour test together with the conflict test accepts exactly the maximal free runs. */
  lemma {:induction false} GapTestIsWholeGap(t: Table, p: PropertyId, start: Day, end: Day)
    requires PositiveStays(t) && start < end
    ensures HasBefore(t, p, start) && HasAfter(t, p, end) && !Conflicts(t, p, start, end) <==> WholeGap(t, p, start, end)
  {
    ConflictIsOccupiedNight(t, p, start, end);
    if HasBefore(t, p, start) && HasAfter(t, p, end) {
      var i :| i in t && t[i].property == p && Active(t[i]) && t[i].end == start;
      assert Covers(t[i].start, t[i].end, start - 1);
      var j :| j in t && t[j].property == p && Active(t[j]) && t[j].start == end;
      assert Covers(t[j].start, t[j].end, end);
    }
    if WholeGap(t, p, start, end) {
      assert Covers(start, end, start) && Covers(start, end, end - 1);
      assert !Occupied(t, p, start) && !Occupied(t, p, end - 1);
      var i :| i in t && t[i].property == p && (t[i].status == Pending || t[i].status == Confirmed)
        && Covers(t[i].start, t[i].end, start - 1);
      assert !Covers(t[i].start, t[i].end, start);
      var j :| j in t && t[j].property == p && (t[j].status == Pending || t[j].status == Confirmed)
        && Covers(t[j].start, t[j].end, end);
      assert !Covers(t[j].start, t[j].end, end - 1);
    }
  }

  /** Every accepted stay below the minimum was a whole gap, where only gaps are to be filled;
      and every whole gap in reach that is priced and available is accepted. */
  lemma ShortStaysFillGaps(t: Table, user: UserId, r: Request, w: World)
    requires PositiveStays(t) && ValidWorld(w)
    requires r.start < r.end && w.info.Some? && StayNights(r) < w.info.value.minNights && w.info.value.adjacentOnly
    ensures Decision(t, user, r, w).Ok? <==>
      && w.info.value.active && r.start <= w.clock + w.info.value.windowDays
      && w.info.value.gapFiller && r.start <= w.clock + w.info.value.gapWindow
      && w.quote.Quoted? && !Unavailable(w.windows, r.start, r.end)
      && WholeGap(t, r.property, r.start, r.end)
  {
    GapTestIsWholeGap(t, r.property, r.start, r.end);
  }

  /** Which requests are accepted, in nights and statuses: for a stay of any length. */
  lemma {:induction false} AcceptedExactly(t: Table, user: UserId, r: Request, w: World)
    requires PositiveStays(t) && ValidWorld(w)
    ensures Decision(t, user, r, w).Ok? <==>
      && r.start < r.end && w.info.Some? && w.info.value.active
      && r.start - w.clock <= w.info.value.windowDays
      && (r.end - r.start >= w.info.value.minNights ||
          (&& w.info.value.gapFiller && r.start - w.clock <= w.info.value.gapWindow
           && (w.info.value.adjacentOnly ==> Occupied(t, r.property, r.start - 1) && Occupied(t, r.property, r.end))))
      && w.quote.Quoted?
      && (forall x :: x in w.windows ==> r.end <= x.start || x.end <= r.start)
      && (forall n :: r.start <= n < r.end ==> !Occupied(t, r.property, n))
  {
    if r.start < r.end {
      GapTestIsWholeGap(t, r.property, r.start, r.end);
      ConflictIsOccupiedNight(t, r.property, r.start, r.end);
    }
    assert (forall n :: Covers(r.start, r.end, n) ==> !Occupied(t, r.property, n)) <==>
      (forall n :: r.start <= n < r.end ==> !Occupied(t, r.property, n));
  }

  /** What an accepted request puts into the table: a pending platform booking of the caller under the
      property's owner, at the quoted price, with the gap percentage added to a stay below the
      minimum, and at the average of the quote for each night. */
  lemma {:induction false} AcceptedRow(s: Stored, id: BookingId, user: UserId, r: Request, w: World)
    requires ValidWorld(w) && Decision(s.bookings, user, r, w).Ok?
    ensures var b := Created(s, id, user, r, w).bookings[id];
      var info, quote, nights := w.info.value, w.quote.total, r.end - r.start;
      && b.property == r.property && b.owner == info.owner && b.user == user && b.start == r.start && b.end == r.end
      && b.status == Pending && b.channel == Platform && b.uid == None && !b.linkSent && !b.purged
      && (nights >= info.minNights || info.gapTax.num == 0 ==>
            b.total == quote && 2 * Abs(nights * b.nightly - quote) <= nights)
      && (nights < info.minNights ==>
            var up, down := 100 * info.gapTax.den + info.gapTax.num, 100 * info.gapTax.den;
            && 2 * Abs(down * b.total - quote * up) <= down
            && exists average :: 2 * Abs(nights * average - quote) <= nights && 2 * Abs(down * b.nightly - average * up) <= down)
  {
    var info, quote, nights := w.info.value, w.quote.total, r.end - r.start;
    var average := Average(quote, nights);
    DriftBeforeTax(quote, nights);
    TaxIsTheSurcharge(quote, info.gapTax);
    TaxIsTheSurcharge(average, info.gapTax);
    hide Average, Taxed, Conflicts;
  }

  /** Why a request is refused: the first of the conditions below that is not met, in this order. */
  lemma {:induction false} RefusedInOrder(t: Table, user: UserId, r: Request, w: World)
    requires PositiveStays(t) && ValidWorld(w)
    ensures Decision(t, user, r, w) == Err(InvalidDates) <==> r.end <= r.start
    ensures Decision(t, user, r, w) == Err(NoProperty) <==> r.start < r.end && w.info == None
    ensures r.start < r.end && w.info.Some? ==>
      var d, info := Decision(t, user, r, w), w.info.value;
      && (d == Err(NotActive) <==> !info.active)
      && (d == Err(TooFarAhead) <==> info.active && r.start - w.clock > info.windowDays)
      && var inGap :=
           && (exists i :: i in t && t[i].property == r.property && t[i].end == r.start
                 && (t[i].status == Pending || t[i].status == Confirmed))
           && (exists i :: i in t && t[i].property == r.property && t[i].start == r.end
                 && (t[i].status == Pending || t[i].status == Confirmed));
         var longEnough := r.end - r.start >= info.minNights ||
           (info.gapFiller && r.start - w.clock <= info.gapWindow && (info.adjacentOnly ==> inGap));
      && (d == Err(TooShort) <==> info.active && r.start - w.clock <= info.windowDays && !longEnough)
      && (info.active && r.start - w.clock <= info.windowDays && longEnough ==>
            && (d == Err(Unpriced) <==> w.quote == UnpricedNights)
            && (d == Err(PricingUnavailable) <==> w.quote == PricingDown)
            && (d == Err(Refused(UnavailablePeriod)) <==>
                  w.quote.Quoted? && exists x :: x in w.windows && r.start < x.end && x.start < r.end)
            && (d == Err(Refused(BookingConflict)) <==>
                  && w.quote.Quoted? && (forall x :: x in w.windows ==> r.end <= x.start || x.end <= r.start)
                  && exists n :: Covers(r.start, r.end, n) && Occupied(t, r.property, n)))
  {
    if r.start < r.end {
      ConflictIsOccupiedNight(t, r.property, r.start, r.end);
    }
  }

  // ---- Changing the status ----------------------------------------------------------------------

  datatype Scope = ScopeAdmin | ScopeAdminWrite | ScopeManage | ScopeCancel | ScopeOther

  datatype Caller = Caller(id: UserId, scopes: set<Scope>)
  {
    predicate IsAdmin() { ScopeAdmin in scopes || ScopeAdminWrite in scopes }
  }

  datatype StatusError = NotFound | ReadOnlyChannel | BadTransition | Forbidden

  function Targets(from: Status): set<Status>
  {
    match from
    case Pending => {Confirmed, Cancelled}
    case Confirmed => {Completed, Cancelled, NoShow}
    case Completed => {}
    case Cancelled => {}
    case NoShow => {}
  }

  function TransitionError(from: Status, to: Status, booker: UserId, owner: UserId, caller: Caller): Option<StatusError>
  {
    if to !in Targets(from) then Some(BadTransition)
    else if caller.IsAdmin() then None
    else
      var manages := ScopeManage in caller.scopes && caller.id == owner;
      if to in {Confirmed, Completed, NoShow} then
        if manages then None else Some(Forbidden)
      else if (ScopeCancel in caller.scopes && caller.id == booker) || manages then None
      else Some(Forbidden)
  }

  function StatusRefusal(t: Table, id: BookingId, to: Status, caller: Caller): Option<StatusError>
  {
    if id !in t then Some(NotFound)
    else if t[id].channel != Platform then Some(ReadOnlyChannel)
    else TransitionError(t[id].status, to, t[id].user, t[id].owner, caller)
  }

  /** What a cancellation meets: whether the refund goes through, the property's policy if it can
      be read, the server's date, and where a half-cent tie falls. */
  datatype RefundWorld = RefundWorld(paid: bool, policy: Option<string>, clock: Day, tieUp: bool)

  /** A refund request: the amount asked for (None: everything) and the amount then recorded. */
  datatype Refund = Refund(id: BookingId, asked: Option<Cents>, recorded: Cents)

  function RefundOf(b: Booking, id: BookingId, to: Status, caller: Caller, w: RefundWorld): Option<Refund>
  {
    if to != Cancelled then None
    else if caller.IsAdmin() || caller.id == b.owner then
      Some(Refund(id, None, if w.paid then b.total else 0))
    else if caller.id == b.user && b.status == Confirmed && w.policy.Some? then
      var percent := FirstMatch(Schedule(w.policy.value), b.start - w.clock);
      if percent <= 0 then None
      else
        var amount := Share(b.total, percent, w.tieUp);
        Some(Refund(id, Some(amount), if w.paid then amount else 0))
    else None
  }

  function StatusChanged(s: Stored, id: BookingId, to: Status, caller: Caller): Stored
  {
    if StatusRefusal(s.bookings, id, to, caller).Some? then s
    else
      var b := s.bookings[id];
      s.(bookings := s.bookings[id := b.(status := to)], slots := s.slots - {b.property})
  }

  method UpdateBookingStatus(db: Database, cache: SlotsCache, id: BookingId, to: Status, caller: Caller, w: RefundWorld)
      returns (result: Result<Booking, StatusError>, refund: Option<Refund>)
    requires db.Valid()
    modifies db, cache
    ensures db.Valid()
    ensures StoredIn(db, cache) == old(StatusChanged(StoredIn(db, cache), id, to, caller))
    ensures var refusal := old(StatusRefusal(db.bookings, id, to, caller));
      if refusal.Some? then result == Err(refusal.value) && refund == None
      else result == Ok(old(db.bookings[id]).(status := to)) && refund == old(RefundOf(db.bookings[id], id, to, caller, w))
  {
    refund := None;
    if id !in db.bookings {
      return Err(NotFound), None;
    }
    var booking := db.bookings[id];
    if booking.channel != Platform {
      return Err(ReadOnlyChannel), None;
    }
    var error := TransitionError(booking.status, to, booking.user, booking.owner, caller);
    if error.Some? {
      return Err(error.value), None;
    }
    var updated := db.UpdateBookingStatus(id, to);
    cache.Invalidate(booking.property, true);
    if to == Cancelled {
      var isOwner := caller.id == booking.owner;
      var isGuest := caller.id == booking.user && !caller.IsAdmin() && !isOwner;
      if caller.IsAdmin() || isOwner {
        refund := Some(Refund(id, None, if w.paid then booking.total else 0));
      } else if isGuest && booking.status == Confirmed {
        refund := ApplyGuestCancelRefund(id, booking, w);
      }
    }
    return Ok(updated.value), refund;
  }

  method ApplyGuestCancelRefund(id: BookingId, b: Booking, w: RefundWorld) returns (refund: Option<Refund>)
    ensures refund ==
      if w.policy.None? || FirstMatch(Schedule(w.policy.value), b.start - w.clock) <= 0 then None
      else
        var amount := Share(b.total, FirstMatch(Schedule(w.policy.value), b.start - w.clock), w.tieUp);
        Some(Refund(id, Some(amount), if w.paid then amount else 0))
  {
    if w.policy.None? {
      return None;
    }
    var daysUntil := b.start - w.clock;
    var percent := RefundPercent(w.policy.value, daysUntil);
    if percent <= 0 {
      return None;
    }
    var amount := Share(b.total, percent, w.tieUp);
    return Some(Refund(id, Some(amount), if w.paid then amount else 0));
  }

  /** The amount lies between nothing and the price. */
  predicate Between(amount: Cents, price: Cents)
  {
    0 <= amount <= price || price <= amount <= 0
  }

  predicate WithinPrice(r: Refund, price: Cents)
  {
    Between(r.recorded, price) && (r.asked.Some? ==> Between(r.asked.value, price))
  }

  /** Every amount asked for or recorded lies between nothing and the booking's price. */
  lemma RefundIsBounded(b: Booking, id: BookingId, to: Status, caller: Caller, w: RefundWorld)
    requires RefundOf(b, id, to, caller, w).Some?
    ensures var r := RefundOf(b, id, to, caller, w).value;
      && r.id == id
      && WithinPrice(r, b.total)
      && (!w.paid ==> r.recorded == 0)
  {
    if !(caller.IsAdmin() || caller.id == b.owner) {
      ConfiguredSchedules(w.policy.value);
      var percent := FirstMatch(Schedule(w.policy.value), b.start - w.clock);
      ShareIsBounded(b.total, percent, w.tieUp);
    }
  }

  /** A cancellation by the host's side refunds everything: no partial amount is named, the price is
      recorded once paid, and no other cancellation of the booking records more. */
  lemma {:induction false} HostRefundIsFull(b: Booking, id: BookingId, caller: Caller, w: RefundWorld)
    requires ScopeAdmin in caller.scopes || ScopeAdminWrite in caller.scopes || caller.id == b.owner
    ensures RefundOf(b, id, Cancelled, caller, w) == Some(Refund(id, None, if w.paid then b.total else 0))
    ensures w.paid && b.total >= 0 ==>
      forall other: Caller, v: RefundWorld :: RefundOf(b, id, Cancelled, other, v).Some? ==>
        RefundOf(b, id, Cancelled, other, v).value.recorded <= RefundOf(b, id, Cancelled, caller, w).value.recorded
  {
    forall other: Caller, v: RefundWorld | b.total >= 0 && RefundOf(b, id, Cancelled, other, v).Some?
      ensures RefundOf(b, id, Cancelled, other, v).value.recorded <= b.total
    {
      RefundIsBounded(b, id, Cancelled, other, v);
    }
  }

  /** A cancellation by the guest refunds by the terms of the property's policy: the whole price, half
      of it to the nearest cent, or nothing; what was asked for is recorded once paid. */
  lemma {:induction false} GuestRefundByTerms(b: Booking, id: BookingId, caller: Caller, w: RefundWorld)
    requires ScopeAdmin !in caller.scopes && ScopeAdminWrite !in caller.scopes
    requires caller.id != b.owner && caller.id == b.user
    ensures var refund, days := RefundOf(b, id, Cancelled, caller, w), b.start - w.clock;
      var full := (w.policy == Some("free") && days >= 1) || (w.policy == Some("moderate") && days >= 5);
      var half := (w.policy == Some("moderate") && 0 <= days < 5) || (w.policy == Some("strict") && days >= 7);
      && (b.status == Confirmed && full ==> refund == Some(Refund(id, Some(b.total), if w.paid then b.total else 0)))
      && (b.status == Confirmed && half ==>
            && refund.Some? && refund.value.id == id && refund.value.asked.Some?
            && -1 <= 2 * refund.value.asked.value - b.total <= 1
            && refund.value.recorded == (if w.paid then refund.value.asked.value else 0))
      && (!(b.status == Confirmed && (full || half)) ==> refund == None)
  {
    if w.policy.Some? {
      var days := b.start - w.clock;
      PolicyTerms(w.policy.value, days);
      ShareIsBounded(b.total, 100, w.tieUp);
      ShareIsBounded(b.total, 50, w.tieUp);
    }
  }

  /** A refund is asked for exactly on a cancellation by the host's side, or by the guest of a
      confirmed booking whose policy leaves a share: never for a guest's pending booking. */
  lemma RefundExactly(b: Booking, id: BookingId, to: Status, caller: Caller, w: RefundWorld)
    requires TransitionError(b.status, to, b.user, b.owner, caller).None?
    ensures RefundOf(b, id, to, caller, w).Some? <==>
      to == Cancelled && (caller.IsAdmin() || caller.id == b.owner ||
        (b.status == Confirmed && w.policy.Some? && FirstMatch(Schedule(w.policy.value), b.start - w.clock) > 0))
    ensures !caller.IsAdmin() && caller.id != b.owner && b.status == Pending ==> RefundOf(b, id, to, caller, w).None?
  {
  }

  /** Who may do what, against the table of rules in the code's own description. */
  lemma TransitionRules(from: Status, to: Status, booker: UserId, owner: UserId, caller: Caller)
    ensures TransitionError(from, to, booker, owner, caller).None? <==>
      && ((from == Pending && (to == Confirmed || to == Cancelled))
          || (from == Confirmed && (to == Completed || to == Cancelled || to == NoShow)))
      && (ScopeAdmin in caller.scopes || ScopeAdminWrite in caller.scopes
          || (ScopeManage in caller.scopes && caller.id == owner)
          || (to == Cancelled && ScopeCancel in caller.scopes && caller.id == booker))
  {
  }

  /** Why a status change is refused: an unknown booking first, then one of a channel, then a move that
      is nobody's, then a caller who may not make it. */
  lemma RefusedChange(t: Table, id: BookingId, to: Status, caller: Caller)
    ensures StatusRefusal(t, id, to, caller) == Some(NotFound) <==> id !in t
    ensures id in t ==> (StatusRefusal(t, id, to, caller) == Some(ReadOnlyChannel) <==> t[id].channel != Platform)
    ensures id in t && t[id].channel == Platform ==>
      var b := t[id];
      var move := (b.status == Pending && (to == Confirmed || to == Cancelled))
        || (b.status == Confirmed && (to == Completed || to == Cancelled || to == NoShow));
      var may := ScopeAdmin in caller.scopes || ScopeAdminWrite in caller.scopes
        || (ScopeManage in caller.scopes && caller.id == b.owner)
        || (to == Cancelled && ScopeCancel in caller.scopes && caller.id == b.user);
      && (StatusRefusal(t, id, to, caller) == Some(BadTransition) <==> !move)
      && (StatusRefusal(t, id, to, caller) == Some(Forbidden) <==> move && !may)
      && (StatusRefusal(t, id, to, caller) == None <==> move && may)
  {
  }

  /** What a status change does to the nights: a confirmation changes none, and any other permitted
      move leaves exactly the nights of the other pending and confirmed bookings. */
  lemma {:induction false} StatusMoveNights(s: Stored, id: BookingId, to: Status, caller: Caller, p: PropertyId, n: Day)
    requires StatusRefusal(s.bookings, id, to, caller).None?
    ensures var t, t' := s.bookings, StatusChanged(s, id, to, caller).bookings;
      && (to == Confirmed ==> (Occupied(t', p, n) <==> Occupied(t, p, n)))
      && (to == Completed || to == Cancelled || to == NoShow ==>
            (Occupied(t', p, n) <==>
             exists k :: k in t && k != id && t[k].property == p && (t[k].status == Pending || t[k].status == Confirmed)
               && Covers(t[k].start, t[k].end, n)))
      && (to == Confirmed || to == Completed || to == Cancelled || to == NoShow)
  {
    var t, t' := s.bookings, StatusChanged(s, id, to, caller).bookings;
    forall k | k in t
      ensures k in t' && t'[k] == if k == id then t[k].(status := to) else t[k]
    {
    }
    if Occupied(t, p, n) && to == Confirmed {
      var k :| k in t && t[k].property == p && (t[k].status == Pending || t[k].status == Confirmed)
        && Covers(t[k].start, t[k].end, n);
      assert k in t';
    }
    forall k | k in t && k != id && t[k].property == p && (t[k].status == Pending || t[k].status == Confirmed)
      && Covers(t[k].start, t[k].end, n)
      ensures Occupied(t', p, n)
    {
      assert k in t';
    }
  }

  // ---- Deleting and reading ---------------------------------------------------------------------

  /** An admin deletion; the cached slots are not dropped. */
  method DeleteBooking(db: Database, id: BookingId) returns (found: bool)
    requires db.Valid()
    modifies db`bookings
    ensures db.Valid()
    ensures found == old(id in db.bookings) && db.bookings == old(db.bookings) - {id}
  {
    found := db.DeleteBooking(id);
  }

  /** A read of the slots; the cache may be unreachable for the lookup or for the store. */
  method GetPropertySlots(db: Database, cache: SlotsCache, p: PropertyId, canRead: bool, canWrite: bool)
      returns (slots: seq<Slot>)
    modifies cache
    ensures canRead && old(p in cache.entries) ==> slots == old(cache.entries[p]) && cache.entries == old(cache.entries)
    ensures !(canRead && old(p in cache.entries)) ==>
      && Lists(slots, db.bookings, p)
      && cache.entries == (if canWrite then old(cache.entries)[p := slots] else old(cache.entries))
  {
    var cached := cache.Get(p, canRead);
    if cached.Some? {
      return cached.value;
    }
    slots := db.ListOccupiedSlots(p);
    cache.Set(p, slots, canWrite);
  }
}
