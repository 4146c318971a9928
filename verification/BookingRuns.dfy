/** Whole runs of the booking lifecycle: status moves, refunds, and the slots cache. */
module BookingRuns {
  import opened Nights
  import opened Model
  import opened Diff
  import opened Crud
  import opened Reconciliation
  import opened Mirror
  import opened CalendarSync
  import opened BookingRouter
  import opened Service

  // ---- Status moves and refunds ---------------------------------------------------------------

  function MovesOf(moves: seq<Move>, id: BookingId): nat
  {
    if moves == [] then 0
    else MovesOf(moves[..|moves| - 1], id) + (if moves[|moves| - 1].id == id then 1 else 0)
  }

  function RefundsOf(refunds: seq<Refund>, id: BookingId): nat
  {
    if refunds == [] then 0
    else RefundsOf(refunds[..|refunds| - 1], id) + (if refunds[|refunds| - 1].id == id then 1 else 0)
  }

  lemma OneMoreMove(moves: seq<Move>, m: Move, id: BookingId)
    ensures MovesOf(moves + [m], id) == MovesOf(moves, id) + (if m.id == id then 1 else 0)
  {
    assert (moves + [m])[..|moves|] == moves;
  }

  lemma OneMoreRefund(refunds: seq<Refund>, r: Refund, id: BookingId)
    ensures RefundsOf(refunds + [r], id) == RefundsOf(refunds, id) + (if r.id == id then 1 else 0)
  {
    assert (refunds + [r])[..|refunds|] == refunds;
  }

  lemma {:induction false} OnceCounted(refunds: seq<Refund>, i: nat)
    requires i < |refunds|
    ensures RefundsOf(refunds, refunds[i].id) >= 1
    decreases |refunds|
  {
    if i < |refunds| - 1 {
      OnceCounted(refunds[..|refunds| - 1], i);
    }
  }

  lemma {:induction false} TwiceCounted(refunds: seq<Refund>, i: nat, j: nat)
    requires i < j < |refunds| && RefundsOf(refunds, refunds[j].id) <= 1
    ensures refunds[i].id != refunds[j].id
    decreases |refunds|
  {
    if j < |refunds| - 1 {
      TwiceCounted(refunds[..|refunds| - 1], i, j);
    } else {
      OnceCounted(refunds[..j], i);
    }
  }

  predicate Terminal(st: Status)
  {
    st.Completed? || st.Cancelled? || st.NoShow?
  }

  /** How many moves a platform booking of this status has behind it. */
  predicate MovesFit(st: Status, moves: nat)
  {
    match st
    case Pending => moves == 0
    case Confirmed => moves == 1
    case Cancelled => 1 <= moves <= 2
    case _ => moves == 2
  }

  /** What the history of a run says about one booking. */
  ghost predicate HistoryOf(s: State, id: BookingId)
  {
    var t, moves, refunds := s.stored.bookings, MovesOf(s.moves, id), RefundsOf(s.refunds, id);
    && (id !in s.used ==> moves == 0 && refunds == 0)
    && moves <= 2 && refunds <= 1
    && (id in t ==>
          if t[id].channel != Platform then moves == 0 && refunds == 0
          else MovesFit(t[id].status, moves) && (!t[id].status.Cancelled? ==> refunds == 0))
  }

  ghost predicate AllHistories(s: State)
  {
    forall id :: HistoryOf(s, id)
  }

  /** A step that is not a status change keeps the history, brings in only new keys, and leaves
      platform bookings with their status and price. */
  ghost predicate KeepsHistory(s: State, r: State, id: BookingId)
  {
    && r.moves == s.moves && r.refunds == s.refunds && s.used <= r.used
    && (id in s.used && id in r.stored.bookings ==> id in s.stored.bookings)
    && (id in r.stored.bookings && id in s.stored.bookings ==>
          var a, b := s.stored.bookings[id], r.stored.bookings[id];
          a.channel == b.channel && a.total == b.total && (a.channel == Platform ==> a.status == b.status))
    && (id in r.stored.bookings && id !in s.used && r.stored.bookings[id].channel == Platform ==>
          r.stored.bookings[id].status.Pending?)
  }

  lemma QuietStepKeepsHistory(s: State, r: State, id: BookingId)
    requires HistoryOf(s, id) && KeepsHistory(s, r, id)
    ensures HistoryOf(r, id)
  {
  }

  lemma ReconcileKeepsBusiness(t: Table, p: PropertyId, c: Channel, owner: UserId, incoming: map<Uid, Event>,
          today: Day, ids: Draw, id: BookingId)
    requires c != Platform
    ensures var r := Reconcile(t, p, c, owner, incoming, today, ids);
      && (id in t ==> id in r)
      && (id in r && id in t ==> r[id].channel == t[id].channel && r[id].total == t[id].total)
      && (id in r && id in t && t[id].channel == Platform ==> r[id] == t[id])
      && (id in r && id !in t ==> id in ids.Values && r[id].channel != Platform)
  {
    ReconcileAt(t, p, c, owner, incoming, today, ids, id);
    hide Reconcile, HasUid;
  }

  lemma SyncStepKeepsHistory(s: State, step: Step, id: BookingId)
    requires Inv(s) && Enabled(s, step) && step.SyncOne? && step.fid in s.stored.feeds
    ensures KeepsHistory(s, Next(s, step), id)
  {
    var feed, o := s.stored.feeds[step.fid], Outcome(step.fetch, step.owner, step.ids, s.today);
    SyncByStore(s.stored, Visit(step.fid, feed, o));
    hide Sync, FeedEvents, FreshDraw, SoundRows, UniqueUids, ChannelRows, NoDoubleBooking, StatusOf, HashOf, Recorded;
    if FullPath(feed, o) {
      ReconcileKeepsBusiness(s.stored.bookings, feed.property, feed.channel, o.owner.value,
                             LastWins(FeedEvents(o.fetch).value), o.today, o.ids, id);
    }
    hide Reconcile;
  }

  lemma OtherStepKeepsHistory(s: State, step: Step, id: BookingId)
    requires Inv(s) && Enabled(s, step)
    requires !step.SetStatus? && !(step.SyncOne? && step.fid in s.stored.feeds)
    ensures KeepsHistory(s, Next(s, step), id)
  {
    hide Decision, Lists, FreshDraw, SoundRows, UniqueUids, ChannelRows, NoDoubleBooking;
  }

  lemma StatusStepKeepsHistory(s: State, step: Step, id: BookingId)
    requires HistoryOf(s, id) && Enabled(s, step) && step.SetStatus? && s.stored.bookings.Keys <= s.used
    ensures HistoryOf(Next(s, step), id)
  {
    hide RefundOf, MovesOf, RefundsOf, TransitionError;
    var t, k := s.stored.bookings, step.target;
    if StatusRefusal(t, k, step.to, step.caller).None? {
      var refund := RefundOf(t[k], k, step.to, step.caller, step.refundWorld);
      TransitionRules(t[k].status, step.to, t[k].user, t[k].owner, step.caller);
      OneMoreMove(s.moves, Move(k, t[k].status, step.to), id);
      if refund.Some? {
        OneMoreRefund(s.refunds, refund.value, id);
        RefundIsBounded(t[k], k, step.to, step.caller, step.refundWorld);
        RefundExactly(t[k], k, step.to, step.caller, step.refundWorld);
      } else {
        assert s.refunds + [] == s.refunds;
      }
    }
  }

  lemma {:induction false} NextKeepsHistories(s: State, step: Step)
    requires Inv(s) && AllHistories(s) && Enabled(s, step)
    ensures AllHistories(Next(s, step))
  {
    hide Inv, HistoryOf, Next, KeepsHistory, Enabled;
    forall id
      ensures HistoryOf(Next(s, step), id)
    {
      HistoryStep(s, step, id);
    }
  }

  lemma HistoryStep(s: State, step: Step, id: BookingId)
    requires Inv(s) && HistoryOf(s, id) && Enabled(s, step)
    ensures HistoryOf(Next(s, step), id)
  {
    hide HistoryOf, Next, KeepsHistory, Enabled;
    if step.SetStatus? {
      StatusStepKeepsHistory(s, step, id);
    } else if step.SyncOne? && step.fid in s.stored.feeds {
      SyncStepKeepsHistory(s, step, id);
      QuietStepKeepsHistory(s, Next(s, step), id);
    } else {
      OtherStepKeepsHistory(s, step, id);
      QuietStepKeepsHistory(s, Next(s, step), id);
    }
  }

  /** In every run each booking changes status at most twice and has at most one refund asked for;
      imported rows take no part. */
  lemma {:induction false} HistoriesOfRuns(s: State, steps: seq<Step>)
    requires Inv(s) && AllHistories(s) && Legal(s, steps)
    ensures AllHistories(Run(s, steps))
    decreases |steps|
  {
    if steps != [] {
      NextKeepsInv(s, steps[0]);
      NextKeepsHistories(s, steps[0]);
      HistoriesOfRuns(Next(s, steps[0]), steps[1..]);
    }
  }

  lemma PriceStep(s: State, step: Step, id: BookingId, price: Cents)
    requires Inv(s) && Enabled(s, step) && id in s.used
    requires id in s.stored.bookings ==> s.stored.bookings[id].total == price
    ensures id in Next(s, step).used
    ensures id in Next(s, step).stored.bookings ==> Next(s, step).stored.bookings[id].total == price
  {
    if step.SetStatus? {
      hide RefundOf;
    } else {
      if step.SyncOne? && step.fid in s.stored.feeds {
        SyncStepKeepsHistory(s, step, id);
      } else {
        OtherStepKeepsHistory(s, step, id);
      }
      hide Next, Enabled, Inv;
    }
  }

  /** A booking keeps its price for ever; its key is not reused. */
  lemma {:induction false} PriceStays(s: State, steps: seq<Step>, id: BookingId, price: Cents)
    requires Inv(s) && Legal(s, steps) && id in s.used
    requires id in s.stored.bookings ==> s.stored.bookings[id].total == price
    ensures id in Run(s, steps).stored.bookings ==> Run(s, steps).stored.bookings[id].total == price
    decreases |steps|
  {
    if steps != [] {
      NextKeepsInv(s, steps[0]);
      PriceStep(s, steps[0], id, price);
      PriceStays(Next(s, steps[0]), steps[1..], id, price);
    }
  }

  /** Some state on the way, after the first `k` steps, had the booking, the refund lies within the
      price it had there, and if the booking is still there it has that price. */
  ghost predicate WithinPriceOnTheWay(s: State, steps: seq<Step>, r: Refund, k: nat)
    requires Legal(s, steps)
  {
    && k < |steps| && Legal(s, steps[..k])
    && var t := Run(s, steps[..k]).stored.bookings;
      && r.id in t && t[r.id].channel == Platform && WithinPrice(r, t[r.id].total)
      && (r.id in Run(s, steps).stored.bookings ==> Run(s, steps).stored.bookings[r.id].total == t[r.id].total)
  }

  lemma StepRefunds(s: State, step: Step)
    requires Enabled(s, step)
    ensures forall r :: r in Next(s, step).refunds && r !in s.refunds ==>
      var t := s.stored.bookings;
      r.id in t && t[r.id].channel == Platform && WithinPrice(r, t[r.id].total)
  {
    hide RefundOf, Sync, Created, WithinPrice, TransitionError;
    if step.SetStatus? && StatusRefusal(s.stored.bookings, step.target, step.to, step.caller).None? {
      var b := s.stored.bookings[step.target];
      if RefundOf(b, step.target, step.to, step.caller, step.refundWorld).Some? {
        RefundIsBounded(b, step.target, step.to, step.caller, step.refundWorld);
      }
    }
  }

  lemma OneStepEarlier(s: State, steps: seq<Step>, r: Refund, k: nat)
    requires steps != [] && Legal(s, steps) && WithinPriceOnTheWay(Next(s, steps[0]), steps[1..], r, k)
    ensures WithinPriceOnTheWay(s, steps, r, k + 1)
  {
    assert steps[..k + 1][0] == steps[0] && steps[..k + 1][1..] == steps[1..][..k];
  }

  /** Every refund of a run lies within the price of the booking it was for, also when the booking
      was deleted since. */
  lemma {:induction false} RefundsWithinPrice(s: State, steps: seq<Step>, r: Refund)
    requires Inv(s) && Legal(s, steps)
    requires r in Run(s, steps).refunds && r !in s.refunds
    ensures exists k: nat :: WithinPriceOnTheWay(s, steps, r, k)
    decreases |steps|
  {
    var next := Next(s, steps[0]);
    NextKeepsInv(s, steps[0]);
    if r in next.refunds {
      StepRefunds(s, steps[0]);
      KnownKeys(s);
      PriceStays(s, steps, r.id, s.stored.bookings[r.id].total);
      assert WithinPriceOnTheWay(s, steps, r, 0);
    } else {
      RefundsWithinPrice(next, steps[1..], r);
      var k: nat :| WithinPriceOnTheWay(next, steps[1..], r, k);
      OneStepEarlier(s, steps, r, k);
    }
  }

  lemma {:induction false} AtMostTwoMovesOneRefund(s: State, steps: seq<Step>, id: BookingId)
    requires Initial(s) && Legal(s, steps)
    ensures MovesOf(Run(s, steps).moves, id) <= 2
    ensures RefundsOf(Run(s, steps).refunds, id) <= 1
    ensures var refunds := Run(s, steps).refunds;
      forall i, j :: 0 <= i < j < |refunds| ==> refunds[i].id != refunds[j].id
    ensures var t := Run(s, steps).stored.bookings;
      id in t && !t[id].status.Cancelled? ==> RefundsOf(Run(s, steps).refunds, id) == 0
    ensures forall r :: r in Run(s, steps).refunds ==> exists k: nat :: WithinPriceOnTheWay(s, steps, r, k)
    ensures var t := Run(s, steps).stored.bookings;
      id in t ==> forall r :: r in Run(s, steps).refunds && r.id == id ==> WithinPrice(r, t[id].total)
  {
    HistoriesOfRuns(s, steps);
    assert HistoryOf(Run(s, steps), id);
    var refunds := Run(s, steps).refunds;
    forall i, j | 0 <= i < j < |refunds|
      ensures refunds[i].id != refunds[j].id
    {
      assert HistoryOf(Run(s, steps), refunds[j].id);
      TwiceCounted(refunds, i, j);
    }
    forall r | r in Run(s, steps).refunds
      ensures exists k: nat :: WithinPriceOnTheWay(s, steps, r, k)
    {
      RefundsWithinPrice(s, steps, r);
    }
  }

  /** A finished platform booking keeps its status for ever, or is deleted; its key is not reused. */
  lemma {:induction false} TerminalIsForever(s: State, steps: seq<Step>, id: BookingId)
    requires Inv(s) && Legal(s, steps)
    requires id in s.used
    requires id in s.stored.bookings ==>
      s.stored.bookings[id].channel == Platform && Terminal(s.stored.bookings[id].status)
    ensures var t := Run(s, steps).stored.bookings;
      id in t ==> id in s.stored.bookings && t[id].channel == Platform && t[id].status == s.stored.bookings[id].status
    decreases |steps|
  {
    if steps != [] {
      NextKeepsInv(s, steps[0]);
      TerminalStep(s, steps[0], id);
      TerminalIsForever(Next(s, steps[0]), steps[1..], id);
    }
  }

  lemma TerminalStep(s: State, step: Step, id: BookingId)
    requires Inv(s) && Enabled(s, step) && id in s.used
    requires id in s.stored.bookings ==>
      s.stored.bookings[id].channel == Platform && Terminal(s.stored.bookings[id].status)
    ensures id in Next(s, step).used
    ensures var t := Next(s, step).stored.bookings;
      id in t ==> id in s.stored.bookings && t[id].channel == Platform && t[id].status == s.stored.bookings[id].status
  {
    if step.SetStatus? {
      hide RefundOf;
    } else {
      if step.SyncOne? && step.fid in s.stored.feeds {
        SyncStepKeepsHistory(s, step, id);
      } else {
        OtherStepKeepsHistory(s, step, id);
      }
      hide Next, Enabled, Inv;
    }
  }

  // ---- The slots cache ------------------------------------------------------------------------

  /** A cached list names every active slot of the property, each often enough; and exactly those
      unless a booking of the property was deleted since the list was stored. */
  ghost predicate CacheFits(s: State, p: PropertyId)
  {
    p in s.stored.slots ==>
      && (forall x :: |SlotIds(s.stored.bookings, p, x)| <= multiset(s.stored.slots[p])[x])
      && (p !in s.stale ==> Lists(s.stored.slots[p], s.stored.bookings, p))
  }

  ghost predicate CacheSound(s: State)
  {
    forall p :: CacheFits(s, p)
  }

  /** The active slots of the property are the same. */
  ghost predicate SameSlots(t: Table, t': Table, p: PropertyId)
  {
    forall x :: SlotIds(t, p, x) == SlotIds(t', p, x)
  }

  lemma SameSlotsFit(s: State, r: State, p: PropertyId)
    requires CacheFits(s, p)
    requires p in r.stored.slots ==> p in s.stored.slots && r.stored.slots[p] == s.stored.slots[p]
    requires p in r.stored.slots && p !in r.stale ==> p !in s.stale
    requires p in r.stored.slots ==> SameSlots(s.stored.bookings, r.stored.bookings, p)
    ensures CacheFits(r, p)
  {
    if p in r.stored.slots {
      forall x
        ensures |SlotIds(r.stored.bookings, p, x)| == |SlotIds(s.stored.bookings, p, x)|
      {
        assert SlotIds(s.stored.bookings, p, x) == SlotIds(r.stored.bookings, p, x);
      }
    }
  }

  /** Rows of the property unchanged: same slots. */
  lemma SameRowsSameSlots(t: Table, t': Table, p: PropertyId)
    requires forall id :: id in t && t[id].property == p ==> id in t' && t'[id] == t[id]
    requires forall id :: id in t' && t'[id].property == p ==> id in t && t[id] == t'[id]
    ensures SameSlots(t, t', p)
  {
  }

  lemma DeleteFits(s: State, id: BookingId, p: PropertyId)
    requires CacheFits(s, p)
    ensures CacheFits(Remove(s, id), p)
  {
    var t, t' := s.stored.bookings, Remove(s, id).stored.bookings;
    if id in t && p in s.stored.slots {
      forall x
        ensures |SlotIds(t', p, x)| <= |SlotIds(t, p, x)|
        ensures t[id].property != p ==> SlotIds(t', p, x) == SlotIds(t, p, x)
      {
        FewerNotMore(SlotIds(t', p, x), SlotIds(t, p, x));
      }
    }
  }

  /** An exact list stays exact under a deletion exactly when the deleted booking was not an active
      booking of the property. */
  lemma DeleteKeepsListExactly(t: Table, id: BookingId, p: PropertyId, slots: seq<Slot>)
    requires Lists(slots, t, p) && id in t
    ensures Lists(slots, t - {id}, p) <==> !(t[id].property == p && Active(t[id]))
  {
    var r, lost := t - {id}, Slot(t[id].start, t[id].end);
    if t[id].property == p && Active(t[id]) {
      assert id in SlotIds(t, p, lost) && SlotIds(r, p, lost) == SlotIds(t, p, lost) - {id};
    } else {
      forall x
        ensures SlotIds(r, p, x) == SlotIds(t, p, x)
      {
      }
    }
  }

  /** Why a new booking has to drop the list: an exact list kept while a row is inserted still covers
      the property's active slots exactly when the row is not an active one of the property. */
  lemma InsertKeepsCoverExactly(t: Table, id: BookingId, b: Booking, p: PropertyId, slots: seq<Slot>)
    requires Lists(slots, t, p) && id !in t
    ensures (forall x :: |SlotIds(t[id := b], p, x)| <= multiset(slots)[x]) <==> !(b.property == p && Active(b))
  {
    var r, added := t[id := b], Slot(b.start, b.end);
    if b.property == p && Active(b) {
      assert SlotIds(r, p, added) == SlotIds(t, p, added) + {id};
    } else {
      forall x
        ensures SlotIds(r, p, x) == SlotIds(t, p, x)
      {
      }
    }
  }

  lemma FewerNotMore(a: set<BookingId>, b: set<BookingId>)
    requires a <= b
    ensures |a| <= |b|
  {
    if a != b {
      assert b == a + (b - a);
    }
  }

  lemma SyncFits(s: State, step: Step, p: PropertyId)
    requires CacheFits(s, p) && Enabled(s, step) && step.SyncOne? && step.fid in s.stored.feeds
    ensures CacheFits(Next(s, step), p)
  {
    var feed, o := s.stored.feeds[step.fid], Outcome(step.fetch, step.owner, step.ids, s.today);
    SyncByStore(s.stored, Visit(step.fid, feed, o));
    hide Sync, Reconcile, FeedEvents, FreshDraw, CacheFits, StatusOf, HashOf, Recorded;
    var r := Next(s, step);
    if FullPath(feed, o) && feed.property == p {
      DroppedFits(r, p);
    } else {
      if FullPath(feed, o) {
        ReconcileKeepsOtherProperties(s.stored.bookings, feed.property, feed.channel, o.owner.value,
                                      LastWins(FeedEvents(o.fetch).value), o.today, o.ids, p);
      }
      SameRowsSameSlots(s.stored.bookings, r.stored.bookings, p);
      SameSlotsFit(s, r, p);
    }
  }

  lemma DroppedFits(r: State, p: PropertyId)
    requires p !in r.stored.slots
    ensures CacheFits(r, p)
  {
  }

  lemma ReconcileKeepsOtherProperties(t: Table, p: PropertyId, c: Channel, owner: UserId, incoming: map<Uid, Event>,
          today: Day, ids: Draw, p': PropertyId)
    requires p != p'
    ensures var r := Reconcile(t, p, c, owner, incoming, today, ids);
      && (forall id :: id in t && t[id].property == p' ==> id in r && r[id] == t[id])
      && (forall id :: id in r && r[id].property == p' ==> id in t && t[id] == r[id])
  {
    hide Reconcile, HasUid, Decide;
    var r := Reconcile(t, p, c, owner, incoming, today, ids);
    forall id | id in r || id in t
      ensures id in t && t[id].property == p' ==> id in r && r[id] == t[id]
      ensures id in r && r[id].property == p' ==> id in t && t[id] == r[id]
    {
      ReconcileAt(t, p, c, owner, incoming, today, ids, id);
    }
  }

  lemma RequestFits(s: State, step: Step, p: PropertyId)
    requires CacheFits(s, p) && Enabled(s, step) && s.stored.bookings.Keys <= s.used
    requires step.Create? || step.SetStatus?
    ensures CacheFits(Next(s, step), p)
  {
    hide Decision, RefundOf, CacheFits, TransitionError;
    var r := Next(s, step);
    if p in r.stored.slots {
      if step.Create? {
        CreatedRows(s.stored, step.id, step.user, step.request, step.world);
      }
      SameRowsSameSlots(s.stored.bookings, r.stored.bookings, p);
      SameSlotsFit(s, r, p);
    } else {
      DroppedFits(r, p);
    }
  }

  lemma ReadFits(s: State, step: Step, p: PropertyId)
    requires CacheFits(s, p) && Enabled(s, step)
    requires step.ReadSlots? || step.ExpireSlots? || step.Tick? || step.AddFeed? || step.RemoveFeed?
    ensures CacheFits(Next(s, step), p)
  {
  }

  lemma NextFits(s: State, step: Step, p: PropertyId)
    requires CacheFits(s, p) && Enabled(s, step) && s.stored.bookings.Keys <= s.used
    ensures CacheFits(Next(s, step), p)
  {
    match step {
      case Create(_, _, _, _) => RequestFits(s, step, p);
      case SetStatus(_, _, _, _) => RequestFits(s, step, p);
      case Delete(id) => DeleteFits(s, id, p);
      case SyncOne(fid, _, _, _) =>
        if fid in s.stored.feeds {
          SyncFits(s, step, p);
        }
      case _ => ReadFits(s, step, p);
    }
  }

  /** The slots cache never under-reports: in every run, a cached list contains at least the
      property's active slots as a multiset, and is exact unless a booking was deleted since. */
  lemma {:induction false} CacheNeverUnderReports(s: State, steps: seq<Step>)
    requires Inv(s) && CacheSound(s) && Legal(s, steps)
    ensures CacheSound(Run(s, steps))
    decreases |steps|
  {
    hide Inv, CacheFits, Next, Enabled;
    if steps != [] {
      var r := Next(s, steps[0]);
      NextKeepsInv(s, steps[0]);
      KnownKeys(s);
      forall p
        ensures CacheFits(r, p)
      {
        NextFits(s, steps[0], p);
      }
      CacheNeverUnderReports(r, steps[1..]);
    }
  }

  lemma KnownKeys(s: State)
    requires Inv(s)
    ensures s.stored.bookings.Keys <= s.used
  {
  }

  /** So a night shown as free by a cached list is free: every occupied night is in some listed
      slot, and only deletions can make the list show too much. */
  lemma OccupiedNightIsListed(s: State, p: PropertyId, n: Day)
    requires CacheSound(s) && p in s.stored.slots
    requires Occupied(s.stored.bookings, p, n)
    ensures exists x :: x in s.stored.slots[p] && Covers(x.start, x.end, n)
  {
    assert CacheFits(s, p);
    var t := s.stored.bookings;
    var id :| id in t && t[id].property == p && (t[id].status == Pending || t[id].status == Confirmed)
        && Covers(t[id].start, t[id].end, n);
    var x := Slot(t[id].start, t[id].end);
    assert id in SlotIds(t, p, x);
    assert multiset(s.stored.slots[p])[x] > 0;
    assert x in s.stored.slots[p];
  }
}
