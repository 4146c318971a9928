/** The claim/send/release protocol of check-in links (app/checkin_dispatch.py): any number of
    workers, immediate tasks and cron sweeps alike, interleaved at the granularity of one database
    statement or one outside call. */
module CheckinDispatch {
  import opened Prelude
  import opened Model

  type WorkerId = nat

  /** Where a worker stands: it has loaded a booking that looked due; it won the claim and is about
      to send; its send raised and it is about to release. */
  datatype Phase = Idle | Loaded(booking: BookingId) | Holding(booking: BookingId) | Releasing(booking: BookingId)

  /** `marker` has an entry for each existing booking: None is the null timestamp, Some(w) the
      timestamp written by worker w's claim. History: the bookings that were due at some time, the
      sends that returned, the bookings whose claim was kept without a send, and every key that ever
      existed. */
  datatype System = System(
    marker: map<BookingId, Option<WorkerId>>,
    due: set<BookingId>,
    wasDue: set<BookingId>,
    phase: map<WorkerId, Phase>,
    sent: multiset<BookingId>,
    dropped: set<BookingId>,
    ever: set<BookingId>)
  {
    function PhaseOf(w: WorkerId): Phase
    {
      if w in phase then phase[w] else Idle
    }

    function At(w: WorkerId, p: Phase): System
    {
      this.(phase := phase[w := p])
    }

    predicate Holds(w: WorkerId, b: BookingId)
    {
      PhaseOf(w) == Holding(b) || PhaseOf(w) == Releasing(b)
    }
  }

  datatype Step =
    | Appear(b: BookingId)
    | Vanish(b: BookingId)
    | TurnsDue(b: BookingId)
    | NoLongerDue(b: BookingId)
    | Load(w: WorkerId, b: BookingId)
    | Claim(w: WorkerId)
    | NoAddress(w: WorkerId)
    | LookupFails(w: WorkerId)
    | SendReturns(w: WorkerId)
    | SendRaises(w: WorkerId)
    | Release(w: WorkerId)

  predicate Enabled(s: System, step: Step)
  {
    match step
    case Appear(b) => b !in s.ever
    case Vanish(b) => b in s.marker
    case TurnsDue(b) => b in s.marker
    case NoLongerDue(b) => b in s.due
    case Load(w, b) => s.PhaseOf(w) == Idle && b in s.marker && b in s.due && s.marker[b] == None
    case Claim(w) => s.PhaseOf(w).Loaded?
    case NoAddress(w) => s.PhaseOf(w).Holding?
    case LookupFails(w) => s.PhaseOf(w).Holding?
    case SendReturns(w) => s.PhaseOf(w).Holding?
    case SendRaises(w) => s.PhaseOf(w).Holding?
    case Release(w) => s.PhaseOf(w).Releasing?
  }

  function Next(s: System, step: Step): System
    requires Enabled(s, step)
  {
    match step
    case Appear(b) => s.(marker := s.marker[b := None], ever := s.ever + {b})
    case Vanish(b) => s.(marker := s.marker - {b}, due := s.due - {b})
    case TurnsDue(b) => s.(due := s.due + {b}, wasDue := s.wasDue + {b})
    case NoLongerDue(b) => s.(due := s.due - {b})
    case Load(w, b) => s.At(w, Loaded(b))
    case Claim(w) =>
      var b := s.PhaseOf(w).booking;
      if b in s.marker && s.marker[b] == None then s.(marker := s.marker[b := Some(w)]).At(w, Holding(b))
      else s.At(w, Idle)
    case NoAddress(w) => s.(dropped := s.dropped + {s.PhaseOf(w).booking}).At(w, Idle)
    case LookupFails(w) => s.(dropped := s.dropped + {s.PhaseOf(w).booking}).At(w, Idle)
    case SendReturns(w) => s.(sent := s.sent + multiset{s.PhaseOf(w).booking}).At(w, Idle)
    case SendRaises(w) => s.At(w, Releasing(s.PhaseOf(w).booking))
    case Release(w) =>
      var b := s.PhaseOf(w).booking;
      (if b in s.marker then s.(marker := s.marker[b := None]) else s).At(w, Idle)
  }

  ghost predicate Legal(s: System, steps: seq<Step>)
    decreases |steps|
  {
    steps == [] || (Enabled(s, steps[0]) && Legal(Next(s, steps[0]), steps[1..]))
  }

  function Run(s: System, steps: seq<Step>): System
    requires Legal(s, steps)
    decreases |steps|
  {
    if steps == [] then s else Run(Next(s, steps[0]), steps[1..])
  }

  const START := System(map[], {}, {}, map[], multiset{}, {}, {})

  /** Somebody holds the claim. */
  ghost predicate Held(s: System, b: BookingId)
  {
    exists w: WorkerId :: s.Holds(w, b)
  }

  /** What every reachable state says about a booking. */
  ghost predicate Accounted(s: System, b: BookingId)
  {
    // at most one worker holds the claim, and while the booking exists the marker is that worker's
    && (forall w: WorkerId, v: WorkerId :: s.Holds(w, b) && s.Holds(v, b) ==> w == v)
    && (forall w: WorkerId :: s.Holds(w, b) && b in s.marker ==> s.marker[b] == Some(w))
    // the link was sent at most once; a sent or dropped claim is never held again
    && s.sent[b] <= 1
    && (s.sent[b] == 1 || b in s.dropped ==> !Held(s, b))
    && !(s.sent[b] == 1 && b in s.dropped)
    // the marker is set exactly while the claim is held, or once the link was sent or dropped
    && (b in s.marker ==> (s.marker[b].Some? <==> Held(s, b) || s.sent[b] == 1 || b in s.dropped))
    // only bookings that were due are ever loaded, claimed, sent or dropped
    && (b in s.due ==> b in s.wasDue)
    && (Held(s, b) || s.sent[b] == 1 || b in s.dropped ==> b in s.wasDue)
    && (forall w: WorkerId :: s.PhaseOf(w) == Loaded(b) ==> b in s.wasDue)
    // keys are not reused
    && (b in s.marker ==> b in s.ever)
    && (b !in s.ever ==> !Held(s, b) && s.sent[b] == 0 && b !in s.dropped)
    && (b !in s.ever ==> forall w: WorkerId :: s.PhaseOf(w) != Loaded(b))
  }

  lemma {:induction false} NextKeepsAccount(s: System, step: Step, b: BookingId)
    requires Enabled(s, step) && Accounted(s, b)
    ensures Accounted(Next(s, step), b)
  {
    var r := Next(s, step);
    match step {
      case Appear(_) => UnheldAlike(s, r, b);
      case Vanish(_) => UnheldAlike(s, r, b);
      case TurnsDue(_) => UnheldAlike(s, r, b);
      case NoLongerDue(_) => UnheldAlike(s, r, b);
      case Load(w, _) => UnheldAlike(s, r, b);
      case Claim(w) => ClaimKeepsAccount(s, w, b);
      case NoAddress(w) => LetGoKeepsAccount(s, step, w, b);
      case LookupFails(w) => LetGoKeepsAccount(s, step, w, b);
      case SendReturns(w) => LetGoKeepsAccount(s, step, w, b);
      case SendRaises(w) => UnheldAlike(s, r, b);
      case Release(w) => LetGoKeepsAccount(s, step, w, b);
    }
  }

  /** A step after which the same workers hold the claim. */
  lemma UnheldAlike(s: System, r: System, b: BookingId)
    requires Accounted(s, b)
    requires forall w: WorkerId :: r.Holds(w, b) == s.Holds(w, b)
    requires r.sent[b] == s.sent[b] && (b in r.dropped <==> b in s.dropped) && s.ever <= r.ever
    requires b in s.marker && b in r.marker ==> r.marker[b] == s.marker[b]
    requires b in r.marker && b !in s.marker ==> b !in s.ever && r.marker[b] == None
    requires b in r.marker ==> b in r.ever
    requires b !in r.ever ==> forall w: WorkerId :: r.PhaseOf(w) == Loaded(b) ==> s.PhaseOf(w) == Loaded(b)
    requires s.wasDue <= r.wasDue && (b in r.due ==> b in r.wasDue)
    requires forall w: WorkerId :: r.PhaseOf(w) == Loaded(b) ==> s.PhaseOf(w) == Loaded(b) || b in s.wasDue
    ensures Accounted(r, b)
  {
    assert Held(r, b) == Held(s, b) by {
      if w: WorkerId :| s.Holds(w, b) {
        assert r.Holds(w, b);
      }
      if w: WorkerId :| r.Holds(w, b) {
        assert s.Holds(w, b);
      }
    }
  }

  lemma ClaimKeepsAccount(s: System, w: WorkerId, b: BookingId)
    requires Enabled(s, Claim(w)) && Accounted(s, b)
    ensures Accounted(Next(s, Claim(w)), b)
  {
    var r, k := Next(s, Claim(w)), s.PhaseOf(w).booking;
    if k == b && b in s.marker && s.marker[b] == None {
      forall v: WorkerId
        ensures r.Holds(v, b) <==> v == w
      {
        assert !s.Holds(v, b);
        assert v != w ==> r.PhaseOf(v) == s.PhaseOf(v);
      }
      assert r.Holds(w, b);
    } else {
      UnheldAlike(s, r, b);
    }
  }

  /** The holder goes idle: it sent, gave up, or released. */
  lemma LetGoKeepsAccount(s: System, step: Step, w: WorkerId, b: BookingId)
    requires step in {NoAddress(w), LookupFails(w), SendReturns(w), Release(w)}
    requires Enabled(s, step) && Accounted(s, b)
    ensures Accounted(Next(s, step), b)
  {
    var r, k := Next(s, step), s.PhaseOf(w).booking;
    assert s.Holds(w, k);
    if k == b {
      forall v: WorkerId
        ensures !r.Holds(v, b)
      {
        assert s.Holds(v, b) ==> v == w;
        assert v != w ==> r.PhaseOf(v) == s.PhaseOf(v);
      }
      assert !Held(r, b);
      assert s.sent[b] == 0 && b !in s.dropped;
    } else {
      UnheldAlike(s, r, b);
    }
  }

  lemma {:induction false} RunKeepsAccount(s: System, steps: seq<Step>, b: BookingId)
    requires Accounted(s, b) && Legal(s, steps)
    ensures Accounted(Run(s, steps), b)
    decreases |steps|
  {
    if steps != [] {
      NextKeepsAccount(s, steps[0], b);
      RunKeepsAccount(Next(s, steps[0]), steps[1..], b);
    }
  }

  /** At most once: however many workers race and however their statements interleave, a booking's
      link is sent at most once, by the one worker that held the claim. */
  lemma {:induction false} AtMostOnce(steps: seq<Step>, b: BookingId, w: WorkerId, v: WorkerId)
    requires Legal(START, steps)
    ensures Run(START, steps).sent[b] <= 1
    ensures Run(START, steps).Holds(w, b) && Run(START, steps).Holds(v, b) ==> w == v
    ensures Run(START, steps).sent[b] == 1 ==> !Run(START, steps).Holds(w, b)
  {
    assert Accounted(START, b);
    RunKeepsAccount(START, steps, b);
  }

  /** Nobody claims, sends or gives up the link of a booking that never was due. */
  lemma {:induction false} OnlyDueLinksAreSent(steps: seq<Step>, b: BookingId)
    requires Legal(START, steps)
    requires Held(Run(START, steps), b) || Run(START, steps).sent[b] > 0 || b in Run(START, steps).dropped
    ensures b in Run(START, steps).wasDue
  {
    assert Accounted(START, b);
    RunKeepsAccount(START, steps, b);
  }

  /** A release clears the releasing worker's own claim, never another worker's, and no link was
      sent under it: the booking is simply due again. */
  lemma {:induction false} ReleaseClearsOwnClaim(steps: seq<Step>, w: WorkerId)
    requires Legal(START, steps) && Enabled(Run(START, steps), Release(w))
    ensures var s := Run(START, steps); var b := s.PhaseOf(w).booking;
      && (b in s.marker ==> s.marker[b] == Some(w) && Next(s, Release(w)).marker[b] == None)
      && s.sent[b] == 0
  {
    var s := Run(START, steps);
    var b := s.PhaseOf(w).booking;
    assert Accounted(START, b);
    RunKeepsAccount(START, steps, b);
    assert s.Holds(w, b);
  }

  /** The marker tells the truth: it is null exactly when nobody is at work on the link and it was
      neither sent nor given up, so the sweep's query finds every link still to be sent. */
  lemma {:induction false} MarkerTellsTheTruth(steps: seq<Step>, b: BookingId)
    requires Legal(START, steps) && b in Run(START, steps).marker
    ensures var s := Run(START, steps);
      s.marker[b] == None <==> !Held(s, b) && s.sent[b] == 0 && b !in s.dropped
  {
    assert Accounted(START, b);
    RunKeepsAccount(START, steps, b);
  }

  /** Giving up is final: once a claim was kept without a send, because no address was known or the
      address lookup raised, the link is not sent in any continuation of the run. */
  lemma {:induction false} GivenUpForEver(before: seq<Step>, after: seq<Step>, b: BookingId)
    requires Legal(START, before) && Legal(Run(START, before), after)
    requires b in Run(START, before).dropped
    ensures Run(Run(START, before), after).sent[b] == 0
  {
    var s := Run(START, before);
    assert Accounted(START, b);
    RunKeepsAccount(START, before, b);
    RunKeepsAccount(s, after, b);
    DroppedStays(s, after, b);
  }

  lemma {:induction false} DroppedStays(s: System, steps: seq<Step>, b: BookingId)
    requires Legal(s, steps) && b in s.dropped
    ensures b in Run(s, steps).dropped
    decreases |steps|
  {
    if steps != [] {
      DroppedStays(Next(s, steps[0]), steps[1..], b);
    }
  }

  // ---- One worker undisturbed -------------------------------------------------------------------

  /** What comes of sending a claimed link: no address is known, it is delivered, the send raises,
      or the address lookup raises. */
  datatype Mail = NoRecipient | Delivers | Bounces | Unresolved

  /** What a worker does from its claim on. */
  function Attempt(w: WorkerId, mail: Mail): seq<Step>
  {
    match mail
    case NoRecipient => [Claim(w), NoAddress(w)]
    case Delivers => [Claim(w), SendReturns(w)]
    case Bounces => [Claim(w), SendRaises(w), Release(w)]
    case Unresolved => [Claim(w), LookupFails(w)]
  }

  lemma TwoSteps(s: System, x: Step, y: Step)
    requires Enabled(s, x) && Enabled(Next(s, x), y)
    ensures Legal(s, [x, y]) && Run(s, [x, y]) == Next(Next(s, x), y)
  {
    assert [x, y][1..] == [y];
    assert Legal(Next(s, x), [y]);
    assert Run(Next(s, x), [y]) == Next(Next(s, x), y);
  }

  /** An attempt nobody interferes with, on a marker that is null: the marker ends up set unless the
      send raised, and the link went out exactly if it was delivered. */
  lemma AttemptAlone(s: System, w: WorkerId, b: BookingId, mail: Mail)
    requires s.PhaseOf(w) == Loaded(b) && b in s.marker && s.marker[b] == None
    ensures Legal(s, Attempt(w, mail))
    ensures var r := Run(s, Attempt(w, mail));
      && r.marker == s.marker[b := if mail.Bounces? then None else Some(w)]
      && r.sent == (if mail.Delivers? then s.sent + multiset{b} else s.sent)
      && r.PhaseOf(w) == Idle
  {
    var claimed := Next(s, Claim(w));
    match mail {
      case NoRecipient => TwoSteps(s, Claim(w), NoAddress(w));
      case Delivers => TwoSteps(s, Claim(w), SendReturns(w));
      case Unresolved => TwoSteps(s, Claim(w), LookupFails(w));
      case Bounces =>
        TwoSteps(claimed, SendRaises(w), Release(w));
        assert Attempt(w, mail)[1..] == [SendRaises(w), Release(w)];
    }
  }
}
