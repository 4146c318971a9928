/** The tiered cancellation refund (app/routers/booking.py, _REFUND_SCHEDULE and _refund_fraction). */
module RefundSchedule {
  import opened Model

  /** From `minDays` days before check-in on, refund this percentage. */
  datatype Tier = Tier(minDays: int, percent: int)

  const FREE := [Tier(1, 100)]
  const MODERATE := [Tier(5, 100), Tier(0, 50)]
  const STRICT := [Tier(7, 50)]

  function Schedule(policy: string): seq<Tier>
  {
    if policy == "free" then FREE
    else if policy == "moderate" then MODERATE
    else if policy == "strict" then STRICT
    else []
  }

  function FirstMatch(tiers: seq<Tier>, days: int): int
  {
    if tiers == [] then 0
    else if days >= tiers[0].minDays then tiers[0].percent
    else FirstMatch(tiers[1..], days)
  }

  method RefundPercent(policy: string, days: int) returns (percent: int)
    ensures percent == FirstMatch(Schedule(policy), days)
  {
    var tiers := Schedule(policy);
    for i := 0 to |tiers|
      invariant FirstMatch(tiers, days) == FirstMatch(tiers[i..], days)
    {
      if days >= tiers[i].minDays {
        return tiers[i].percent;
      }
    }
    return 0;
  }

  /** The best percentage among the tiers the days satisfy; nothing when none is satisfied. */
  ghost predicate IsBest(tiers: seq<Tier>, days: int, percent: int)
  {
    && (forall t :: t in tiers && days >= t.minDays ==> t.percent <= percent)
    && (percent == 0 || exists t :: t in tiers && days >= t.minDays && t.percent == percent)
  }

  ghost predicate ThresholdsDecrease(tiers: seq<Tier>)
  {
    forall i, j :: 0 <= i < j < |tiers| ==> tiers[i].minDays > tiers[j].minDays
  }

  ghost predicate PercentsFall(tiers: seq<Tier>)
  {
    forall i, j :: 0 <= i < j < |tiers| ==> tiers[i].percent >= tiers[j].percent
  }

  ghost predicate NonNegative(tiers: seq<Tier>)
  {
    forall i :: 0 <= i < |tiers| ==> tiers[i].percent >= 0
  }

  lemma {:induction false} FirstMatchIsBest(tiers: seq<Tier>, days: int)
    requires PercentsFall(tiers) && NonNegative(tiers)
    ensures IsBest(tiers, days, FirstMatch(tiers, days))
  {
    if tiers == [] {
    } else if days >= tiers[0].minDays {
      assert tiers[0] in tiers;
    } else {
      var rest := tiers[1..];
      FirstMatchIsBest(rest, days);
      forall t | t in tiers && days >= t.minDays
        ensures t in rest
      {
      }
    }
  }

  /** At a tier's own threshold, no earlier tier matches. */
  lemma {:induction false} MatchAtThreshold(tiers: seq<Tier>, i: nat)
    requires ThresholdsDecrease(tiers) && i < |tiers|
    ensures FirstMatch(tiers, tiers[i].minDays) == tiers[i].percent
    decreases i
  {
    if i > 0 {
      MatchAtThreshold(tiers[1..], i - 1);
    }
  }

  /** Taking the first matching tier gives the best satisfied tier on every day exactly when the
      percentages fall along the schedule. */
  lemma FirstMatchIsBestExactly(tiers: seq<Tier>)
    requires ThresholdsDecrease(tiers) && NonNegative(tiers)
    ensures PercentsFall(tiers) <==> forall days :: IsBest(tiers, days, FirstMatch(tiers, days))
  {
    if PercentsFall(tiers) {
      forall days
        ensures IsBest(tiers, days, FirstMatch(tiers, days))
      {
        FirstMatchIsBest(tiers, days);
      }
    } else {
      var i, j :| 0 <= i < j < |tiers| && tiers[i].percent < tiers[j].percent;
      MatchAtThreshold(tiers, i);
      assert tiers[j] in tiers;
      assert !IsBest(tiers, tiers[i].minDays, FirstMatch(tiers, tiers[i].minDays));
    }
  }

  /** Cancelling earlier never refunds a smaller share. */
  lemma EarlierNeverRefundsLess(tiers: seq<Tier>, days: int, more: int)
    requires PercentsFall(tiers) && NonNegative(tiers) && days <= more
    ensures FirstMatch(tiers, days) <= FirstMatch(tiers, more)
  {
    FirstMatchIsBest(tiers, days);
    FirstMatchIsBest(tiers, more);
  }

  /** The configured schedules are of that form, and refund at most everything. */
  lemma ConfiguredSchedules(policy: string)
    ensures var tiers := Schedule(policy);
      ThresholdsDecrease(tiers) && PercentsFall(tiers) && NonNegative(tiers)
      && forall days :: 0 <= FirstMatch(tiers, days) <= 100
  {
    var tiers := Schedule(policy);
    forall days
      ensures 0 <= FirstMatch(tiers, days) <= 100
    {
      FirstMatchIsBest(tiers, days);
    }
  }

  /** The terms of each policy, by the days until check-in. */
  lemma PolicyTerms(policy: string, days: int)
    ensures FirstMatch(Schedule(policy), days) ==
      if (policy == "free" && days >= 1) || (policy == "moderate" && days >= 5) then 100
      else if (policy == "moderate" && 0 <= days < 5) || (policy == "strict" && days >= 7) then 50
      else 0
  {
    var tiers := Schedule(policy);
    if |tiers| > 1 {
      assert FirstMatch(tiers[1..], days) ==
        if days >= tiers[1].minDays then tiers[1].percent else FirstMatch(tiers[1..][1..], days);
    }
  }

  /** A share of the price rounded to cents; a tie may fall to either neighbour. */
  function Share(total: Cents, percent: int, tieUp: bool): Cents
  {
    var q, r := total * percent / 100, total * percent % 100;
    if r < 50 then q else if r > 50 then q + 1 else if tieUp then q + 1 else q
  }

  /** A refund is the share to the nearest cent; it lies between nothing and the whole price, and a
      full share is the price itself. */
  lemma ShareIsBounded(total: Cents, percent: int, tieUp: bool)
    requires 0 <= percent <= 100
    ensures -50 <= 100 * Share(total, percent, tieUp) - total * percent <= 50
    ensures total >= 0 ==> 0 <= Share(total, percent, tieUp) <= total
    ensures total <= 0 ==> total <= Share(total, percent, tieUp) <= 0
    ensures percent == 100 ==> Share(total, percent, tieUp) == total
  {
    var x := total * percent;
    assert x == 100 * (x / 100) + x % 100;
    if total >= 0 {
      assert 0 <= x <= total * 100;
    } else {
      assert total * 100 <= x <= 0;
    }
  }
}
