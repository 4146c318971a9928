/** The canonical form a feed is hashed over (app/services/ical_parser.py, compute_content_hash).
    The digest of the canonical form is taken to be injective, so the model stores the form itself. */
module ContentHash {
  import opened Model

  /** Code-point order of strings, as tuples of strings are compared. */
  predicate StringLeq(a: string, b: string)
  {
    a == [] || (b != [] && (a[0] < b[0] || (a[0] == b[0] && StringLeq(a[1..], b[1..]))))
  }

  /** Order on (uid, start, end). */
  predicate EventLeq(x: Event, y: Event)
  {
    if x.uid != y.uid then StringLeq(x.uid, y.uid)
    else if x.start != y.start then x.start < y.start
    else x.end <= y.end
  }

  lemma {:induction false} StringTotal(a: string, b: string)
    ensures StringLeq(a, b) || StringLeq(b, a)
    ensures StringLeq(a, b) && StringLeq(b, a) ==> a == b
  {
    if a != [] && b != [] && a[0] == b[0] {
      StringTotal(a[1..], b[1..]);
      assert a == [a[0]] + a[1..] && b == [b[0]] + b[1..];
    }
  }

  lemma {:induction false} StringTransitive(a: string, b: string, c: string)
    requires StringLeq(a, b) && StringLeq(b, c)
    ensures StringLeq(a, c)
  {
    if a != [] && a[0] == b[0] && b[0] == c[0] {
      StringTransitive(a[1..], b[1..], c[1..]);
    }
  }

  lemma EventTotal(x: Event, y: Event)
    ensures EventLeq(x, y) || EventLeq(y, x)
    ensures EventLeq(x, y) && EventLeq(y, x) ==> x == y
  {
    StringTotal(x.uid, y.uid);
  }

  lemma EventTransitive(x: Event, y: Event, z: Event)
    requires EventLeq(x, y) && EventLeq(y, z)
    ensures EventLeq(x, z)
  {
    if x.uid != y.uid && y.uid != z.uid {
      StringTransitive(x.uid, y.uid, z.uid);
      StringTotal(x.uid, y.uid);
    }
  }

  ghost predicate Sorted(s: seq<Event>)
  {
    forall i, j :: 0 <= i < j < |s| ==> EventLeq(s[i], s[j])
  }

  function InsertSorted(e: Event, s: seq<Event>): (r: seq<Event>)
    ensures multiset(r) == multiset(s) + multiset{e}
  {
    if s == [] || EventLeq(e, s[0]) then
      [e] + s
    else
      assert s == [s[0]] + s[1..];
      [s[0]] + InsertSorted(e, s[1..])
  }

  /** `sorted((uid, start, end) for each event)`. */
  function Canonical(events: seq<Event>): (r: seq<Event>)
    ensures multiset(r) == multiset(events)
  {
    if events == [] then []
    else
      assert events == [events[0]] + events[1..];
      InsertSorted(events[0], Canonical(events[1..]))
  }

  lemma {:induction false} InsertKeepsSorted(e: Event, s: seq<Event>)
    requires Sorted(s)
    ensures Sorted(InsertSorted(e, s))
  {
    var r := InsertSorted(e, s);
    if s == [] {
    } else if EventLeq(e, s[0]) {
      forall i, j | 0 <= i < j < |r|
        ensures EventLeq(r[i], r[j])
      {
        if i == 0 && j > 1 {
          EventTransitive(e, s[0], s[j - 1]);
        }
      }
    } else {
      InsertKeepsSorted(e, s[1..]);
      var tail := InsertSorted(e, s[1..]);
      EventTotal(e, s[0]);
      forall x | x in tail
        ensures EventLeq(s[0], x)
      {
        assert x in multiset(tail);
        assert x == e || x in s[1..];
      }
      forall i, j | 0 <= i < j < |r|
        ensures EventLeq(r[i], r[j])
      {
        if i == 0 {
          assert r[j] == tail[j - 1] && tail[j - 1] in tail;
        }
      }
    }
  }

  lemma {:induction false} CanonicalIsSorted(events: seq<Event>)
    ensures Sorted(Canonical(events))
  {
    if events != [] {
      CanonicalIsSorted(events[1..]);
      InsertKeepsSorted(events[0], Canonical(events[1..]));
    }
  }

  /** The first element of a sorted sequence is below everything in it. */
  lemma FirstIsLeast(s: seq<Event>, e: Event)
    requires Sorted(s) && e in s
    ensures EventLeq(s[0], e)
  {
    EventTotal(e, e);
  }

  /** A sorted sequence is determined by what is in it. */
  lemma {:induction false} SortedIsUnique(a: seq<Event>, b: seq<Event>)
    requires Sorted(a) && Sorted(b) && multiset(a) == multiset(b)
    ensures a == b
  {
    hide EventLeq;
    assert |a| == |multiset(a)| && |b| == |multiset(b)|;
    if a != [] {
      assert a[0] in multiset(b) && b[0] in multiset(a);
      FirstIsLeast(a, b[0]);
      FirstIsLeast(b, a[0]);
      EventTotal(a[0], b[0]);
      assert a == [a[0]] + a[1..] && b == [b[0]] + b[1..];
      assert multiset(a[1..]) == multiset(a) - multiset{a[0]};
      assert multiset(b[1..]) == multiset(b) - multiset{b[0]};
      SortedIsUnique(a[1..], b[1..]);
    }
  }

  /** The hash input ignores the order of the feed and separates every real change. */
  lemma {:induction false} CanonicalSeparates(a: seq<Event>, b: seq<Event>)
    ensures Canonical(a) == Canonical(b) <==> multiset(a) == multiset(b)
  {
    if multiset(a) == multiset(b) {
      CanonicalIsSorted(a);
      CanonicalIsSorted(b);
      SortedIsUnique(Canonical(a), Canonical(b));
    }
  }
}
