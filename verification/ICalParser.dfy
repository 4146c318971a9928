/** From the components of a calendar body to date-range events (app/services/ical_parser.py).
    Text parsing and time-zone conversion happen before: a timed value carries its local day. */
module ICalParser {
  import opened Prelude
  import opened Nights
  import opened Model

  datatype DateValue = DateOnly(day: Day) | Timed(localDay: Day) | Unsupported

  datatype Component = Component(uid: Option<Uid>, dtstart: Option<DateValue>, dtend: Option<DateValue>)

  datatype CalendarError = UnsupportedDate

  function LocalDate(v: DateValue): Result<Day, CalendarError>
  {
    match v
    case DateOnly(d) => Ok(d)
    case Timed(d) => Ok(d)
    case Unsupported => Err(UnsupportedDate)
  }

  /** A component without a uid or a start is skipped before its dates are looked at. */
  predicate Skipped(c: Component)
  {
    c.uid.None? || c.dtstart.None?
  }

  /** The component makes the whole parse fail. */
  predicate Broken(c: Component)
  {
    !Skipped(c) && (c.dtstart.value.Unsupported? || (c.dtend.Some? && c.dtend.value.Unsupported?))
  }

  function DayOf(v: DateValue): Day
    requires !v.Unsupported?
  {
    if v.DateOnly? then v.day else v.localDay
  }

  /** What a sound component contributes: one event, or none when its range is empty. */
  function EventOf(c: Component): Option<Event>
    requires !Broken(c)
  {
    if Skipped(c) then None
    else
      var start := DayOf(c.dtstart.value);
      var end := if c.dtend.Some? then DayOf(c.dtend.value) else start + 1;
      if end <= start then None else Some(Event(c.uid.value, start, end))
  }

  /** The events of a body, in order, when no component is broken. */
  function EventsOf(cs: seq<Component>): (r: seq<Event>)
    requires forall i :: 0 <= i < |cs| ==> !Broken(cs[i])
    ensures forall e :: e in r ==> e.start < e.end
    ensures |r| <= |cs|
  {
    if cs == [] then []
    else
      var last := EventOf(cs[|cs| - 1]);
      EventsOf(cs[..|cs| - 1]) + (if last.Some? then [last.value] else [])
  }

  function Parsed(cs: seq<Component>): Result<seq<Event>, CalendarError>
  {
    if exists i :: 0 <= i < |cs| && Broken(cs[i]) then Err(UnsupportedDate) else Ok(EventsOf(cs))
  }

  method ParseIcs(cs: seq<Component>) returns (r: Result<seq<Event>, CalendarError>)
    ensures r == Parsed(cs)
  {
    var events := [];
    for i := 0 to |cs|
      invariant forall k :: 0 <= k < i ==> !Broken(cs[k])
      invariant events == EventsOf(cs[..i])
    {
      var c := cs[i];
      assert cs[..i + 1][..i] == cs[..i];
      if c.uid == None || c.dtstart == None {
        continue;
      }
      var start := LocalDate(c.dtstart.value);
      if start.Err? {
        assert Broken(cs[i]);
        return Err(UnsupportedDate);
      }
      var end := Ok(start.value + 1);
      if c.dtend.Some? {
        end := LocalDate(c.dtend.value);
      }
      if end.Err? {
        assert Broken(cs[i]);
        return Err(UnsupportedDate);
      }
      if end.value <= start.value {
        continue;
      }
      events := events + [Event(c.uid.value, start.value, end.value)];
    }
    assert cs[..|cs|] == cs;
    return Ok(events);
  }

  /** What a component must look like to put the event `e` on the calendar. */
  ghost predicate Reports(c: Component, e: Event)
  {
    && c.uid == Some(e.uid)
    && (c.dtstart == Some(DateOnly(e.start)) || c.dtstart == Some(Timed(e.start)))
    && (if c.dtend.None? then e.end == e.start + 1
        else c.dtend == Some(DateOnly(e.end)) || c.dtend == Some(Timed(e.end)))
    && e.start < e.end
  }

  /** A parse succeeds exactly when no considered component has an unreadable date, and then the
      events are exactly the reported ones: nothing dropped but empty ranges, nothing invented. */
  lemma {:induction false} ParseIsExact(cs: seq<Component>, e: Event)
    ensures Parsed(cs).Err? <==>
      exists c :: c in cs && c.uid.Some? && c.dtstart.Some? && (c.dtstart == Some(Unsupported) || c.dtend == Some(Unsupported))
    ensures Parsed(cs).Ok? <==> forall c :: c in cs ==> !Broken(c)
    ensures Parsed(cs).Ok? ==> (e in Parsed(cs).value <==> exists c :: c in cs && Reports(c, e))
  {
    if Parsed(cs).Ok? {
      forall c | c in cs ensures !Broken(c) {}
      EventsExact(cs, e);
    } else {
      var i :| 0 <= i < |cs| && Broken(cs[i]);
      assert cs[i] in cs;
    }
  }

  lemma {:induction false} EventsExact(cs: seq<Component>, e: Event)
    requires forall i :: 0 <= i < |cs| ==> !Broken(cs[i])
    ensures e in EventsOf(cs) <==> exists c :: c in cs && Reports(c, e)
  {
    if cs != [] {
      var init, last := cs[..|cs| - 1], cs[|cs| - 1];
      EventsExact(init, e);
      assert cs == init + [last];
      assert EventOf(last) == Some(e) <==> Reports(last, e);
    }
  }
}
