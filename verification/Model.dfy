/** The rows of the booking service: bookings, external feeds, imported events, cached slots. */
module Model {
  import opened Prelude
  import opened Nights

  type PropertyId = nat
  type UserId = nat
  type BookingId = nat
  type FeedId = nat
  type Uid = string
  /** Money in cents. */
  type Cents = int

  datatype Status = Pending | Confirmed | Completed | Cancelled | NoShow

  datatype Channel = Platform | BookingCom | Airbnb | Dev

  /** One reservation of a feed; `end` is the exclusive checkout day. */
  datatype Event = Event(uid: Uid, start: Day, end: Day)

  datatype Slot = Slot(start: Day, end: Day)

  /** A row of the bookings table; the primary key is the key of the table map. `linkSent` and
      `purged` stand for the two nullable idempotency timestamps. */
  datatype Booking = Booking(
    property: PropertyId,
    owner: UserId,
    user: UserId,
    start: Day,
    end: Day,
    status: Status,
    nightly: Cents,
    total: Cents,
    channel: Channel,
    uid: Option<Uid>,
    linkSent: bool,
    purged: bool)

  type Table = map<BookingId, Booking>

  datatype SyncStatus = SyncOk | FetchError | ParseError

  /** An external calendar feed. The stored hash is the canonical form of the last events that
      were synced; see module ContentHash. */
  datatype Feed = Feed(
    property: PropertyId,
    channel: Channel,
    active: bool,
    hash: Option<seq<Event>>,
    lastStatus: Option<SyncStatus>)

  /** Everything the service persists: two database tables and the slots cache. */
  datatype Stored = Stored(
    bookings: Table,
    feeds: map<FeedId, Feed>,
    slots: map<PropertyId, seq<Slot>>)

  /** Booked time that blocks a property: pending or confirmed. */
  predicate Active(b: Booking)
  {
    b.status.Pending? || b.status.Confirmed?
  }

  /** The rows a feed of this property and channel owns. */
  predicate Imported(b: Booking, p: PropertyId, c: Channel)
  {
    b.property == p && b.channel == c
  }

  /** Some row of (property, channel) already carries this external uid. */
  predicate HasUid(t: Table, p: PropertyId, c: Channel, u: Uid)
  {
    exists id | id in t :: Imported(t[id], p, c) && t[id].uid == Some(u)
  }

  /** The table constraint: (property, channel, external uid) is unique where the uid is set. */
  ghost predicate UniqueUids(t: Table)
  {
    forall i, j :: i in t && j in t && i != j && t[i].uid.Some?
      && t[i].property == t[j].property && t[i].channel == t[j].channel
      ==> t[i].uid != t[j].uid
  }

  /** Night `n` of the property is taken by some pending or confirmed booking. */
  ghost predicate Occupied(t: Table, p: PropertyId, n: Day)
  {
    exists id :: id in t && t[id].property == p && (t[id].status == Pending || t[id].status == Confirmed)
      && Covers(t[id].start, t[id].end, n)
  }

  /** Night `n` is taken by a confirmed row imported from this channel. */
  ghost predicate ChannelNight(t: Table, p: PropertyId, c: Channel, n: Day)
  {
    exists id :: id in t && Imported(t[id], p, c) && t[id].status.Confirmed?
      && Covers(t[id].start, t[id].end, n)
  }

  ghost predicate DistinctSeq<T(!new)>(s: seq<T>)
  {
    forall i, j :: 0 <= i < j < |s| ==> s[i] != s[j]
  }
}
