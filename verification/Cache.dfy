/** The public slots cache (app/cache.py): one optional list of slots for each property. Every call
    may find the Redis server unreachable; the failure is logged and goes no further. */
module Cache {
  import opened Prelude
  import opened Model
  import opened Crud

  class SlotsCache {
    var entries: map<PropertyId, seq<Slot>>

    method Get(p: PropertyId, reachable: bool) returns (r: Option<seq<Slot>>)
      ensures r.Some? <==> reachable && p in entries
      ensures r.Some? ==> r.value == entries[p]
    {
      if !reachable || p !in entries {
        return None;
      }
      return Some(entries[p]);
    }

    method Set(p: PropertyId, slots: seq<Slot>, reachable: bool)
      modifies this
      ensures entries == if reachable then old(entries)[p := slots] else old(entries)
    {
      if reachable {
        entries := entries[p := slots];
      }
    }

    method Invalidate(p: PropertyId, reachable: bool)
      modifies this
      ensures entries == if reachable then old(entries) - {p} else old(entries)
    {
      if reachable {
        entries := entries - {p};
      }
    }
  }

  /** The stored state of the service, taken together. */
  ghost function StoredIn(db: Database, cache: SlotsCache): Stored
    reads db, cache
  {
    Stored(db.bookings, db.feeds, cache.entries)
  }
}
