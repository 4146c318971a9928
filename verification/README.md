# Occupancy of a property's nights

A Dafny model of the bookings microservice, centred on one question: which nights of a property are
taken, who may take or free them, and what every run of the service keeps. Five pieces work on the
same bookings table and are modelled together:

- **Calendar sync** (`ICalParser`, `ContentHash`, `Diff`, `Crud`, `Reconciliation`, `CalendarSync`,
  `Mirror`, `SyncRuns`, `ShortCutLimits`). A feed is parsed into `(uid, start, end)` events, compared with the imported
  rows, and applied by four bulk writes; a content hash lets the next sweep skip an unchanged feed.
- **Bookings** (`Crud`, `BookingRouter`, `Pricing`, `RefundSchedule`, `Service`, `BookingRuns`). The
  atomic check-then-insert, the gap filler, price rounding, the status table, refunds.
- **Check-in links** (`CheckinDispatch`, `CheckinLoops`). The claim/send/release protocol of any
  number of workers, and the two batch-draining jobs.
- **Slots cache** (`Cache`, `BookingRuns`). A cached view and its relation to the table.
- **Personal numbers** (`PersonalNumbers`). What the two checksums catch and what they miss.

A day is an `int`, a stay is half-open, a table is a map from primary key to row. The code that
updates state in place (`app/crud.py`, `app/cache.py`, the endpoints, the sync, the batch jobs) is
modelled as methods over the classes `Crud.Database`, `Cache.SlotsCache`, `CheckinLoops.Outbox` and
`CheckinLoops.GuestTable`, each proved equal to a function of the old state. Module `Service` turns
those functions into one state machine, whose steps are a create request, a status change, a
deletion, linking and unlinking a feed, a sync, a read of the slots, an expiry and the passing of
days; `Service.Perform` runs the methods and proves that they take these steps, and the modules
`SyncRuns` and `BookingRuns` prove what holds in all runs.

## Main results

- *The short cut is sound.* Along every disciplined run the service with the unchanged-feed short
  cut and the service without it keep the same bookings and hashes
  (`SyncRuns.ShortCutRefinesFullPath`); a feed with an unchanged hash has nothing to write today or
  on any later day (`SyncRuns.ShortCutIsSound`). "Disciplined" is three conditions, and lemmas say
  exactly when breaking one does harm: no uid with two different stays in a feed (`Mirror.SkipIsSafeExactly`, with a
  concrete feed in `Mirror.RepeatedUidIsMissed`), no second feed of the same property and channel
  (`Mirror.SecondFeedKeepsMirrorExactly` says when one is harmless), no deletion of a row that a feed
  lists (`Mirror.DeleteKeepsMirrorExactly`). Module `ShortCutLimits` has a run from the empty service for
  each condition, and treats the sweep that works on copies of the feeds loaded at its start
  (`ShortCutLimits.StaleSkipIsSafeExactly`, `ShortCutLimits.LoadedCopyServes`).
- *The future is the feed, the past stays.* `SyncRuns.FutureIsTheCalendar`, `Mirror.SyncNights`,
  `SyncRuns.StepKeepsPastNightExactly`, `SyncRuns.PastNeverVanishes`, `SyncRuns.FailedSyncsLeaveNoTrace`.
- *Failing safe.* What each kind of failed fetch returns, records and leaves alone
  (`CalendarSync.FailSafe`).
- *No night is sold twice.* `Service.NightIsSoldOnce`, over every run, syncs included; and a request
  is accepted exactly when nothing stands against it (`BookingRouter.AcceptedExactly`).
- *Diff and apply is exact*, in any order of the four writes (`Reconciliation.AnyWriteOrderReconciles`),
  idempotent (`SyncRuns.DiffAndApplyIsIdempotent`), and the order of a sweep does not matter
  (`CalendarSync.SweepOrderIrrelevant`).
- *A link is sent at most once* under every interleaving (`CheckinDispatch.AtMostOnce`).
- *The cache never under-reports* (`BookingRuns.CacheNeverUnderReports`), and a deletion is exactly
  what makes it over-report (`BookingRuns.DeleteKeepsListExactly`).
- *At most two status moves and one refund* for a booking in any run (`BookingRuns.AtMostTwoMovesOneRefund`),
  of the amount that caller, policy and date entitle to (`BookingRouter.HostRefundIsFull`,
  `BookingRouter.GuestRefundByTerms`).

## Where the code and its descriptions differ

The model follows the code.

- A vanished mid-stay row is shortened only when `end > today` (`app/services/calendar_sync.py:201`);
  the docstring says `today <= end`.
- A VEVENT without DTSTART is skipped (`app/services/ical_parser.py:74-75`); the docstring says it raises.
- Of several events with one uid the last one counts (`app/services/calendar_sync.py:180`), while the
  hash ignores order, so a reordered feed can be skipped although it now means something else.
- Nothing keeps two feeds from being linked for one property and channel (`app/models.py:129-131`),
  although rows are looked up by property and channel.
- A sweep compares hashes with the feeds as loaded at its start (`app/services/calendar_sync.py:338-342`),
  so a sync in between can make it skip, and record as synced, events that the rows no longer show
  (`ShortCutLimits.StaleCopyIsReachable`).
- The claim comment of `app/checkin_dispatch.py:40-48` says a failed send is retried. That is so when
  the send raises; when the address lookup raises, or no address is known, the claim is kept and the
  link is never sent (`CheckinDispatch.GivenUpForEver`).
- The comment at `app/crud.py:241-244` says the next sweep reconciles a skipped row. This is not
  claimed here: a recorded hash would make the next sweep skip the feed.

## Assumptions

- The digest of the canonical form is injective, so the model stores the canonical form itself.
- A primary key, once drawn, is not drawn again (`Service.Enabled`); drawn keys are inputs.
- A request handler and the sync of one feed are one atomic step each; only the check-in protocol
  is interleaved, statement by statement.
- `date.today()` of the endpoints is an input of each request. The local day of the sync never goes back.
- The cache is reachable when a booking, a status change or a sync drops an entry; an expiry may come
  at any time. No user has the channel guest's id.
- A fetched body is either unreachable, not a calendar, or a list of components whose timed values
  already carry their local day.

## Model

| member | source | states |
|---|---|---|
| Nights.OverlapIsSharedNight | app/services/calendar_sync.py:155-157 | the two comparisons used by every overlap check mean "some night is in both stays" |
| ICalParser.ParseIcs | app/services/ical_parser.py:57-87 | the loop computes the specified parse, including every skip and the failing dates |
| ICalParser.ParseIsExact | app/services/ical_parser.py:71-87 | a parse fails exactly when some entry with uid and start has a start or end that is no date; otherwise an event is returned exactly when a component reports it (missing end: one night; empty range: none) |
| ICalParser.EventsExact | app/services/ical_parser.py:78-85 | nothing is dropped but skipped and empty components, nothing is invented |
| ContentHash.CanonicalIsSorted | app/services/ical_parser.py:97 | the hashed form is in order of (uid, start, end) |
| ContentHash.SortedIsUnique | app/services/ical_parser.py:97 | a sorted list is determined by the events in it |
| ContentHash.CanonicalSeparates | app/services/ical_parser.py:90-99 | two feeds have the same hash input exactly when they list the same events, in whatever order and with the same repetitions |
| Diff.DiffFeed | app/services/calendar_sync.py:160-205 | the four lists hold exactly the unknown events, the re-dated rows, the rows to cancel and the rows to shorten to today, each once when no row is filed under two uids |
| Diff.ListIncoming | app/services/calendar_sync.py:182-192 | creates are exactly the listed uids without a row; updates exactly the listed rows with other dates or not confirmed; each once |
| Diff.ListVanished | app/services/calendar_sync.py:194-203 | cancels are exactly the confirmed unlisted rows that have not begun; truncations exactly those begun and ending after today, at today; each once |
| Diff.IndexEvents | app/services/calendar_sync.py:180 | the uid index keeps the last event of each uid, and lists every uid once |
| Diff.IndexRows | app/services/calendar_sync.py:179 | the row index covers every row with a uid |
| Diff.ConsistentLookup | app/services/calendar_sync.py:180 | reordering a feed without contradictory repetitions does not change what it means |
| Diff.OrderImmaterialExactly | app/services/calendar_sync.py:180 | the order of a feed is immaterial exactly when no uid comes with two different stays |
| Crud.OverlapsUnavailabilities | app/crud.py:31-42 | true exactly when some window overlaps the stay |
| Crud.Database.CreateBooking | app/crud.py:64-139 | which of the three outcomes happens when, that a refusal changes nothing, and that success adds the one pending row, at the given total or the price of its nights |
| Crud.Database.UpdateBookingStatus | app/crud.py:181-191 | only the status of the row changes; a missing row is reported |
| Crud.Database.DeleteBooking | app/crud.py:201-202 | exactly the row goes; tells whether it was there |
| Crud.Database.ListOccupiedSlots | app/crud.py:193-199 | each slot as often as there are pending or confirmed bookings of the property with these dates |
| Crud.Database.ListChannelBookings | app/crud.py:209-214 | exactly the rows of the property and channel |
| Crud.Database.ActivePlatformRanges | app/crud.py:216-227 | exactly the ranges of pending and confirmed platform bookings |
| Crud.Database.BulkUpsertChannelBookings | app/crud.py:229-266 | each event inserted once unless its key or uid is there already; the uid constraint is kept |
| Crud.Database.BulkSetChannelBookingDates | app/crud.py:268-281 | rows that no change names stay; a named row gets the dates of the first change for it and is confirmed again |
| Crud.Database.BulkCancelChannelBookings | app/crud.py:283-287 | exactly the listed rows are cancelled, and only their status changes |
| Crud.GroupByEnd | app/crud.py:297-299 | one group for each different end, in order of first appearance, holding exactly the rows listed with it |
| Crud.Database.BulkTruncateChannelBookings | app/crud.py:289-301 | each listed row is left with the new end whose group is updated last, no other row is touched |
| Crud.Database.ListActive | app/crud.py:327-329 | exactly the active feeds, each once |
| Crud.Database.RecordSync | app/crud.py:331-352 | the hash advances only when one is given; an unknown feed is ignored |
| Cache.SlotsCache.Get | app/cache.py:24-30 | the stored list, or nothing when there is none or Redis fails |
| Cache.SlotsCache.Set | app/cache.py:33-37 | replaces the entry of this property only, and nothing when Redis fails |
| Cache.SlotsCache.Invalidate | app/cache.py:40-44 | removes the entry of this property only, and nothing when Redis fails |
| Reconciliation.ActionsAreDisjoint | app/services/calendar_sync.py:178-205 | no row is in two lists or twice in one, and creates carry uids the table does not know |
| Reconciliation.WritesReconcile | app/services/calendar_sync.py:286-308 | the four writes in program order turn the table into the row-by-row reconciliation |
| Reconciliation.WritesCommute | app/services/calendar_sync.py:299-308 | any two of the four writes may be swapped |
| Reconciliation.AnyWriteOrderReconciles | app/services/calendar_sync.py:278-308 | the four writes, in any order whatever, give that same table |
| Reconciliation.ReconcileKeepsOwners | app/crud.py:229-301 | a sync changes no row's property, channel or uid, and adds rows only for its own property and channel |
| Reconciliation.AddedRowIsAnEvent | app/crud.py:247-265 | a row a sync adds is that of a listed event without a row: confirmed, free of charge, booked by the channel guest, owned by the owner that was looked up |
| Reconciliation.InsertIgnoresConflicts | app/crud.py:238-266 | for any events and keys an insertion touches no row that is there and repeats no uid |
| CalendarSync.SyncFeed | app/services/calendar_sync.py:213-329 | the whole new state and the returned status on each of the six ways through, and exactly which new reservations are flagged as overbooked |
| CalendarSync.FailSafe | app/services/calendar_sync.py:223-273 | an unreachable host, a body that is no calendar, an unreadable date, and a changed feed without a known owner: the error returned and recorded for each, and that nothing else changes |
| CalendarSync.ReadableSucceeds | app/services/calendar_sync.py:245-329 | every other sync succeeds and records the hash; with a known hash it changes no row and no cached list, and needs no owner |
| CalendarSync.ReconcileRows | app/services/calendar_sync.py:278-308 | diff, overbooking check and the four writes turn the table into the reconciliation with the feed |
| CalendarSync.FlagOverbookings | app/services/calendar_sync.py:286-298 | flags exactly the new events that overlap a platform range |
| CalendarSync.OverbookingIsSharedNight | app/services/calendar_sync.py:286-298 | an event is an overbooking exactly when it shares a night with a pending or confirmed platform booking |
| CalendarSync.SyncAllActiveFeeds | app/services/calendar_sync.py:332-346 | the sweep visits every active feed once, state and counts are those of the visits in that order, and each counter is the number of swept feeds that carry its status afterwards |
| CalendarSync.CountsAreStatuses | app/services/calendar_sync.py:338-346 | after a sweep each feed carries the status its sync returned, and each counter is the number of feeds that carry it |
| CalendarSync.TallyAddsUp | app/services/calendar_sync.py:339-343 | every visit is counted under exactly one status |
| CalendarSync.VisitsCommute | app/services/calendar_sync.py:213-329 | syncs of feeds with different (property, channel) commute on bookings, feeds and cache |
| CalendarSync.SweepOrderIrrelevant | app/services/calendar_sync.py:332-346 | every permutation of such feeds gives the same bookings, hashes, cache and counts, and total = ok + fetch_error + parse_error |
| Mirror.SyncNights | app/services/calendar_sync.py:167-205 | after a full sync the channel occupies a night exactly when an event covers it, or it lies before today and an unlisted confirmed row covered it |
| Mirror.SyncMirrors | app/services/calendar_sync.py:278-308 | a full sync leaves one confirmed row for each event and nothing unlisted reaching past today |
| Mirror.MirroredNights | app/services/calendar_sync.py:1-6 | mirrored rows occupy, from that day on, exactly the feed's nights |
| Mirror.MirrorIsQuiet | app/services/calendar_sync.py:178-205 | the rows mirror the feed exactly when reconciling would write nothing |
| Mirror.QuietIsEmptyDiff | app/services/calendar_sync.py:160-205 | the four computed lists are all empty exactly then |
| Mirror.QuietChangesNothing | app/services/calendar_sync.py:286-308 | applying such a diff leaves the table as it is |
| Mirror.WritesNothingExactly | app/services/calendar_sync.py:286-308 | with fresh keys, reconciling leaves the table as it is exactly when the diff is empty |
| Mirror.SkipIsSafeExactly | app/services/calendar_sync.py:247-254 | after a full sync every feed with the same hash is quiet on every later day, exactly when the feed gives each uid one stay |
| Mirror.RepeatedUidIsMissed | app/services/calendar_sync.py:180 | a concrete feed and its reversal with one hash: in no table that mirrors the first would the second have nothing to write |
| Mirror.DeleteKeepsMirrorExactly | app/routers/booking.py:743-752 | deleting a row keeps a feed mirrored exactly when the row does not stand for a listed event |
| Mirror.SecondFeedKeepsMirrorExactly | app/crud.py:209-214 | syncing a second feed of the same property and channel keeps the first one mirrored exactly when both agree on shared uids and list nothing else from today on |
| Mirror.StaleSkipIsQuietExactly | app/services/calendar_sync.py:247-254 | with the rows mirroring the current events, events loaded before have nothing to write today and on every later day exactly when both tell the same future and every elapsed event only the older one lists has its row |
| Mirror.StaleSkipAfterOneSync | app/services/calendar_sync.py:247-254 | after just one full sync in between, that condition is that both tell the same future |
| Mirror.ReconcileKeepsUnique | app/models.py:98-101 | a sync keeps (property, channel, uid) unique |
| SyncRuns.RunKeepsMirrors | app/services/calendar_sync.py:247-254 | in every disciplined run every stored hash describes events that the rows still mirror |
| SyncRuns.ShortCutIsSound | app/services/calendar_sync.py:245-254 | in every state of every disciplined run, an unchanged hash means the full diff is empty today and on any later day |
| SyncRuns.ShortCutRefinesFullPath | app/services/calendar_sync.py:245-308 | with and without the short cut, every disciplined run gives the same bookings, hashes, status moves and refunds |
| SyncRuns.DiffAndApplyIsIdempotent | app/services/calendar_sync.py:178-205 | a second diff with the same events on the same or a later day has four empty lists |
| SyncRuns.FutureIsTheFeed | app/services/calendar_sync.py:213-329 | after any disciplined run ending in a successful sync, by either path, a night from that day on is taken by the channel exactly when an event covers it |
| SyncRuns.FutureIsTheCalendar | app/services/calendar_sync.py:213-329 | the same from the calendar: after such a run and a readable calendar with one stay for each uid, a night from that day on is taken by the channel exactly when some entry reports a stay covering it |
| SyncRuns.StepKeepsPastNightExactly | app/services/calendar_sync.py:167-176 | a past night of an imported row survives a step exactly when the step neither deletes the row nor lists its uid with dates leaving the night out |
| SyncRuns.PastNeverVanishes | app/services/calendar_sync.py:174-203 | such a night is kept through whole runs; dropping out of the feed never costs it |
| SyncRuns.FailedSyncChangesStatusOnly | app/services/calendar_sync.py:216-243 | a failing sync changes nothing but the feed's recorded status |
| SyncRuns.FailedSyncExactly | app/services/calendar_sync.py:223-273 | a sync fails exactly when the host is unreachable, the body is no calendar or has an unreadable date, or the feed changed and the owner is unknown |
| SyncRuns.FailedSyncsLeaveNoTrace | app/services/calendar_sync.py:223-273 | erasing all failed syncs from a run leaves a legal run with the same bookings, cache and hashes |
| SyncRuns.SweepIsARun | app/services/calendar_sync.py:332-346 | a sweep with no other request between its turns is a run of single syncs of the feeds as they stand |
| ShortCutLimits.CalendarParses | app/services/ical_parser.py:70-87 | events written as a calendar and parsed again come back as they were |
| ShortCutLimits.RepeatedUidIsReachable | app/services/calendar_sync.py:180 | a run from the empty service after which a feed listing one uid twice, reversed, has the stored hash although there is something to write |
| ShortCutLimits.DeletedRowIsReachable | app/routers/booking.py:743-752 | a run after which a deleted row is missing and its feed, unchanged, is skipped |
| ShortCutLimits.SecondFeedIsReachable | app/models.py:129-131 | a run after which a second feed of the property and channel has cancelled what the first, unchanged, still lists |
| ShortCutLimits.StaleCopyIsReachable | app/services/calendar_sync.py:337-342 | a disciplined run in which a sweep's turn on a feed copy loaded before another sync changes no row and records a hash that hides the difference from later sweeps |
| ShortCutLimits.StaleSkipIsSafeExactly | app/services/calendar_sync.py:247-254 | in every state of every disciplined run, a turn that skips on a loaded copy changes no row, and nothing is missed, today or later, exactly when the skipped events still stand beside the last synced ones |
| ShortCutLimits.MovedInBetweenIsReachable | app/services/calendar_sync.py:186-203 | a run in which both tell the same future and the skipped events still do not stand, since an elapsed stay was moved in between |
| ShortCutLimits.LoadedCopyServes | app/services/calendar_sync.py:337-342 | every other turn on a loaded copy gives the bookings and hashes of syncing the feed as it stands |
| Service.NextKeepsInv | app/crud.py:103-137 | every step keeps all of: stays of at least one night, uids exactly on imported rows and unique, imported rows confirmed or cancelled, free of charge and booked by the channel guest, no two pending or confirmed platform bookings on one night |
| Service.Perform | app/routers/booking.py:405-752 | running the endpoint or job of any step on tables and cache leads to the stored state the machine has after that step, and asks for the refund it records |
| Service.ReachableStatesAreSound | app/crud.py:103-301 | so does every run |
| Service.NightIsSoldOnce | app/crud.py:103-118 | in every state reachable from the empty service, two pending or confirmed platform bookings of a property that cover one night are the same booking |
| Service.CreatedKeepsInv | app/schemas.py:83-90 | an accepted request shares no night with an active booking of the property, whatever its channel, and its row keeps the table invariants |
| Service.ReconcileKeepsPlatform | app/crud.py:204-207 | a sync leaves every platform row as it is and makes no new one |
| Service.ReconcileKeepsSound | app/services/calendar_sync.py:199-202 | rows keep start < end through a sync, truncated ones too, and imported rows stay confirmed or cancelled |
| BookingRouter.CreateBooking | app/routers/booking.py:405-537 | result and whole new state are those of the decision, checks in the order they are made |
| BookingRouter.ListedNeighbours | app/routers/booking.py:468-470 | searching the slot list for neighbours is searching the table |
| BookingRouter.ConflictIsOccupiedNight | app/crud.py:103-118 | the conflict query finds something exactly when a pending or confirmed booking shares a night with the stay, that is, when a night of the stay is occupied |
| BookingRouter.AcceptedStayAddsItsNights | app/crud.py:103-137 | an accepted stay was wholly free, and afterwards exactly its nights are taken in addition |
| BookingRouter.GapTestIsWholeGap | app/routers/booking.py:466-475 | neighbours on both sides and no conflict: exactly the maximal runs of free nights |
| BookingRouter.ShortStaysFillGaps | app/routers/booking.py:448-475 | a stay below the minimum, where only gaps may be filled, is accepted exactly when it is a whole gap in reach, priced and available |
| BookingRouter.AcceptedExactly | app/routers/booking.py:416-526 | for a stay of any length: accepted exactly when the dates are valid, the property active and in its window, the stay long enough or a permitted gap, priced, clear of every unavailability, and none of its nights occupied |
| BookingRouter.RefusedInOrder | app/routers/booking.py:416-497 | which refusal is given when, for every request |
| BookingRouter.AcceptedRow | app/routers/booking.py:499-526 | the row: whose, when, pending; at the quote, or for a taxed gap the quote with the percentage added to the nearest cent; the average for each night |
| BookingRouter.UpdateBookingStatus | app/routers/booking.py:652-740 | result, whole new state and the refund request, on every refusal and every permitted move |
| BookingRouter.TransitionRules | app/routers/booking.py:268-277 | a move is allowed exactly as the table of rules says, for every caller |
| BookingRouter.RefusedChange | app/routers/booking.py:664-684 | which refusal is given when, for every booking, target and caller |
| BookingRouter.StatusMoveNights | app/routers/booking.py:240-250 | a confirmation changes no night; a completion, cancellation or no-show leaves exactly the nights of the other pending and confirmed bookings |
| BookingRouter.ApplyGuestCancelRefund | app/routers/booking.py:612-649 | asks for the policy's share exactly when the policy is known and leaves one; records it only if paid |
| BookingRouter.RefundIsBounded | app/routers/booking.py:697-717 | asked and recorded amounts lie between nothing and the price, whatever its sign; nothing is recorded if the refund fails |
| BookingRouter.RefundExactly | app/routers/booking.py:692-718 | when exactly a permitted change asks for a refund; never for a guest's pending booking |
| BookingRouter.HostRefundIsFull | app/routers/booking.py:699-708 | a cancellation by admin or owner names no partial amount and records the price once paid; no other cancellation of the booking records more |
| BookingRouter.GuestRefundByTerms | app/routers/booking.py:709-718 | a guest's cancellation of a confirmed booking refunds all, half to the nearest cent, or nothing, by policy and days until check-in; what was asked is recorded once paid |
| BookingRouter.DeleteBooking | app/routers/booking.py:743-752 | the row goes, the cache is not touched |
| BookingRouter.GetPropertySlots | app/routers/booking.py:350-369 | a hit returns the entry; a miss or a failed lookup returns the active slots and stores them if the store succeeds |
| BookingRuns.HistoriesOfRuns | app/routers/booking.py:240-250 | in every run the number of moves fits the status, and only cancelled bookings were refunded |
| BookingRuns.AtMostTwoMovesOneRefund | app/routers/booking.py:678-718 | at most two status moves for a booking in any run, no two refunds for one booking, and every refund within the price of its booking, deleted or not |
| BookingRuns.RefundsWithinPrice | app/routers/booking.py:697-717 | every refund of a run was asked for a platform booking that was there, within the price it had and, if it is still there, has |
| BookingRuns.PriceStays | app/crud.py:181-191 | a booking keeps its price through every run, and its key is not reused |
| BookingRuns.TerminalIsForever | app/routers/booking.py:247-249 | a finished platform booking keeps its status in every later state in which it exists |
| BookingRuns.CacheNeverUnderReports | app/routers/booking.py:361-369 | in every run a cached list contains all active slots as a multiset, and is exact unless a booking was deleted since |
| BookingRuns.DeleteKeepsListExactly | app/routers/booking.py:748-752 | an exact list stays exact under a deletion exactly when the booking was not an active one of the property |
| BookingRuns.InsertKeepsCoverExactly | app/routers/booking.py:527 | an exact list kept while a row is inserted still covers the active slots exactly when the row is not an active one of the property |
| BookingRuns.OccupiedNightIsListed | app/routers/booking.py:350-369 | every occupied night is inside some slot of the cached list |
| Pricing.RoundingIsClose | app/pricing_client.py:84-85 | rounding moves an amount by at most half a cent |
| Pricing.RoundingOfTie | app/pricing_client.py:84-85 | a tie goes to the even cent |
| Pricing.RoundingIsMonotone | app/pricing_client.py:84-85 | a larger fraction never rounds to fewer cents |
| Pricing.DriftBeforeTax | app/pricing_client.py:84-85 | average times nights is off the total by at most n/2 cents |
| Pricing.TaxIsTheSurcharge | app/routers/booking.py:502-505 | the taxed price is the price with the percentage added, to the nearest cent |
| Pricing.DriftAfterTax | app/routers/booking.py:500-506 | after the gap tax by at most n/2 (1 + the factor's size) + 1/2 cents |
| Pricing.TaxIsMonotone | app/routers/booking.py:502-505 | for a price of at least 0 a larger gap percentage never lowers the taxed price |
| RefundSchedule.RefundPercent | app/routers/booking.py:604-609 | the loop returns the first satisfied tier of the policy, nothing for an unknown policy |
| RefundSchedule.FirstMatchIsBestExactly | app/routers/booking.py:592-609 | first match is the best satisfied tier on every day exactly when percentages fall along the schedule |
| RefundSchedule.EarlierNeverRefundsLess | app/routers/booking.py:604-609 | the share is monotone in the days until check-in |
| RefundSchedule.ConfiguredSchedules | app/routers/booking.py:597-601 | all three configured schedules are of that form, and refund between 0 and 100 percent |
| RefundSchedule.PolicyTerms | app/routers/booking.py:592-609 | the share refunded under each policy for any number of days |
| RefundSchedule.ShareIsBounded | app/routers/booking.py:642 | the refund is the share to the nearest cent, lies between nothing and the price, and a full share is the price |
| CheckinDispatch.NextKeepsAccount | app/checkin_dispatch.py:49-67 | every statement of every worker keeps: one claim holder, whose marker it is; a link sent at most once; the marker set exactly while held, sent or given up |
| CheckinDispatch.AtMostOnce | app/checkin_dispatch.py:40-48 | for any workers and any interleaving a booking's link is sent at most once, and one worker at a time holds the claim |
| CheckinDispatch.ReleaseClearsOwnClaim | app/checkin_dispatch.py:65-67 | a release clears the releasing worker's own claim, under which nothing was sent |
| CheckinDispatch.MarkerTellsTheTruth | app/checkin_dispatch.py:49-54 | the marker is null exactly when nobody holds the claim and the link was neither sent nor given up |
| CheckinDispatch.GivenUpForEver | app/checkin_dispatch.py:55-58 | a claim kept without a send means the link is not sent in any continuation |
| CheckinDispatch.OnlyDueLinksAreSent | app/checkin_dispatch.py:86-92 | nobody claims, sends or gives up the link of a booking that never was due |
| CheckinDispatch.AttemptAlone | app/checkin_dispatch.py:49-67 | one undisturbed attempt sets the marker unless the send raised, and sends exactly if delivered |
| CheckinLoops.SendCheckinLink | app/checkin_dispatch.py:32-67 | marker, sent links and whether the call raises, for each of the four outcomes and a lost claim |
| CheckinLoops.MaybeSendCheckinLink | app/checkin_dispatch.py:70-100 | marks and sends exactly for a confirmed, unmarked booking starting by the cutoff, changes nothing else, and swallows what the send raises |
| CheckinLoops.SendIsAnAttempt | app/checkin_dispatch.py:32-67 | the sequential send is one worker's undisturbed attempt in the protocol |
| CheckinLoops.SendBatch | app/routers/internal_checkin.py:64-66 | a batch is sent link by link, and ends early exactly when one raises |
| CheckinLoops.DispatchCheckinLinks | app/routers/internal_checkin.py:41-71 | terminates; unless a send raises, every row is marked exactly if it was before or is confirmed and starts by the cutoff, the added links are the deliverable ones among the newly marked, each once, and their number is returned |
| CheckinLoops.DispatchedRows | app/routers/internal_checkin.py:51-71 | the row by row reading of a finished dispatch |
| CheckinLoops.LaterCutoffMarksMore | app/routers/internal_checkin.py:47-57 | a later cutoff never marks fewer bookings |
| CheckinLoops.AllDone | app/routers/internal_checkin.py:68-69 | stopping after a short batch leaves nothing due |
| CheckinLoops.PurgeGuestIdentities | app/routers/internal_checkin.py:74-106 | terminates; every row is marked exactly if it was before or ended by the cutoff, the guests of the newly marked keep only their names, all others everything, and nothing is left due |
| CheckinLoops.PurgedRows | app/routers/internal_checkin.py:79-106 | the row by row reading of a finished purge |
| CheckinLoops.PurgeKeepsNames | app/routers/internal_checkin.py:28-38 | a purged guest keeps the names and loses every other detail; other guests keep everything |
| PersonalNumbers.LnchCatchesOneDigit | app/egn.py:20-31 | an LNCh with any one digit changed is rejected |
| PersonalNumbers.LnchMissesSwapExactly | app/egn.py:20-31 | a swap of neighbours among the first nine digits goes unnoticed exactly when they are equal or differ by 5 |
| PersonalNumbers.LnchWeightsAreUnits | app/egn.py:8 | the weights are the numbers up to 21 without a common factor with 10, largest first |
| PersonalNumbers.KnownLnch | tests/test_egn_validator.py:51-68 | the known valid and invalid numbers are told apart |
| PersonalNumbers.EgnCatchesCheckDigit | app/egn.py:11-17 | an EGN with another check digit is rejected |
| PersonalNumbers.EgnMissesDigitExactly | app/egn.py:11-17 | one changed digit among the first nine goes unnoticed exactly when the two sums leave 0 and 10 modulo 11 |
| PersonalNumbers.EgnMissesSwapExactly | app/egn.py:11-17 | the same for swapping any two unequal digits among the first nine |
| PersonalNumbers.EgnWeightsArePowers | app/egn.py:7 | the weights are the powers of two modulo 11 |
| PersonalNumbers.KnownEgn | tests/test_egn_validator.py:13-39 | the known valid numbers, one with remainder 10, and invalid ones are told apart |

## Left out

- Crud.Database.RecordSync: does not model the error text and the time of the sync.
- BookingRouter.ApplyGuestCancelRefund: works in whole cents and percentages instead of floats, and lets a half-cent tie fall to either neighbour.
- PersonalNumbers.EgnCatchesCheckDigit: takes digits to be '0' to '9'; other characters that Python counts as digits are not modelled.
- CheckinLoops.DispatchCheckinLinks: runs without interference; what interleaving workers do is the protocol of module CheckinDispatch.
- CheckinLoops.PurgeGuestIdentities: runs without interference; a guest added later is not purged, as in the code.
- CalendarSync.SyncAllActiveFeeds: does not model the pause between feeds and the metrics counters.
- SyncRuns.SweepIsARun: does not model requests between the turns of a sweep; module ShortCutLimits says what a turn on a copy loaded before does, for a feed that is still linked.
- BookingRouter.CreateBooking: does not model a failing cache invalidation (`BookingRuns.InsertKeepsCoverExactly` says when it does harm), currency, guest details, payment method and the recorded gap percentage.
- The order in which a query returns rows and in which the action lists are filled is not fixed by the model.
- Fetching: redirects, host checks, retries and size limits; a fetch is an input.
- The iCalendar text parser and time-zone conversion: library code; parsing starts from components.
- SQL locking and concurrent syncs of one feed: the check-then-insert and each sync are atomic steps.
- The column limit of 512 characters on uids and the date range of the calendar.
- Occupied-property search, booking lists and single reads: queries without effect on occupancy.
- Guest identity endpoints, tokens, encryption, users, notifications, emails and payments: thin wrappers or other services.
- Birth date and gender encoded in an EGN (`app/egn.py:34-58`): a table of cases with no property across functions.
- A platform booking and an imported row may share a night: syncs record overbookings on purpose, so no such invariant is claimed.
