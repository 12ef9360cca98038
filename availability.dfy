/** The slot-membership rule the booking handlers share
    (app/api/bookings/validate/route.ts and app/api/bookings/route.ts):
    find the FIRST availability entry whose formatted day equals the
    requested day's, then look for a slot whose start and end strings are
    exactly the requested ones. */
module Availability {
  import opened Wrappers
  import opened Text
  import opened DateUtil
  import opened Store

  /** What `.find` over the availability entries gives: the index of the
      first entry on the requested day, no entry, or an exception
      (`formatDate` throws on an entry that has no day). */
  datatype DayLookup = Found(index: nat) | NoEntry | Fault(index: nat)

  /** Every entry before k has a day, and none of them is the requested day. */
  predicate ScannedPast(entries: seq<DayEntry>, k: nat, requested: Instant)
    requires k <= |entries|
  {
    forall i :: 0 <= i < k ==> entries[i].day.Some? && !SameDay(entries[i].day.value, requested)
  }

  /** `availability.find(a => formatDate(a.day) === formatDate(dayOfWeek))`,
      where dayOfWeek is the requested date's `toLocaleDateString()`, read
      back as that day's midnight. */
  function FindDayEntry(entries: seq<DayEntry>, requested: Instant, now: Instant): (r: DayLookup)
    ensures r.Found? ==>
      r.index < |entries| && ScannedPast(entries, r.index, requested)
      && entries[r.index].day.Some? && SameDay(entries[r.index].day.value, requested)
    ensures r.Fault? ==>
      r.index < |entries| && ScannedPast(entries, r.index, requested) && entries[r.index].day.None?
    ensures r.NoEntry? ==> ScannedPast(entries, |entries|, requested)
  {
    FindDayEntryFrom(entries, 0, requested, now)
  }

  function FindDayEntryFrom(entries: seq<DayEntry>, k: nat, requested: Instant, now: Instant): (r: DayLookup)
    requires k <= |entries| && ScannedPast(entries, k, requested)
    ensures r.Found? ==>
      k <= r.index < |entries| && ScannedPast(entries, r.index, requested)
      && entries[r.index].day.Some? && SameDay(entries[r.index].day.value, requested)
    ensures r.Fault? ==>
      k <= r.index < |entries| && ScannedPast(entries, r.index, requested) && entries[r.index].day.None?
    ensures r.NoEntry? ==> ScannedPast(entries, |entries|, requested)
    decreases |entries| - k
  {
    if k == |entries| then NoEntry
    else match entries[k].day
      case None => Fault(k)
      case Some(d) =>
        LabelsMatchIffSameDay(d, StartOfDay(requested), now);
        if FormatDate(d, now) == FormatDate(StartOfDay(requested), now) then Found(k)
        else FindDayEntryFrom(entries, k + 1, requested, now)
  }

  /** The entry publishes exactly this start and end (both compared as
      strings; an absent end matches nothing). */
  predicate SlotListed(entry: DayEntry, startTime: string, endTime: Option<string>) {
    endTime.Some? && Slot(startTime, endTime.value) in entry.slots
  }

  datatype Membership = Listed | NotListed | Throws

  /** The whole `find(...)?.slots.find(...)` chain. */
  function CheckMembership(entries: seq<DayEntry>, requested: Instant, startTime: string,
                           endTime: Option<string>, now: Instant): (m: Membership)
    ensures m == Listed <==>
      exists k :: 0 <= k < |entries| && ScannedPast(entries, k, requested)
        && entries[k].day.Some? && SameDay(entries[k].day.value, requested)
        && SlotListed(entries[k], startTime, endTime)
    ensures m == Throws <==>
      exists k :: 0 <= k < |entries| && ScannedPast(entries, k, requested) && entries[k].day.None?
  {
    var r := FindDayEntry(entries, requested, now);
    UniqueFirstMatch(entries, requested);
    match r
    case Found(k) => if SlotListed(entries[k], startTime, endTime) then Listed else NotListed
    case NoEntry => NotListed
    case Fault(_) => Throws
  }

  /** Only one position can be the first stop of the scan. */
  lemma UniqueFirstMatch(entries: seq<DayEntry>, requested: Instant)
    ensures forall k1, k2 :: 0 <= k1 < k2 < |entries| && ScannedPast(entries, k2, requested) ==>
      entries[k1].day.Some? && !SameDay(entries[k1].day.value, requested)
  {
  }

  /** Only the first entry for the day is consulted: a slot that a later
      entry for the same day publishes is not bookable. */
  lemma LaterEntryIgnored(first: DayEntry, later: DayEntry, requested: Instant, s: string, e: string, now: Instant)
    requires first.day.Some? && SameDay(first.day.value, requested)
    requires Slot(s, e) !in first.slots
    ensures CheckMembership([first, later], requested, s, Some(e), now) == NotListed
  {
    var entries := [first, later];
    assert FindDayEntry(entries, requested, now) == Found(0) by {
      LabelsMatchIffSameDay(first.day.value, StartOfDay(requested), now);
    }
  }

  /** Exact matching: a half-hour request inside a published hour is not a
      published slot. */
  lemma NoSubSlot(day: Instant, now: Instant)
    ensures CheckMembership([DayEntry(Some(day), [Slot("09:00", "10:00")])], day, "09:00", Some("09:30"), now)
      == NotListed
  {
    var entries := [DayEntry(Some(day), [Slot("09:00", "10:00")])];
    assert FindDayEntry(entries, day, now) == Found(0) by {
      LabelsMatchIffSameDay(day, StartOfDay(day), now);
    }
    assert Slot("09:00", "10:00") != Slot("09:00", "09:30");
  }


  /** `const [startTime, endTime] = timeSlot.split("-")`; the end is
      undefined when there is no '-'. */
  function SplitTimeSlot(timeSlot: string): (r: (string, Option<string>))
    ensures '-' !in r.0 && r.0 <= timeSlot
    ensures r.1.None? <==> '-' !in timeSlot
    ensures r.1.Some? ==> '-' !in r.1.value && r.0 + "-" + r.1.value <= timeSlot
  {
    SplitPieces(timeSlot, '-');
    var parts := Split(timeSlot, '-');
    (parts[0], if |parts| > 1 then Some(parts[1]) else None)
  }

  /** A well-formed "HH:MM-HH:MM" splits into exactly its two times. */
  lemma SplitWellFormed(s: string, e: string)
    requires WellFormedTime(s) && WellFormedTime(e)
    ensures SplitTimeSlot(s + "-" + e) == (s, Some(e))
  {
    assert '-' !in s && '-' !in e;
    SplitPair(s, '-', e);
    assert s + "-" + e == s + ['-'] + e;
  }

  /** Without a '-' the end is undefined, so no published slot can match. */
  lemma SplitWithoutDash(t: string, entries: seq<DayEntry>, requested: Instant, now: Instant)
    requires '-' !in t
    ensures SplitTimeSlot(t).1.None?
    ensures CheckMembership(entries, requested, SplitTimeSlot(t).0, SplitTimeSlot(t).1, now) != Listed
  {
    SplitNoSeparator(t, '-');
  }
}
