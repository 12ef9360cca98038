/** The counselor's schedule editor (app/dashboard/schedule/page.tsx): a
    list of day schedules held as component state and replaced by the
    `addTimeSlot`, `removeTimeSlot` and `updateTimeSlot` updaters. Days are
    compared with `toDateString`, i.e. by calendar day. Slot ids come from
    `Math.random()`; here the caller supplies a fresh one. */
module SchedulePage {
  import opened Wrappers
  import opened Text
  import opened DateUtil

  datatype PageSlot = PageSlot(id: string, startTime: string, endTime: string)

  datatype DaySchedule = DaySchedule(date: Instant, timeSlots: seq<PageSlot>)

  datatype SlotField = StartTime | EndTime

  /** No two schedules fall on the same calendar day. */
  predicate OnePerDay(s: seq<DaySchedule>) {
    forall i, j :: 0 <= i < j < |s| ==> !SameDay(s[i].date, s[j].date)
  }

  /** `${h.toString().padStart(2, "0")}:00`. */
  function HourLabel(h: nat): (r: string)
    ensures |r| >= 5 && r[|r| - 3..] == ":00"
  {
    PadStart2(NatToString(h)) + ":00"
  }

  /** `parseInt(value.split(":")[0])`; None is NaN. */
  function HourOfLabel(value: string): (r: Option<int>)
  {
    ParseInt(Split(value, ':')[0])
  }

  /** Reading the hour back from a label gives the hour. */
  lemma HourLabelRoundTrip(h: nat)
    ensures HourOfLabel(HourLabel(h)) == Some(h)
  {
    var p := PadStart2(NatToString(h));
    assert ':' !in p by {
      assert forall i :: 0 <= i < |p| ==> IsDigit(p[i]);
    }
    assert HourLabel(h) == p + [':'] + "00";
    SplitFirst(p, ':', "00");
    ParsePadded(h, []);
    assert p + [] == p;
  }

  /** `defaultStartHour`: the next hour but never before 9 on today, 9 on
      any other day. */
  function DefaultStartHour(date: Instant, now: Instant): (h: nat)
    ensures h >= 9
    ensures SameDay(date, now) ==> h > HourOf(now)
    ensures !SameDay(date, now) ==> h == 9
  {
    if SameDay(date, now) then (if HourOf(now) + 1 > 9 then HourOf(now) + 1 else 9) else 9
  }

  /** The slot `addTimeSlot` creates. */
  function NewSlot(id: string, date: Instant, now: Instant): (s: PageSlot)
    ensures HourOfLabel(s.startTime) == Some(DefaultStartHour(date, now))
    ensures HourOfLabel(s.endTime) == Some(DefaultStartHour(date, now) + 1)
  {
    SlotAt(id, DefaultStartHour(date, now))
  }

  /** The slot [h:00, (h+1):00]. */
  function SlotAt(id: string, h: nat): (s: PageSlot)
    ensures HourOfLabel(s.startTime) == Some(h) && HourOfLabel(s.endTime) == Some(h + 1)
  {
    HourLabelRoundTrip(h);
    HourLabelRoundTrip(h + 1);
    PageSlot(id, HourLabel(h), HourLabel(h + 1))
  }

  /** `addTimeSlot`: append the default slot to the schedules for that day,
      or append a new schedule holding only that slot. */
  function AddTimeSlot(prev: seq<DaySchedule>, date: Instant, now: Instant, id: string): (r: seq<DaySchedule>)
    ensures (exists i :: 0 <= i < |prev| && SameDay(prev[i].date, date)) ==>
      |r| == |prev|
      && forall i :: 0 <= i < |prev| ==>
        r[i] == if SameDay(prev[i].date, date)
                then prev[i].(timeSlots := prev[i].timeSlots + [NewSlot(id, date, now)]) else prev[i]
    ensures (forall i :: 0 <= i < |prev| ==> !SameDay(prev[i].date, date)) ==>
      r == prev + [DaySchedule(date, [NewSlot(id, date, now)])]
  {
    if exists i :: 0 <= i < |prev| && SameDay(prev[i].date, date) then
      seq(|prev|, i requires 0 <= i < |prev| =>
        if SameDay(prev[i].date, date)
        then prev[i].(timeSlots := prev[i].timeSlots + [NewSlot(id, date, now)]) else prev[i])
    else prev + [DaySchedule(date, [NewSlot(id, date, now)])]
  }

  /** Adding a slot keeps at most one schedule per day and leaves every
      other day untouched. */
  lemma AddKeepsOnePerDay(prev: seq<DaySchedule>, date: Instant, now: Instant, id: string)
    requires OnePerDay(prev)
    ensures var r := AddTimeSlot(prev, date, now, id);
      OnePerDay(r) && forall i :: 0 <= i < |prev| && !SameDay(prev[i].date, date) ==> r[i] == prev[i]
  {
    var r := AddTimeSlot(prev, date, now, id);
    if exists i :: 0 <= i < |prev| && SameDay(prev[i].date, date) {
      assert forall i :: 0 <= i < |prev| ==> r[i].date == prev[i].date;
    }
  }

  /** With one schedule per day, the day's schedule is the only one that
      changes. */
  lemma AddUpdatesOneSchedule(prev: seq<DaySchedule>, date: Instant, now: Instant, id: string, k: nat)
    requires OnePerDay(prev) && k < |prev| && SameDay(prev[k].date, date)
    ensures AddTimeSlot(prev, date, now, id) == prev[k := prev[k].(timeSlots := prev[k].timeSlots + [NewSlot(id, date, now)])]
  {
  }

  /** Adding a slot adds exactly one slot. */
  lemma AddCountsOneSlot(prev: seq<DaySchedule>, date: Instant, now: Instant, id: string)
    requires OnePerDay(prev)
    ensures TotalSlots(AddTimeSlot(prev, date, now, id)) == TotalSlots(prev) + 1
  {
    if exists i :: 0 <= i < |prev| && SameDay(prev[i].date, date) {
      var k :| 0 <= k < |prev| && SameDay(prev[k].date, date);
      AddUpdatesOneSchedule(prev, date, now, id, k);
      TotalSlotsUpdate(prev, k, prev[k].(timeSlots := prev[k].timeSlots + [NewSlot(id, date, now)]));
    } else {
      TotalSlotsAppend(prev, DaySchedule(date, [NewSlot(id, date, now)]));
    }
  }

  /** Number of slots over all schedules. */
  function TotalSlots(s: seq<DaySchedule>): nat {
    if s == [] then 0 else |s[0].timeSlots| + TotalSlots(s[1..])
  }

  lemma {:induction false} TotalSlotsAppend(s: seq<DaySchedule>, d: DaySchedule)
    ensures TotalSlots(s + [d]) == TotalSlots(s) + |d.timeSlots|
  {
    if s != [] {
      assert (s + [d])[1..] == s[1..] + [d];
      TotalSlotsAppend(s[1..], d);
    }
  }

  lemma {:induction false} TotalSlotsUpdate(s: seq<DaySchedule>, k: nat, d: DaySchedule)
    requires k < |s|
    ensures TotalSlots(s[k := d]) == TotalSlots(s) - |s[k].timeSlots| + |d.timeSlots|
  {
    if k > 0 {
      assert s[k := d][1..] == s[1..][k - 1 := d];
      TotalSlotsUpdate(s[1..], k - 1, d);
    } else {
      assert s[k := d][1..] == s[1..];
    }
  }

  /** The slots of a day other than the one with that id. */
  function WithoutSlot(slots: seq<PageSlot>, slotId: string): (r: seq<PageSlot>)
    ensures forall i :: 0 <= i < |r| ==> r[i].id != slotId && r[i] in slots
    ensures forall i :: 0 <= i < |slots| && slots[i].id != slotId ==> slots[i] in r
  {
    if slots == [] then []
    else if slots[0].id == slotId then WithoutSlot(slots[1..], slotId)
    else [slots[0]] + WithoutSlot(slots[1..], slotId)
  }

  /** `removeTimeSlot`: drop the slot with that id from the day's schedules;
      the schedule stays, even when it is left empty. */
  function RemoveTimeSlot(prev: seq<DaySchedule>, date: Instant, slotId: string): (r: seq<DaySchedule>)
    ensures |r| == |prev|
    ensures forall i :: 0 <= i < |prev| ==> r[i].date == prev[i].date
    ensures forall i :: 0 <= i < |prev| && !SameDay(prev[i].date, date) ==> r[i] == prev[i]
    ensures forall i :: 0 <= i < |prev| && SameDay(prev[i].date, date) ==>
      r[i].timeSlots == WithoutSlot(prev[i].timeSlots, slotId)
  {
    seq(|prev|, i requires 0 <= i < |prev| =>
      if SameDay(prev[i].date, date) then prev[i].(timeSlots := WithoutSlot(prev[i].timeSlots, slotId)) else prev[i])
  }

  lemma RemoveKeepsOnePerDay(prev: seq<DaySchedule>, date: Instant, slotId: string)
    requires OnePerDay(prev)
    ensures OnePerDay(RemoveTimeSlot(prev, date, slotId))
  {
  }

  /** Removing a slot id that is not there changes nothing. */
  lemma {:induction false} RemoveAbsentIsNoop(slots: seq<PageSlot>, slotId: string)
    requires forall i :: 0 <= i < |slots| ==> slots[i].id != slotId
    ensures WithoutSlot(slots, slotId) == slots
  {
    if slots != [] {
      RemoveAbsentIsNoop(slots[1..], slotId);
    }
  }

  /** The guard: on today, an hour at or before the current one is refused
      (NaN compares false and passes). */
  predicate UpdateRefused(date: Instant, value: string, now: Instant) {
    SameDay(date, now) && HourOfLabel(value).Some? && HourOfLabel(value).value <= HourOf(now)
  }

  function SetField(slot: PageSlot, field: SlotField, value: string): PageSlot {
    match field
    case StartTime => slot.(startTime := value)
    case EndTime => slot.(endTime := value)
  }

  function SetSlotField(slots: seq<PageSlot>, slotId: string, field: SlotField, value: string): (r: seq<PageSlot>)
    ensures |r| == |slots|
    ensures forall j :: 0 <= j < |slots| ==>
      r[j] == if slots[j].id == slotId then SetField(slots[j], field, value) else slots[j]
  {
    seq(|slots|, j requires 0 <= j < |slots| =>
      if slots[j].id == slotId then SetField(slots[j], field, value) else slots[j])
  }

  /** `updateTimeSlot`: unless refused, set one field of the slots with
      that id on that day. */
  function UpdateTimeSlot(prev: seq<DaySchedule>, date: Instant, slotId: string, field: SlotField, value: string,
                          now: Instant): (r: seq<DaySchedule>)
    ensures UpdateRefused(date, value, now) ==> r == prev
    ensures |r| == |prev|
    ensures forall i :: 0 <= i < |prev| ==> r[i].date == prev[i].date && |r[i].timeSlots| == |prev[i].timeSlots|
    ensures !UpdateRefused(date, value, now) ==>
      forall i, j :: 0 <= i < |prev| && 0 <= j < |prev[i].timeSlots| ==>
        r[i].timeSlots[j] ==
          if SameDay(prev[i].date, date) && prev[i].timeSlots[j].id == slotId
          then SetField(prev[i].timeSlots[j], field, value) else prev[i].timeSlots[j]
  {
    if UpdateRefused(date, value, now) then prev
    else
      seq(|prev|, i requires 0 <= i < |prev| =>
        if SameDay(prev[i].date, date) then prev[i].(timeSlots := SetSlotField(prev[i].timeSlots, slotId, field, value))
        else prev[i])
  }

  /** The guard applies to the end field as much as to the start. */
  lemma GuardIgnoresField(prev: seq<DaySchedule>, date: Instant, slotId: string, value: string, now: Instant)
    requires UpdateRefused(date, value, now)
    ensures UpdateTimeSlot(prev, date, slotId, StartTime, value, now) == prev
    ensures UpdateTimeSlot(prev, date, slotId, EndTime, value, now) == prev
  {
  }

  /** Nothing stops an end before the start: on a later day, setting the
      end of a 10:00-11:00 slot to 08:00 is accepted. */
  lemma EndBeforeStartAccepted(date: Instant, now: Instant)
    requires !SameDay(date, now)
    ensures var prev := [DaySchedule(date, [PageSlot("a", "10:00", "11:00")])];
      UpdateTimeSlot(prev, date, "a", EndTime, "08:00", now)[0].timeSlots[0] == PageSlot("a", "10:00", "08:00")
  {
  }

  /** End option i is disabled when i is at or before the start's hour. */
  predicate EndOptionDisabled(i: nat, startTime: string) {
    HourOfLabel(startTime).Some? && i <= HourOfLabel(startTime).value
  }

  /** For a slot whose start is the label of hour h, exactly the end options
      after h are offered. */
  lemma EndOptionsAfterStart(h: nat, i: nat)
    ensures EndOptionDisabled(i, HourLabel(h)) <==> i <= h
  {
    HourLabelRoundTrip(h);
  }

  /** No schedule before position k is on the given day. */
  predicate NoneBefore(schedules: seq<DaySchedule>, k: nat, day: Instant) {
    forall j :: 0 <= j < k && j < |schedules| ==> !SameDay(schedules[j].date, day)
  }

  /** `selectedSchedule`: the first schedule on the selected day, if any. */
  function SelectedSchedule(schedules: seq<DaySchedule>, selected: Option<Instant>): (r: Option<DaySchedule>)
    ensures selected.None? ==> r.None?
    ensures r.Some? ==> r.value in schedules && SameDay(r.value.date, selected.value)
    ensures selected.Some? && r.None? ==> forall i :: 0 <= i < |schedules| ==> !SameDay(schedules[i].date, selected.value)
    ensures r.Some? ==> (exists k :: 0 <= k < |schedules| && schedules[k] == r.value && NoneBefore(schedules, k, selected.value))
  {
    if selected.None? || schedules == [] then None
    else if SameDay(schedules[0].date, selected.value) then Some(schedules[0])
    else
      var r := SelectedSchedule(schedules[1..], selected);
      FirstMatchFromTail(schedules, selected.value, r);
      r
  }

  /** A first match in the tail, behind a head on another day, is a first
      match of the whole list. */
  lemma FirstMatchFromTail(schedules: seq<DaySchedule>, day: Instant, r: Option<DaySchedule>)
    requires schedules != [] && !SameDay(schedules[0].date, day)
    requires r.Some? ==> (exists k :: 0 <= k < |schedules[1..]| && schedules[1..][k] == r.value && NoneBefore(schedules[1..], k, day))
    ensures r.Some? ==> (exists k :: 0 <= k < |schedules| && schedules[k] == r.value && NoneBefore(schedules, k, day))
  {
    if r.Some? {
      var k :| 0 <= k < |schedules[1..]| && schedules[1..][k] == r.value && NoneBefore(schedules[1..], k, day);
      assert schedules[k + 1] == r.value;
      forall j | 0 <= j < k + 1 ensures !SameDay(schedules[j].date, day) {
        if j > 0 { assert schedules[j] == schedules[1..][j - 1]; }
      }
    }
  }

  /** A slot just added for a day is visible through the selection. */
  lemma AddedSlotSelected(prev: seq<DaySchedule>, date: Instant, now: Instant, id: string)
    ensures var r := SelectedSchedule(AddTimeSlot(prev, date, now, id), Some(date));
      r.Some? && NewSlot(id, date, now) in r.value.timeSlots
  {
    var x := NewSlot(id, date, now);
    var s := AddTimeSlot(prev, date, now, id);
    if exists i :: 0 <= i < |prev| && SameDay(prev[i].date, date) {
      var k :| 0 <= k < |prev| && SameDay(prev[k].date, date);
      forall i | 0 <= i < |s| && SameDay(s[i].date, date) ensures x in s[i].timeSlots {
        assert s[i].timeSlots == prev[i].timeSlots + [x];
      }
      assert SameDay(s[k].date, date);
    } else {
      assert s == prev + [DaySchedule(date, [x])];
      forall i | 0 <= i < |s| && SameDay(s[i].date, date) ensures x in s[i].timeSlots {
        assert i == |prev|;
      }
      assert SameDay(s[|prev|].date, date);
    }
    SelectedHasAllOfDay(s, date, x);
  }

  /** When every schedule of the day holds slot x, the selected one does. */
  lemma {:induction false} SelectedHasAllOfDay(s: seq<DaySchedule>, date: Instant, x: PageSlot)
    requires exists i :: 0 <= i < |s| && SameDay(s[i].date, date)
    requires forall i :: 0 <= i < |s| && SameDay(s[i].date, date) ==> x in s[i].timeSlots
    ensures var r := SelectedSchedule(s, Some(date)); r.Some? && x in r.value.timeSlots
  {
    if !SameDay(s[0].date, date) {
      var k :| 0 <= k < |s| && SameDay(s[k].date, date);
      assert s[1..][k - 1] == s[k];
      SelectedHasAllOfDay(s[1..], date, x);
    }
  }

  /** The editor's component state; each updater replaces `schedules`. */
  class ScheduleEditor {
    var schedules: seq<DaySchedule>
    var hourlyRate: string

    constructor ()
      ensures schedules == [] && hourlyRate == "50"
    {
      schedules := [];
      hourlyRate := "50";
    }

    method AddSlot(date: Instant, now: Instant, id: string)
      modifies this`schedules
      ensures schedules == AddTimeSlot(old(schedules), date, now, id)
      ensures old(OnePerDay(schedules)) ==> OnePerDay(schedules)
    {
      if OnePerDay(schedules) {
        AddKeepsOnePerDay(schedules, date, now, id);
      }
      schedules := AddTimeSlot(schedules, date, now, id);
    }

    method RemoveSlot(date: Instant, slotId: string)
      modifies this`schedules
      ensures schedules == RemoveTimeSlot(old(schedules), date, slotId)
      ensures old(OnePerDay(schedules)) ==> OnePerDay(schedules)
    {
      schedules := RemoveTimeSlot(schedules, date, slotId);
    }

    method UpdateSlot(date: Instant, slotId: string, field: SlotField, value: string, now: Instant)
      modifies this`schedules
      ensures schedules == UpdateTimeSlot(old(schedules), date, slotId, field, value, now)
      ensures old(OnePerDay(schedules)) ==> OnePerDay(schedules)
    {
      schedules := UpdateTimeSlot(schedules, date, slotId, field, value, now);
    }
  }
}
