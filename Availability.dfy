/**
 * The doctor's dashboard, src/pages/DoctorDashboard.jsx: the per-day map
 * of open slot labels the doctor edits (toggle, clear, load, save), the
 * sorted summary of the selected day, and the doctor's appointment list.
 *
 * A JavaScript Set iterates in insertion order, and that order reaches the
 * server through `[...set]` in the save payload, so a day's set is a
 * sequence without repetitions, in insertion order.
 */
module Availability {
  import opened Text
  import opened Js
  import opened Schedule

  // ---------------------------------------------------------------------
  // Insertion-ordered sets of labels
  // ---------------------------------------------------------------------

  predicate NoDup(s: seq<string>) {
    forall i, j :: 0 <= i < j < |s| ==> s[i] != s[j]
  }

  /** `new Set(xs)`: each value once, at its first occurrence. */
  function Dedup(xs: seq<string>): (r: seq<string>)
    ensures NoDup(r)
    ensures forall x :: x in r <==> x in xs
    ensures |r| <= |xs|
  {
    if xs == [] then []
    else
      var p := Dedup(xs[..|xs| - 1]);
      var x := xs[|xs| - 1];
      assert forall y :: y in xs <==> y in xs[..|xs| - 1] || y == x by {
        assert xs == xs[..|xs| - 1] + [x];
      }
      if x in p then p else p + [x]
  }

  /** Where x first occurs in xs. */
  function FirstIndex(xs: seq<string>, x: string): (i: nat)
    requires x in xs
    ensures i < |xs| && xs[i] == x && x !in xs[..i]
  {
    if xs[0] == x then 0
    else
      var i := 1 + FirstIndex(xs[1..], x);
      assert xs[..i] == [xs[0]] + xs[1..][..i - 1];
      i
  }

  /** An occurrence with no earlier one is the first occurrence. */
  lemma FirstIndexUnique(xs: seq<string>, x: string, i: nat)
    requires i < |xs| && xs[i] == x && x !in xs[..i]
    ensures FirstIndex(xs, x) == i
  {
  }

  /** Appending to xs does not move the first occurrence of a value already in it. */
  lemma FirstIndexSnoc(xs: seq<string>, y: string, x: string)
    requires x in xs
    ensures FirstIndex(xs + [y], x) == FirstIndex(xs, x)
  {
    var k := FirstIndex(xs, x);
    assert (xs + [y])[..k] == xs[..k];
    FirstIndexUnique(xs + [y], x, k);
  }

  /**
   * `new Set(xs)` iterates its members in the order of their first
   * occurrence in xs, which is the order `[...set]` sends them in.
   */
  lemma {:induction false} DedupFirstOrder(xs: seq<string>)
    ensures forall i, j :: 0 <= i < j < |Dedup(xs)| ==>
      FirstIndex(xs, Dedup(xs)[i]) < FirstIndex(xs, Dedup(xs)[j])
  {
    if xs != [] {
      var pre, x := xs[..|xs| - 1], xs[|xs| - 1];
      assert xs == pre + [x];
      var p := Dedup(pre);
      DedupFirstOrder(pre);
      var r := Dedup(xs);
      forall i, j | 0 <= i < j < |r|
        ensures FirstIndex(xs, r[i]) < FirstIndex(xs, r[j])
      {
        FirstIndexSnoc(pre, x, r[i]);
        if j < |p| {
          FirstIndexSnoc(pre, x, r[j]);
        } else {
          assert r[j] == x && x !in pre;
          FirstIndexUnique(xs, x, |xs| - 1);
        }
      }
    }
  }

  /** `set.delete(t)`: the other members, in their order. */
  function Remove(s: seq<string>, t: string): (r: seq<string>)
    ensures forall x :: x in r <==> x in s && x != t
    ensures NoDup(s) ==> NoDup(r)
    ensures t !in s ==> r == s
  {
    if s == [] then []
    else
      var rest := Remove(s[1..], t);
      if s[0] == t then rest
      else
        assert NoDup(s) ==> s[0] !in s[1..];
        [s[0]] + rest
  }

  /** `set.has(t) ? set.delete(t) : set.add(t)` on a copy. */
  function Toggle(s: seq<string>, t: string): (r: seq<string>)
    requires NoDup(s)
    ensures NoDup(r)
    ensures forall x :: x in r <==> (x in s <==> x != t)
  {
    if t in s then Remove(s, t) else s + [t]
  }

  /**
   * Toggling the same label twice gives back the same members. When the
   * label was absent the sequence itself comes back; when it was present it
   * comes back at the end, since a JavaScript Set appends what it adds.
   */
  lemma ToggleTwice(s: seq<string>, t: string)
    requires NoDup(s)
    ensures forall x :: x in Toggle(Toggle(s, t), t) <==> x in s
    ensures t !in s ==> Toggle(Toggle(s, t), t) == s
    ensures t in s ==> Toggle(Toggle(s, t), t) == Remove(s, t) + [t]
  {
    if t !in s {
      RemoveLast(s, t);
    }
  }

  lemma {:induction false} RemoveLast(s: seq<string>, t: string)
    requires t !in s
    ensures Remove(s + [t], t) == s
  {
    if s != [] {
      assert (s + [t])[1..] == s[1..] + [t];
      RemoveLast(s[1..], t);
    }
  }

  // ---------------------------------------------------------------------
  // Loading a day
  // ---------------------------------------------------------------------

  /** One row of GET /api/doctor/availability. Its `is_open` is never read here. */
  datatype SlotRow = SlotRow(slotTime: Option<string>, time: Option<string>, isOpen: Value)

  /** `s.slot_time?.slice(0, 5) || s.time`, with a missing value read as "". */
  function RowValue(r: SlotRow): string {
    OrElse(Prefix(TextOr(r.slotTime, ""), 5), TextOr(r.time, ""))
  }

  /** `slots.map(...).filter(Boolean)` */
  function RowValues(rows: seq<SlotRow>): (r: seq<string>)
    ensures forall x :: x in r <==> x != "" && exists i :: 0 <= i < |rows| && RowValue(rows[i]) == x
  {
    if rows == [] then []
    else
      var rest := RowValues(rows[1..]);
      assert forall i :: 1 <= i < |rows| ==> rows[i] == rows[1..][i - 1];
      assert forall i :: 0 <= i < |rows[1..]| ==> rows[1..][i] == rows[i + 1];
      if RowValue(rows[0]) == "" then rest else [RowValue(rows[0])] + rest
  }

  /** The loaded day: every non-empty row value once, whatever the row's `is_open`. */
  function LoadedSet(rows: seq<SlotRow>): (r: seq<string>)
    ensures NoDup(r)
    ensures forall x :: x in r <==> x != "" && exists i :: 0 <= i < |rows| && RowValue(rows[i]) == x
  {
    Dedup(RowValues(rows))
  }

  /** A row the server marks closed is still shown as open on the dashboard. */
  lemma ClosedRowLoaded(rows: seq<SlotRow>, i: nat)
    requires i < |rows| && rows[i].slotTime == Some("09:00:00") && rows[i].isOpen == Num(0)
    ensures "09:00" in LoadedSet(rows)
  {
    assert RowValue(rows[i]) == "09:00";
  }

  // ---------------------------------------------------------------------
  // Summary
  // ---------------------------------------------------------------------

  datatype Summary = NothingSet | Chips(labels: seq<string>)

  /** The summary panel: the empty notice, or the day's labels sorted. */
  function SummaryOf(day: seq<string>): (r: Summary)
    ensures r == NothingSet <==> day == []
    ensures r.Chips? ==> Sorted(r.labels) && multiset(r.labels) == multiset(day)
  {
    if |day| == 0 then NothingSet else Chips(Sort(day))
  }

  /** Each label is "HH:MM" and each comes at a later time of day than the one before. */
  predicate Chronological(ls: seq<string>) {
    forall i, j :: 0 <= i < j < |ls| ==>
      WellFormedTime(ls[i]) && WellFormedTime(ls[j]) && ClockValue(ls[i]) < ClockValue(ls[j])
  }

  /** For "HH:MM" labels the sorted summary runs from the earliest time to the latest. */
  lemma SummaryChronological(day: seq<string>)
    requires NoDup(day)
    requires forall x :: x in day ==> WellFormedTime(x)
    ensures SummaryOf(day).Chips? ==> Chronological(SummaryOf(day).labels)
  {
    var r := SummaryOf(day);
    if r.Chips? {
      var ls := r.labels;
      PermutationKeepsNoDup(day, ls);
      forall i, j | 0 <= i < j < |ls|
        ensures WellFormedTime(ls[i]) && WellFormedTime(ls[j]) && ClockValue(ls[i]) < ClockValue(ls[j])
      {
        assert ls[i] in multiset(day) && ls[j] in multiset(day);
        assert LexLeq(ls[i], ls[j]);
        LexIsClockOrder(ls[i], ls[j]);
      }
    }
  }

  /** A permutation of a sequence without repetitions has none either. */
  lemma PermutationKeepsNoDup(day: seq<string>, ls: seq<string>)
    requires NoDup(day) && multiset(ls) == multiset(day)
    ensures NoDup(ls)
  {
    forall i, j | 0 <= i < j < |ls| ensures ls[i] != ls[j] {
      NoDupCount(day, ls[i]);
      if ls[i] == ls[j] {
        CountTwo(ls, i, j);
      }
    }
  }

  lemma CountTwo(ls: seq<string>, i: nat, j: nat)
    requires i < j < |ls| && ls[i] == ls[j]
    ensures multiset(ls)[ls[i]] >= 2
  {
    assert ls == ls[..i] + [ls[i]] + ls[i + 1..j] + [ls[j]] + ls[j + 1..];
  }

  lemma {:induction false} NoDupCount(s: seq<string>, x: string)
    requires NoDup(s)
    ensures multiset(s)[x] <= 1
  {
    if s != [] {
      assert s == [s[0]] + s[1..];
      NoDupCount(s[1..], x);
      assert s[0] !in s[1..];
    }
  }

  // ---------------------------------------------------------------------
  // The doctor's appointment list
  // ---------------------------------------------------------------------

  const PatientFallbackName: string := "คนไข้"

  /** One row of GET /api/appointments/doctor. */
  datatype AppointmentRow = AppointmentRow(
    id: Value, aptTime: Option<string>, time: Option<string>,
    patientFirstName: Option<string>, patientLastName: Option<string>,
    note: Option<string>, status: Option<string>)

  /** What the list shows for one appointment (its date label is left out). */
  datatype ListEntry = ListEntry(id: Value, time: string, patient: string, note: string, status: string)

  function MapAppointment(a: AppointmentRow): (e: ListEntry)
    ensures e.id == a.id
    ensures var src := OrElse(TextOr(a.aptTime, ""), TextOr(a.time, ""));
      e.time <= src && |e.time| == if |src| < 5 then |src| else 5
    ensures TextOr(a.aptTime, "") != "" ==> e.time <= a.aptTime.value
    ensures TextOr(a.aptTime, "") == "" ==> e.time <= TextOr(a.time, "")
    ensures e.patient != ""
    ensures var first, last := TextOr(a.patientFirstName, ""), TextOr(a.patientLastName, "");
      e.patient == if Trim(JoinNonEmpty(first, last)) == "" then PatientFallbackName else Trim(JoinNonEmpty(first, last))
    ensures TextOr(a.status, "") == "" <==> e.status == "booked" && TextOr(a.status, "") != "booked"
    ensures TextOr(a.status, "") != "" ==> e.status == a.status.value
    ensures TextOr(a.note, "") == "" ==> e.note == ""
    ensures TextOr(a.note, "") != "" ==> e.note == a.note.value
  {
    ListEntry(
      a.id,
      Prefix(OrElse(TextOr(a.aptTime, ""), TextOr(a.time, "")), 5),
      OrElse(Trim(JoinNonEmpty(TextOr(a.patientFirstName, ""), TextOr(a.patientLastName, ""))), PatientFallbackName),
      TextOr(a.note, ""),
      OrElse(TextOr(a.status, ""), "booked"))
  }

  function MapAppointments(list: seq<AppointmentRow>): (r: seq<ListEntry>)
    ensures |r| == |list|
    ensures forall i :: 0 <= i < |list| ==> r[i] == MapAppointment(list[i])
  {
    seq(|list|, i requires 0 <= i < |list| => MapAppointment(list[i]))
  }

  // ---------------------------------------------------------------------
  // The dashboard's availability state
  // ---------------------------------------------------------------------

  /** The body of PUT /api/doctor/availability. */
  datatype SavePayload = SavePayload(doctorId: Value, date: string, slots: seq<string>)

  /**
   * `availability` maps each day (the selected date's `toDateString()`,
   * which the date determines) to its set of open labels.
   */
  class Dashboard {
    var availability: map<LocalDate, seq<string>>
    var selectedDate: LocalDate
    var todayList: seq<ListEntry>

    ghost predicate Valid()
      reads this
    {
      forall d :: d in availability ==> NoDup(availability[d])
    }

    constructor (today: LocalDate)
      ensures Valid() && availability == map[] && selectedDate == today && todayList == []
    {
      availability := map[];
      selectedDate := today;
      todayList := [];
    }

    /** The doctor's appointments arrived: each row mapped for the list, in the server's order. */
    method AppointmentsLoaded(list: seq<AppointmentRow>)
      requires Valid()
      modifies this
      ensures Valid()
      ensures todayList == MapAppointments(list)
      ensures availability == old(availability) && selectedDate == old(selectedDate)
    {
      todayList := MapAppointments(list);
    }

    /** The appointment request failed: the list is emptied. */
    method AppointmentsLoadFailed()
      requires Valid()
      modifies this
      ensures Valid()
      ensures todayList == []
      ensures availability == old(availability) && selectedDate == old(selectedDate)
    {
      todayList := [];
    }

    /** `availability[dayKey] || new Set()`: a day with no entry has no open slot. */
    function DaySlots(): (s: seq<string>)
      reads this
      requires Valid()
      ensures NoDup(s)
      ensures selectedDate !in availability ==> s == []
    {
      if selectedDate in availability then availability[selectedDate] else []
    }

    method SelectDay(d: LocalDate)
      requires Valid()
      modifies this
      ensures Valid() && selectedDate == d && availability == old(availability) && todayList == old(todayList)
    {
      selectedDate := d;
    }

    /** Flips one label of the selected day; every other day keeps its entry. */
    method ToggleSlot(t: string)
      requires Valid()
      modifies this
      ensures Valid() && selectedDate == old(selectedDate) && todayList == old(todayList)
      ensures availability == old(availability)[selectedDate := Toggle(old(DaySlots()), t)]
      ensures forall x :: x in DaySlots() <==> (x in old(DaySlots()) <==> x != t)
      ensures forall d :: d != selectedDate ==> (d in availability <==> d in old(availability))
      ensures forall d :: d != selectedDate && d in availability ==> availability[d] == old(availability)[d]
    {
      var copy := DaySlots();
      availability := availability[selectedDate := Toggle(copy, t)];
    }

    /** Empties the selected day; every other day keeps its entry. */
    method ClearDay()
      requires Valid()
      modifies this
      ensures Valid() && selectedDate == old(selectedDate) && todayList == old(todayList)
      ensures availability == old(availability)[selectedDate := []]
      ensures DaySlots() == []
    {
      availability := availability[selectedDate := []];
    }

    /**
     * A load for `day` answered: that day's entry becomes the loaded set. The
     * day is the one selected when the request began, which may no longer
     * be the selected one.
     */
    method LoadSucceeded(day: LocalDate, rows: seq<SlotRow>)
      requires Valid()
      modifies this
      ensures Valid() && selectedDate == old(selectedDate) && todayList == old(todayList)
      ensures availability == old(availability)[day := LoadedSet(rows)]
    {
      availability := availability[day := LoadedSet(rows)];
    }

    /** A load for `day` failed: that day's entry becomes empty. */
    method LoadFailed(day: LocalDate)
      requires Valid()
      modifies this
      ensures Valid() && selectedDate == old(selectedDate) && todayList == old(todayList)
      ensures availability == old(availability)[day := []]
    {
      availability := availability[day := []];
    }

    /**
     * `saveDay`: nothing without a doctor id and an API base; otherwise the
     * selected day's date text and exactly its labels, in insertion order.
     */
    method SaveDay(doctorId: Value, api: string) returns (p: Option<SavePayload>)
      requires Valid()
      ensures p.None? <==> !Truthy(doctorId) || api == ""
      ensures p.Some? ==> p.value.doctorId == doctorId && p.value.date == FormatDate(selectedDate)
      ensures p.Some? ==> p.value.slots == DaySlots()
      ensures p.Some? ==> NoDup(p.value.slots) && (selectedDate !in availability ==> p.value.slots == [])
    {
      if !Truthy(doctorId) || api == "" {
        return None;
      }
      var slots := DaySlots();
      p := Some(SavePayload(doctorId, FormatDate(selectedDate), slots));
    }

    /** The summary panel of the selected day: the notice, or its chips sorted and each shown once. */
    function SummaryNow(): (r: Summary)
      reads this
      requires Valid()
      ensures r == NothingSet <==> DaySlots() == []
      ensures r.Chips? ==> Sorted(r.labels) && multiset(r.labels) == multiset(DaySlots())
      ensures r.Chips? ==> NoDup(r.labels)
    {
      var r := SummaryOf(DaySlots());
      if r.Chips? then
        PermutationKeepsNoDup(DaySlots(), r.labels);
        r
      else r
    }
  }
}
