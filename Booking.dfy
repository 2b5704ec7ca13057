/**
 * The patient's booking screen, src/pages/Appointment.jsx: the doctor's
 * display record, the set of open slot labels derived from the server's
 * availability rows, the date and slot selection, and the guards and
 * request body of the booking confirmation.
 */
module Booking {
  import opened Text
  import opened Js
  import opened Schedule

  // ---------------------------------------------------------------------
  // Doctor record
  // ---------------------------------------------------------------------

  const DoctorFallbackName: string := "แพทย์"

  /** A doctor as the server sends it; the field names vary between endpoints. */
  datatype DoctorRow = DoctorRow(
    id: Value,
    name: Option<string>, fullName: Option<string>,
    firstName: Option<string>, lastName: Option<string>,
    specialtyCode: Option<string>, specialty: Option<string>,
    specialtyName: Option<string>, specialtyNameTh: Option<string>, specialtyTh: Option<string>)

  /** The fixed shape the screen renders. */
  datatype Doctor = Doctor(id: Value, name: string, specialtyCode: Option<string>, specialtyNameTh: Option<string>)

  /** The first field, in order, that holds a non-empty text. */
  function FirstText(fields: seq<Option<string>>): (r: Option<string>)
    ensures r.Some? ==> r.value != ""
    ensures r.Some? ==> exists i :: 0 <= i < |fields| && fields[i] == Some(r.value)
                                   && forall j :: 0 <= j < i ==> TextOr(fields[j], "") == ""
    ensures r.None? <==> forall i :: 0 <= i < |fields| ==> TextOr(fields[i], "") == ""
  {
    if fields == [] then None
    else if TextOr(fields[0], "") != "" then Some(fields[0].value)
    else
      var rest := FirstText(fields[1..]);
      if rest.Some? then
        var i :| 0 <= i < |fields[1..]| && fields[1..][i] == Some(rest.value)
                 && forall j :: 0 <= j < i ==> TextOr(fields[1..][j], "") == "";
        assert fields[i + 1] == Some(rest.value);
        rest
      else rest
  }

  /**
   * The display name: `name`, else `fullName`, else the non-empty parts of
   * first and last name joined by a space, else the fallback "แพทย์".
   */
  function DoctorName(d: DoctorRow): (n: string)
    ensures n != ""
    ensures TextOr(d.name, "") != "" ==> n == d.name.value
    ensures TextOr(d.name, "") == "" && TextOr(d.fullName, "") != "" ==> n == d.fullName.value
    ensures TextOr(d.name, "") == "" && TextOr(d.fullName, "") == "" ==>
      n == OrElse(JoinNonEmpty(TextOr(d.firstName, ""), TextOr(d.lastName, "")), DoctorFallbackName)
  {
    OrElse(TextOr(d.name, ""),
      OrElse(TextOr(d.fullName, ""),
        OrElse(JoinNonEmpty(TextOr(d.firstName, ""), TextOr(d.lastName, "")), DoctorFallbackName)))
  }

  /** `normalizeDoctor(d)` without the avatar URL. */
  function NormalizeDoctor(d: DoctorRow): (r: Doctor)
    ensures r.id == d.id && r.name == DoctorName(d)
    ensures r.specialtyCode == FirstText([d.specialtyCode, d.specialty])
    ensures r.specialtyNameTh == FirstText([d.specialtyName, d.specialtyNameTh, d.specialtyTh])
  {
    Doctor(d.id, DoctorName(d),
      FirstText([d.specialtyCode, d.specialty]),
      FirstText([d.specialtyName, d.specialtyNameTh, d.specialtyTh]))
  }

  /** `list.find(x => String(x.id) === String(doctorId))`: the first row whose id reads as the route parameter. */
  function FindDoctor(list: seq<DoctorRow>, param: string): (r: Option<DoctorRow>)
    ensures r.Some? ==> r.value in list && ToStr(r.value.id) == param
    ensures r.Some? ==> exists i :: 0 <= i < |list| && list[i] == r.value
                                   && forall j :: 0 <= j < i ==> ToStr(list[j].id) != param
    ensures r.None? <==> forall i :: 0 <= i < |list| ==> ToStr(list[i].id) != param
  {
    if list == [] then None
    else if ToStr(list[0].id) == param then Some(list[0])
    else
      var rest := FindDoctor(list[1..], param);
      if rest.Some? then
        var i :| 0 <= i < |list[1..]| && list[1..][i] == rest.value
                 && forall j :: 0 <= j < i ==> ToStr(list[1..][j].id) != param;
        assert list[i + 1] == rest.value;
        rest
      else rest
  }

  // ---------------------------------------------------------------------
  // Open slots
  // ---------------------------------------------------------------------

  /** One availability row, as the server sends `{slot_time: "09:00:00", is_open: 1}`. */
  datatype AvailabilityRow = AvailabilityRow(slotTime: Option<string>, isOpen: Value)

  /** `Number(r.is_open) === 1` */
  predicate RowOpen(r: AvailabilityRow)
    ensures RowOpen(r) <==>
      r.isOpen == Num(1) || r.isOpen == Bool(true) || (r.isOpen.Str? && StringToNumber(r.isOpen.s) == Finite(1))
  {
    ToNumber(r.isOpen) == Finite(1)
  }

  /** `(r.slot_time || "").slice(0, 5)` */
  function RowLabel(r: AvailabilityRow): (t: string)
    ensures t <= TextOr(r.slotTime, "")
    ensures |t| == if |TextOr(r.slotTime, "")| < 5 then |TextOr(r.slotTime, "")| else 5
  {
    Prefix(TextOr(r.slotTime, ""), 5)
  }

  /**
   * The patient's open set: the "HH:MM" prefix of every row the server marks
   * open, and of no other row. Labels outside the slot domain are kept.
   */
  function OpenSet(rows: seq<AvailabilityRow>): (s: set<string>)
    ensures forall i :: 0 <= i < |rows| && RowOpen(rows[i]) ==> RowLabel(rows[i]) in s
    ensures forall t :: t in s ==> |t| <= 5
    ensures rows == [] ==> s == {}
  {
    set i | 0 <= i < |rows| && RowOpen(rows[i]) :: RowLabel(rows[i])
  }

  /** The open set of two lists of rows put together is the union of their open sets. */
  lemma OpenSetConcat(a: seq<AvailabilityRow>, b: seq<AvailabilityRow>)
    ensures OpenSet(a + b) == OpenSet(a) + OpenSet(b)
  {
    var ab := a + b;
    forall t | t in OpenSet(ab) ensures t in OpenSet(a) + OpenSet(b) {
      var i :| 0 <= i < |ab| && RowOpen(ab[i]) && RowLabel(ab[i]) == t;
      if i < |a| {
        assert ab[i] == a[i];
      } else {
        assert ab[i] == b[i - |a|];
      }
    }
    forall t | t in OpenSet(a) ensures t in OpenSet(ab) {
      var i :| 0 <= i < |a| && RowOpen(a[i]) && RowLabel(a[i]) == t;
      assert ab[i] == a[i];
    }
    forall t | t in OpenSet(b) ensures t in OpenSet(ab) {
      var i :| 0 <= i < |b| && RowOpen(b[i]) && RowLabel(b[i]) == t;
      assert ab[|a| + i] == b[i];
    }
  }

  /** A row the server marks closed changes nothing, wherever it stands. */
  lemma ClosedRowIgnored(rows: seq<AvailabilityRow>, k: nat, r: AvailabilityRow)
    requires k <= |rows| && !RowOpen(r)
    ensures OpenSet(rows[..k] + [r] + rows[k..]) == OpenSet(rows)
  {
    var pre, post := rows[..k], rows[k..];
    OpenSetConcat(pre + [r], post);
    OpenSetConcat(pre, [r]);
    assert OpenSet([r]) == {};
    OpenSetConcat(pre, post);
    assert pre + post == rows;
  }

  /** The server's example: an open "09:00:00" row and a closed "09:30:00" row give exactly {"09:00"}. */
  lemma OpenSetExample()
    ensures OpenSet([AvailabilityRow(Some("09:00:00"), Num(1)), AvailabilityRow(Some("09:30:00"), Num(0))]) == {"09:00"}
  {
    var rows := [AvailabilityRow(Some("09:00:00"), Num(1)), AvailabilityRow(Some("09:30:00"), Num(0))];
    assert RowOpen(rows[0]) && RowLabel(rows[0]) == "09:00";
    assert !RowOpen(rows[1]);
  }

  /** The open set is not restricted to the slot domain: an open "17:00:00" row puts "17:00" in it. */
  lemma OpenSetNotRestrictedToDomain()
    ensures var s := OpenSet([AvailabilityRow(Some("17:00:00"), Num(1))]);
      "17:00" in s && "17:00" !in SlotDomain()
  {
    var r := AvailabilityRow(Some("17:00:00"), Num(1));
    assert RowOpen([r][0]) && RowLabel([r][0]) == "17:00";
    SlotDomainFacts();
    assert WellFormedTime("17:00") && ClockValue("17:00") == 1700;
  }

  // ---------------------------------------------------------------------
  // Confirming a booking
  // ---------------------------------------------------------------------

  /** The body of POST /api/appointments. */
  datatype BookingRequest = BookingRequest(patientId: Value, doctorId: Value, date: string, time: string)

  /** What `onConfirm` does: ask to log in, ask to pick a slot, or send the request. */
  datatype ConfirmOutcome = AskLogin | AskSelection | Send(request: BookingRequest)

  /** `${selectedSlot}:00` */
  function SlotTime(slot: string): string {
    slot + ":00"
  }

  function Confirm(authId: Value, doctor: Option<Doctor>, date: LocalDate, slot: string): (o: ConfirmOutcome)
    ensures o == AskLogin <==> !Truthy(authId)
    ensures o == AskSelection <==> Truthy(authId) && (doctor.None? || !Truthy(doctor.value.id) || slot == "")
    ensures o.Send? ==> o.request == BookingRequest(authId, doctor.value.id, FormatDate(date), SlotTime(slot))
  {
    if !Truthy(authId) then AskLogin
    else if doctor.None? || !Truthy(doctor.value.id) || slot == "" then AskSelection
    else Send(BookingRequest(authId, doctor.value.id, FormatDate(date), SlotTime(slot)))
  }

  /**
   * The request's time cut to five characters gives back the label, and its
   * date reads back as the chosen day with the month counted from 1.
   */
  lemma RequestCarriesSelection(authId: Value, doctor: Option<Doctor>, date: LocalDate, slot: string)
    requires |slot| == 5
    requires Confirm(authId, doctor, date, slot).Send?
    ensures var req := Confirm(authId, doctor, date, slot).request;
      && Prefix(req.time, 5) == slot
      && ParseDate(req.date) == Some3(date.year, date.monthIndex + 1, date.day)
  {
    var req := Confirm(authId, doctor, date, slot).request;
    assert req.time[..5] == slot;
    FormatDateRoundTrip(date);
  }

  // ---------------------------------------------------------------------
  // The screen's selection state
  // ---------------------------------------------------------------------

  /**
   * The state of the booking screen. `epoch` counts changes of the values
   * the slot-loading effect depends on (doctor, selected date, selected
   * slot): a load answers only if no such change happened since it began,
   * which is what the effect's abort flag achieves.
   */
  class BookingScreen {
    var doctor: Option<Doctor>
    var selectedDate: LocalDate
    var selectedSlot: string
    var openSlots: set<string>
    var loadingSlots: bool
    var epoch: nat

    /** A selected slot is a domain label that the current open set contains. */
    ghost predicate Valid()
      reads this
    {
      selectedSlot == "" || (selectedSlot in openSlots && selectedSlot in SlotDomain())
    }

    constructor (today: LocalDate)
      ensures Valid()
      ensures doctor == None && selectedDate == today && selectedSlot == ""
      ensures openSlots == {} && !loadingSlots
    {
      doctor := None;
      selectedDate := today;
      selectedSlot := "";
      openSlots := {};
      loadingSlots := false;
      epoch := 0;
    }

    /** A slot button is enabled iff its label is open and slots are not loading. */
    predicate SlotEnabled(t: string)
      reads this
      ensures SlotEnabled(t) ==> t in openSlots
      ensures loadingSlots ==> !SlotEnabled(t)
      ensures !loadingSlots && t in openSlots ==> SlotEnabled(t)
    {
      t in openSlots && !loadingSlots
    }

    method DoctorLoaded(d: DoctorRow)
      requires Valid()
      modifies this
      ensures Valid()
      ensures doctor == Some(NormalizeDoctor(d))
      ensures selectedDate == old(selectedDate) && selectedSlot == old(selectedSlot)
      ensures openSlots == old(openSlots) && loadingSlots == old(loadingSlots)
      ensures epoch == if old(doctor) == doctor then old(epoch) else old(epoch) + 1
    {
      var n := NormalizeDoctor(d);
      if doctor != Some(n) {
        epoch := epoch + 1;
      }
      doctor := Some(n);
    }

    /** The effect starts a load when a doctor is known; the ticket identifies it. */
    method BeginSlotLoad() returns (ticket: Option<nat>)
      requires Valid()
      modifies this
      ensures Valid()
      ensures ticket.Some? <==> doctor.Some?
      ensures ticket.Some? ==> ticket.value == epoch && loadingSlots
      ensures ticket.None? ==> loadingSlots == old(loadingSlots)
      ensures doctor == old(doctor) && selectedDate == old(selectedDate) && selectedSlot == old(selectedSlot)
      ensures openSlots == old(openSlots) && epoch == old(epoch)
    {
      if doctor.None? {
        return None;
      }
      loadingSlots := true;
      ticket := Some(epoch);
    }

    /**
     * A load answered. A superseded load is discarded. Otherwise the open set
     * is replaced, a selected slot that is no longer open is cleared, and one
     * that is still open is kept.
     */
    method SlotsLoaded(ticket: nat, rows: seq<AvailabilityRow>)
      requires Valid()
      modifies this
      ensures Valid()
      ensures ticket != old(epoch) ==> unchanged(this)
      ensures ticket == old(epoch) ==>
        && openSlots == OpenSet(rows)
        && !loadingSlots
        && selectedSlot == (if old(selectedSlot) in OpenSet(rows) then old(selectedSlot) else "")
        && epoch == (if selectedSlot == old(selectedSlot) then old(epoch) else old(epoch) + 1)
      ensures doctor == old(doctor) && selectedDate == old(selectedDate)
    {
      if ticket != epoch {
        return;
      }
      var s := OpenSet(rows);
      openSlots := s;
      if selectedSlot != "" && selectedSlot !in s {
        selectedSlot := "";
        epoch := epoch + 1;
      }
      loadingSlots := false;
    }

    /** A load failed: the open set is left as it was and loading ends. */
    method SlotsLoadFailed(ticket: nat)
      requires Valid()
      modifies this
      ensures Valid()
      ensures ticket != old(epoch) ==> unchanged(this)
      ensures ticket == old(epoch) ==> !loadingSlots
      ensures openSlots == old(openSlots) && selectedSlot == old(selectedSlot) && epoch == old(epoch)
      ensures doctor == old(doctor) && selectedDate == old(selectedDate)
    {
      if ticket == epoch {
        loadingSlots := false;
      }
    }

    /** Choosing a day selects it and always clears the selected slot. */
    method ChooseDay(d: LocalDate)
      requires Valid()
      modifies this
      ensures Valid()
      ensures selectedDate == d && selectedSlot == ""
      ensures doctor == old(doctor) && openSlots == old(openSlots) && loadingSlots == old(loadingSlots)
      ensures epoch == if d == old(selectedDate) && old(selectedSlot) == "" then old(epoch) else old(epoch) + 1
    {
      if d != selectedDate || selectedSlot != "" {
        epoch := epoch + 1;
      }
      selectedDate := d;
      selectedSlot := "";
    }

    /** Clicking a slot button: only a domain label whose button is enabled becomes the selection. */
    method ClickSlot(t: string)
      requires Valid()
      modifies this
      ensures Valid()
      ensures t in SlotDomain() && old(SlotEnabled(t)) ==> selectedSlot == t
      ensures !(t in SlotDomain() && old(SlotEnabled(t))) ==> selectedSlot == old(selectedSlot)
      ensures epoch == if selectedSlot == old(selectedSlot) then old(epoch) else old(epoch) + 1
      ensures doctor == old(doctor) && selectedDate == old(selectedDate)
      ensures openSlots == old(openSlots) && loadingSlots == old(loadingSlots)
    {
      if t in SlotDomain() && SlotEnabled(t) && t != selectedSlot {
        selectedSlot := t;
        epoch := epoch + 1;
      }
    }

    /** `onConfirm` with the identity the screen read at mount. */
    function ConfirmNow(authId: Value): (o: ConfirmOutcome)
      reads this
      requires Valid()
      ensures o.Send? ==> |o.request.time| == 8 && o.request.time[..5] in SlotDomain()
      ensures o.Send? ==> o.request.time[5..] == ":00"
    {
      var o := Confirm(authId, doctor, selectedDate, selectedSlot);
      if o.Send? then
        SlotDomainFacts();
        assert o.request.time[..5] == selectedSlot;
        assert o.request.time[5..] == ":00";
        o
      else o
    }
  }
}
