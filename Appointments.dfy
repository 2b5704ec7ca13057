/**
 * The patient's list of appointments, src/pages/MyAppointments.jsx: the
 * two tabs and what each shows, the counts on the tab buttons, cancelling
 * (a status patch and a tab switch) and rebooking from the cancelled tab
 * (the item leaves the list), and the date and time texts of each entry.
 */
module Appointments {
  import opened Text
  import opened Js
  import Booking

  /** One appointment as the server lists it; avatar, names and specialty are display-only. */
  datatype Item = Item(id: Value, status: Value, date: Value, time: Value, doctorId: Value)

  datatype Tab = Upcoming | Cancelled

  /** `statusForTab`: status "cancelled" is the cancelled tab's, anything else the upcoming tab's. */
  function Bucket(a: Item): (t: Tab)
    ensures t == Cancelled <==> a.status == Str("cancelled")
  {
    if a.status == Str("cancelled") then Cancelled else Upcoming
  }

  /** The items the tab lists, in the order of `items`. */
  function Shown(items: seq<Item>, tab: Tab): (r: seq<Item>)
    ensures forall a :: a in r <==> a in items && Bucket(a) == tab
    ensures |r| <= |items|
  {
    if items == [] then []
    else
      var rest := Shown(items[1..], tab);
      assert forall a :: a in items <==> a == items[0] || a in items[1..] by {
        assert items == [items[0]] + items[1..];
      }
      if Bucket(items[0]) == tab then [items[0]] + rest else rest
  }

  /** Filtering keeps order: the tab's list of a concatenation is the concatenation of the lists. */
  lemma {:induction false} ShownConcat(a: seq<Item>, b: seq<Item>, tab: Tab)
    ensures Shown(a + b, tab) == Shown(a, tab) + Shown(b, tab)
  {
    if a != [] {
      assert (a + b)[0] == a[0] && (a + b)[1..] == a[1..] + b;
      ShownConcat(a[1..], b, tab);
    } else {
      assert a + b == b;
    }
  }

  /** The two counts on the tab buttons add up to the number of items. */
  lemma {:induction false} CountsPartition(items: seq<Item>)
    ensures |Shown(items, Upcoming)| + |Shown(items, Cancelled)| == |items|
  {
    if items != [] {
      CountsPartition(items[1..]);
    }
  }

  /** The patch of a successful cancel: every item with this id gets status "cancelled". */
  function MarkCancelled(items: seq<Item>, id: Value): (r: seq<Item>)
    ensures |r| == |items|
    ensures forall i :: 0 <= i < |items| && items[i].id == id ==> r[i] == items[i].(status := Str("cancelled"))
    ensures forall i :: 0 <= i < |items| && items[i].id != id ==> r[i] == items[i]
  {
    seq(|items|, i requires 0 <= i < |items| =>
      if items[i].id == id then items[i].(status := Str("cancelled")) else items[i])
  }

  /** `filter(x => x.id !== id)`: the other items, in order. */
  function RemoveId(items: seq<Item>, id: Value): (r: seq<Item>)
    ensures forall a :: a in r <==> a in items && a.id != id
    ensures |r| <= |items|
    ensures |items| == 1 ==> r == (if items[0].id != id then items else [])
  {
    if items == [] then []
    else
      var rest := RemoveId(items[1..], id);
      assert forall a :: a in items <==> a == items[0] || a in items[1..] by {
        assert items == [items[0]] + items[1..];
      }
      if items[0].id != id then [items[0]] + rest else rest
  }

  /**
   * Removal keeps order and multiplicity: removing from a concatenation is
   * the concatenation of the removals. With the one-item case of RemoveId's
   * contract, this fixes the result for every list.
   */
  lemma {:induction false} RemoveIdConcat(a: seq<Item>, b: seq<Item>, id: Value)
    ensures RemoveId(a + b, id) == RemoveId(a, id) + RemoveId(b, id)
  {
    if a != [] {
      assert (a + b)[0] == a[0] && (a + b)[1..] == a[1..] + b;
      RemoveIdConcat(a[1..], b, id);
    } else {
      assert a + b == b;
    }
  }

  /**
   * After a cancel, the upcoming tab lists what it listed before less the
   * cancelled id, in the same order, and every item with that id is on the
   * cancelled tab.
   */
  lemma {:induction false} CancelLeavesUpcoming(items: seq<Item>, id: Value)
    ensures Shown(MarkCancelled(items, id), Upcoming) == RemoveId(Shown(items, Upcoming), id)
  {
    if items != [] {
      var m := MarkCancelled(items, id);
      assert m[1..] == MarkCancelled(items[1..], id);
      CancelLeavesUpcoming(items[1..], id);
    }
  }

  lemma CancelledIdOnCancelledTab(items: seq<Item>, id: Value, i: nat)
    requires i < |items| && items[i].id == id
    ensures MarkCancelled(items, id)[i] in Shown(MarkCancelled(items, id), Cancelled)
  {
  }

  /** Cancelling the same id again changes nothing. */
  lemma MarkCancelledIdempotent(items: seq<Item>, id: Value)
    ensures MarkCancelled(MarkCancelled(items, id), id) == MarkCancelled(items, id)
  {
  }

  // ---------------------------------------------------------------------
  // Entry texts
  // ---------------------------------------------------------------------

  /** `String(raw || "")` */
  function TextOf(raw: Value): string {
    ToStr(Or(raw, Str("")))
  }

  /** `displayDate`: the text before the first "T" when there is one, else the first 10 characters. */
  function DisplayDate(raw: Value): (r: string)
    ensures r <= TextOf(raw)
    ensures 'T' in TextOf(raw) ==> 'T' !in r && TextOf(raw)[|r|] == 'T'
    ensures 'T' !in TextOf(raw) ==> |r| == if |TextOf(raw)| < 10 then |TextOf(raw)| else 10
  {
    var s := TextOf(raw);
    if 'T' in s then Before(s, 'T') else Prefix(s, 10)
  }

  /** An ISO timestamp shows as its date part. */
  lemma DisplayDateOfTimestamp(s: string)
    requires |s| >= 11 && s[10] == 'T' && 'T' !in s[..10]
    ensures DisplayDate(Str(s)) == s[..10]
  {
    var r := DisplayDate(Str(s));
    assert s[10] in s;
    assert forall k :: 0 <= k < 10 ==> s[k] == s[..10][k];
  }

  /** A date text of at most 10 characters without a "T" shows unchanged. */
  lemma DisplayDateOfDate(s: string)
    requires |s| <= 10 && 'T' !in s
    ensures DisplayDate(Str(s)) == s
  {
  }

  /** `displayTimeHM`: the first five characters. */
  function DisplayTimeHM(t: Value): (r: string)
    ensures r <= TextOf(t)
    ensures |r| == if |TextOf(t)| < 5 then |TextOf(t)| else 5
  {
    Prefix(TextOf(t), 5)
  }

  /** The "HH:MM:00" a booking stores shows as the "HH:MM" label the patient picked. */
  lemma DisplayTimeOfBooking(slot: string)
    requires |slot| == 5
    ensures DisplayTimeHM(Str(Booking.SlotTime(slot))) == slot
  {
    assert Booking.SlotTime(slot)[..5] == slot;
  }

  /** `canLink`: the entry links to its doctor's booking page only with a truthy doctor id. */
  predicate CanLink(a: Item)
    ensures a.doctorId.Num? ==> (CanLink(a) <==> a.doctorId.n != 0)
    ensures a.doctorId.Str? ==> (CanLink(a) <==> a.doctorId.s != "")
    ensures a.doctorId.Undefined? || a.doctorId.Null? ==> !CanLink(a)
  {
    Truthy(a.doctorId)
  }

  /** The target of the reschedule and rebook links. */
  function LinkTarget(a: Item): (r: string)
    ensures CanLink(a) <==> r != "#"
    ensures CanLink(a) ==> r == "/appointment/" + ToStr(a.doctorId)
  {
    if CanLink(a) then "/appointment/" + ToStr(a.doctorId) else "#"
  }

  // ---------------------------------------------------------------------
  // The screen
  // ---------------------------------------------------------------------

  const LoginFirst: string := "กรุณาเข้าสู่ระบบ"
  const LoadFailedText: string := "โหลดรายการนัดไม่สำเร็จ"
  const CancelFailedText: string := "ยกเลิกไม่สำเร็จ"
  const CancelDoneText: string := "ยกเลิกนัดเรียบร้อยแล้ว เวลาดังกล่าวได้ถูกเปิดให้จองใหม่"

  /** How the list request ended. */
  datatype Fetch =
    | NotOk                                 // a non-2xx response
    | Body(isArray: bool, data: seq<Item>)  // a parsed body, an array or not
    | Rejected(message: string)             // `e.message || String(e)` of a thrown error

  /** How the cancel request ended: a 2xx response, or another with its body's `message`. */
  datatype CancelResponse = CancelOk | CancelRefused(message: string)

  class MyAppointmentsScreen {
    var items: seq<Item>
    var tab: Tab
    var loading: bool
    var err: string

    /** Without a patient id the screen shows the login notice and loads nothing. */
    constructor (patientId: Value)
      ensures items == [] && tab == Upcoming
      ensures loading <==> Truthy(patientId)
      ensures err == if Truthy(patientId) then "" else LoginFirst
    {
      items := [];
      tab := Upcoming;
      loading := Truthy(patientId);
      err := if Truthy(patientId) then "" else LoginFirst;
    }

    /** The list request ended: a non-array body counts as no appointments. */
    method Loaded(f: Fetch)
      modifies this
      ensures !loading && tab == old(tab)
      ensures f.Body? ==> items == (if f.isArray then f.data else []) && err == old(err)
      ensures f.NotOk? ==> items == old(items) && err == LoadFailedText
      ensures f.Rejected? ==> items == old(items) && err == f.message
    {
      match f {
        case NotOk => err := LoadFailedText;
        case Body(isArray, data) => items := if isArray then data else [];
        case Rejected(message) => err := message;
      }
      loading := false;
    }

    method SelectTab(t: Tab)
      modifies this
      ensures tab == t && items == old(items) && loading == old(loading) && err == old(err)
    {
      tab := t;
    }

    /**
     * `onCancel(id)`: a declined confirmation does nothing; a refused
     * request alerts and changes nothing; an accepted one marks the items
     * cancelled, alerts and switches to the cancelled tab.
     */
    method Cancel(id: Value, confirmed: bool, response: CancelResponse) returns (alert: Option<string>)
      modifies this
      ensures loading == old(loading) && err == old(err)
      ensures !confirmed ==> alert == None && items == old(items) && tab == old(tab)
      ensures confirmed && response.CancelRefused? ==>
        alert == Some(OrElse(response.message, CancelFailedText)) && items == old(items) && tab == old(tab)
      ensures confirmed && response.CancelOk? ==>
        alert == Some(CancelDoneText) && items == MarkCancelled(old(items), id) && tab == Cancelled
    {
      if !confirmed {
        return None;
      }
      match response
      case CancelRefused(message) =>
        alert := Some(OrElse(message, CancelFailedText));
      case CancelOk =>
        items := MarkCancelled(items, id);
        alert := Some(CancelDoneText);
        tab := Cancelled;
    }

    /**
     * `onRebookClick(id, canLink)`: without a link the click is prevented
     * and nothing changes; otherwise the items with that id leave the list
     * and the link is followed.
     */
    method RebookClick(id: Value, canLink: bool) returns (prevented: bool)
      modifies this
      ensures prevented <==> !canLink
      ensures tab == old(tab) && loading == old(loading) && err == old(err)
      ensures items == if canLink then RemoveId(old(items), id) else old(items)
    {
      if !canLink {
        return true;
      }
      items := RemoveId(items, id);
      prevented := false;
    }

    /** The list under the active tab. */
    function List(): (r: seq<Item>)
      reads this
      ensures forall a :: a in r <==> a in items && Bucket(a) == tab
      ensures |r| <= |items|
    {
      Shown(items, tab)
    }
  }
}
