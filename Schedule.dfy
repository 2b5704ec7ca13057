/**
 * The half-hour slot labels (`buildSlots`, written out identically in
 * src/pages/Appointment.jsx and src/pages/DoctorDashboard.jsx) and the
 * local "YYYY-MM-DD" date text (`fmtDateLocal` in Appointment.jsx, `toYMD`
 * in DoctorDashboard.jsx), shared by the patient and the doctor screens.
 */
module Schedule {
  import opened Text

  // ---------------------------------------------------------------------
  // Slot labels
  // ---------------------------------------------------------------------

  /** The number of labels the loop produces: hours 9 to 16, no half hour after 16. */
  const SlotCount: nat := 15

  /** The i-th label: hour 9 + i/2, on the hour for even i and at half past for odd i. */
  function Label(i: nat): string
    requires i < SlotCount
  {
    Pad2(9 + i / 2) + (if i % 2 == 0 then ":00" else ":30")
  }

  /** BASE_SLOTS. */
  function SlotDomain(): seq<string>
  {
    seq(SlotCount, i requires 0 <= i < SlotCount => Label(i))
  }

  /** `buildSlots()`: for each hour from 9 to 16, push "HH:00" and, except at 16, "HH:30". */
  method BuildSlots() returns (out: seq<string>)
    ensures out == SlotDomain()
  {
    out := [];
    for h := 9 to 17
      invariant |out| == if h <= 16 then 2 * (h - 9) else SlotCount
      invariant forall i :: 0 <= i < |out| ==> out[i] == Label(i)
    {
      var hh := Pad2(h);
      var n := 2 * (h - 9);
      assert Label(n) == hh + ":00" by { assert n / 2 == h - 9 && n % 2 == 0; }
      out := out + [hh + ":00"];
      if h != 16 {
        assert Label(n + 1) == hh + ":30" by { assert (n + 1) / 2 == h - 9 && (n + 1) % 2 == 1; }
        out := out + [hh + ":30"];
      }
    }
    assert |out| == |SlotDomain()|;
    assert forall i :: 0 <= i < |out| ==> out[i] == SlotDomain()[i];
  }

  /** "HH:MM" with four decimal digits. */
  predicate WellFormedTime(s: string) {
    |s| == 5 && IsDigit(s[0]) && IsDigit(s[1]) && s[2] == ':' && IsDigit(s[3]) && IsDigit(s[4])
  }

  /** The label read as the number HHMM (so "09:30" is 930). */
  function ClockValue(s: string): nat
    requires WellFormedTime(s)
  {
    1000 * DigitValue(s[0]) + 100 * DigitValue(s[1]) + 10 * DigitValue(s[3]) + DigitValue(s[4])
  }

  /** A last decimal place and what stands before it are determined by the number. */
  lemma PlaceValue(x: int, y: int, p: int, q: int)
    requires 0 <= p < 10 && 0 <= q < 10 && 10 * x + p == 10 * y + q
    ensures p == q && x == y
  {
  }

  /** Equal clock values mean equal labels. */
  lemma ClockValueInjective(a: string, b: string)
    requires WellFormedTime(a) && WellFormedTime(b)
    ensures ClockValue(a) == ClockValue(b) <==> a == b
  {
    if ClockValue(a) == ClockValue(b) {
      var a0, a1, a3, a4 := DigitValue(a[0]), DigitValue(a[1]), DigitValue(a[3]), DigitValue(a[4]);
      var b0, b1, b3, b4 := DigitValue(b[0]), DigitValue(b[1]), DigitValue(b[3]), DigitValue(b[4]);
      PlaceValue(10 * (10 * a0 + a1) + a3, 10 * (10 * b0 + b1) + b3, a4, b4);
      PlaceValue(10 * a0 + a1, 10 * b0 + b1, a3, b3);
      PlaceValue(a0, b0, a1, b1);
      assert a == [a[0], a[1], a[2], a[3], a[4]];
      assert b == [b[0], b[1], b[2], b[3], b[4]];
    }
  }

  /** One step of the lexicographic comparison. */
  lemma LexStep(a: string, b: string)
    requires a != [] && b != []
    ensures LexLess(a, b) <==> a[0] < b[0] || (a[0] == b[0] && LexLess(a[1..], b[1..]))
  {
  }

  /**
   * For "HH:MM" labels, string order (the order `sort()` and `<` use) is
   * time-of-day order.
   */
  lemma LexIsClockOrder(a: string, b: string)
    requires WellFormedTime(a) && WellFormedTime(b)
    ensures LexLess(a, b) <==> ClockValue(a) < ClockValue(b)
  {
    LexStep(a, b);
    LexStep(a[1..], b[1..]);
    LexStep(a[2..], b[2..]);
    LexStep(a[3..], b[3..]);
    LexStep(a[4..], b[4..]);
    assert a[1..][1..] == a[2..] && b[1..][1..] == b[2..];
    assert a[2..][1..] == a[3..] && b[2..][1..] == b[3..];
    assert a[3..][1..] == a[4..] && b[3..][1..] == b[4..];
    assert a[4..][1..] == [] && b[4..][1..] == [];
    assert !LexLess([], []);
  }

  /** Label(i) is a well-formed label worth 100 * hour + 30 * (i odd). */
  lemma LabelShape(i: nat)
    requires i < SlotCount
    ensures WellFormedTime(Label(i))
    ensures ClockValue(Label(i)) == 100 * (9 + i / 2) + 30 * (i % 2)
    ensures Label(i)[2..] == ":00" || Label(i)[2..] == ":30"
  {
    var h := 9 + i / 2;
    Pad2Digits(h);
  }

  /**
   * The domain has 15 labels from "09:00" to "16:00", strictly increasing,
   * each on the hour or half hour; "16:30" is not among them.
   */
  lemma SlotDomainFacts()
    ensures |SlotDomain()| == 15
    ensures SlotDomain()[0] == "09:00" && SlotDomain()[14] == "16:00"
    ensures forall i :: 0 <= i < 15 ==> WellFormedTime(SlotDomain()[i]) && 900 <= ClockValue(SlotDomain()[i]) <= 1600
    ensures forall i :: 0 <= i < 15 ==> SlotDomain()[i][2..] == ":00" || SlotDomain()[i][2..] == ":30"
    ensures forall i, j :: 0 <= i < j < 15 ==> LexLess(SlotDomain()[i], SlotDomain()[j])
    ensures "16:30" !in SlotDomain()
  {
    var d := SlotDomain();
    forall i | 0 <= i < 15
      ensures WellFormedTime(d[i]) && (d[i][2..] == ":00" || d[i][2..] == ":30")
      ensures 900 <= ClockValue(d[i]) == 100 * (9 + i / 2) + 30 * (i % 2) <= 1600
      ensures d[i] != "16:30"
    {
      LabelShape(i);
    }
    Pad2Digits(9);
    Pad2Digits(16);
    forall i, j | 0 <= i < j < 15 ensures LexLess(d[i], d[j]) {
      LexIsClockOrder(d[i], d[j]);
    }
  }

  // ---------------------------------------------------------------------
  // Local dates
  // ---------------------------------------------------------------------

  type MonthIndex = m: int | 0 <= m < 12
  type DayOfMonth = d: int | 1 <= d <= 31 witness 1

  /** A day as `getFullYear()`, `getMonth()` and `getDate()` report it. */
  datatype LocalDate = LocalDate(year: nat, monthIndex: MonthIndex, day: DayOfMonth)

  /** `fmtDateLocal(d)` / `toYMD(d)`: year, then month (index + 1) and day padded to two digits. */
  function FormatDate(d: LocalDate): (s: string)
    ensures |s| == |DecimalString(d.year)| + 6
    ensures s[..|s| - 6] == DecimalString(d.year)
    ensures s[|s| - 6] == '-' && s[|s| - 3] == '-'
    ensures AllDigits(s[|s| - 5..|s| - 3]) && AllDigits(s[|s| - 2..])
  {
    Pad2Digits(d.monthIndex + 1);
    Pad2Digits(d.day);
    var y, m2, d2 := DecimalString(d.year), Pad2(d.monthIndex + 1), Pad2(d.day);
    var s := y + "-" + m2 + "-" + d2;
    assert s[..|s| - 6] == y;
    assert s[|s| - 5..|s| - 3] == m2;
    assert s[|s| - 2..] == d2;
    s
  }

  /** Reads "Y-MM-DD" back into its three numbers. */
  function ParseDate(s: string): Option3
  {
    var n := |s|;
    if n >= 7 && s[n - 6] == '-' && s[n - 3] == '-'
       && AllDigits(s[..n - 6]) && AllDigits(s[n - 5..n - 3]) && AllDigits(s[n - 2..])
    then Some3(DecimalValue(s[..n - 6]), DecimalValue(s[n - 5..n - 3]), DecimalValue(s[n - 2..]))
    else None3
  }

  datatype Option3 = None3 | Some3(year: nat, month: nat, day: nat)

  /** A padded number below 100 is two digits that read back as the number. */
  lemma Pad2Value(n: nat)
    requires n < 100
    ensures |Pad2(n)| == 2 && AllDigits(Pad2(n)) && DecimalValue(Pad2(n)) == n
  {
    Pad2Digits(n);
    var p := Pad2(n);
    assert p[..1] == [p[0]] && [p[0]][..0] == [];
    assert DecimalValue(p[..1]) == DigitValue(p[0]) == n / 10;
    assert DecimalValue(p) == 10 * DecimalValue(p[..1]) + DigitValue(p[1]);
    assert DigitValue(p[1]) == n % 10;
  }

  /** The date text is "Y-MM-DD": the year, the month numbered from 1, the day. */
  lemma FormatDateRoundTrip(d: LocalDate)
    ensures ParseDate(FormatDate(d)) == Some3(d.year, d.monthIndex + 1, d.day)
  {
    var y, m2, d2 := DecimalString(d.year), Pad2(d.monthIndex + 1), Pad2(d.day);
    Pad2Value(d.monthIndex + 1);
    Pad2Value(d.day);
    DecimalRoundTrip(d.year);
    var s := FormatDate(d);
    var n := |s|;
    assert s == y + "-" + m2 + "-" + d2;
    assert n == |y| + 6;
    assert s[..n - 6] == y;
    assert s[n - 5..n - 3] == m2;
    assert s[n - 2..] == d2;
  }

  /** Different days never share a date text. */
  lemma FormatDateInjective(d1: LocalDate, d2: LocalDate)
    ensures FormatDate(d1) == FormatDate(d2) <==> d1 == d2
  {
    FormatDateRoundTrip(d1);
    FormatDateRoundTrip(d2);
  }
}
