/**
 * The profile page, src/pages/Profile.jsx: the role it falls back to, the
 * profile as loaded (with its birth date cut to "YYYY-MM-DD"), editing a
 * field or an address part, the checks and the body of a profile save for
 * a patient and for a doctor, and the password change with its four checks.
 */
module ProfileEditor {
  import opened Text
  import opened Js
  import Session
  import Registration

  /** `auth?.role === "doctor" ? "doctor" : "patient"` */
  function FallbackRole(authRole: Value): (role: string)
    ensures role == "doctor" <==> authRole == Str("doctor")
    ensures role == "doctor" || role == "patient"
  {
    if authRole == Str("doctor") then "doctor" else "patient"
  }

  /**
   * The profile object the server sent: its top-level fields other than
   * `address`, and its `address` object when it has one.
   */
  datatype ProfileData = ProfileData(fields: map<string, Value>, address: Option<map<string, Value>>)

  /** `data[key]` */
  function FieldOf(d: ProfileData, k: string): Value {
    if k in d.fields then d.fields[k] else Undefined
  }

  /** `data.address?.[key]` */
  function AddressPartOf(d: ProfileData, k: string): Value {
    if d.address.Some? && k in d.address.value then d.address.value[k] else Undefined
  }

  /**
   * The loaded profile: `birthDate` becomes the first 10 characters of
   * `birthDate || birth_date || ""`. When that value is truthy but not text,
   * `slice` throws and nothing is loaded.
   */
  function NormalizeLoaded(json: ProfileData): (r: Option<ProfileData>)
    ensures r.Some? <==> Or(Or(FieldOf(json, "birthDate"), FieldOf(json, "birth_date")), Str("")).Str?
    ensures r.Some? ==> r.value.address == json.address
    ensures r.Some? ==> forall k :: k != "birthDate" ==> FieldOf(r.value, k) == FieldOf(json, k)
    ensures r.Some? ==> FieldOf(r.value, "birthDate").Str? && |FieldOf(r.value, "birthDate").s| <= 10
    ensures r.Some? && Truthy(FieldOf(json, "birthDate")) ==>
      FieldOf(r.value, "birthDate").s == Prefix(FieldOf(json, "birthDate").s, 10)
    ensures r.Some? && !Truthy(FieldOf(json, "birthDate")) && Truthy(FieldOf(json, "birth_date")) ==>
      FieldOf(r.value, "birthDate").s == Prefix(FieldOf(json, "birth_date").s, 10)
    ensures r.Some? && !Truthy(FieldOf(json, "birthDate")) && !Truthy(FieldOf(json, "birth_date")) ==>
      FieldOf(r.value, "birthDate") == Str("")
  {
    match Or(Or(FieldOf(json, "birthDate"), FieldOf(json, "birth_date")), Str(""))
    case Str(s) => Some(json.(fields := json.fields["birthDate" := Str(Prefix(s, 10))]))
    case _ => None
  }

  /** An ISO timestamp sent as the birth date is cut to its "YYYY-MM-DD" part. */
  lemma BirthDateOfTimestamp(json: ProfileData, date: string, rest: string)
    requires |date| == 10
    requires FieldOf(json, "birthDate") == Str(date + "T" + rest)
    ensures NormalizeLoaded(json).Some? && FieldOf(NormalizeLoaded(json).value, "birthDate") == Str(date)
  {
    assert (date + "T" + rest)[..10] == date;
  }

  /** `normalized.role || role`: the server's role when it sent one, else the fallback. */
  function ServerRoleOf(normalized: ProfileData, role: string): (r: Value)
    ensures role != "" ==> Truthy(r)
    ensures Truthy(FieldOf(normalized, "role")) ==> r == FieldOf(normalized, "role")
    ensures !Truthy(FieldOf(normalized, "role")) ==> r == Str(role)
  {
    Or(FieldOf(normalized, "role"), Str(role))
  }

  /**
   * `onChange(key, nested)`: without a profile nothing changes; a flat edit
   * sets `data[key]`; a nested one sets `data.address[key]`, starting from
   * an empty address when there was none. Flat keys are the form's own
   * (first name, last name, phone, specialty), never "address".
   */
  function Edit(d: Option<ProfileData>, key: string, nested: bool, v: string): (r: Option<ProfileData>)
    requires key != "address"
    ensures d.None? <==> r.None?
    ensures r.Some? && !nested ==> FieldOf(r.value, key) == Str(v) && r.value.address == d.value.address
    ensures r.Some? && !nested ==> forall k :: k != key ==> FieldOf(r.value, k) == FieldOf(d.value, k)
    ensures r.Some? && nested ==> AddressPartOf(r.value, key) == Str(v) && r.value.fields == d.value.fields
    ensures r.Some? && nested ==> forall k :: k != key ==> AddressPartOf(r.value, k) == AddressPartOf(d.value, k)
  {
    match d
    case None => None
    case Some(p) =>
      if !nested then Some(p.(fields := p.fields[key := Str(v)]))
      else
        var a := if p.address.Some? then p.address.value else map[];
        Some(p.(address := Some(a[key := Str(v)])))
  }

  // ---------------------------------------------------------------------
  // Saving the profile
  // ---------------------------------------------------------------------

  const BadPostalCodeText: string := "รหัสไปรษณีย์ต้องเป็นตัวเลข 5 หลัก"
  const NoSpecialtyText: string := "กรุณาเลือกสาขาความเชี่ยวชาญ"

  datatype AddressOut = AddressOut(line1: Value, district: Value, province: Value, postalCode: Value)

  /** The body of PUT /api/users/:id. Neither body carries the birth date. */
  datatype ProfilePayload =
    | PatientUpdate(firstName: Value, lastName: Value, phone: Value, address: AddressOut)
    | DoctorUpdate(firstName: Value, lastName: Value, phone: Value, specialtyId: Numeric)

  /**
   * How the PUT of a save ended: a response with `res.ok`, a response
   * without it (the code throws its own failure text), or a fetch that threw
   * before any response, carrying the error's message.
   */
  datatype SaveResult = Saved | Refused | Threw(message: string)

  datatype SaveOutcome = SaveSkipped | SaveAlert(message: string) | SaveSend(payload: ProfilePayload)

  /** `data.address?.[k] || ""` */
  function AddressOrBlank(d: ProfileData, k: string): (v: Value)
    ensures Truthy(AddressPartOf(d, k)) ==> v == AddressPartOf(d, k)
    ensures !Truthy(AddressPartOf(d, k)) ==> v == Str("")
  {
    Or(AddressPartOf(d, k), Str(""))
  }

  /** The patient's postal code passes: it is empty or missing, or it reads as exactly five digits. */
  predicate PostalCodeAccepted(d: ProfileData) {
    !Truthy(AddressPartOf(d, "postalCode")) || Registration.FiveDigits(ToStr(AddressPartOf(d, "postalCode")))
  }

  /**
   * `save`: nothing without a profile or a user id. Role "patient" is
   * refused a bad postal code and otherwise sends names, phone and the
   * address with missing parts as ""; every other role takes the doctor's
   * branch, is refused without a specialty and otherwise sends
   * `Number(specialtyId)`.
   */
  function SaveDecision(data: Option<ProfileData>, userId: Value, serverRole: Value): (o: SaveOutcome)
    ensures o.SaveSkipped? <==> data.None? || !Truthy(userId)
    ensures !o.SaveSkipped? && serverRole == Str("patient") ==>
      (o.SaveAlert? <==> !PostalCodeAccepted(data.value)) && (o.SaveAlert? ==> o.message == BadPostalCodeText)
    ensures !o.SaveSkipped? && serverRole != Str("patient") ==>
      (o.SaveAlert? <==> !Truthy(FieldOf(data.value, "specialtyId"))) && (o.SaveAlert? ==> o.message == NoSpecialtyText)
    ensures o.SaveSend? ==> (o.payload.PatientUpdate? <==> serverRole == Str("patient"))
    ensures o.SaveSend? ==>
      && o.payload.firstName == FieldOf(data.value, "firstName")
      && o.payload.lastName == FieldOf(data.value, "lastName")
      && o.payload.phone == FieldOf(data.value, "phone")
    ensures o.SaveSend? && o.payload.PatientUpdate? ==>
      o.payload.address == AddressOut(
        AddressOrBlank(data.value, "line1"), AddressOrBlank(data.value, "district"),
        AddressOrBlank(data.value, "province"), AddressOrBlank(data.value, "postalCode"))
    ensures o.SaveSend? && o.payload.DoctorUpdate? ==>
      o.payload.specialtyId == ToNumber(FieldOf(data.value, "specialtyId"))
  {
    if data.None? || !Truthy(userId) then SaveSkipped
    else
      var d := data.value;
      if serverRole == Str("patient") then
        if !PostalCodeAccepted(d) then SaveAlert(BadPostalCodeText)
        else
          SaveSend(PatientUpdate(FieldOf(d, "firstName"), FieldOf(d, "lastName"), FieldOf(d, "phone"),
            AddressOut(AddressOrBlank(d, "line1"), AddressOrBlank(d, "district"),
                       AddressOrBlank(d, "province"), AddressOrBlank(d, "postalCode"))))
      else if !Truthy(FieldOf(d, "specialtyId")) then SaveAlert(NoSpecialtyText)
      else
        SaveSend(DoctorUpdate(FieldOf(d, "firstName"), FieldOf(d, "lastName"), FieldOf(d, "phone"),
          ToNumber(FieldOf(d, "specialtyId"))))
  }

  /** A sent patient address has every part as text; the postal code is "" or five digits. */
  lemma SentPostalCodeIsBlankOrFiveDigits(data: Option<ProfileData>, userId: Value)
    requires SaveDecision(data, userId, Str("patient")).SaveSend?
    ensures var pc := SaveDecision(data, userId, Str("patient")).payload.address.postalCode;
      pc == Str("") || (Truthy(pc) && Registration.FiveDigits(ToStr(pc)))
  {
  }

  /** Editing the postal code to five digits and saving sends exactly those digits. */
  lemma EditedPostalCodeSent(d: ProfileData, userId: Value, code: string)
    requires Truthy(userId) && Registration.FiveDigits(code)
    ensures var e := Edit(Some(d), "postalCode", true, code);
      SaveDecision(e, userId, Str("patient")) == SaveSend(PatientUpdate(
        FieldOf(d, "firstName"), FieldOf(d, "lastName"), FieldOf(d, "phone"),
        AddressOut(AddressOrBlank(d, "line1"), AddressOrBlank(d, "district"),
                   AddressOrBlank(d, "province"), Str(code))))
  {
    var e := Edit(Some(d), "postalCode", true, code);
    assert AddressPartOf(e.value, "postalCode") == Str(code);
    assert forall k :: k != "postalCode" ==> AddressPartOf(e.value, k) == AddressPartOf(d, k);
    assert "line1" != "postalCode" && "district" != "postalCode" && "province" != "postalCode";
  }

  // ---------------------------------------------------------------------
  // Changing the password
  // ---------------------------------------------------------------------

  datatype Passwords = Passwords(current: string, next: string, confirm: string)

  const BlankPasswords: Passwords := Passwords("", "", "")

  datatype PwField = Current | Next | ConfirmNext

  /** `{ ...p, [k]: value }` */
  function SetPw(p: Passwords, k: PwField, v: string): (r: Passwords)
    ensures k == Current ==> r == p.(current := v)
    ensures k == Next ==> r == p.(next := v)
    ensures k == ConfirmNext ==> r == p.(confirm := v)
  {
    match k
    case Current => p.(current := v)
    case Next => p.(next := v)
    case ConfirmNext => p.(confirm := v)
  }

  /** The password checks, in the order `changePassword` applies them. */
  datatype PwRule = Incomplete | TooShort | NoMatch | Unchanged

  function PwRank(r: PwRule): nat {
    match r
    case Incomplete => 0
    case TooShort => 1
    case NoMatch => 2
    case Unchanged => 3
  }

  function PwMessage(r: PwRule): string {
    match r
    case Incomplete => "กรอกข้อมูลให้ครบ"
    case TooShort => "รหัสผ่านใหม่ต้องยาวอย่างน้อย 8 ตัวอักษร"
    case NoMatch => "รหัสผ่านใหม่และยืนยันไม่ตรงกัน"
    case Unchanged => "รหัสผ่านใหม่ต้องแตกต่างจากรหัสผ่านปัจจุบัน"
  }

  /** Each check on its own. */
  predicate PwBreaks(p: Passwords, r: PwRule) {
    match r
    case Incomplete => p.current == "" || p.next == "" || p.confirm == ""
    case TooShort => |p.next| < 8
    case NoMatch => p.next != p.confirm
    case Unchanged => p.current == p.next
  }

  /** The body of PUT /api/users/:id/password. */
  datatype PwRequest = PwRequest(currentPassword: string, newPassword: string)

  datatype PwOutcome = PwSkipped | PwAlert(rule: PwRule) | PwSend(request: PwRequest)

  /**
   * `changePassword`: nothing without a user id; otherwise the first check
   * that fails, in order, or the request carrying the current and the new
   * password when all four pass.
   */
  function PwDecision(userId: Value, p: Passwords): (o: PwOutcome)
    ensures o.PwSkipped? <==> !Truthy(userId)
    ensures o.PwSend? <==> Truthy(userId) && forall r :: !PwBreaks(p, r)
    ensures o.PwSend? ==> o.request == PwRequest(p.current, p.next)
    ensures o.PwAlert? ==> PwBreaks(p, o.rule) && forall r :: PwRank(r) < PwRank(o.rule) ==> !PwBreaks(p, r)
  {
    var o :=
      if !Truthy(userId) then PwSkipped
      else if p.current == "" || p.next == "" || p.confirm == "" then PwAlert(Incomplete)
      else if |p.next| < 8 then PwAlert(TooShort)
      else if p.next != p.confirm then PwAlert(NoMatch)
      else if p.current == p.next then PwAlert(Unchanged)
      else PwSend(PwRequest(p.current, p.next));
    assert o.PwAlert? ==> PwBreaks(p, o.rule);
    o
  }

  /** A request that is sent carries a new password of 8 or more characters that differs from the current one. */
  lemma SentPasswordIsNew(userId: Value, p: Passwords)
    requires PwDecision(userId, p).PwSend?
    ensures var q := PwDecision(userId, p).request;
      |q.newPassword| >= 8 && q.newPassword != q.currentPassword && q.newPassword == p.confirm && q.currentPassword != ""
  {
    assert !PwBreaks(p, TooShort) && !PwBreaks(p, NoMatch) && !PwBreaks(p, Unchanged) && !PwBreaks(p, Incomplete);
  }

  // ---------------------------------------------------------------------
  // The screen
  // ---------------------------------------------------------------------

  const SavedText: string := "บันทึกโปรไฟล์เรียบร้อย"
  const SaveFailedText: string := "บันทึกล้มเหลว"
  const PwChangedText: string := "เปลี่ยนรหัสผ่านเรียบร้อย"
  const PwFailedText: string := "เปลี่ยนรหัสผ่านไม่สำเร็จ"

  class ProfileScreen {
    const userId: Value
    const role: string
    var data: Option<ProfileData>
    var serverRole: Value
    var pw: Passwords
    var toast: string

    /** The page reads the stored session once, when it mounts. */
    constructor (entries: map<string, Session.Raw>)
      ensures userId == Session.MountedId(entries) && role == FallbackRole(Session.MountedRole(entries))
      ensures data == None && serverRole == Null && pw == BlankPasswords && toast == ""
    {
      userId := Session.MountedId(entries);
      role := FallbackRole(Session.MountedRole(entries));
      data := None;
      serverRole := Null;
      pw := BlankPasswords;
      toast := "";
    }

    /** The profile arrived; a birth date that cannot be cut leaves the page as it was. */
    method Loaded(json: ProfileData)
      modifies this
      ensures pw == old(pw) && toast == old(toast)
      ensures NormalizeLoaded(json).None? ==> data == old(data) && serverRole == old(serverRole)
      ensures NormalizeLoaded(json).Some? ==>
        data == NormalizeLoaded(json) && serverRole == ServerRoleOf(NormalizeLoaded(json).value, role)
    {
      var n := NormalizeLoaded(json);
      if n.Some? {
        data := n;
        serverRole := ServerRoleOf(n.value, role);
      }
    }

    method OnChange(key: string, nested: bool, v: string)
      requires key != "address"
      modifies this
      ensures data == Edit(old(data), key, nested, v)
      ensures serverRole == old(serverRole) && pw == old(pw) && toast == old(toast)
    {
      data := Edit(data, key, nested, v);
    }

    method OnPwChange(k: PwField, v: string)
      modifies this
      ensures pw == SetPw(old(pw), k, v)
      ensures data == old(data) && serverRole == old(serverRole) && toast == old(toast)
    {
      pw := SetPw(pw, k, v);
    }

    /** `save`: what the page does; the state is left as it is until the request ends. */
    method Save() returns (o: SaveOutcome)
      ensures o == SaveDecision(data, userId, serverRole)
    {
      o := SaveDecision(data, userId, serverRole);
    }

    /**
     * The save request ended: a toast on success; otherwise an alert with the
     * thrown error's message, which is the failure text for a refusal and
     * whatever the fetch threw for a request that never got a response.
     */
    method SaveDone(result: SaveResult) returns (alert: Option<string>)
      modifies this
      ensures data == old(data) && serverRole == old(serverRole) && pw == old(pw)
      ensures result.Saved? ==> alert == None && toast == SavedText
      ensures result.Refused? ==> alert == Some(SaveFailedText) && toast == old(toast)
      ensures result.Threw? ==> alert == Some(OrElse(result.message, SaveFailedText)) && toast == old(toast)
    {
      match result {
        case Saved =>
          toast := SavedText;
          alert := None;
        case Refused =>
          alert := Some(SaveFailedText);
        case Threw(message) =>
          alert := Some(if message != "" then message else SaveFailedText);
      }
    }

    method ChangePassword() returns (o: PwOutcome)
      ensures o == PwDecision(userId, pw)
    {
      o := PwDecision(userId, pw);
    }

    /**
     * The password request ended: on success a toast and all three fields
     * blank again; otherwise an alert with the server's message, or the
     * default text, and the fields kept.
     */
    method PasswordDone(ok: bool, serverMessage: string) returns (alert: Option<string>)
      modifies this
      ensures data == old(data) && serverRole == old(serverRole)
      ensures ok ==> alert == None && toast == PwChangedText && pw == BlankPasswords
      ensures !ok ==> alert == Some(OrElse(serverMessage, PwFailedText)) && pw == old(pw) && toast == old(toast)
    {
      if ok {
        toast := PwChangedText;
        pw := BlankPasswords;
        alert := None;
      } else {
        alert := Some(OrElse(serverMessage, PwFailedText));
      }
    }
  }
}
