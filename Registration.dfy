/**
 * The sign-up form, src/pages/Register.jsx: the role taken from the query
 * string, the ordered validation, the request body for a patient and for
 * any other role, and the form's state through editing and submitting.
 */
module Registration {
  import opened Text
  import opened Js

  /** `query.get("role") || "patient"`: a missing or empty role is "patient"; any other text is kept. */
  function RoleFromQuery(q: Option<string>): (role: string)
    ensures role != ""
    ensures q.Some? && q.value != "" ==> role == q.value
    ensures q.None? || q.value == "" ==> role == "patient"
  {
    TextOr(q, "patient")
  }

  /** The form's fields, every one of them text as the inputs hold it. */
  datatype Form = Form(
    firstName: string, lastName: string, email: string, phone: string,
    password: string, confirm: string,
    birthDate: string, gender: string,
    address1: string, district: string, province: string, postalCode: string,
    specialtyId: string)

  const EmptyForm: Form := Form("", "", "", "", "", "", "", "", "", "", "", "", "")

  datatype Field =
    | FirstName | LastName | Email | Phone | Password | Confirm
    | BirthDate | Gender | Address1 | District | Province | PostalCode | SpecialtyId

  function Get(f: Form, k: Field): string {
    match k
    case FirstName => f.firstName
    case LastName => f.lastName
    case Email => f.email
    case Phone => f.phone
    case Password => f.password
    case Confirm => f.confirm
    case BirthDate => f.birthDate
    case Gender => f.gender
    case Address1 => f.address1
    case District => f.district
    case Province => f.province
    case PostalCode => f.postalCode
    case SpecialtyId => f.specialtyId
  }

  /** `{ ...s, [key]: value }`: the one field takes the value, the others keep theirs. */
  function Set(f: Form, k: Field, v: string): (r: Form)
    ensures Get(r, k) == v
    ensures forall k2 :: k2 != k ==> Get(r, k2) == Get(f, k2)
  {
    match k
    case FirstName => f.(firstName := v)
    case LastName => f.(lastName := v)
    case Email => f.(email := v)
    case Phone => f.(phone := v)
    case Password => f.(password := v)
    case Confirm => f.(confirm := v)
    case BirthDate => f.(birthDate := v)
    case Gender => f.(gender := v)
    case Address1 => f.(address1 := v)
    case District => f.(district := v)
    case Province => f.(province := v)
    case PostalCode => f.(postalCode := v)
    case SpecialtyId => f.(specialtyId := v)
  }

  // ---------------------------------------------------------------------
  // Validation
  // ---------------------------------------------------------------------

  /** The validation rules, in the order `validate` checks them. */
  datatype Rule =
    | ShortPassword | PasswordMismatch | NoSpecialty
    | NoBirthDate | NoGender | IncompleteAddress | BadPostalCode

  function Rank(r: Rule): nat {
    match r
    case ShortPassword => 0
    case PasswordMismatch => 1
    case NoSpecialty => 2
    case NoBirthDate => 3
    case NoGender => 4
    case IncompleteAddress => 5
    case BadPostalCode => 6
  }

  function Message(r: Rule): string {
    match r
    case ShortPassword => "รหัสผ่านต้องยาวอย่างน้อย 6 ตัวอักษร"
    case PasswordMismatch => "รหัสผ่านและยืนยันรหัสผ่านไม่ตรงกัน"
    case NoSpecialty => "กรุณาเลือกสาขาความเชี่ยวชาญ"
    case NoBirthDate => "กรุณาเลือกวันเกิด"
    case NoGender => "กรุณาเลือกเพศ"
    case IncompleteAddress => "กรุณากรอกที่อยู่ให้ครบถ้วน"
    case BadPostalCode => "รหัสไปรษณีย์ต้องเป็นตัวเลข 5 หลัก"
  }

  /** `/^\d{5}$/`: exactly five ASCII digits. */
  predicate FiveDigits(s: string) {
    |s| == 5 && AllDigits(s)
  }

  /** Each rule on its own: whether the form breaks it, for this role. */
  predicate Breaks(role: string, f: Form, r: Rule) {
    match r
    case ShortPassword => |f.password| < 6
    case PasswordMismatch => f.password != f.confirm
    case NoSpecialty => role == "doctor" && f.specialtyId == ""
    case NoBirthDate => role == "patient" && f.birthDate == ""
    case NoGender => role == "patient" && f.gender == ""
    case IncompleteAddress =>
      role == "patient" && (f.address1 == "" || f.district == "" || f.province == "" || f.postalCode == "")
    case BadPostalCode => role == "patient" && !FiveDigits(f.postalCode)
  }

  /**
   * `validate()`: no rule when the form breaks none; otherwise the first
   * rule, in checking order, that it breaks.
   */
  function Validate(role: string, f: Form): (r: Option<Rule>)
    ensures r.None? <==> forall rule :: !Breaks(role, f, rule)
    ensures r.Some? ==> Breaks(role, f, r.value)
    ensures r.Some? ==> forall rule :: Rank(rule) < Rank(r.value) ==> !Breaks(role, f, rule)
  {
    var r :=
      if |f.password| < 6 then Some(ShortPassword)
      else if f.password != f.confirm then Some(PasswordMismatch)
      else if role == "doctor" && f.specialtyId == "" then Some(NoSpecialty)
      else if role == "patient" then
        if f.birthDate == "" then Some(NoBirthDate)
        else if f.gender == "" then Some(NoGender)
        else if f.address1 == "" || f.district == "" || f.province == "" || f.postalCode == "" then Some(IncompleteAddress)
        else if !FiveDigits(f.postalCode) then Some(BadPostalCode)
        else None
      else None;
    assert r.Some? ==> Breaks(role, f, r.value);
    r
  }

  /** A role other than "patient" and "doctor" is held only to the two password rules. */
  lemma OtherRoleOnlyPasswordRules(role: string, f: Form)
    requires role != "patient" && role != "doctor"
    ensures Validate(role, f).None? <==> |f.password| >= 6 && f.password == f.confirm
  {
  }

  // ---------------------------------------------------------------------
  // The request body
  // ---------------------------------------------------------------------

  datatype Address = Address(line1: string, district: string, province: string, postalCode: string)

  /** What a patient's body adds, or what any other role's body adds. */
  datatype Extra =
    | PatientPart(birthDate: string, gender: string, address: Address)
    | OtherPart(specialtyId: Numeric)

  datatype Payload = Payload(
    role: string, firstName: string, lastName: string, email: string, phone: string,
    password: string, extra: Extra)

  /**
   * The body of POST /api/register: trimmed names, email and phone, the
   * password as typed; a patient adds birth date, gender and a trimmed
   * address, any other role adds `Number(specialtyId)`.
   */
  function BuildPayload(role: string, f: Form): (p: Payload)
    ensures p.role == role && p.password == f.password
    ensures p.firstName == Trim(f.firstName) && p.lastName == Trim(f.lastName)
    ensures p.email == Trim(f.email) && p.phone == Trim(f.phone)
    ensures p.extra.PatientPart? <==> role == "patient"
    ensures p.extra.PatientPart? ==>
      p.extra.birthDate == f.birthDate && p.extra.gender == f.gender
      && p.extra.address == Address(Trim(f.address1), Trim(f.district), Trim(f.province), Trim(f.postalCode))
    ensures p.extra.OtherPart? ==> p.extra.specialtyId == StringToNumber(f.specialtyId)
  {
    var extra :=
      if role == "patient" then
        PatientPart(f.birthDate, f.gender,
          Address(Trim(f.address1), Trim(f.district), Trim(f.province), Trim(f.postalCode)))
      else
        OtherPart(StringToNumber(f.specialtyId));
    Payload(role, Trim(f.firstName), Trim(f.lastName), Trim(f.email), Trim(f.phone), f.password, extra)
  }

  /**
   * A patient form that passes validation sends its postal code as typed:
   * five digits have nothing to trim.
   */
  lemma ValidPostalCodeSentAsTyped(f: Form)
    requires Validate("patient", f).None?
    ensures BuildPayload("patient", f).extra.address.postalCode == f.postalCode
    ensures FiveDigits(BuildPayload("patient", f).extra.address.postalCode)
  {
    assert !Breaks("patient", f, BadPostalCode);
    var code := f.postalCode;
    assert FiveDigits(code);
    DigitsTrimmed(code);
    assert BuildPayload("patient", f).extra.address.postalCode == code;
  }

  /**
   * Validation looks at the address fields before they are trimmed, so an
   * address line of nothing but white space passes and is sent as "".
   */
  lemma BlankAddressLineSent(f: Form)
    requires Validate("patient", f).None? && AllSpace(f.address1)
    ensures f.address1 != ""
    ensures BuildPayload("patient", f).extra.address.line1 == ""
  {
    assert !Breaks("patient", f, IncompleteAddress);
    AllSpaceTrimsEmpty(f.address1);
  }

  /** A complete patient form whose address line is a single space passes validation. */
  lemma BlankAddressLinePasses()
    ensures var f := Form("Ann", "Lee", "ann@example.com", "0812345678", "secret", "secret",
                          "2000-01-01", "female", " ", "Bang Rak", "Bangkok", "10500", "");
      Validate("patient", f).None? && AllSpace(f.address1)
  {
    var code := "10500";
    assert FiveDigits(code);
    assert AllSpace(" ");
  }

  /** A doctor who picked a specialty sends that specialty's number. */
  lemma DoctorSpecialtySent(f: Form, id: nat)
    requires f.specialtyId == DecimalString(id)
    ensures BuildPayload("doctor", f).extra == OtherPart(Finite(id))
  {
    NumberOfDecimal(id);
  }

  // ---------------------------------------------------------------------
  // The screen
  // ---------------------------------------------------------------------

  const Registered: string := "สมัครสมาชิกสำเร็จ! กำลังพาไปหน้าเข้าสู่ระบบ…"

  /** How POST /api/register ended: accepted, or refused with its status and its body's message. */
  datatype Response = Accepted | Refused(status: nat, message: string)

  /** `err?.message || "สมัครไม่สำเร็จ (<status>)"` */
  function RefusalText(status: nat, message: string): (r: string)
    ensures message != "" ==> r == message
    ensures message == "" ==> r == "สมัครไม่สำเร็จ (" + DecimalString(status) + ")"
  {
    OrElse(message, "สมัครไม่สำเร็จ (" + DecimalString(status) + ")")
  }

  class RegisterScreen {
    const role: string
    var form: Form
    var msg: string
    var submitting: bool

    constructor (query: Option<string>)
      ensures role == RoleFromQuery(query) && form == EmptyForm && msg == "" && !submitting
    {
      role := RoleFromQuery(query);
      form := EmptyForm;
      msg := "";
      submitting := false;
    }

    method OnChange(k: Field, v: string)
      modifies this
      ensures form == Set(old(form), k, v) && msg == old(msg) && submitting == old(submitting)
    {
      form := Set(form, k, v);
    }

    /**
     * `submit`: a form that breaks a rule shows that rule's message and
     * sends nothing; otherwise the message is cleared and the body is sent.
     */
    method Submit() returns (request: Option<Payload>)
      modifies this
      ensures form == old(form)
      ensures request.None? <==> Validate(role, form).Some?
      ensures request.None? ==> msg == Message(Validate(role, form).value) && submitting == old(submitting)
      ensures request.Some? ==> request.value == BuildPayload(role, form) && msg == "" && submitting
    {
      var v := Validate(role, form);
      if v.Some? {
        msg := Message(v.value);
        return None;
      }
      request := Some(BuildPayload(role, form));
      msg := "";
      submitting := true;
    }

    /** The request ended: the success notice, or the refusal's text. */
    method SubmitDone(response: Response)
      modifies this
      ensures form == old(form) && !submitting
      ensures response.Accepted? ==> msg == Registered
      ensures response.Refused? ==> msg == RefusalText(response.status, response.message)
    {
      match response {
        case Accepted => msg := Registered;
        case Refused(status, message) => msg := RefusalText(status, message);
      }
      submitting := false;
    }
  }
}
