/**
 * The registration wizard of src/app/register/page.tsx: a three-step form
 * whose handlers update the page's `step`, `formData` and `error` state. The
 * validators are the pure functions `Step1Error` and `Step2Error`; the page is
 * a class whose methods are the event handlers.
 */
module Register {
  import opened Wrappers
  import opened Js
  import opened Types

  datatype Role = DonorRole | OrganizationRole

  /** The page's form state. Select and text inputs are kept as the strings the
      browser reports; capacity and service area as the numbers parsed from them. */
  datatype FormData = FormData(
    name: string,
    email: string,
    password: string,
    confirmPassword: string,
    phone: string,
    role: Role,
    organizationName: Option<string>,
    organizationType: Option<string>,
    registrationNumber: Option<string>,
    capacity: Option<int>,
    serviceArea: Option<int>,
    location: Location)

  /** The empty form; the role is 'organization' only for `?type=organization`. */
  function InitialForm(typeParam: Option<string>): (f: FormData)
    ensures f.role == OrganizationRole <==> typeParam == Some("organization")
    ensures f.name == "" && f.email == "" && f.password == "" && f.confirmPassword == "" && f.phone == ""
    ensures f.organizationName.None? && f.organizationType.None? && f.registrationNumber.None?
    ensures f.capacity.None? && f.serviceArea.None?
    ensures f.location == Location(0.0, 0.0, "")
  {
    FormData("", "", "", "", "", if typeParam == Some("organization") then OrganizationRole else DonorRole,
             None, None, None, None, None, Location(0.0, 0.0, ""))
  }

  const RequiredFieldsMessage := "Please fill in all required fields"
  const MismatchMessage := "Passwords do not match"
  const ShortPasswordMessage := "Password must be at least 8 characters long"
  const OrganizationDetailsMessage := "Please fill in all organization details"

  /** The message `validateStep1` reports, or `None` when step 1 is complete.
      Missing fields are reported before a mismatch, a mismatch before a short
      password (measured in UTF-16 code units, as `length` does). */
  function Step1Error(f: FormData): (e: Option<string>)
    ensures e == Some(RequiredFieldsMessage) <==>
              f.name == "" || f.email == "" || f.password == "" || f.confirmPassword == ""
    ensures e == Some(MismatchMessage) <==>
              f.name != "" && f.email != "" && f.password != "" && f.confirmPassword != "" &&
              f.password != f.confirmPassword
    ensures e == Some(ShortPasswordMessage) <==>
              f.name != "" && f.email != "" && f.password != "" && f.confirmPassword != "" &&
              f.password == f.confirmPassword &&
              Utf16Length(f.password) < 8
    ensures e.None? <==>
              f.name != "" && f.email != "" && f.password != "" && f.confirmPassword != "" &&
              f.password == f.confirmPassword && Utf16Length(f.password) >= 8
    ensures e.None? ==> |f.password| >= 4
  {
    if f.name == "" || f.email == "" || f.password == "" || f.confirmPassword == "" then Some(RequiredFieldsMessage)
    else if f.password != f.confirmPassword then Some(MismatchMessage)
    else if Utf16Length(f.password) < 8 then Some(ShortPasswordMessage)
    else None
  }

  /** The message `validateStep2` reports, or `None`. Donors always pass;
      organizations need a name, a type and a non-zero capacity. */
  function Step2Error(f: FormData): (e: Option<string>)
    ensures f.role == DonorRole ==> e.None?
    ensures e.Some? ==> e == Some(OrganizationDetailsMessage)
    ensures f.role == OrganizationRole ==>
              (e.None? <==> TruthyString(f.organizationName) && TruthyString(f.organizationType) && TruthyInt(f.capacity))
  {
    if f.role == OrganizationRole &&
       (!TruthyString(f.organizationName) || !TruthyString(f.organizationType) || !TruthyInt(f.capacity))
    then Some(OrganizationDetailsMessage)
    else None
  }

  /** `parseInt(value) || 0`: the parsed integer, or 0 when there is no number. */
  function ParsedNumber(value: string): (n: int)
    ensures ParseInt(value).Some? ==> n == ParseInt(value).value
    ensures ParseInt(value).None? ==> n == 0
  {
    match ParseInt(value)
    case Some(v) => v
    case None => 0
  }

  /** The names of the form's text inputs. */
  const TextFields := ["name", "email", "password", "confirmPassword", "phone",
                       "organizationName", "organizationType", "registrationNumber"]

  /** The form after an input named `name` reports `value`: the two number
      fields store the parsed number, every other field the text itself. No
      input changes the role or the location. */
  function WithInput(f: FormData, name: string, value: string): (r: FormData)
    ensures r.role == f.role && r.location == f.location
    ensures name == "capacity" ==> r == f.(capacity := Some(ParsedNumber(value)))
    ensures name == "serviceArea" ==> r == f.(serviceArea := Some(ParsedNumber(value)))
    ensures name != "capacity" ==> r.capacity == f.capacity
    ensures name != "serviceArea" ==> r.serviceArea == f.serviceArea
    ensures name !in TextFields && name != "capacity" && name != "serviceArea" ==> r == f
  {
    if name == "capacity" then f.(capacity := Some(ParsedNumber(value)))
    else if name == "serviceArea" then f.(serviceArea := Some(ParsedNumber(value)))
    else WithText(f, name, value)
  }

  /** `{ ...prev, [name]: value }` for the text fields: the named field holds
      the text as typed and every other field is unchanged; a name that is no
      field of the form changes nothing. */
  function WithText(f: FormData, name: string, value: string): (r: FormData)
    ensures r.role == f.role && r.location == f.location && r.capacity == f.capacity && r.serviceArea == f.serviceArea
    ensures name == "name" ==> r.name == value && r.(name := f.name) == f
    ensures name == "email" ==> r.email == value && r.(email := f.email) == f
    ensures name == "password" ==> r.password == value && r.(password := f.password) == f
    ensures name == "confirmPassword" ==> r.confirmPassword == value && r.(confirmPassword := f.confirmPassword) == f
    ensures name == "phone" ==> r.phone == value && r.(phone := f.phone) == f
    ensures name == "organizationName" ==>
              r.organizationName == Some(value) && r.(organizationName := f.organizationName) == f
    ensures name == "organizationType" ==>
              r.organizationType == Some(value) && r.(organizationType := f.organizationType) == f
    ensures name == "registrationNumber" ==>
              r.registrationNumber == Some(value) && r.(registrationNumber := f.registrationNumber) == f
    ensures name !in TextFields ==> r == f
  {
    if name == "name" then f.(name := value)
    else if name == "email" then f.(email := value)
    else if name == "password" then f.(password := value)
    else if name == "confirmPassword" then f.(confirmPassword := value)
    else if name == "phone" then f.(phone := value)
    else if name == "organizationName" then f.(organizationName := Some(value))
    else if name == "organizationType" then f.(organizationType := Some(value))
    else if name == "registrationNumber" then f.(registrationNumber := Some(value))
    else f
  }

  /** The two number inputs: one that is neither leaves the form's numbers alone. */
  predicate NumberField(name: string)
  {
    name == "capacity" || name == "serviceArea"
  }

  /** The number stored by input `name`. */
  function StoredNumber(f: FormData, name: string): Option<int>
    requires NumberField(name)
  {
    if name == "capacity" then f.capacity else f.serviceArea
  }

  /** Typing a non-negative number into the capacity or service-area field
      stores that number. */
  lemma NumberInputRoundTrip(f: FormData, name: string, n: nat)
    requires NumberField(name)
    ensures StoredNumber(WithInput(f, name, NatToString(n)), name) == Some(n)
  {
    ParseIntOfNatToString(n);
    assert ParsedNumber(NatToString(n)) == n;
  }

  /** Text with a leading numeral, such as "12 people", stores the numeral's value
      in either number field. */
  lemma NumberInputNumeralPrefix(f: FormData, name: string, n: nat, tail: string)
    requires NumberField(name)
    requires |tail| == 0 || (!IsDigit(tail[0]) && !(n == 0 && (tail[0] == 'x' || tail[0] == 'X')))
    ensures StoredNumber(WithInput(f, name, NatToString(n) + tail), name) == Some(n)
  {
    ParseIntOfNumeralPrefix(n, tail);
    assert ParsedNumber(NatToString(n) + tail) == n;
  }

  /** Step 2 tests capacity only for being non-zero: a typed negative number
      passes it (the field's `min="1"` is a browser hint the handler never checks). */
  lemma NegativeCapacityPassesStepTwo(f: FormData, n: nat)
    requires n > 0 && f.role == OrganizationRole
    requires TruthyString(f.organizationName) && TruthyString(f.organizationType)
    ensures WithInput(f, "capacity", "-" + NatToString(n)).capacity == Some(-(n as int))
    ensures Step2Error(WithInput(f, "capacity", "-" + NatToString(n))).None?
  {
    var value := "-" + NatToString(n);
    ParseIntOfNegative(n);
    assert ParsedNumber(value) == -(n as int);
  }

  /** Text that starts with no number stores capacity 0, which step 2 then refuses
      for an organization. */
  lemma NonNumericCapacityRefused(f: FormData, value: string)
    requires ParseInt(value).None? && f.role == OrganizationRole
    ensures Step2Error(WithInput(f, "capacity", value)).Some?
  {
  }

  /** The data `handleSubmit` passes to `register`: the location only when it has an address. */
  datatype Registration = Registration(
    name: string,
    email: string,
    password: string,
    phone: string,
    role: Role,
    location: Option<Location>)

  function RegistrationOf(f: FormData): (r: Registration)
    ensures r.location.Some? <==> f.location.address != ""
    ensures r.location.Some? ==> r.location.value == f.location
    ensures r.name == f.name && r.email == f.email && r.password == f.password && r.phone == f.phone
    ensures r.role == f.role
  {
    Registration(f.name, f.email, f.password, f.phone, f.role,
                 if f.location.address != "" then Some(f.location) else None)
  }

  class RegisterPage {
    var step: int
    var error: string
    var formData: FormData

    ghost predicate Valid()
      reads this
    {
      1 <= step <= 3
    }

    /** The first render, after the effect that reads the `type` query parameter. */
    constructor (typeParam: Option<string>)
      ensures Valid()
      ensures step == 1 && error == "" && formData == InitialForm(typeParam)
    {
      step := 1;
      error := "";
      formData := InitialForm(typeParam);
    }

    method HandleInputChange(name: string, value: string)
      modifies this
      ensures formData == WithInput(old(formData), name, value)
      ensures step == old(step) && error == old(error)
    {
      formData := WithInput(formData, name, value);
    }

    /** The address field's own handler. */
    method SetAddress(address: string)
      modifies this
      ensures formData == old(formData).(location := old(formData).location.(address := address))
      ensures step == old(step) && error == old(error)
    {
      formData := formData.(location := formData.location.(address := address));
    }

    /** The two role buttons. */
    method SelectRole(role: Role)
      modifies this
      ensures formData == old(formData).(role := role)
      ensures step == old(step) && error == old(error)
    {
      formData := formData.(role := role);
    }

    /** `validateStep1`: reports the first problem through `error`. */
    method ValidateStep1() returns (ok: bool)
      modifies this
      ensures ok <==> Step1Error(formData).None?
      ensures error == if ok then old(error) else Step1Error(formData).value
      ensures step == old(step) && formData == old(formData)
    {
      var e := Step1Error(formData);
      if e.Some? {
        error := e.value;
        return false;
      }
      return true;
    }

    /** `validateStep2`: reports missing organization details through `error`. */
    method ValidateStep2() returns (ok: bool)
      modifies this
      ensures ok <==> Step2Error(formData).None?
      ensures error == if ok then old(error) else Step2Error(formData).value
      ensures step == old(step) && formData == old(formData)
    {
      var e := Step2Error(formData);
      if e.Some? {
        error := e.value;
        return false;
      }
      return true;
    }

    /** `nextStep`: clears the error, then advances from step 1 or 2 only when
        that step validates; step 3 stays as it is. */
    method NextStep()
      requires Valid()
      modifies this
      ensures Valid() && formData == old(formData)
      ensures old(step) == 1 ==>
                (step == if Step1Error(formData).None? then 2 else 1) &&
                error == Step1Error(formData).GetOr("")
      ensures old(step) == 2 ==>
                (step == if Step2Error(formData).None? then 3 else 2) &&
                error == Step2Error(formData).GetOr("")
      ensures old(step) == 3 ==> step == 3 && error == ""
    {
      error := "";
      if step == 1 {
        var ok := ValidateStep1();
        if ok {
          step := 2;
        }
      } else if step == 2 {
        var ok := ValidateStep2();
        if ok {
          step := 3;
        }
      }
    }

    /** `prevStep`: the Back button exists only after step 1. */
    method PrevStep()
      requires Valid() && step > 1
      modifies this
      ensures Valid() && step == old(step) - 1 && error == "" && formData == old(formData)
    {
      step := step - 1;
      error := "";
    }

    /** `handleSubmit`: re-runs both validators (the second only when the first
        passes) and, when both pass, clears the error and hands the registration
        data to the account service. */
    method HandleSubmit() returns (submitted: Option<Registration>)
      modifies this
      ensures step == old(step) && formData == old(formData)
      ensures submitted.Some? <==> Step1Error(formData).None? && Step2Error(formData).None?
      ensures submitted.Some? ==> submitted.value == RegistrationOf(formData) && error == ""
      ensures Step1Error(formData).Some? ==> error == Step1Error(formData).value
      ensures Step1Error(formData).None? && Step2Error(formData).Some? ==> error == Step2Error(formData).value
    {
      var ok1 := ValidateStep1();
      if !ok1 {
        return None;
      }
      var ok2 := ValidateStep2();
      if !ok2 {
        return None;
      }
      error := "";
      submitted := Some(RegistrationOf(formData));
    }
  }
}
