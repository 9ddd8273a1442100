/**
  The tenant list screen and its add/edit form: the form's starting values,
  the mobile-number input filter, validation, the normalisation of the form
  into tenant fields, and the add, edit and delete handlers.
*/
module TenantList {
  import opened Wrappers
  import opened Text
  import opened Records
  import opened BillingContext

  /** The form's fields, all kept as the strings typed. */
  datatype TenantFormData = TenantFormData(
    name: string,
    roomNumber: string,
    mobileNumber: string,
    monthlyRent: string,
    waterBill: string)

  datatype Field = Name | RoomNumber | MobileNumber | MonthlyRent | WaterBill

  const EmptyFormData := TenantFormData("", "", "", "", "")

  const NameRequired := "Name is required"
  const MobileRequired := "Mobile number is required"
  const MobileMalformed := "Enter valid 10-digit number"
  const RentMalformed := "Enter valid rent amount"
  const WaterMalformed := "Enter valid water bill"

  /** The edit form's starting values: the tenant's strings as stored and its
      amounts through `String(...)` (the parameter `show`). */
  function PrefillForm(t: Tenant, show: real -> string): (f: TenantFormData)
    ensures f.name == t.name && f.roomNumber == t.roomNumber && f.mobileNumber == t.mobileNumber
    ensures f.monthlyRent == show(t.monthlyRent) && f.waterBill == show(t.waterBill)
  {
    TenantFormData(t.name, t.roomNumber, t.mobileNumber, show(t.monthlyRent), show(t.waterBill))
  }

  function WithField(f: TenantFormData, field: Field, value: string): TenantFormData {
    match field
    case Name => f.(name := value)
    case RoomNumber => f.(roomNumber := value)
    case MobileNumber => f.(mobileNumber := value)
    case MonthlyRent => f.(monthlyRent := value)
    case WaterBill => f.(waterBill := value)
  }

  /** The mobile input's filter: keep the digits, then cut to ten. */
  function SanitizeMobile(raw: string): (r: string)
    ensures AllDigits(r) && |r| <= 10
    ensures |r| == if |DigitsOnly(raw)| < 10 then |DigitsOnly(raw)| else 10
    ensures r == DigitsOnly(raw)[..|r|]
  {
    var d := DigitsOnly(raw);
    if |d| <= 10 then d else d[..10]
  }

  /** Filtering an already filtered value changes nothing. */
  lemma SanitizeMobileIdempotent(raw: string)
    ensures SanitizeMobile(SanitizeMobile(raw)) == SanitizeMobile(raw)
  {
    DigitsOnlyFixesExactlyDigitStrings(SanitizeMobile(raw));
  }

  /** A rent or water entry is rejected when missing or when it parses to a
      negative number; text that does not parse (NaN) is not rejected. */
  predicate AmountRejected(s: string, parse: string -> Option<real>) {
    s == "" || (parse(s).Some? && parse(s).value < 0.0)
  }

  /** A mobile entry is accepted when it is not empty once trimmed and, with
      all whitespace removed, is exactly ten digits. */
  predicate MobileAccepted(m: string) {
    Trim(m) != "" && IsTenDigits(StripWhitespace(m))
  }

  /** The conditions validation checks, all met. */
  predicate FormAccepted(f: TenantFormData, parse: string -> Option<real>) {
    && Trim(f.name) != ""
    && MobileAccepted(f.mobileNumber)
    && !AmountRejected(f.monthlyRent, parse)
    && !AmountRejected(f.waterBill, parse)
  }

  /** The errors validation records: one message per failing field. */
  function ValidationErrors(f: TenantFormData, parse: string -> Option<real>): (e: map<Field, string>)
    ensures e.Keys <= {Name, MobileNumber, MonthlyRent, WaterBill}
  {
    var e0: map<Field, string> := map[];
    var e1 := if Trim(f.name) == "" then e0[Name := NameRequired] else e0;
    var e2 := if Trim(f.mobileNumber) == "" then e1[MobileNumber := MobileRequired]
              else if !IsTenDigits(StripWhitespace(f.mobileNumber)) then e1[MobileNumber := MobileMalformed]
              else e1;
    var e3 := if AmountRejected(f.monthlyRent, parse) then e2[MonthlyRent := RentMalformed] else e2;
    if AmountRejected(f.waterBill, parse) then e3[WaterBill := WaterMalformed] else e3
  }

  /** Each field has an error exactly when its own check fails, with that
      check's message, the room number is never checked, and there are no
      errors exactly when the form is accepted. */
  lemma ValidationErrorsSpec(f: TenantFormData, parse: string -> Option<real>)
    ensures var e := ValidationErrors(f, parse);
      && (Name in e <==> Trim(f.name) == "")
      && (Name in e ==> e[Name] == NameRequired)
      && (MobileNumber in e <==> !MobileAccepted(f.mobileNumber))
      && (MobileNumber in e ==>
            e[MobileNumber] == if Trim(f.mobileNumber) == "" then MobileRequired else MobileMalformed)
      && (MonthlyRent in e <==> AmountRejected(f.monthlyRent, parse))
      && (MonthlyRent in e ==> e[MonthlyRent] == RentMalformed)
      && (WaterBill in e <==> AmountRejected(f.waterBill, parse))
      && (WaterBill in e ==> e[WaterBill] == WaterMalformed)
      && RoomNumber !in e
      && (e == map[] <==> FormAccepted(f, parse))
  {
    var e := ValidationErrors(f, parse);
    if !FormAccepted(f, parse) {
      assert Name in e || MobileNumber in e || MonthlyRent in e || WaterBill in e;
    }
  }

  /** What the trimming tests mean: a name is missing exactly when it is all
      whitespace, and a mobile entry is accepted exactly when what remains
      after removing whitespace is ten digits (ten digits cannot be blank). */
  lemma {:induction false} AcceptanceMeaning(f: TenantFormData, parse: string -> Option<real>)
    ensures Trim(f.name) == "" <==> IsBlank(f.name)
    ensures MobileAccepted(f.mobileNumber) <==> IsTenDigits(StripWhitespace(f.mobileNumber))
    ensures FormAccepted(f, parse) <==>
      && !IsBlank(f.name)
      && IsTenDigits(StripWhitespace(f.mobileNumber))
      && !AmountRejected(f.monthlyRent, parse)
      && !AmountRejected(f.waterBill, parse)
  {
    TrimSpec(f.name);
    TrimSpec(f.mobileNumber);
    var m := f.mobileNumber;
    if IsTenDigits(StripWhitespace(m)) && IsBlank(m) {
      StripBlank(m);
      assert false;
    }
  }

  /** A value typed through the mobile filter passes the mobile check exactly
      when ten digits were kept. */
  lemma SanitizedMobileAcceptedIffTen(raw: string)
    ensures MobileAccepted(SanitizeMobile(raw)) <==> |SanitizeMobile(raw)| == 10
  {
    var m := SanitizeMobile(raw);
    assert forall i :: 0 <= i < |m| ==> !IsWhitespace(m[i]);
    StripWhitespaceSpec(m);
    TrimSpec(m);
    if m != [] {
      assert !IsWhitespace(m[0]);
    }
  }

  /** `parseFloat(s) || 0`: the parsed number, or 0 when it does not parse. */
  function AmountOrZero(s: string, parse: string -> Option<real>): real {
    match parse(s)
    case Some(v) => v
    case None => 0.0
  }

  /** The tenant fields built from a submitted form: the strings trimmed,
      the amounts parsed with unparseable text becoming 0. */
  function NormalizePayload(f: TenantFormData, parse: string -> Option<real>): (p: TenantFields)
    ensures p.monthlyRent == (if parse(f.monthlyRent).Some? then parse(f.monthlyRent).value else 0.0)
    ensures p.waterBill == (if parse(f.waterBill).Some? then parse(f.waterBill).value else 0.0)
  {
    TenantFields(
      Trim(f.name),
      Trim(f.roomNumber),
      Trim(f.mobileNumber),
      AmountOrZero(f.monthlyRent, parse),
      AmountOrZero(f.waterBill, parse))
  }

  /** Each stored string is the typed text with its surrounding whitespace
      cut off and nothing else changed, so inner spaces stay; a room number
      is stored empty exactly when it was left blank. */
  lemma NormalizePayloadSpec(f: TenantFormData, parse: string -> Option<real>)
    ensures var p := NormalizePayload(f, parse);
      && IsTrimOf(p.name, f.name)
      && IsTrimOf(p.roomNumber, f.roomNumber)
      && IsTrimOf(p.mobileNumber, f.mobileNumber)
      && (p.roomNumber == [] <==> IsBlank(f.roomNumber))
      && StripWhitespace(p.name) == StripWhitespace(f.name)
      && StripWhitespace(p.mobileNumber) == StripWhitespace(f.mobileNumber)
  {
    TrimIsTrimOf(f.name);
    TrimIsTrimOf(f.roomNumber);
    TrimIsTrimOf(f.mobileNumber);
    TrimSpec(f.roomNumber);
    StripWhitespaceOfTrim(f.name);
    StripWhitespaceOfTrim(f.mobileNumber);
  }

  /** A form that passed validation yields a named tenant with non-negative
      amounts and a mobile number of ten digits once whitespace is removed. */
  lemma AcceptedFormNormalisesSanely(f: TenantFormData, parse: string -> Option<real>)
    requires FormAccepted(f, parse)
    ensures var p := NormalizePayload(f, parse);
      && p.name != [] && p.monthlyRent >= 0.0 && p.waterBill >= 0.0
      && IsTenDigits(StripWhitespace(p.mobileNumber))
  {
    TrimSpec(f.name);
    StripWhitespaceOfTrim(f.mobileNumber);
  }

  /** Opening the edit form and saving it untouched gives the tenant back its
      own fields, provided its strings carry no surrounding whitespace and
      the number formatting reads back. */
  lemma EditWithoutChangesKeepsTenant(t: Tenant, show: real -> string, parse: string -> Option<real>)
    requires t.name == [] || (!IsWhitespace(t.name[0]) && !IsWhitespace(t.name[|t.name| - 1]))
    requires t.roomNumber == [] || (!IsWhitespace(t.roomNumber[0]) && !IsWhitespace(t.roomNumber[|t.roomNumber| - 1]))
    requires t.mobileNumber == [] || (!IsWhitespace(t.mobileNumber[0]) && !IsWhitespace(t.mobileNumber[|t.mobileNumber| - 1]))
    requires parse(show(t.monthlyRent)) == Some(t.monthlyRent)
    requires parse(show(t.waterBill)) == Some(t.waterBill)
    ensures NormalizePayload(PrefillForm(t, show), parse) == FieldsOf(t)
  {
    TrimOfTrimmed(t.name);
    TrimOfTrimmed(t.roomNumber);
    TrimOfTrimmed(t.mobileNumber);
    var p := NormalizePayload(PrefillForm(t, show), parse);
    assert p.name == t.name && p.roomNumber == t.roomNumber && p.mobileNumber == t.mobileNumber;
  }

  /** The add/edit form component: the values typed so far and the errors of
      the last validation. */
  class TenantForm {
    var formData: TenantFormData
    var errors: map<Field, string>

    /** The edit form starts from the tenant, the add form from empty strings. */
    constructor (initialData: Option<Tenant>, show: real -> string)
      ensures formData == match initialData
                          case Some(t) => PrefillForm(t, show)
                          case None => EmptyFormData
      ensures errors == map[]
    {
      formData := match initialData
                  case Some(t) => PrefillForm(t, show)
                  case None => EmptyFormData;
      errors := map[];
    }

    /** An input's change handler: the mobile number goes through the filter,
        every other field takes the text as typed. */
    method Input(field: Field, value: string)
      modifies this`formData
      ensures formData == WithField(old(formData), field,
                                    if field == MobileNumber then SanitizeMobile(value) else value)
    {
      if field == MobileNumber {
        formData := formData.(mobileNumber := SanitizeMobile(value));
      } else {
        formData := WithField(formData, field, value);
      }
    }

    /** Records one error per failing field (ValidationErrors) and reports
        whether there were none. */
    method Validate(parse: string -> Option<real>) returns (ok: bool)
      modifies this`errors
      ensures errors == ValidationErrors(formData, parse)
      ensures ok <==> errors == map[]
    {
      var f := formData;
      var newErrors: map<Field, string> := map[];
      if Trim(f.name) == "" {
        newErrors := newErrors[Name := NameRequired];
      }
      if Trim(f.mobileNumber) == "" {
        newErrors := newErrors[MobileNumber := MobileRequired];
      } else if !IsTenDigits(StripWhitespace(f.mobileNumber)) {
        newErrors := newErrors[MobileNumber := MobileMalformed];
      }
      var rent := parse(f.monthlyRent);
      if f.monthlyRent == "" || (rent.Some? && rent.value < 0.0) {
        newErrors := newErrors[MonthlyRent := RentMalformed];
      }
      var water := parse(f.waterBill);
      if f.waterBill == "" || (water.Some? && water.value < 0.0) {
        newErrors := newErrors[WaterBill := WaterMalformed];
      }
      errors := newErrors;
      // `Object.keys(newErrors).length === 0`: no field has an error.
      ok := newErrors == map[];
    }

    /** Submitting hands the form to the caller only when it validates. */
    method HandleSubmit(parse: string -> Option<real>) returns (submitted: Option<TenantFormData>)
      modifies this`errors
      ensures errors == ValidationErrors(formData, parse)
      ensures submitted.Some? <==> FormAccepted(formData, parse)
      ensures submitted.Some? ==> submitted.value == formData
    {
      var ok := Validate(parse);
      ValidationErrorsSpec(formData, parse);
      submitted := if ok then Some(formData) else None;
    }
  }
  /** The tenant list screen: the session it acts on, whether the add
      dialog is open, and the tenant whose edit dialog is open. */
  class TenantListView {
    const session: BillingSession
    var isAddOpen: bool
    var editingTenant: Option<Tenant>

    constructor (session: BillingSession)
      ensures this.session == session && !isAddOpen && editingTenant == None
    {
      this.session := session;
      isAddOpen := false;
      editingTenant := None;
    }

    method SetAddOpen(open: bool)
      modifies this`isAddOpen
      ensures isAddOpen == open
    {
      isAddOpen := open;
    }

    method StartEdit(t: Tenant)
      modifies this`editingTenant
      ensures editingTenant == Some(t)
    {
      editingTenant := Some(t);
    }

    method CancelEdit()
      modifies this`editingTenant
      ensures editingTenant == None
    {
      editingTenant := None;
    }

    /** Adds the normalised tenant, selects it (a new, empty cycle) and closes
        the add dialog. `assignedId` is the id the directory hook gives the
        new tenant. */
    method HandleAddTenant(data: TenantFormData, parse: string -> Option<real>, assignedId: string, now: int)
      returns (calls: seq<DirectoryCall>)
      modifies session, this`isAddOpen
      ensures calls == [AddTenant(NormalizePayload(data, parse))]
      ensures !isAddOpen
      ensures session.selectedTenantId == Some(assignedId)
      ensures session.electricityUnits == 0.0 && session.extraCharges == 0.0 && session.billingDate == now
      ensures session.tenants == old(session.tenants) && session.ownerInfo == old(session.ownerInfo)
    {
      calls := [AddTenant(NormalizePayload(data, parse))];
      session.SelectTenant(Some(assignedId), now);
      isAddOpen := false;
    }

    /** Saves the edited tenant's normalised fields and closes the dialog;
        does nothing when no tenant is being edited. */
    method HandleEditTenant(data: TenantFormData, parse: string -> Option<real>)
      returns (calls: seq<DirectoryCall>)
      modifies this`editingTenant
      ensures old(editingTenant).None? ==> calls == []
      ensures old(editingTenant).Some? ==>
        calls == [UpdateTenant(old(editingTenant).value.id, NormalizePayload(data, parse))]
      ensures editingTenant == None
    {
      if editingTenant.Some? {
        calls := [UpdateTenant(editingTenant.value.id, NormalizePayload(data, parse))];
        editingTenant := None;
      } else {
        calls := [];
      }
    }

    /** Deleting the tenant that is selected first clears the selection (a new,
        empty cycle); any other delete leaves the session alone. The delete
        call is made in both cases, after the selection has been cleared:
        the session is updated before the returned call is made. */
    method HandleDeleteTenant(id: string, now: int) returns (calls: seq<DirectoryCall>)
      modifies session
      ensures calls == [DeleteTenant(id)]
      ensures var wasSelected := old(session.selectedTenantId) == Some(id) && id != ""
                                 && exists k :: 0 <= k < |old(session.tenants)| && old(session.tenants)[k].id == id;
        && (wasSelected ==> session.selectedTenantId == None && session.electricityUnits == 0.0
                            && session.extraCharges == 0.0 && session.billingDate == now)
        && (!wasSelected ==> unchanged(session))
      ensures session.tenants == old(session.tenants) && session.ownerInfo == old(session.ownerInfo)
    {
      var selected := session.SelectedTenant();
      if selected.Some? && selected.value.id == id {
        session.SelectTenant(None, now);
      }
      calls := [DeleteTenant(id)];
    }
  }
}
