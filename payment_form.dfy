/**
 * The payment-details dialog: four payment methods, each with its own
 * required fields and format rules (a Kenyan mobile number, a 5 to 20 digit
 * account number), an error map filled field by field, and a submit that
 * only hands the details on when the map is empty.
 */
module PaymentMethodForm {
  import opened Common

  datatype MethodType = MpesaPersonal | MpesaPaybill | BankTransfer | AirtelMoney

  datatype Field = FullName | PhoneNumber | PaybillNumber | AccountNumber | BankName | AirtelMoneyNumber

  const AllFields: set<Field> := {FullName, PhoneNumber, PaybillNumber, AccountNumber, BankName, AirtelMoneyNumber}

  /** `Partial<PaymentDetails>` without the method: every field may be absent. */
  datatype Details = Details(
    fullName: Option<string>,
    phoneNumber: Option<string>,
    paybillNumber: Option<string>,
    accountNumber: Option<string>,
    bankName: Option<string>,
    airtelMoneyNumber: Option<string>)

  const EmptyDetails: Details := Details(None, None, None, None, None, None)

  /** `{ method_type, ...details }`, what `onSubmit` receives. */
  datatype PaymentDetails = PaymentDetails(methodType: MethodType, details: Details)

  function Get(d: Details, f: Field): Option<string> {
    match f
    case FullName => d.fullName
    case PhoneNumber => d.phoneNumber
    case PaybillNumber => d.paybillNumber
    case AccountNumber => d.accountNumber
    case BankName => d.bankName
    case AirtelMoneyNumber => d.airtelMoneyNumber
  }

  function Set(d: Details, f: Field, v: string): (e: Details)
    ensures Get(e, f) == Some(v)
    ensures forall g :: g != f ==> Get(e, g) == Get(d, g)
  {
    match f
    case FullName => d.(fullName := Some(v))
    case PhoneNumber => d.(phoneNumber := Some(v))
    case PaybillNumber => d.(paybillNumber := Some(v))
    case AccountNumber => d.(accountNumber := Some(v))
    case BankName => d.(bankName := Some(v))
    case AirtelMoneyNumber => d.(airtelMoneyNumber := Some(v))
  }

  // ---------------------------------------------------------------------
  // Characters and the two format tests

  /**
   * JavaScript's `\s` and the characters `trim` removes: the ECMAScript
   * WhiteSpace and LineTerminator code points (space separators as of
   * Unicode 15).
   */
  predicate IsWhitespace(c: char) {
    var n := c as int;
    n == 0x09 || n == 0x0A || n == 0x0B || n == 0x0C || n == 0x0D || n == 0x20 || n == 0xA0 ||
    n == 0x1680 || (0x2000 <= n <= 0x200A) || n == 0x2028 || n == 0x2029 || n == 0x202F ||
    n == 0x205F || n == 0x3000 || n == 0xFEFF
  }

  predicate AllDigits(s: string) {
    forall i :: 0 <= i < |s| ==> IsDigit(s[i])
  }

  /** `s.replace(/\s/g, "")`. */
  function RemoveWhitespace(s: string): (r: string)
    ensures |r| <= |s|
    ensures forall i :: 0 <= i < |r| ==> !IsWhitespace(r[i])
    decreases |s|
  {
    if s == [] then [] else (if IsWhitespace(s[0]) then [] else [s[0]]) + RemoveWhitespace(s[1..])
  }

  function TrimStart(s: string): (r: string)
    decreases |s|
  {
    if s != [] && IsWhitespace(s[0]) then TrimStart(s[1..]) else s
  }

  function TrimEnd(s: string): (r: string)
    decreases |s|
  {
    if s != [] && IsWhitespace(s[|s| - 1]) then TrimEnd(s[..|s| - 1]) else s
  }

  function Trim(s: string): string {
    TrimEnd(TrimStart(s))
  }

  /** `!value?.trim()`: the field is absent, empty or only whitespace. */
  predicate Blank(value: Option<string>) {
    value.None? || Trim(value.value) == ""
  }

  /** After `^(\+254|0)7`, the eight remaining characters are digits. */
  predicate MobileTail(t: string) {
    |t| == 9 && t[0] == '7' && AllDigits(t[1..])
  }

  /** `^(\+254|0)7\d{8}$` on an already stripped string. */
  predicate PhonePattern(s: string) {
    (|s| == 10 && s[0] == '0' && MobileTail(s[1..])) ||
    (|s| == 13 && s[..4] == "+254" && MobileTail(s[4..]))
  }

  /** `^\d{5,20}$` on an already stripped string. */
  predicate AccountPattern(s: string) {
    5 <= |s| <= 20 && AllDigits(s)
  }

  /** `validatePhoneNumber`: the pattern is matched once whitespace is removed. */
  predicate ValidPhoneNumber(phone: string) {
    PhonePattern(RemoveWhitespace(phone))
  }

  /** `validateAccountNumber`: the pattern is matched once whitespace is removed. */
  predicate ValidAccountNumber(account: string) {
    AccountPattern(RemoveWhitespace(account))
  }

  predicate EightDigits(d: string) {
    |d| == 8 && AllDigits(d)
  }

  /** The phone test accepts exactly `07` or `+2547` followed by eight digits, whitespace aside. */
  lemma PhoneNumberShape(phone: string)
    ensures ValidPhoneNumber(phone) <==>
      (exists d :: EightDigits(d) && RemoveWhitespace(phone) == "07" + d) ||
      (exists d :: EightDigits(d) && RemoveWhitespace(phone) == "+2547" + d)
    ensures ValidPhoneNumber(phone) ==> |RemoveWhitespace(phone)| == 10 || |RemoveWhitespace(phone)| == 13
  {
    var s := RemoveWhitespace(phone);
    if |s| == 10 && s[0] == '0' && MobileTail(s[1..]) {
      assert EightDigits(s[2..]) && s == "07" + s[2..];
    }
    if |s| == 13 && s[..4] == "+254" && MobileTail(s[4..]) {
      assert EightDigits(s[5..]) && s == "+2547" + s[5..];
    }
    if exists d :: EightDigits(d) && s == "07" + d {
      var d :| EightDigits(d) && s == "07" + d;
      assert s[1..] == "7" + d;
    }
    if exists d :: EightDigits(d) && s == "+2547" + d {
      var d :| EightDigits(d) && s == "+2547" + d;
      assert s[..4] == "+254" && s[4..] == "7" + d;
    }
  }

  lemma {:induction false} RemoveWhitespaceConcat(a: string, b: string)
    ensures RemoveWhitespace(a + b) == RemoveWhitespace(a) + RemoveWhitespace(b)
    decreases |a|
  {
    if a == [] {
      assert a + b == b;
    } else {
      assert (a + b)[1..] == a[1..] + b;
      RemoveWhitespaceConcat(a[1..], b);
    }
  }

  /** Removing whitespace drops a whitespace character wherever it stands. */
  lemma RemoveWhitespaceSkips(a: string, c: char, b: string)
    requires IsWhitespace(c)
    ensures RemoveWhitespace(a + [c] + b) == RemoveWhitespace(a + b)
  {
    RemoveWhitespaceConcat(a + [c], b);
    RemoveWhitespaceConcat(a, [c]);
    RemoveWhitespaceConcat(a, b);
    assert [c][1..] == [];
    assert RemoveWhitespace([c]) == [];
  }

  /** Whitespace anywhere in the input changes neither verdict. */
  lemma FormatIgnoresWhitespace(a: string, c: char, b: string)
    requires IsWhitespace(c)
    ensures ValidPhoneNumber(a + [c] + b) == ValidPhoneNumber(a + b)
    ensures ValidAccountNumber(a + [c] + b) == ValidAccountNumber(a + b)
  {
    RemoveWhitespaceSkips(a, c, b);
  }

  /** Trimming leaves nothing exactly when every character is whitespace. */
  lemma {:induction false} TrimStartBlank(s: string)
    ensures TrimStart(s) == "" <==> forall i :: 0 <= i < |s| ==> IsWhitespace(s[i])
    decreases |s|
  {
    if s != [] {
      TrimStartBlank(s[1..]);
      if IsWhitespace(s[0]) {
        forall i | 0 < i < |s| ensures s[i] == s[1..][i - 1] { }
      }
    }
  }

  lemma {:induction false} TrimEndNonEmpty(s: string)
    requires s != [] && !IsWhitespace(s[0])
    ensures TrimEnd(s) != ""
    decreases |s|
  {
    if IsWhitespace(s[|s| - 1]) {
      TrimEndNonEmpty(s[..|s| - 1]);
    }
  }

  /** A field is blank exactly when it is absent or made only of whitespace. */
  lemma BlankMeansWhitespace(value: Option<string>)
    ensures Blank(value) <==> value.None? || forall i :: 0 <= i < |value.value| ==> IsWhitespace(value.value[i])
  {
    if value.Some? {
      var t := TrimStart(value.value);
      TrimStartBlank(value.value);
      if t != "" {
        TrimStartNoLeadingSpace(value.value);
        TrimEndNonEmpty(t);
      }
    }
  }

  lemma {:induction false} TrimStartNoLeadingSpace(s: string)
    ensures TrimStart(s) != "" ==> !IsWhitespace(TrimStart(s)[0])
    decreases |s|
  {
    if s != [] && IsWhitespace(s[0]) {
      TrimStartNoLeadingSpace(s[1..]);
    }
  }

  // ---------------------------------------------------------------------
  // The per-method rule table and the error map

  const InvalidPhoneMessage: string := "Invalid phone number. Use 07xxxxxxxx or +254xxxxxxxx"
  const InvalidAccountMessage: string := "Account number must be 5-20 digits"

  datatype Format = AnyText | PhoneFormat | AccountFormat

  datatype Rule = Rule(format: Format, requiredMessage: string, invalidMessage: string)

  /** Which fields a method checks, and how. */
  function RuleFor(m: MethodType, f: Field): Option<Rule> {
    match (m, f)
    case (MpesaPersonal, FullName) => Some(Rule(AnyText, "Full name is required", ""))
    case (MpesaPersonal, PhoneNumber) => Some(Rule(PhoneFormat, "M-Pesa number is required", InvalidPhoneMessage))
    case (MpesaPaybill, PaybillNumber) => Some(Rule(AnyText, "Paybill number is required", ""))
    case (MpesaPaybill, AccountNumber) => Some(Rule(AccountFormat, "Account number is required", InvalidAccountMessage))
    case (BankTransfer, BankName) => Some(Rule(AnyText, "Bank name is required", ""))
    case (BankTransfer, AccountNumber) => Some(Rule(AccountFormat, "Account number is required", InvalidAccountMessage))
    case (AirtelMoney, AirtelMoneyNumber) => Some(Rule(PhoneFormat, "Airtel Money number is required", InvalidPhoneMessage))
    case _ => None
  }

  predicate WellFormed(format: Format, value: string) {
    match format
    case AnyText => true
    case PhoneFormat => ValidPhoneNumber(value)
    case AccountFormat => ValidAccountNumber(value)
  }

  /** A required field that is blank reports the required message; a present one that is malformed, the format message. */
  function FieldError(rule: Rule, value: Option<string>): Option<string> {
    if Blank(value) then Some(rule.requiredMessage)
    else if !WellFormed(rule.format, value.value) then Some(rule.invalidMessage)
    else None
  }

  /** The entry one field contributes to the error map: none, or its message. */
  function ErrorEntry(m: MethodType, d: Details, f: Field): map<Field, string> {
    if RuleFor(m, f).Some? && FieldError(RuleFor(m, f).value, Get(d, f)).Some?
    then map[f := FieldError(RuleFor(m, f).value, Get(d, f)).value]
    else map[]
  }

  /** The error map `validateForm` computes, read off the rule table. */
  function FormErrors(m: MethodType, d: Details): map<Field, string> {
    map f | f in AllFields && RuleFor(m, f).Some? && FieldError(RuleFor(m, f).value, Get(d, f)).Some? ::
      FieldError(RuleFor(m, f).value, Get(d, f)).value
  }

  /** What each method needs, written out method by method. */
  predicate Complete(m: MethodType, d: Details) {
    match m
    case MpesaPersonal =>
      !Blank(d.fullName) && !Blank(d.phoneNumber) && ValidPhoneNumber(d.phoneNumber.value)
    case MpesaPaybill =>
      !Blank(d.paybillNumber) && !Blank(d.accountNumber) && ValidAccountNumber(d.accountNumber.value)
    case BankTransfer =>
      !Blank(d.bankName) && !Blank(d.accountNumber) && ValidAccountNumber(d.accountNumber.value)
    case AirtelMoney =>
      !Blank(d.airtelMoneyNumber) && ValidPhoneNumber(d.airtelMoneyNumber.value)
  }

  /** Only fields of the selected method can carry an error, and a blank required field always does. */
  lemma ErrorsBelongToMethod(m: MethodType, d: Details, f: Field)
    ensures f in FormErrors(m, d) ==> RuleFor(m, f).Some?
    ensures RuleFor(m, f).Some? && Blank(Get(d, f)) ==>
      f in FormErrors(m, d) && FormErrors(m, d)[f] == RuleFor(m, f).value.requiredMessage
  {
  }

  /** The form is valid exactly when every field its method requires is present and well formed. */
  lemma FormValidIff(m: MethodType, d: Details)
    ensures FormErrors(m, d) == map[] <==> Complete(m, d)
  {
    match m
    case MpesaPersonal => EmptyIffClean(m, d, FullName, PhoneNumber);
    case MpesaPaybill => EmptyIffClean(m, d, PaybillNumber, AccountNumber);
    case BankTransfer => EmptyIffClean(m, d, BankName, AccountNumber);
    case AirtelMoney => EmptyIffClean(m, d, AirtelMoneyNumber, AirtelMoneyNumber);
  }

  /** When a method's rules cover at most the fields `f` and `g`, its error map is empty iff neither has an error. */
  lemma EmptyIffClean(m: MethodType, d: Details, f: Field, g: Field)
    requires forall h :: RuleFor(m, h).Some? ==> h == f || h == g
    requires RuleFor(m, f).Some? && RuleFor(m, g).Some?
    ensures FormErrors(m, d) == map[] <==>
      FieldError(RuleFor(m, f).value, Get(d, f)).None? && FieldError(RuleFor(m, g).value, Get(d, g)).None?
  {
    var e := FormErrors(m, d);
    assert f in AllFields && g in AllFields;
    assert e == map[] <==> f !in e && g !in e;
  }

  /** A paybill number is only required, never format-checked. */
  lemma PaybillHasNoFormat(d: Details)
    requires !Blank(d.paybillNumber)
    ensures PaybillNumber !in FormErrors(MpesaPaybill, d)
  {
  }

  // The four branches of `validateForm`, one per method, each filling the
  // map field by field as the component does.

  method PersonalErrors(d: Details) returns (e: map<Field, string>)
    ensures e == FormErrors(MpesaPersonal, d)
  {
    e := map[];
    if Blank(d.fullName) {
      e := e[FullName := "Full name is required"];
    }
    ghost var first := e;
    if Blank(d.phoneNumber) {
      e := e[PhoneNumber := "M-Pesa number is required"];
    } else if !ValidPhoneNumber(d.phoneNumber.value) {
      e := e[PhoneNumber := InvalidPhoneMessage];
    }
    assert e == first + ErrorEntry(MpesaPersonal, d, PhoneNumber);
    TwoFieldErrors(MpesaPersonal, d, FullName, PhoneNumber);
  }

  method PaybillErrors(d: Details) returns (e: map<Field, string>)
    ensures e == FormErrors(MpesaPaybill, d)
  {
    e := map[];
    if Blank(d.paybillNumber) {
      e := e[PaybillNumber := "Paybill number is required"];
    }
    ghost var first := e;
    if Blank(d.accountNumber) {
      e := e[AccountNumber := "Account number is required"];
    } else if !ValidAccountNumber(d.accountNumber.value) {
      e := e[AccountNumber := InvalidAccountMessage];
    }
    assert e == first + ErrorEntry(MpesaPaybill, d, AccountNumber);
    TwoFieldErrors(MpesaPaybill, d, PaybillNumber, AccountNumber);
  }

  method BankErrors(d: Details) returns (e: map<Field, string>)
    ensures e == FormErrors(BankTransfer, d)
  {
    e := map[];
    if Blank(d.bankName) {
      e := e[BankName := "Bank name is required"];
    }
    ghost var first := e;
    if Blank(d.accountNumber) {
      e := e[AccountNumber := "Account number is required"];
    } else if !ValidAccountNumber(d.accountNumber.value) {
      e := e[AccountNumber := InvalidAccountMessage];
    }
    assert e == first + ErrorEntry(BankTransfer, d, AccountNumber);
    TwoFieldErrors(BankTransfer, d, BankName, AccountNumber);
  }

  method AirtelErrors(d: Details) returns (e: map<Field, string>)
    ensures e == FormErrors(AirtelMoney, d)
  {
    e := map[];
    if Blank(d.airtelMoneyNumber) {
      e := e[AirtelMoneyNumber := "Airtel Money number is required"];
    } else if !ValidPhoneNumber(d.airtelMoneyNumber.value) {
      e := e[AirtelMoneyNumber := InvalidPhoneMessage];
    }
    OneFieldErrors(AirtelMoney, d, AirtelMoneyNumber);
  }

  datatype SubmitOutcome = NotSubmitted | SubmitFailed(sent: PaymentDetails) | SubmittedAndClosed(sent: PaymentDetails)

  /** The component's state: the chosen method, the details typed so far and the errors shown. */
  class FormState {
    var methodType: MethodType
    var details: Details
    var errors: map<Field, string>

    constructor ()
      ensures methodType == MpesaPersonal && details == EmptyDetails && errors == map[]
    {
      methodType := MpesaPersonal;
      details := EmptyDetails;
      errors := map[];
    }

    /** An input's `onChange`: `setDetails({ ...details, field: value })`. */
    method SetDetail(f: Field, value: string)
      modifies this
      ensures details == Set(old(details), f, value)
      ensures methodType == old(methodType) && errors == old(errors)
    {
      details := Set(details, f, value);
    }

    /** `validateForm`: fills a fresh error map field by field and stores it. */
    method ValidateForm() returns (ok: bool)
      modifies this
      ensures errors == FormErrors(methodType, details)
      ensures ok <==> errors == map[]
      ensures methodType == old(methodType) && details == old(details)
    {
      var newErrors: map<Field, string>;
      match methodType {
        case MpesaPersonal => newErrors := PersonalErrors(details);
        case MpesaPaybill => newErrors := PaybillErrors(details);
        case BankTransfer => newErrors := BankErrors(details);
        case AirtelMoney => newErrors := AirtelErrors(details);
      }
      errors := newErrors;
      ok := |newErrors| == 0;
    }

    /** `handleMethodChange`: a new method starts from empty details and no errors. */
    method HandleMethodChange(newMethod: MethodType)
      modifies this
      ensures methodType == newMethod && details == EmptyDetails && errors == map[]
    {
      methodType := newMethod;
      details := EmptyDetails;
      errors := map[];
    }

    /**
     * `handleSubmit`, with whether the awaited `onSubmit` throws. Nothing is
     * sent unless validation passes; a successful send clears the form and
     * closes the dialog.
     */
    method HandleSubmit(submitThrows: bool) returns (outcome: SubmitOutcome)
      modifies this
      ensures methodType == old(methodType)
      ensures outcome.NotSubmitted? <==> !Complete(old(methodType), old(details))
      ensures outcome.NotSubmitted? ==> details == old(details) && errors == FormErrors(old(methodType), old(details))
      ensures !outcome.NotSubmitted? ==> outcome.sent == PaymentDetails(old(methodType), old(details))
      ensures outcome.SubmitFailed? <==> Complete(old(methodType), old(details)) && submitThrows
      ensures outcome.SubmitFailed? ==> details == old(details) && errors == map[]
      ensures outcome.SubmittedAndClosed? ==> details == EmptyDetails && errors == map[]
    {
      var ok := ValidateForm();
      FormValidIff(methodType, details);
      if !ok {
        return NotSubmitted;
      }
      var sent := PaymentDetails(methodType, details);
      if submitThrows {
        return SubmitFailed(sent);
      }
      details := EmptyDetails;
      errors := map[];
      outcome := SubmittedAndClosed(sent);
    }
  }

  /** The error map of a method with two checked fields is the union of the two fields' entries. */
  lemma TwoFieldErrors(m: MethodType, d: Details, f1: Field, f2: Field)
    requires f1 != f2
    requires forall g :: RuleFor(m, g).Some? <==> g == f1 || g == f2
    ensures FormErrors(m, d) == ErrorEntry(m, d, f1) + ErrorEntry(m, d, f2)
  {
    var e := ErrorEntry(m, d, f1) + ErrorEntry(m, d, f2);
    assert forall g :: g in e <==> g in FormErrors(m, d);
  }

  /** The error map of a method with one checked field is that field's entry. */
  lemma OneFieldErrors(m: MethodType, d: Details, f: Field)
    requires forall g :: RuleFor(m, g).Some? <==> g == f
    ensures FormErrors(m, d) == ErrorEntry(m, d, f)
  {
    assert forall g :: g in ErrorEntry(m, d, f) <==> g in FormErrors(m, d);
  }
}
