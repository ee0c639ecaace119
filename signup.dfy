/**
 * The registration form (src/pages/Signup.jsx): the ordered validation of
 * the form, the two regular expressions it uses written as predicates on
 * ASCII text, and the body of POST /auth/register.
 */
module Signup {
  import opened Client
  import Js
  import AuthContext

  const MismatchMessage := "Passwords do not match!"
  const LengthMessage := "Password must be at least 6 characters long."
  const PhoneMessage := "Phone number must be exactly 10 digits."
  const EmailMessage := "Please enter a valid email address."
  const BatchMessage := "Batch should be a 4-digit year (e.g., 2024)"
  const MinPasswordLength := 6

  /** The outcome of a form validator: accepted, or the message of the
      first check that failed. */
  datatype Verdict = Accepted | Rejected(message: string)

  // ----- /^\d{10}$/ -----

  predicate IsPhone(s: string) {
    |s| == 10 && Js.AllDigits(s)
  }

  // ----- /^[^\s@]+@[^\s@]+\.[^\s@]+$/ -----

  /** A character of the class `[^\s@]`. */
  predicate Plain(c: char) {
    !Js.IsWhitespace(c) && c != '@'
  }

  /** `s[lo..hi]` is a non-empty run of `[^\s@]`. */
  predicate PlainRun(s: string, lo: int, hi: int)
    requires 0 <= lo <= hi <= |s|
  {
    lo < hi && forall k :: lo <= k < hi ==> Plain(s[k])
  }

  /** The e-mail pattern, anchored at both ends: a plain run, '@', a plain
      run, '.', a plain run, where `at` and `dot` are the positions of the
      '@' and of the '.' the pattern matched. */
  predicate EmailSplit(s: string, at: int, dot: int) {
    0 < at && at + 1 < dot && dot + 1 < |s| &&
    s[at] == '@' && s[dot] == '.' &&
    PlainRun(s, 0, at) && PlainRun(s, at + 1, dot) && PlainRun(s, dot + 1, |s|)
  }

  /** `emailRegex.test(s)`. */
  predicate IsEmail(s: string) {
    exists at, dot :: 0 <= at < dot < |s| && EmailSplit(s, at, dot)
  }

  /** The shape of an accepted address in plain words: no white space,
      exactly one '@' and not in front, and a '.' in the part after the
      '@' that is neither that part's first nor its last character. */
  predicate EmailShape(s: string) {
    !Js.HasWhitespace(s) &&
    exists at :: 0 < at < |s| && s[at] == '@' &&
      (forall k :: 0 <= k < |s| && s[k] == '@' ==> k == at) &&
      (exists dot :: at + 1 < dot < |s| - 1 && s[dot] == '.')
  }

  /** The pattern accepts exactly the addresses of that shape. */
  lemma EmailIff(s: string)
    ensures IsEmail(s) <==> EmailShape(s)
  {
    if IsEmail(s) {
      var at, dot :| 0 <= at < dot < |s| && EmailSplit(s, at, dot);
      forall k | 0 <= k < |s| ensures !Js.IsWhitespace(s[k]) && (s[k] == '@' ==> k == at) {
        if k < at { assert Plain(s[k]); }
        else if at < k < dot { assert Plain(s[k]); }
        else if dot < k { assert Plain(s[k]); }
      }
      assert 0 < at < |s| && s[at] == '@';
      assert at + 1 < dot < |s| - 1 && s[dot] == '.';
    }
    if EmailShape(s) {
      var at :| 0 < at < |s| && s[at] == '@' &&
        (forall k :: 0 <= k < |s| && s[k] == '@' ==> k == at) &&
        (exists dot :: at + 1 < dot < |s| - 1 && s[dot] == '.');
      var dot :| at + 1 < dot < |s| - 1 && s[dot] == '.';
      forall k | 0 <= k < |s| && k != at ensures Plain(s[k]) {
        assert !Js.IsWhitespace(s[k]);
      }
      assert EmailSplit(s, at, dot);
    }
  }

  lemma EmailExamples()
    ensures IsEmail("ana@uni.edu")
    ensures !IsEmail("ana@uni")
    ensures !IsEmail("ana@@uni.edu")
    ensures !IsEmail("@uni.edu")
    ensures !IsEmail("ana@.edu")
    ensures !IsEmail("ana @uni.edu")
  {
    assert EmailSplit("ana@uni.edu", 3, 7);
    EmailIff("ana@uni");
    EmailIff("ana@@uni.edu");
    assert "ana@@uni.edu"[3] == '@' && "ana@@uni.edu"[4] == '@';
    EmailIff("@uni.edu");
    EmailIff("ana@.edu");
    EmailIff("ana @uni.edu");
    assert Js.IsWhitespace("ana @uni.edu"[3]);
  }

  // ----- the batch check -----

  /** `batch.length !== 4 || isNaN(batch)` fails, as written: four
      characters that `Number()` reads as a number. */
  predicate BatchAcceptedAsWritten(batch: string) {
    |batch| == 4 && !Js.IsNaN(batch)
  }

  /** What the check and its message ask for: a four-digit year. */
  predicate BatchAccepted(batch: string) {
    |batch| == 4 && Js.AllDigits(batch)
  }

  /** Four blanks pass the check as written: `Number("    ")` is 0. */
  lemma BlankBatchAcceptedAsWritten()
    ensures BatchAcceptedAsWritten("    ") && !BatchAccepted("    ")
  {
    assert Js.TrimStart("    ") == [];
    assert !Js.IsDigit("    "[0]);
  }

  /** A signed three-digit number passes the check as written. */
  lemma SignedBatchAcceptedAsWritten()
    ensures BatchAcceptedAsWritten("-202") && !BatchAccepted("-202")
  {
    var s := "-202";
    assert Js.LeadingDigits("2") == 1 && Js.LeadingDigits("02") == 2 && Js.LeadingDigits("202") == 3;
    assert s[1..] == "202" && Js.IsUnsignedDecimal(s[1..]);
    assert Js.IsNumericLiteral(s) && Js.IsTrimmed(s);
    Js.LiteralIsNumber(s);
    assert !Js.IsDigit(s[0]);
  }

  /** A number in exponent notation passes the check as written. */
  lemma ExponentBatchAcceptedAsWritten()
    ensures BatchAcceptedAsWritten("1e10") && !BatchAccepted("1e10")
  {
    var s := "1e10";
    assert Js.LeadingDigits("e10") == 0 && Js.LeadingDigits(s) == 1;
    assert s[1..] == "e10" && "e10"[1..] == "10" && Js.IsSignedInteger("10");
    assert Js.IsUnsignedDecimal(s) && Js.IsTrimmed(s);
    Js.LiteralIsNumber(s);
    assert !Js.IsDigit(s[1]);
  }

  /** The corrected check is stricter than the written one. */
  lemma {:induction false} BatchCorrectedRefinesAsWritten(batch: string)
    requires BatchAccepted(batch)
    ensures BatchAcceptedAsWritten(batch)
  {
    Js.DigitsToNumber(batch);
  }

  /** Both checks accept the year the message gives. */
  lemma YearBatchAccepted()
    ensures BatchAccepted("2024") && BatchAcceptedAsWritten("2024")
  {
    Js.DigitsToNumber("2024");
  }

  /** Both checks reject a year with a letter in it. */
  lemma LetterBatchRejected()
    ensures !BatchAccepted("20a4") && !BatchAcceptedAsWritten("20a4")
  {
    var s := "20a4";
    assert !Js.IsDigit(s[2]);
    assert Js.LeadingDigits("a4") == 0;
    assert s[1..] == "0a4" && Js.LeadingDigits("0a4") == 1;
    assert Js.LeadingDigits(s) == 2;
    assert s[2..] == "a4";
    assert !Js.IsUnsignedDecimal(s) && !Js.IsNonDecimal(s);
    assert !Js.IsNumericLiteral(s) && Js.IsTrimmed(s);
    Js.NonLiteralIsNaN(s);
  }

  // ----- validateForm -----

  datatype Form = Form(
    rollNumber: string, fullName: string, email: string, password: string,
    confirmPassword: string, phone: string, deptCode: string, batch: string, role: string)

  /** The form as the page opens. */
  const InitialForm := Form("", "", "", "", "", "", "CSE", "", "Student")

  /** The five checks in order; the first failure decides. The batch is
      held to the four-digit year the message asks for. */
  function ValidateForm(f: Form): (v: Verdict)
    ensures v == Accepted <==>
      f.password == f.confirmPassword && |f.password| >= MinPasswordLength &&
      IsPhone(f.phone) && IsEmail(f.email) && BatchAccepted(f.batch)
  {
    if f.password != f.confirmPassword then Rejected(MismatchMessage)
    else if |f.password| < MinPasswordLength then Rejected(LengthMessage)
    else if !IsPhone(f.phone) then Rejected(PhoneMessage)
    else if !IsEmail(f.email) then Rejected(EmailMessage)
    else if !BatchAccepted(f.batch) then Rejected(BatchMessage)
    else Accepted
  }

  /** `validateForm` as written: the same checks, with the batch passed by
      the `isNaN` test. */
  function ValidateFormAsWritten(f: Form): (v: Verdict)
    ensures v == Accepted <==>
      f.password == f.confirmPassword && |f.password| >= MinPasswordLength &&
      IsPhone(f.phone) && IsEmail(f.email) && BatchAcceptedAsWritten(f.batch)
  {
    if f.password != f.confirmPassword then Rejected(MismatchMessage)
    else if |f.password| < MinPasswordLength then Rejected(LengthMessage)
    else if !IsPhone(f.phone) then Rejected(PhoneMessage)
    else if !IsEmail(f.email) then Rejected(EmailMessage)
    else if !BatchAcceptedAsWritten(f.batch) then Rejected(BatchMessage)
    else Accepted
  }

  /** The two validators differ only on a batch that the check as written
      lets through and the four-digit check refuses; every other verdict,
      message included, is the same. */
  lemma {:induction false} ValidatorsDifferOnlyOnBatch(f: Form)
    ensures ValidateForm(f) != ValidateFormAsWritten(f) <==>
      ValidateForm(f) == Rejected(BatchMessage) && ValidateFormAsWritten(f) == Accepted
    ensures ValidateForm(f) != ValidateFormAsWritten(f) ==>
      BatchAcceptedAsWritten(f.batch) && !BatchAccepted(f.batch)
  {
    if BatchAccepted(f.batch) {
      BatchCorrectedRefinesAsWritten(f.batch);
    }
  }

  /** The order of the checks: each message is given exactly when every
      earlier check passed and its own failed. */
  lemma FirstFailureDecides(f: Form)
    ensures ValidateForm(f) == Rejected(MismatchMessage) <==> f.password != f.confirmPassword
    ensures ValidateForm(f) == Rejected(LengthMessage) <==>
      f.password == f.confirmPassword && |f.password| < MinPasswordLength
    ensures ValidateForm(f) == Rejected(PhoneMessage) <==>
      f.password == f.confirmPassword && |f.password| >= MinPasswordLength && !IsPhone(f.phone)
    ensures ValidateForm(f) == Rejected(EmailMessage) <==>
      f.password == f.confirmPassword && |f.password| >= MinPasswordLength && IsPhone(f.phone) &&
      !IsEmail(f.email)
    ensures ValidateForm(f) == Rejected(BatchMessage) <==>
      f.password == f.confirmPassword && |f.password| >= MinPasswordLength && IsPhone(f.phone) &&
      IsEmail(f.email) && !BatchAccepted(f.batch)
  {
  }

  /** A six-character password passes the length check and a five-character
      one does not, whatever the other fields hold. */
  lemma PasswordLengthBoundary(f: Form)
    requires f.password == f.confirmPassword
    ensures |f.password| == 5 ==> ValidateForm(f) == Rejected(LengthMessage)
    ensures |f.password| == 6 ==> ValidateForm(f) != Rejected(LengthMessage) && ValidateForm(f) != Rejected(MismatchMessage)
  {
  }

  // ----- handleSubmit -----

  datatype Department = Department(name: string, code: string)

  const Departments: seq<Department> := [
    Department("Computer Science", "CSE"),
    Department("Electrical Engineering", "EEE"),
    Department("Mechanical Engineering", "ME"),
    Department("Civil Engineering", "CE"),
    Department("Biotechnology", "BT")]

  /** `DEPARTMENTS.find(d => d.code === code)`: the first entry with that
      code, `None` for `undefined`. */
  function FindDepartment(ds: seq<Department>, code: string): (r: Option<Department>)
    ensures r.Some? <==> exists i :: 0 <= i < |ds| && ds[i].code == code
    ensures r.Some? ==> r.value in ds && r.value.code == code
    decreases |ds|
  {
    if ds == [] then None
    else if ds[0].code == code then Some(ds[0])
    else FindDepartment(ds[1..], code)
  }

  /** `find` returns the first entry carrying the code. */
  lemma {:induction false} FindFirst(ds: seq<Department>, code: string, i: nat)
    requires i < |ds| && ds[i].code == code
    requires forall j :: 0 <= j < i ==> ds[j].code != code
    ensures FindDepartment(ds, code) == Some(ds[i])
    decreases i
  {
    if i > 0 {
      FindFirst(ds[1..], code, i - 1);
    }
  }

  /** Every code the department list offers is found, with its own name:
      the codes are pairwise different. */
  lemma FindListedDepartment(i: nat)
    requires i < |Departments|
    ensures FindDepartment(Departments, Departments[i].code) == Some(Departments[i])
  {
    forall j | 0 <= j < i ensures Departments[j].code != Departments[i].code {
      var a, b := Departments[j].code, Departments[i].code;
      assert a[0] != b[0] || |a| != |b| || a[1] != b[1];
    }
    FindFirst(Departments, Departments[i].code, i);
  }

  /** The body of POST /auth/register. */
  datatype Payload = Payload(
    id: string, fullName: string, email: string, password: string,
    phone: string, role: string, department: AuthContext.Department)

  /** The payload, or `None` when the department code is not listed (the
      property access on `undefined` throws). */
  function BuildPayload(f: Form): (p: Option<Payload>)
    ensures p.Some? <==> FindDepartment(Departments, f.deptCode).Some?
    ensures p.Some? ==>
      && p.value.id == f.rollNumber && p.value.fullName == f.fullName && p.value.email == f.email
      && p.value.password == f.password && p.value.phone == f.phone && p.value.role == f.role
      && p.value.department.code == f.deptCode && p.value.department.batch == f.batch
      && Department(p.value.department.name, f.deptCode) in Departments
  {
    match FindDepartment(Departments, f.deptCode)
    case None => None
    case Some(d) =>
      Some(Payload(f.rollNumber, f.fullName, f.email, f.password, f.phone, f.role,
                   AuthContext.Department(d.code, d.name, f.batch)))
  }

  const DuplicateKeyCode := 11000

  /** The message for a rejected registration: MongoDB's duplicate-key code
      names the duplicate, otherwise the server's message or the fallback. */
  function RegisterErrorMessage(e: HttpError): (m: string)
    ensures e.ErrorResponse? && e.errorCode == Some(DuplicateKeyCode) ==>
      m == "Account already exists (Email or Roll Number duplicate)."
    ensures !(e.ErrorResponse? && e.errorCode == Some(DuplicateKeyCode)) ==>
      m == MessageOr(e, "Registration failed")
    ensures m != ""
  {
    if e.ErrorResponse? && e.errorCode == Some(DuplicateKeyCode) then
      "Account already exists (Email or Roll Number duplicate)."
    else MessageOr(e, "Registration failed")
  }

  /** The duplicate-account text is shown only for MongoDB's duplicate-key
      code, or when the server itself sent that text. */
  lemma DuplicateTextOnlyForDuplicateKey(e: HttpError)
    requires RegisterErrorMessage(e) == "Account already exists (Email or Roll Number duplicate)."
    ensures e.ErrorResponse?
    ensures e.errorCode == Some(DuplicateKeyCode) || e.message == Some(RegisterErrorMessage(e))
  {
  }

  /** What a submit sends and the effects it has, in order. */
  datatype Submission = Submission(sent: Option<Payload>, events: seq<Event>)

  /** `handleSubmit`, with the server's answer to the request as input. */
  function Submit(f: Form, response: Outcome<()>): (s: Submission)
    ensures ValidateForm(f).Rejected? ==> s == Submission(None, [Toast(Error, ValidateForm(f).message)])
    ensures s.sent.Some? <==> ValidateForm(f) == Accepted && BuildPayload(f).Some?
    ensures s.sent.Some? ==> s.sent == BuildPayload(f) && |s.events| > 0 && s.events[0] == Request("POST", "/auth/register")
    ensures Navigate("/login") in s.events <==> s.sent.Some? && response.Reply?
    ensures s.sent.Some? && response.Reply? ==>
      s.events == [Request("POST", "/auth/register"), Toast(Success, "Registration successful! Please login."), Navigate("/login")]
    ensures s.sent.Some? && response.Failure? ==>
      s.events == [Request("POST", "/auth/register"), Toast(Error, RegisterErrorMessage(response.error))]
    ensures ValidateForm(f) == Accepted && BuildPayload(f).None? ==>
      s == Submission(None, [Toast(Error, "Registration failed")])
  {
    match ValidateForm(f)
    case Rejected(msg) => Submission(None, [Toast(Error, msg)])
    case Accepted =>
      match BuildPayload(f)
      case None => Submission(None, [Toast(Error, "Registration failed")])
      case Some(p) =>
        match response
        case Reply(_) =>
          Submission(Some(p), [Request("POST", "/auth/register"),
            Toast(Success, "Registration successful! Please login."), Navigate("/login")])
        case Failure(e) =>
          Submission(Some(p), [Request("POST", "/auth/register"), Toast(Error, RegisterErrorMessage(e))])
  }
}
