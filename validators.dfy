/** The request schemas of backend/src/utils/validators.js, restated as
    parsers, and `parseOrThrow`. A schema either yields the parsed data or
    fails with the names of the fields that broke a rule; zod's own wording
    of each issue is not modelled. The e-mail format check is a parameter. */
module Validators {
  import opened Common
  import opened Schema

  /** A number after `Number(...)`: finite, or NaN / an infinity. */
  datatype Numeric = Finite(x: real) | NonFinite

  /** The outcome of one field's rule. */
  datatype Field<T> = Accepted(value: T) | Refused

  /** `schema.safeParse`: the data, or the fields that failed. */
  datatype Parsed<T> = Success(data: T) | Failure(issues: seq<string>)

  function Issue<T>(name: string, f: Field<T>): seq<string>
  {
    if f.Accepted? then [] else [name]
  }

  // -------------------------------------------------------------------------
  // Field rules

  /** `z.number().int().min(lo)`, with `.max(hi)` when `hi` is given. */
  function IntField(n: Numeric, lo: int, hi: Option<int>): (f: Field<int>)
    ensures f.Accepted? ==> n == Finite(f.value as real) && lo <= f.value && (hi.Some? ==> f.value <= hi.value)
    ensures n.Finite? && n.x == n.x.Floor as real && lo <= n.x.Floor && (hi.Some? ==> n.x.Floor <= hi.value) ==> f == Accepted(n.x.Floor)
  {
    if n.Finite? && n.x == n.x.Floor as real && lo <= n.x.Floor && (hi.None? || n.x.Floor <= hi.value)
    then Accepted(n.x.Floor)
    else Refused
  }

  /** `z.string().min(lo).max(hi)` */
  function StringField(v: Option<Json>, lo: nat, hi: nat): (f: Field<string>)
    ensures f.Accepted? ==> v == Some(JStr(f.value)) && lo <= |f.value| <= hi
    ensures v.Some? && v.value.JStr? && lo <= |v.value.s| <= hi ==> f == Accepted(v.value.s)
  {
    if v.Some? && v.value.JStr? && lo <= |v.value.s| <= hi then Accepted(v.value.s) else Refused
  }

  /** `z.string().max(hi).optional()`: a missing field is accepted as absent. */
  function OptionalString(v: Option<Json>, hi: nat): (f: Field<Option<string>>)
    ensures v.None? ==> f == Accepted(None)
    ensures f.Accepted? && f.value.Some? ==> v == Some(JStr(f.value.value)) && |f.value.value| <= hi
    ensures f.Accepted? && f.value.None? ==> v.None?
    ensures v.Some? && v.value.JStr? && |v.value.s| <= hi ==> f == Accepted(Some(v.value.s))
  {
    if v.None? then Accepted(None)
    else if v.value.JStr? && |v.value.s| <= hi then Accepted(Some(v.value.s))
    else Refused
  }

  /** `z.string().min(lo).max(hi).optional().or(z.literal('').transform(() =>
      undefined))`: the first alternative is tried first, so an empty string
      turns into "absent" only when `lo > 0`. */
  function OptionalOrBlank(v: Option<Json>, lo: nat, hi: nat): (f: Field<Option<string>>)
    ensures v.None? ==> f == Accepted(None)
    ensures f.Accepted? && f.value.Some? ==> v == Some(JStr(f.value.value)) && lo <= |f.value.value| <= hi
    ensures f.Accepted? && f.value.None? ==> v.None? || (v == Some(JStr("")) && lo > 0)
    ensures v.Some? && v.value.JStr? && lo <= |v.value.s| <= hi ==> f == Accepted(Some(v.value.s))
    ensures v == Some(JStr("")) && lo > 0 ==> f == Accepted(None)
  {
    if v.None? then Accepted(None)
    else if v.value.JStr? && lo <= |v.value.s| <= hi then Accepted(Some(v.value.s))
    else if v == Some(JStr("")) then Accepted(None)
    else Refused
  }

  // -------------------------------------------------------------------------
  // loanApplicationSchema

  datatype LoanBody = LoanBody(
    amount: Numeric, tenure: Numeric, income: Numeric,
    employment: Option<Json>, purpose: Option<Json>,
    collateral: Option<Json>, notes: Option<Json>)

  datatype LoanData = LoanData(
    amount: int, tenure: int, income: int,
    employment: string, purpose: string,
    collateral: Option<string>, notes: Option<string>)

  /** What an accepted loan application satisfies: a whole amount of at least
      10000, a whole tenure of 1 to 120 months, a positive whole income. */
  predicate ValidLoan(d: LoanData)
  {
    && d.amount >= 10000 && 1 <= d.tenure <= 120 && d.income > 0
    && 2 <= |d.employment| <= 80 && 2 <= |d.purpose| <= 80
    && (d.collateral.Some? ==> |d.collateral.value| <= 200)
    && (d.notes.Some? ==> |d.notes.value| <= 500)
  }

  function Wrap(o: Option<string>): Option<Json>
  {
    if o.Some? then Some(JStr(o.value)) else None
  }

  /** The request body that carries exactly `d`. */
  function LoanBodyOf(d: LoanData): LoanBody
  {
    LoanBody(Finite(d.amount as real), Finite(d.tenure as real), Finite(d.income as real),
             Some(JStr(d.employment)), Some(JStr(d.purpose)), Wrap(d.collateral), Wrap(d.notes))
  }

  /** Accepts exactly the bodies of valid applications, and returns what
      they carry. */
  function ParseLoanApplication(b: LoanBody): (r: Parsed<LoanData>)
    ensures r.Success? ==> ValidLoan(r.data) && b == LoanBodyOf(r.data)
    ensures r.Failure? ==> r.issues != []
  {
    var amount := IntField(b.amount, 10000, None);
    var tenure := IntField(b.tenure, 1, Some(120));
    var income := IntField(b.income, 1, None);
    var employment := StringField(b.employment, 2, 80);
    var purpose := StringField(b.purpose, 2, 80);
    var collateral := OptionalOrBlank(b.collateral, 0, 200);
    var notes := OptionalOrBlank(b.notes, 0, 500);
    var issues := Issue("amount", amount) + Issue("tenure", tenure) + Issue("income", income)
      + Issue("employment", employment) + Issue("purpose", purpose)
      + Issue("collateral", collateral) + Issue("notes", notes);
    if issues == [] then
      Success(LoanData(amount.value, tenure.value, income.value, employment.value, purpose.value,
                       collateral.value, notes.value))
    else Failure(issues)
  }

  lemma LoanRoundTrip(d: LoanData)
    requires ValidLoan(d)
    ensures ParseLoanApplication(LoanBodyOf(d)) == Success(d)
  {
  }

  /** An amount below the minimum (such as -1) is reported against `amount`. */
  lemma AmountBelowMinimumRejected(b: LoanBody, x: real)
    requires b.amount == Finite(x) && x < 10000.0
    ensures ParseLoanApplication(b).Failure?
    ensures "amount" in ParseLoanApplication(b).issues
  {
  }

  // -------------------------------------------------------------------------
  // registerSchema and loginSchema

  datatype RegisterBody = RegisterBody(
    name: Option<Json>, email: Option<Json>, phone: Option<Json>,
    employment: Option<Json>, password: Option<Json>, accountType: Option<Json>)

  datatype RegisterData = RegisterData(
    name: string, email: string, phone: Option<string>,
    employment: Option<string>, password: string, accountType: Option<Role>)

  predicate ValidRegistration(d: RegisterData, isEmail: string -> bool)
  {
    && 2 <= |d.name| <= 120 && isEmail(d.email) && 8 <= |d.password| <= 128
    && (d.phone.Some? ==> 7 <= |d.phone.value| <= 20)
    && (d.employment.Some? ==> 2 <= |d.employment.value| <= 80)
  }

  function RegisterBodyOf(d: RegisterData): RegisterBody
  {
    RegisterBody(Some(JStr(d.name)), Some(JStr(d.email)), Wrap(d.phone), Wrap(d.employment),
                 Some(JStr(d.password)),
                 if d.accountType.Some? then Some(JStr(RoleName(d.accountType.value))) else None)
  }

  /** `z.enum(['user', 'admin']).optional()` */
  function AccountTypeField(v: Option<Json>): (f: Field<Option<Role>>)
    ensures f.Accepted? && f.value.Some? ==> v == Some(JStr(RoleName(f.value.value)))
    ensures f.Accepted? && f.value.None? ==> v.None?
    ensures v.None? ==> f == Accepted(None)
    ensures v == Some(JStr("user")) ==> f == Accepted(Some(UserRole))
    ensures v == Some(JStr("admin")) ==> f == Accepted(Some(AdminRole))
  {
    if v.None? then Accepted(None)
    else if v == Some(JStr("user")) then Accepted(Some(UserRole))
    else if v == Some(JStr("admin")) then Accepted(Some(AdminRole))
    else Refused
  }

  function EmailField(v: Option<Json>, isEmail: string -> bool): (f: Field<string>)
    ensures f.Accepted? ==> v == Some(JStr(f.value)) && isEmail(f.value)
    ensures v.Some? && v.value.JStr? && isEmail(v.value.s) ==> f == Accepted(v.value.s)
  {
    if v.Some? && v.value.JStr? && isEmail(v.value.s) then Accepted(v.value.s) else Refused
  }

  /** Accepts valid registrations; every value comes from the body, and an
      empty phone or employment reads as absent. */
  function ParseRegister(b: RegisterBody, isEmail: string -> bool): (r: Parsed<RegisterData>)
    ensures r.Success? ==> ValidRegistration(r.data, isEmail)
    ensures r.Success? ==>
      b.name == Some(JStr(r.data.name)) && b.email == Some(JStr(r.data.email)) && b.password == Some(JStr(r.data.password))
    ensures r.Success? ==> (b.phone == Wrap(r.data.phone) || (r.data.phone.None? && b.phone == Some(JStr(""))))
    ensures r.Success? ==> (b.employment == Wrap(r.data.employment) || (r.data.employment.None? && b.employment == Some(JStr(""))))
    ensures r.Success? && r.data.accountType.Some? ==> b.accountType == Some(JStr(RoleName(r.data.accountType.value)))
    ensures r.Failure? ==> r.issues != []
  {
    var name := StringField(b.name, 2, 120);
    var email := EmailField(b.email, isEmail);
    var phone := OptionalOrBlank(b.phone, 7, 20);
    var employment := OptionalOrBlank(b.employment, 2, 80);
    var password := StringField(b.password, 8, 128);
    var accountType := AccountTypeField(b.accountType);
    var issues := Issue("name", name) + Issue("email", email) + Issue("phone", phone)
      + Issue("employment", employment) + Issue("password", password) + Issue("accountType", accountType);
    if issues == [] then
      Success(RegisterData(name.value, email.value, phone.value, employment.value, password.value, accountType.value))
    else Failure(issues)
  }

  lemma RegisterRoundTrip(d: RegisterData, isEmail: string -> bool)
    requires ValidRegistration(d, isEmail)
    ensures ParseRegister(RegisterBodyOf(d), isEmail) == Success(d)
  {
  }

  /** `z.string().min(1)` */
  function NonEmptyString(v: Option<Json>): (f: Field<string>)
    ensures f.Accepted? ==> v == Some(JStr(f.value)) && f.value != ""
    ensures v.Some? && v.value.JStr? && v.value.s != "" ==> f == Accepted(v.value.s)
  {
    if v.Some? && v.value.JStr? && v.value.s != "" then Accepted(v.value.s) else Refused
  }

  datatype LoginBody = LoginBody(email: Option<Json>, password: Option<Json>)
  datatype LoginData = LoginData(email: string, password: string)

  function ParseLogin(b: LoginBody, isEmail: string -> bool): (r: Parsed<LoginData>)
    ensures r.Success? <==> (exists e, p :: b == LoginBody(Some(JStr(e)), Some(JStr(p))) && isEmail(e) && |p| >= 1)
    ensures r.Success? ==> b == LoginBody(Some(JStr(r.data.email)), Some(JStr(r.data.password)))
    ensures r.Failure? ==> r.issues != []
  {
    var email := EmailField(b.email, isEmail);
    var password := NonEmptyString(b.password);
    var issues := Issue("email", email) + Issue("password", password);
    if issues == [] then Success(LoginData(email.value, password.value)) else Failure(issues)
  }

  // -------------------------------------------------------------------------
  // statusUpdateSchema and adminNoteSchema

  datatype StatusBody = StatusBody(status: Option<Json>, adminNotes: Option<Json>)
  datatype StatusData = StatusData(status: Status, adminNotes: Option<string>)

  function StatusField(v: Option<Json>): (f: Field<Status>)
    ensures f.Accepted? ==> v == Some(JStr(StatusName(f.value)))
    ensures v.Some? && v.value.JStr? && ParseStatus(v.value.s).Some? ==> f == Accepted(ParseStatus(v.value.s).value)
  {
    if v.Some? && v.value.JStr? && ParseStatus(v.value.s).Some? then Accepted(ParseStatus(v.value.s).value)
    else Refused
  }

  /** Accepts exactly 'Pending', 'Approved' and 'Rejected', with optional
      notes of at most 500 characters (an empty string is kept as it is). */
  function ParseStatusUpdate(b: StatusBody): (r: Parsed<StatusData>)
    ensures r.Success? ==> b.status == Some(JStr(StatusName(r.data.status)))
    ensures r.Success? ==> b.adminNotes == Wrap(r.data.adminNotes)
    ensures r.Success? && r.data.adminNotes.Some? ==> |r.data.adminNotes.value| <= 500
    ensures b.status.Some? && b.status.value.JStr? && ParseStatus(b.status.value.s).Some?
            && (b.adminNotes.None? || (b.adminNotes.value.JStr? && |b.adminNotes.value.s| <= 500))
            ==> r.Success?
    ensures r.Failure? ==> r.issues != []
  {
    var status := StatusField(b.status);
    var notes := OptionalString(b.adminNotes, 500);
    var issues := Issue("status", status) + Issue("adminNotes", notes);
    if issues == [] then Success(StatusData(status.value, notes.value)) else Failure(issues)
  }

  /** Any status text other than the three is refused. */
  lemma UnknownStatusRejected(text: string, notes: Option<Json>)
    requires ParseStatus(text).None?
    ensures ParseStatusUpdate(StatusBody(Some(JStr(text)), notes)).Failure?
  {
    var v := Some(JStr(text));
    if StatusField(v).Accepted? {
      assert text == StatusName(StatusField(v).value);
      StatusNameRoundTrip(StatusField(v).value);
    }
  }

  datatype NoteBody = NoteBody(adminNotes: Option<Json>)

  /** An admin note of 2 to 500 characters. */
  function ParseAdminNote(b: NoteBody): (r: Parsed<string>)
    ensures r.Success? ==> b.adminNotes == Some(JStr(r.data)) && 2 <= |r.data| <= 500
    ensures b.adminNotes.Some? && b.adminNotes.value.JStr? && 2 <= |b.adminNotes.value.s| <= 500 ==> r == Success(b.adminNotes.value.s)
    ensures r.Failure? ==> r.issues != []
  {
    var notes := StringField(b.adminNotes, 2, 500);
    if notes.Accepted? then Success(notes.value) else Failure(Issue("adminNotes", notes))
  }

  // -------------------------------------------------------------------------
  // parseOrThrow

  /** The parsed data, or an error with status 400 whose message joins the
      issues (or says "Validation failed" when there is nothing to join). */
  function ParseOrThrow<T>(p: Parsed<T>): (r: Result<T>)
    ensures r.Ok? <==> p.Success?
    ensures r.Ok? ==> r.value == p.data
    ensures r.Err? ==> r.error.status == 400 && r.error.message != ""
  {
    match p
    case Success(data) => Ok(data)
    case Failure(issues) =>
      var message := Join(issues, "; ");
      Err(ApiError(400, if message == "" then "Validation failed" else message))
  }

  // -------------------------------------------------------------------------
  // The cases of backend/tests/validators.test.js

  lemma ValidatorExamples(isEmail: string -> bool)
    requires isEmail("jane@example.com") && !isEmail("bad")
    ensures var d := ParseOrThrow(ParseRegister(RegisterBody(
        Some(JStr("Jane Doe")), Some(JStr("jane@example.com")), Some(JStr("+2348000000000")),
        None, Some(JStr("strongpass123")), Some(JStr("admin"))), isEmail));
      d.Ok? && d.value.email == "jane@example.com" && d.value.accountType == Some(AdminRole)
    ensures ParseOrThrow(ParseRegister(RegisterBody(
        Some(JStr("J")), Some(JStr("bad")), None, None, Some(JStr("123")), None), isEmail)).Err?
    ensures var d := ParseOrThrow(ParseLoanApplication(LoanBody(
        Finite(100000.0), Finite(12.0), Finite(80000.0), Some(JStr("employed")), Some(JStr("personal")), None, None)));
      d.Ok? && d.value.amount == 100000
    ensures var d := ParseOrThrow(ParseLoanApplication(LoanBody(
        Finite(-1.0), Finite(12.0), Finite(80000.0), Some(JStr("employed")), Some(JStr("personal")), None, None)));
      d.Err? && d.error.status == 400
  {
    var reg := RegisterData("Jane Doe", "jane@example.com", Some("+2348000000000"), None, "strongpass123", Some(AdminRole));
    assert RegisterBodyOf(reg).accountType == Some(JStr("admin"));
    RegisterRoundTrip(reg, isEmail);
    var loan := LoanData(100000, 12, 80000, "employed", "personal", None, None);
    LoanRoundTrip(loan);
  }
}
