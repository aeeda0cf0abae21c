/** The database behind the routes of backend/src/routes/auth.js and
    backend/src/routes/loans.js, and `seedAdmin` of backend/src/migrations.js.
    The three tables are kept in insertion order: with AUTOINCREMENT keys and
    no deletes, the row with id `k` sits at index `k - 1`. Each handler is
    one method (or, for the read-only ones, one function) that answers with
    the row it returns or with the error it throws; the loan routes send
    that row passed through `Transformers.MapLoan`. The request's user, the
    clock (`now`, and `iso` for `new Date().toISOString()`), bcrypt and
    `JSON.stringify` are supplied by the caller. */
module Store {
  import opened Common
  import opened Finance
  import opened Eligibility
  import opened Schema
  import opened Validators
  import opened Transformers
  import opened Access

  // -------------------------------------------------------------------------
  // Users

  /** `SELECT id FROM users WHERE email = ?`: the index of the row with this
      email, if there is one. */
  function FindEmail(users: seq<UserRow>, email: string): (r: Option<nat>)
    ensures r.Some? ==> r.value < |users| && users[r.value].email == email
    ensures r.None? ==> forall i :: 0 <= i < |users| ==> users[i].email != email
  {
    if users == [] then None
    else if users[|users| - 1].email == email then Some(|users| - 1)
    else FindEmail(users[..|users| - 1], email)
  }

  /** Every stored email is lower case: both ways in lower-case it. */
  predicate LowerEmails(users: seq<UserRow>)
  {
    forall i :: 0 <= i < |users| ==> IsLower(users[i].email)
  }

  /** Because stored emails are lower case, looking up the lower-cased email
      finds an account whatever the case it was registered in. */
  lemma DuplicateIgnoresCase(users: seq<UserRow>, email: string, i: nat)
    requires LowerEmails(users)
    requires i < |users| && ToLower(email) == ToLower(users[i].email)
    ensures FindEmail(users, ToLower(email)).Some?
  {
    ToLowerOfLower(users[i].email);
    assert users[i].email == ToLower(email);
  }

  /** The row `POST /api/auth/register` inserts: always role `user`, the
      email lower-cased, a missing employment recorded as 'unspecified'. */
  function NewUser(id: int, d: RegisterData, hash: string -> string, now: int): (u: UserRow)
    ensures u.role == UserRole && u.email == ToLower(d.email) && u.id == id
    ensures u.employment == Some(if Filled(d.employment) then d.employment.value else "unspecified")
    ensures u.phone == (if Filled(d.phone) then d.phone else None)
    ensures u.name == d.name && u.passwordHash == hash(d.password)
  {
    UserRow(id, d.name, ToLower(d.email), if Filled(d.phone) then d.phone else None,
            Some(if Filled(d.employment) then d.employment.value else "unspecified"),
            hash(d.password), UserRole, now, now)
  }

  /** The administrator `seedAdmin` inserts. */
  function SeedUser(id: int, email: string, password: string, hash: string -> string, now: int): UserRow
  {
    UserRow(id, "Administrator", ToLower(email), None, Some("administrator"), hash(password), AdminRole, now, now)
  }

  /** The users table after `seedAdmin`: unchanged when the email or the
      password is not configured, or when the email is already taken;
      otherwise with one administrator more. */
  function SeededUsers(users: seq<UserRow>, email: Option<string>, password: Option<string>,
                       hash: string -> string, now: int): (r: seq<UserRow>)
    ensures !Filled(email) || !Filled(password) ==> r == users
    ensures Filled(email) && Filled(password) && FindEmail(users, ToLower(email.value)).Some? ==> r == users
    ensures Filled(email) && Filled(password) && FindEmail(users, ToLower(email.value)).None? ==>
      r == users + [SeedUser(|users| + 1, email.value, password.value, hash, now)]
  {
    if !Filled(email) || !Filled(password) then users
    else if FindEmail(users, ToLower(email.value)).Some? then users
    else users + [SeedUser(|users| + 1, email.value, password.value, hash, now)]
  }

  /** Seeding twice leaves the table as seeding once, whenever the second
      run happens. */
  lemma SeedIdempotent(users: seq<UserRow>, email: Option<string>, password: Option<string>,
                       hash: string -> string, t1: int, t2: int)
    ensures SeededUsers(SeededUsers(users, email, password, hash, t1), email, password, hash, t2)
         == SeededUsers(users, email, password, hash, t1)
  {
    var once := SeededUsers(users, email, password, hash, t1);
    if Filled(email) && Filled(password) && once != users {
      assert once[|once| - 1].email == ToLower(email.value);
    }
  }

  // -------------------------------------------------------------------------
  // Applications

  /** What is stored with an application follows from its terms: the rate,
      the instalment and the eligibility preview `buildEligibility` gives. */
  predicate TermsConsistent(a: AppRow, stringify: Json -> string)
  {
    var p := BuildEligibility(a.amount, a.income, a.tenure, a.employment, a.purpose);
    && a.amount >= 10000 && 1 <= a.tenure <= 120 && a.income > 0
    && a.annualRate == p.annualRate && a.monthlyEmi == p.emi
    && a.eligiblePreview == StoredFlag(p.eligible)
    && a.previewReasons == StoredReasons(p.reasons, stringify)
  }

  /** The row `POST /api/loans` inserts: status 'Pending', no admin notes,
      empty collateral and notes stored as null. */
  function NewApplication(id: int, userId: int, d: LoanData, stringify: Json -> string, now: int): (a: AppRow)
    requires ValidLoan(d)
    ensures TermsConsistent(a, stringify)
    ensures a.status == Pending && a.adminNotes.None?
    ensures a.id == id && a.userId == userId && a.createdAt == now && a.updatedAt == now
    ensures a.amount == d.amount && a.tenure == d.tenure && a.income == d.income
    ensures a.employment == d.employment && a.purpose == d.purpose
    ensures a.collateral == (if Filled(d.collateral) then d.collateral else None)
    ensures a.notes == (if Filled(d.notes) then d.notes else None)
  {
    var p := BuildEligibility(d.amount, d.income, d.tenure, d.employment, d.purpose);
    AppRow(id, userId, d.amount, d.tenure, d.income, d.employment, d.purpose,
           if Filled(d.collateral) then d.collateral else None,
           if Filled(d.notes) then d.notes else None,
           p.annualRate, p.emi, StoredFlag(p.eligible), StoredReasons(p.reasons, stringify),
           Pending, None, now, now)
  }

  /** The admin notes after `PATCH /:id/notes`: a new line stamped with the
      time, after the old notes when there are any. */
  function CombinedNotes(previous: Option<string>, iso: string, note: string): (n: string)
    ensures Filled(previous) ==> n == previous.value + "\n" + NoteEntry(iso, note)
    ensures !Filled(previous) ==> n == NoteEntry(iso, note)
  {
    if Filled(previous) then previous.value + "\n" + NoteEntry(iso, note) else NoteEntry(iso, note)
  }

  function NoteEntry(iso: string, note: string): string
  {
    iso + " \U{2014} " + note
  }

  /** Notes are a log: the lines of the new notes are the old lines and one
      more, the stamped entry. */
  lemma NotesGrowByOneLine(previous: Option<string>, iso: string, note: string)
    requires '\n' !in NoteEntry(iso, note)
    ensures Filled(previous) ==> Split(CombinedNotes(previous, iso, note), '\n') == Split(previous.value, '\n') + [NoteEntry(iso, note)]
    ensures !Filled(previous) ==> Split(CombinedNotes(previous, iso, note), '\n') == [NoteEntry(iso, note)]
  {
    var entry := NoteEntry(iso, note);
    if Filled(previous) {
      var parts := Split(previous.value, '\n');
      JoinSnoc(parts, entry, "\n");
      SplitJoin(parts + [entry], '\n');
    } else {
      SplitJoin([entry], '\n');
    }
  }

  /** An event as the handlers insert it. */
  function Event(id: int, appId: int, actor: PublicUser, t: EventType, detail: string, now: int): EventRow
  {
    EventRow(id, appId, Some(actor.id), Some(actor.role), t, Some(detail), now)
  }

  function IdText(id: int): string
  {
    if id >= 0 then NatToString(id) else "-" + NatToString(-id)
  }

  /** The admin listing's filters: `la.status = ?` and a case-insensitive
      substring search over the owner's email and name and the id. */
  predicate AdminMatch(users: seq<UserRow>, status: Option<string>, search: Option<string>, a: AppRow)
  {
    && UserById(users, a.userId).Some?
    && (Filled(status) ==> StatusName(a.status) == status.value)
    && (Filled(search) ==>
          var u := UserById(users, a.userId).value;
          var needle := ToLower(search.value);
          Contains(ToLower(u.email), needle) || Contains(ToLower(u.name), needle) || Contains(IdText(a.id), needle))
  }

  /** An application joined with its owner's name and email. */
  function WithOwner(users: seq<UserRow>, a: AppRow): (r: LoanRecord)
    requires UserById(users, a.userId).Some?
    ensures r.app == a
    ensures r.joinedName == Some(UserById(users, a.userId).value.name)
    ensures r.joinedEmail == Some(UserById(users, a.userId).value.email)
  {
    var u := UserById(users, a.userId).value;
    LoanRecord(a, Some(u.name), Some(u.email), None, None)
  }

  function Bare(a: AppRow): LoanRecord
  {
    LoanRecord(a, None, None, None, None)
  }

  function AppsOf(records: seq<LoanRecord>): (r: seq<AppRow>)
    ensures |r| == |records|
    ensures forall i :: 0 <= i < |r| ==> r[i] == records[i].app
  {
    seq(|records|, i requires 0 <= i < |records| => records[i].app)
  }

  function CreatedAt(a: AppRow): int
  {
    a.createdAt
  }

  function EventCreatedAt(e: EventRow): int
  {
    e.createdAt
  }

  /** The filters the queries apply, as values `Where` can take. */
  function AdminFilter(users: seq<UserRow>, status: Option<string>, search: Option<string>): AppRow -> bool
  {
    (a: AppRow) => AdminMatch(users, status, search, a)
  }

  /** `WHERE user_id = ?` */
  function OwnedBy(userId: int): AppRow -> bool
  {
    (a: AppRow) => a.userId == userId
  }

  /** `WHERE application_id = ?` */
  function OfApplication(appId: int): EventRow -> bool
  {
    (e: EventRow) => e.applicationId == appId
  }

  /** Whatever the order, rows that are a permutation of `Where(s, p)` come
      from `s` and satisfy `p`. */
  lemma {:induction false} AllSatisfy<T(!new)>(t: seq<T>, s: seq<T>, p: T -> bool)
    requires multiset(t) == multiset(Where(s, p))
    ensures forall i :: 0 <= i < |t| ==> t[i] in s && p(t[i])
  {
    forall i | 0 <= i < |t| ensures t[i] in s && p(t[i]) {
      assert t[i] in multiset(t);
      assert t[i] in Where(s, p);
    }
  }

  /** The admin listing: the applications that pass the filters, each with
      its owner's name and email, newest first. */
  function AdminListing(users: seq<UserRow>, apps: seq<AppRow>, status: Option<string>, search: Option<string>): (records: seq<LoanRecord>)
    ensures SortedDesc(AppsOf(records), CreatedAt)
    ensures multiset(AppsOf(records)) == multiset(Where(apps, AdminFilter(users, status, search)))
    ensures forall i :: 0 <= i < |records| ==> AdminMatch(users, status, search, records[i].app)
    ensures forall i :: 0 <= i < |records| ==> records[i] == WithOwner(users, records[i].app)
  {
    var rows := SortDesc(Where(apps, AdminFilter(users, status, search)), CreatedAt);
    AllSatisfy(rows, apps, AdminFilter(users, status, search));
    var records := seq(|rows|, i requires 0 <= i < |rows| => WithOwner(users, rows[i]));
    assert AppsOf(records) == rows;
    records
  }

  /** A user's own applications, newest first (no join: no owner columns). */
  function OwnerListing(apps: seq<AppRow>, userId: int): (records: seq<LoanRecord>)
    ensures SortedDesc(AppsOf(records), CreatedAt)
    ensures multiset(AppsOf(records)) == multiset(Where(apps, OwnedBy(userId)))
    ensures forall i :: 0 <= i < |records| ==> records[i].app.userId == userId
    ensures forall i :: 0 <= i < |records| ==> records[i] == Bare(records[i].app)
  {
    var rows := SortDesc(Where(apps, OwnedBy(userId)), CreatedAt);
    AllSatisfy(rows, apps, OwnedBy(userId));
    var records := seq(|rows|, i requires 0 <= i < |rows| => Bare(rows[i]));
    assert AppsOf(records) == rows;
    records
  }

  // -------------------------------------------------------------------------
  // The invariants of the three tables

  /** Ids follow insertion order; emails are unique and lower case. */
  predicate UsersWellFormed(users: seq<UserRow>)
  {
    && (forall i :: 0 <= i < |users| ==> users[i].id == i + 1)
    && LowerEmails(users) && UniqueEmails(users)
  }

  /** Ids follow insertion order; every application belongs to a user and
      its stored figures follow from its terms. */
  predicate AppsWellFormed(users: seq<UserRow>, apps: seq<AppRow>, stringify: Json -> string)
  {
    && (forall i :: 0 <= i < |apps| ==> apps[i].id == i + 1)
    && (forall i :: 0 <= i < |apps| ==> 1 <= apps[i].userId <= |users|)
    && (forall i {:trigger TermsConsistent(apps[i], stringify)} :: 0 <= i < |apps| ==> TermsConsistent(apps[i], stringify))
  }

  /** Ids follow insertion order; every event belongs to an application. */
  predicate EventsWellFormed(appCount: int, events: seq<EventRow>)
  {
    && (forall i :: 0 <= i < |events| ==> events[i].id == i + 1)
    && (forall i :: 0 <= i < |events| ==> 1 <= events[i].applicationId <= appCount)
  }

  lemma UsersGrow(users: seq<UserRow>, u: UserRow)
    requires UsersWellFormed(users)
    requires u.id == |users| + 1 && IsLower(u.email) && FindEmail(users, u.email).None?
    ensures UsersWellFormed(users + [u])
  {
  }

  lemma AppsKeepOwners(users: seq<UserRow>, u: UserRow, apps: seq<AppRow>, stringify: Json -> string)
    requires AppsWellFormed(users, apps, stringify)
    ensures AppsWellFormed(users + [u], apps, stringify)
  {
  }

  lemma AppsGrow(users: seq<UserRow>, apps: seq<AppRow>, a: AppRow, stringify: Json -> string)
    requires AppsWellFormed(users, apps, stringify)
    requires a.id == |apps| + 1 && 1 <= a.userId <= |users| && TermsConsistent(a, stringify)
    ensures AppsWellFormed(users, apps + [a], stringify)
  {
  }

  /** Review leaves the terms, and so what follows from them, as they were. */
  lemma AppsReviewed(users: seq<UserRow>, apps: seq<AppRow>, i: nat, a: AppRow, stringify: Json -> string)
    requires AppsWellFormed(users, apps, stringify)
    requires i < |apps| && SameTerms(apps[i], a)
    ensures AppsWellFormed(users, apps[i := a], stringify)
  {
    assert TermsConsistent(apps[i], stringify);
  }

  lemma EventsGrow(appCount: int, events: seq<EventRow>, e: EventRow, newCount: int)
    requires EventsWellFormed(appCount, events)
    requires appCount <= newCount && e.id == |events| + 1 && 1 <= e.applicationId <= newCount
    ensures EventsWellFormed(newCount, events + [e])
  {
  }

  class Database {
    var users: seq<UserRow>
    var apps: seq<AppRow>
    var events: seq<EventRow>
    /** `JSON.stringify`, used to store the preview reasons. */
    const stringify: Json -> string

    /** The schema's constraints and what the handlers keep true. */
    ghost predicate Valid()
      reads this
    {
      UsersWellFormed(users) && AppsWellFormed(users, apps, stringify) && EventsWellFormed(|apps|, events)
    }

    constructor (stringify: Json -> string)
      ensures Valid()
      ensures users == [] && apps == [] && events == [] && this.stringify == stringify
    {
      users := [];
      apps := [];
      events := [];
      this.stringify := stringify;
    }

    // -----------------------------------------------------------------------
    // backend/src/routes/auth.js

    /** `POST /api/auth/register` */
    method Register(body: RegisterBody, isEmail: string -> bool, hash: string -> string, now: int)
      returns (r: Result<PublicUser>)
      requires Valid()
      modifies this
      ensures Valid()
      ensures apps == old(apps) && events == old(events)
      ensures r.Err? ==> users == old(users)
      ensures ParseRegister(body, isEmail).Failure? ==> r.Err? && r.error.status == 400
      ensures var p := ParseRegister(body, isEmail);
        p.Success? && FindEmail(old(users), ToLower(p.data.email)).Some? ==>
          r == Err(ApiError(409, "An account with this email already exists"))
      ensures var p := ParseRegister(body, isEmail);
        r.Ok? <==> p.Success? && FindEmail(old(users), ToLower(p.data.email)).None?
      ensures r.Ok? ==>
        var u := NewUser(|old(users)| + 1, ParseRegister(body, isEmail).data, hash, now);
        users == old(users) + [u] && r.value == Public(u)
    {
      var parsed := ParseOrThrow(ParseRegister(body, isEmail));
      if parsed.Err? {
        return Err(parsed.error);
      }
      var d := parsed.value;
      if FindEmail(users, ToLower(d.email)).Some? {
        return Err(ApiError(409, "An account with this email already exists"));
      }
      var u := NewUser(|users| + 1, d, hash, now);
      ToLowerIsLower(d.email);
      UsersGrow(users, u);
      AppsKeepOwners(users, u, apps, stringify);
      users := users + [u];
      r := Ok(Public(u));
    }

    /** `POST /api/auth/login`: an unknown email and a wrong password get the
        same answer. */
    function Login(body: LoginBody, isEmail: string -> bool, compare: (string, string) -> bool): (r: Result<PublicUser>)
      reads this
      ensures ParseLogin(body, isEmail).Failure? ==> r.Err? && r.error.status == 400
      ensures ParseLogin(body, isEmail).Success? && r.Err? ==> r.error == ApiError(401, "Invalid credentials")
      ensures var p := ParseLogin(body, isEmail);
        r.Ok? <==> p.Success? && FindEmail(users, ToLower(p.data.email)).Some?
                   && compare(p.data.password, users[FindEmail(users, ToLower(p.data.email)).value].passwordHash)
      ensures r.Ok? ==> r.value == Public(users[FindEmail(users, ToLower(ParseLogin(body, isEmail).data.email)).value])
    {
      match ParseOrThrow(ParseLogin(body, isEmail))
      case Err(e) => Err(e)
      case Ok(d) =>
        var found := FindEmail(users, ToLower(d.email));
        if found.None? then Err(ApiError(401, "Invalid credentials"))
        else if !compare(d.password, users[found.value].passwordHash) then Err(ApiError(401, "Invalid credentials"))
        else Ok(Public(users[found.value]))
    }

    // -----------------------------------------------------------------------
    // backend/src/migrations.js

    /** `seedAdmin` */
    method SeedAdmin(email: Option<string>, password: Option<string>, hash: string -> string, now: int)
      requires Valid()
      modifies this
      ensures Valid()
      ensures users == SeededUsers(old(users), email, password, hash, now)
      ensures apps == old(apps) && events == old(events)
    {
      if !Filled(email) || !Filled(password) {
        return;
      }
      if FindEmail(users, ToLower(email.value)).Some? {
        return;
      }
      var u := SeedUser(|users| + 1, email.value, password.value, hash, now);
      ToLowerIsLower(email.value);
      UsersGrow(users, u);
      AppsKeepOwners(users, u, apps, stringify);
      users := users + [u];
    }

    // -----------------------------------------------------------------------
    // backend/src/routes/loans.js

    /** `POST /api/loans` */
    method CreateApplication(actor: Option<PublicUser>, body: LoanBody, now: int) returns (r: Result<AppRow>)
      requires Valid()
      requires actor.Some? ==> UserById(users, actor.value.id).Some?
      modifies this
      ensures Valid()
      ensures users == old(users)
      ensures r.Err? ==> apps == old(apps) && events == old(events)
      ensures actor.None? ==> r == Err(ApiError(401, "Authentication required"))
      ensures actor.Some? && ParseLoanApplication(body).Failure? ==> r.Err? && r.error.status == 400
      ensures r.Ok? <==> actor.Some? && ParseLoanApplication(body).Success?
      ensures r.Ok? ==>
        var id := |old(apps)| + 1;
        && r.value == NewApplication(id, actor.value.id, ParseLoanApplication(body).data, stringify, now)
        && apps == old(apps) + [r.value]
        && events == old(events) + [Event(|old(events)| + 1, id, actor.value, ApplicationCreated, "Loan application submitted", now)]
    {
      var gate := RequireAuth(actor);
      if gate.Deny? {
        return Err(gate.error);
      }
      var parsed := ParseOrThrow(ParseLoanApplication(body));
      if parsed.Err? {
        return Err(parsed.error);
      }
      var id := |apps| + 1;
      var a := NewApplication(id, actor.value.id, parsed.value, stringify, now);
      var e := Event(|events| + 1, id, actor.value, ApplicationCreated, "Loan application submitted", now);
      AppsGrow(users, apps, a, stringify);
      EventsGrow(|apps|, events, e, |apps| + 1);
      apps := apps + [a];
      events := events + [e];
      r := Ok(a);
    }

    /** `GET /api/loans`: an admin sees every application that passes the
        filters, with its owner's name and email; anyone else sees their
        own. Newest first. */
    function ListApplications(actor: Option<PublicUser>, status: Option<string>, search: Option<string>): (r: Result<seq<LoanRecord>>)
      reads this
      ensures actor.None? <==> r.Err?
      ensures r.Err? ==> r.error == ApiError(401, "Authentication required")
      ensures r.Ok? && actor.value.role == AdminRole ==> r.value == AdminListing(users, apps, status, search)
      ensures r.Ok? && actor.value.role != AdminRole ==> r.value == OwnerListing(apps, actor.value.id)
    {
      if actor.None? then Err(ApiError(401, "Authentication required"))
      else if actor.value.role == AdminRole then Ok(AdminListing(users, apps, status, search))
      else Ok(OwnerListing(apps, actor.value.id))
    }

    /** `GET /api/loans/:id`: 404 for a missing application comes before
        the ownership check; a user who is neither its owner nor an admin
        gets 403 and nothing else. The events are whole `EventRow`s; the
        query does not select `application_id`, which is `id` for all of
        them. */
    function GetApplication(actor: Option<PublicUser>, id: int): (r: Result<(LoanRecord, seq<EventRow>)>)
      reads this
      ensures actor.None? ==> r == Err(ApiError(401, "Authentication required"))
      ensures actor.Some? && !(1 <= id <= |apps| && UserById(users, apps[id - 1].userId).Some?) ==>
        r == Err(ApiError(404, "Application not found"))
      ensures actor.Some? && 1 <= id <= |apps| && UserById(users, apps[id - 1].userId).Some?
              && actor.value.role != AdminRole && apps[id - 1].userId != actor.value.id ==>
        r == Err(ApiError(403, "Unauthorized to access this application"))
      ensures r.Ok? ==> 1 <= id <= |apps| && UserById(users, apps[id - 1].userId).Some?
      ensures r.Ok? ==> actor.Some? && (actor.value.role == AdminRole || apps[id - 1].userId == actor.value.id)
      ensures r.Ok? ==> r.value.0 == WithOwner(users, apps[id - 1])
      ensures r.Ok? ==> SortedDesc(r.value.1, EventCreatedAt)
      ensures r.Ok? ==> multiset(r.value.1) == multiset(Where(events, OfApplication(id)))
    {
      if actor.None? then Err(ApiError(401, "Authentication required"))
      else if !(1 <= id <= |apps| && UserById(users, apps[id - 1].userId).Some?) then
        Err(ApiError(404, "Application not found"))
      else
        var a := apps[id - 1];
        if actor.value.role != AdminRole && a.userId != actor.value.id then
          Err(ApiError(403, "Unauthorized to access this application"))
        else
          Ok((WithOwner(users, a), SortDesc(Where(events, OfApplication(id)), EventCreatedAt)))
    }

    /** `PATCH /api/loans/:id/status` (admins only): sets the status, replaces
        the admin notes only with non-empty new ones, and logs one
        `status_update` event, even when the status does not change. */
    method UpdateStatus(actor: Option<PublicUser>, id: int, body: StatusBody, now: int) returns (r: Result<AppRow>)
      requires Valid()
      modifies this
      ensures Valid()
      ensures users == old(users)
      ensures r.Err? ==> apps == old(apps) && events == old(events)
      ensures actor.None? ==> r == Err(ApiError(401, "Authentication required"))
      ensures actor.Some? && actor.value.role != AdminRole ==> r == Err(ApiError(403, "Administrator access required"))
      ensures RequireAdmin(actor).Proceed? && ParseStatusUpdate(body).Failure? ==> r.Err? && r.error.status == 400
      ensures RequireAdmin(actor).Proceed? && ParseStatusUpdate(body).Success? && !(1 <= id <= |old(apps)|) ==>
        r == Err(ApiError(404, "Application not found"))
      ensures r.Ok? <==> RequireAdmin(actor).Proceed? && ParseStatusUpdate(body).Success? && 1 <= id <= |old(apps)|
      ensures r.Ok? ==>
        var d := ParseStatusUpdate(body).data;
        var a := old(apps)[id - 1];
        && r.value == a.(status := d.status, adminNotes := if Filled(d.adminNotes) then d.adminNotes else a.adminNotes, updatedAt := now)
        && apps == old(apps)[id - 1 := r.value]
        && events == old(events) + [Event(|old(events)| + 1, id, actor.value, StatusUpdate, "Status changed to " + StatusName(d.status), now)]
      // the terms of every application stay as they were
      ensures |apps| == |old(apps)| && forall i :: 0 <= i < |apps| ==> SameTerms(old(apps)[i], apps[i])
    {
      var gate := RequireAuth(actor);
      if gate.Deny? {
        return Err(gate.error);
      }
      gate := RequireAdmin(actor);
      if gate.Deny? {
        return Err(gate.error);
      }
      var parsed := ParseOrThrow(ParseStatusUpdate(body));
      if parsed.Err? {
        return Err(parsed.error);
      }
      if !(1 <= id <= |apps|) {
        return Err(ApiError(404, "Application not found"));
      }
      var d := parsed.value;
      var a := apps[id - 1];
      var updated := a.(status := d.status, adminNotes := if Filled(d.adminNotes) then d.adminNotes else a.adminNotes, updatedAt := now);
      var e := Event(|events| + 1, id, actor.value, StatusUpdate, "Status changed to " + StatusName(d.status), now);
      AppsReviewed(users, apps, id - 1, updated, stringify);
      EventsGrow(|apps|, events, e, |apps|);
      apps := apps[id - 1 := updated];
      events := events + [e];
      r := Ok(updated);
    }

    /** `PATCH /api/loans/:id/notes` (admins only): appends a stamped line to
        the admin notes and logs one `admin_note` event carrying the note. */
    method AppendNote(actor: Option<PublicUser>, id: int, body: NoteBody, iso: string, now: int) returns (r: Result<AppRow>)
      requires Valid()
      modifies this
      ensures Valid()
      ensures users == old(users)
      ensures r.Err? ==> apps == old(apps) && events == old(events)
      ensures actor.None? ==> r == Err(ApiError(401, "Authentication required"))
      ensures actor.Some? && actor.value.role != AdminRole ==> r == Err(ApiError(403, "Administrator access required"))
      ensures RequireAdmin(actor).Proceed? && ParseAdminNote(body).Failure? ==> r.Err? && r.error.status == 400
      ensures RequireAdmin(actor).Proceed? && ParseAdminNote(body).Success? && !(1 <= id <= |old(apps)|) ==>
        r == Err(ApiError(404, "Application not found"))
      ensures r.Ok? <==> RequireAdmin(actor).Proceed? && ParseAdminNote(body).Success? && 1 <= id <= |old(apps)|
      ensures r.Ok? ==>
        var note := ParseAdminNote(body).data;
        var a := old(apps)[id - 1];
        && r.value == a.(adminNotes := Some(CombinedNotes(a.adminNotes, iso, note)), updatedAt := now)
        && apps == old(apps)[id - 1 := r.value]
        && events == old(events) + [Event(|old(events)| + 1, id, actor.value, AdminNote, note, now)]
      ensures |apps| == |old(apps)| && forall i :: 0 <= i < |apps| ==> SameTerms(old(apps)[i], apps[i])
    {
      var gate := RequireAuth(actor);
      if gate.Deny? {
        return Err(gate.error);
      }
      gate := RequireAdmin(actor);
      if gate.Deny? {
        return Err(gate.error);
      }
      var parsed := ParseOrThrow(ParseAdminNote(body));
      if parsed.Err? {
        return Err(parsed.error);
      }
      if !(1 <= id <= |apps|) {
        return Err(ApiError(404, "Application not found"));
      }
      var note := parsed.value;
      var a := apps[id - 1];
      var updated := a.(adminNotes := Some(CombinedNotes(a.adminNotes, iso, note)), updatedAt := now);
      var e := Event(|events| + 1, id, actor.value, AdminNote, note, now);
      AppsReviewed(users, apps, id - 1, updated, stringify);
      EventsGrow(|apps|, events, e, |apps|);
      apps := apps[id - 1 := updated];
      events := events + [e];
      r := Ok(updated);
    }
  }
}
