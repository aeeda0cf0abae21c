/** The three tables of backend/src/migrations.js (`users`, `loan_applications`,
    `loan_events`) as row datatypes, and the values their text columns take. */
module Schema {
  import opened Common

  /** `users.role`: 'user' (the column default) or 'admin'. */
  datatype Role = UserRole | AdminRole

  function RoleName(r: Role): string
  {
    match r
    case UserRole => "user"
    case AdminRole => "admin"
  }

  /** `loan_applications.status`: 'Pending' (the column default), 'Approved'
      or 'Rejected'. */
  datatype Status = Pending | Approved | Rejected

  function StatusName(s: Status): string
  {
    match s
    case Pending => "Pending"
    case Approved => "Approved"
    case Rejected => "Rejected"
  }

  /** The status a text names, if any: `z.enum(['Pending', 'Approved', 'Rejected'])`. */
  function ParseStatus(text: string): (s: Option<Status>)
    ensures s.Some? <==> text == "Pending" || text == "Approved" || text == "Rejected"
    ensures s.Some? ==> StatusName(s.value) == text
  {
    if text == "Pending" then Some(Pending)
    else if text == "Approved" then Some(Approved)
    else if text == "Rejected" then Some(Rejected)
    else None
  }

  lemma StatusNameRoundTrip(s: Status)
    ensures ParseStatus(StatusName(s)) == Some(s)
  {
  }

  /** `loan_events.event_type` */
  datatype EventType = ApplicationCreated | StatusUpdate | AdminNote

  function EventTypeName(t: EventType): string
  {
    match t
    case ApplicationCreated => "application_created"
    case StatusUpdate => "status_update"
    case AdminNote => "admin_note"
  }

  /** A row of `users`. Timestamps are whole seconds. */
  datatype UserRow = UserRow(
    id: int,
    name: string,
    email: string,
    phone: Option<string>,
    employment: Option<string>,
    passwordHash: string,
    role: Role,
    createdAt: int,
    updatedAt: int)

  /** The columns the server selects for `req.user` and for the auth
      responses: every column but the password hash and `updated_at`. */
  datatype PublicUser = PublicUser(
    id: int,
    name: string,
    email: string,
    role: Role,
    phone: Option<string>,
    employment: Option<string>,
    createdAt: int)

  function Public(u: UserRow): PublicUser
  {
    PublicUser(u.id, u.name, u.email, u.role, u.phone, u.employment, u.createdAt)
  }

  /** A row of `loan_applications`. `eligiblePreview` is the stored 0/1 and
      `previewReasons` the stored JSON text. */
  datatype AppRow = AppRow(
    id: int,
    userId: int,
    amount: int,
    tenure: int,
    income: int,
    employment: string,
    purpose: string,
    collateral: Option<string>,
    notes: Option<string>,
    annualRate: real,
    monthlyEmi: int,
    eligiblePreview: int,
    previewReasons: Option<string>,
    status: Status,
    adminNotes: Option<string>,
    createdAt: int,
    updatedAt: int)

  /** A row of `loan_events`. `actorId` is nullable (ON DELETE SET NULL). */
  datatype EventRow = EventRow(
    id: int,
    applicationId: int,
    actorId: Option<int>,
    actorRole: Option<Role>,
    eventType: EventType,
    detail: Option<string>,
    createdAt: int)

  /** The application's terms: everything fixed when it is created. Review
      changes only `status`, `adminNotes` and `updatedAt`. */
  predicate SameTerms(a: AppRow, b: AppRow)
  {
    && a.id == b.id && a.userId == b.userId
    && a.amount == b.amount && a.tenure == b.tenure && a.income == b.income
    && a.employment == b.employment && a.purpose == b.purpose
    && a.collateral == b.collateral && a.notes == b.notes
    && a.annualRate == b.annualRate && a.monthlyEmi == b.monthlyEmi
    && a.eligiblePreview == b.eligiblePreview && a.previewReasons == b.previewReasons
    && a.createdAt == b.createdAt
  }

  /** `email TEXT NOT NULL UNIQUE`. Tables are kept in insertion order, so
      the row with id `k` sits at index `k - 1`. */
  predicate UniqueEmails(users: seq<UserRow>)
  {
    forall i, j :: 0 <= i < j < |users| ==> users[i].email != users[j].email
  }

  /** `SELECT ... FROM users WHERE id = ?` */
  function UserById(users: seq<UserRow>, id: int): (u: Option<UserRow>)
    ensures u.Some? <==> 1 <= id <= |users|
    ensures u.Some? ==> u.value == users[id - 1]
  {
    if 1 <= id <= |users| then Some(users[id - 1]) else None
  }

  /** With ids that follow insertion order, the lookup selects by id: it
      finds a row exactly when some row has the id, and that row has it. */
  lemma UserByIdSelectsId(users: seq<UserRow>, id: int)
    requires forall i :: 0 <= i < |users| ==> users[i].id == i + 1
    ensures UserById(users, id).Some? <==> exists i :: 0 <= i < |users| && users[i].id == id
    ensures UserById(users, id).Some? ==> UserById(users, id).value.id == id
  {
    if 1 <= id <= |users| {
      assert users[id - 1].id == id;
    }
  }
}
