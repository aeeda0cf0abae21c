/** The browser demo of frontend/app.js: a client-only store of users and
    applications (kept in `localStorage`), a session, and the handlers that
    change them, with the page's own eligibility heuristics and its HTML and
    CSV encoders. */
module Frontend {
  import opened Common
  import opened Finance

  // -------------------------------------------------------------------------
  // Client eligibility (three checks, with the page's own messages)

  const EmploymentReason := "Employment status not eligible."
  const EmiReason := "EMI exceeds 40% of income."

  /** The amount message names the multiple: 24 for business loans, else 12. */
  function AmountReason(purpose: string): string
  {
    if purpose == "business" then "Requested > 24x monthly income."
    else "Requested > 12x monthly income."
  }

  function ClientMultiple(purpose: string): real
  {
    if purpose == "business" then 24.0 else 12.0
  }

  datatype ClientPreview = ClientPreview(eligible: bool, reasons: seq<string>)

  /** The heuristics of `handleApply`: each failed check appends its reason,
      in the order unemployed, instalment over 40% of income, amount over the
      multiple of income; the preview is eligible exactly when none failed. */
  function ClientEligibility(amount: real, income: real, emi: int, employment: string, purpose: string): (p: ClientPreview)
    ensures EmploymentReason in p.reasons <==> employment == "unemployed"
    ensures EmiReason in p.reasons <==> emi as real > 0.4 * income
    ensures AmountReason(purpose) in p.reasons <==> amount > income * ClientMultiple(purpose)
    ensures forall i :: 0 <= i < |p.reasons| ==> p.reasons[i] in {EmploymentReason, EmiReason, AmountReason(purpose)}
    ensures forall i, j :: 0 <= i < j < |p.reasons| ==> p.reasons[i] != p.reasons[j]
    ensures employment == "unemployed" ==> p.reasons[0] == EmploymentReason
    ensures amount > income * ClientMultiple(purpose) ==> p.reasons[|p.reasons| - 1] == AmountReason(purpose)
    ensures p.eligible <==> p.reasons == []
  {
    var reasons :=
      (if employment == "unemployed" then [EmploymentReason] else [])
      + (if emi as real > 0.4 * income then [EmiReason] else [])
      + (if amount > income * ClientMultiple(purpose) then [AmountReason(purpose)] else []);
    var eligible := employment != "unemployed" && !(emi as real > 0.4 * income) && !(amount > income * ClientMultiple(purpose));
    ClientPreview(eligible, reasons)
  }

  // -------------------------------------------------------------------------
  // The stored records

  /** A stored user: the demo keeps the password in clear. */
  datatype DemoUser = DemoUser(id: string, name: string, email: string, phone: string, password: string)

  /** The session: who is logged in and as what (`'user'` or `'admin'`). */
  datatype Session = Session(id: string, name: string, email: string, role: string)

  datatype DemoApp = DemoApp(
    id: string,
    userId: string,
    userName: string,
    userEmail: string,
    amount: real,
    tenure: int,
    income: real,
    employment: string,
    purpose: string,
    collateral: string,
    notes: string,
    annualRate: real,
    monthlyEmi: int,
    eligiblePreview: bool,
    previewReasons: seq<string>,
    status: string,
    adminNotes: string,
    createdAt: string)

  const AdminEmail := "admin@finverge.demo"
  const AdminPassword := "admin123"

  /** The sample user written when the store is empty. */
  const JaneDemo := DemoUser("u1", "Jane Demo", "jane@demo.com", "+234800000", "password")

  predicate DistinctEmails(users: seq<DemoUser>)
  {
    forall i, j :: 0 <= i < j < |users| ==> users[i].email != users[j].email
  }

  predicate EmailTaken(users: seq<DemoUser>, email: string)
  {
    exists i :: 0 <= i < |users| && users[i].email == email
  }

  lemma RegisterKeepsEmailsDistinct(users: seq<DemoUser>, u: DemoUser)
    requires DistinctEmails(users) && !EmailTaken(users, u.email)
    ensures DistinctEmails(users + [u])
  {
    assert forall i :: 0 <= i < |users| ==> users[i].email != u.email;
  }

  /** `users.find(u => u.email === email && u.password === password)`: the
      first user with both. */
  function FindLogin(users: seq<DemoUser>, email: string, password: string): (r: Option<nat>)
    ensures r.Some? ==> r.value < |users| && users[r.value].email == email && users[r.value].password == password
    ensures r.Some? ==> forall j :: 0 <= j < r.value ==> !(users[j].email == email && users[j].password == password)
    ensures r.None? ==> forall j :: 0 <= j < |users| ==> !(users[j].email == email && users[j].password == password)
  {
    if users == [] then None
    else if users[0].email == email && users[0].password == password then Some(0)
    else
      var rest := FindLogin(users[1..], email, password);
      if rest.Some? then Some(rest.value + 1) else None
  }

  /** `apps.findIndex(x => x.id === id)`: the first application with the id. */
  function FindApp(apps: seq<DemoApp>, id: string): (r: Option<nat>)
    ensures r.Some? ==> r.value < |apps| && apps[r.value].id == id
    ensures r.Some? ==> forall j :: 0 <= j < r.value ==> apps[j].id != id
    ensures r.None? ==> forall j :: 0 <= j < |apps| ==> apps[j].id != id
  {
    if apps == [] then None
    else if apps[0].id == id then Some(0)
    else
      var rest := FindApp(apps[1..], id);
      if rest.Some? then Some(rest.value + 1) else None
  }

  /** The session `handleLogin` starts, if any: the demo administrator is
      recognised before the stored users are searched. */
  function LoginSession(users: seq<DemoUser>, email: string, password: string): (s: Option<Session>)
    ensures var e := ToLower(Trim(email));
      && (e == AdminEmail && password == AdminPassword ==> s == Some(Session("admin", "Administrator", AdminEmail, "admin")))
      && (!(e == AdminEmail && password == AdminPassword) ==>
            (s.Some? <==> FindLogin(users, e, password).Some?))
      && (!(e == AdminEmail && password == AdminPassword) && s.Some? ==>
            var u := users[FindLogin(users, e, password).value];
            s.value == Session(u.id, u.name, u.email, "user"))
  {
    var e := ToLower(Trim(email));
    if e == AdminEmail && password == AdminPassword then Some(Session("admin", "Administrator", AdminEmail, "admin"))
    else
      var found := FindLogin(users, e, password);
      if found.Some? then
        var u := users[found.value];
        Some(Session(u.id, u.name, u.email, "user"))
      else None
  }

  /** The user `handleRegister` stores, with the id `'u' + Date.now()`. */
  function NewDemoUser(name: string, email: string, phone: string, password: string, now: nat): (u: DemoUser)
    ensures u.email == ToLower(Trim(email)) && u.password == password
    ensures u.name == Trim(name) && u.phone == Trim(phone)
    ensures u.id == "u" + NatToString(now)
  {
    DemoUser("u" + NatToString(now), Trim(name), ToLower(Trim(email)), Trim(phone), password)
  }

  /** The application `handleApply` stores: the session's identity, the
      rate for the tenure and purpose, the rounded-up instalment, the
      client preview, status `Pending` and no administrator notes. */
  function NewDemoApp(s: Session, amount: real, tenure: int, income: real, employment: string, purpose: string,
                      collateral: string, notes: string, now: nat, iso: string): (a: DemoApp)
    ensures a.id == "a" + NatToString(now) && a.createdAt == iso
    ensures a.userId == s.id && a.userName == s.name && a.userEmail == s.email
    ensures a.amount == amount && a.tenure == tenure && a.income == income
    ensures a.collateral == Trim(collateral) && a.notes == Trim(notes)
    ensures a.annualRate == CalcInterestRate(tenure, purpose)
    ensures a.monthlyEmi == Ceil(MonthlyPayment(amount, a.annualRate, tenure))
    ensures var p := ClientEligibility(amount, income, a.monthlyEmi, employment, purpose);
      a.eligiblePreview == p.eligible && a.previewReasons == p.reasons
    ensures a.status == "Pending" && a.adminNotes == ""
  {
    var rate := CalcInterestRate(tenure, purpose);
    var emi := Ceil(MonthlyPayment(amount, rate, tenure));
    var p := ClientEligibility(amount, income, emi, employment, purpose);
    DemoApp("a" + NatToString(now), s.id, s.name, s.email, amount, tenure, income, employment, purpose,
            Trim(collateral), Trim(notes), rate, emi, p.eligible, p.reasons, "Pending", "", iso)
  }

  /** `updateAppNote`: the note on a line of its own after any earlier notes. */
  function AppendedNotes(previous: string, note: string): (n: string)
    ensures previous == "" ==> n == note
    ensures previous != "" ==> n == previous + "\n" + note
  {
    (if previous != "" then previous + "\n" else "") + note
  }

  /** The lines of the notes are the earlier lines and the new note. */
  lemma NoteAddsOneLine(previous: string, note: string)
    requires '\n' !in note
    ensures previous != "" ==> Split(AppendedNotes(previous, note), '\n') == Split(previous, '\n') + [note]
    ensures previous == "" ==> Split(AppendedNotes(previous, note), '\n') == [note]
  {
    if previous != "" {
      var parts := Split(previous, '\n');
      JoinSnoc(parts, note, "\n");
      SplitJoin(parts + [note], '\n');
    } else {
      SplitJoin([note], '\n');
    }
  }

  // -------------------------------------------------------------------------
  // The store

  class DemoStore {
    var users: seq<DemoUser>
    var apps: seq<DemoApp>
    var session: Option<Session>

    /** No two stored users share an email. */
    predicate Valid()
      reads this
    {
      DistinctEmails(users)
    }

    /** The store as first initialised: the sample user, no applications, no
        session. */
    constructor ()
      ensures Valid()
      ensures users == [JaneDemo] && apps == [] && session == None
    {
      users := [JaneDemo];
      apps := [];
      session := None;
    }

    /** `handleRegister`: `None` on success, else the error shown. */
    method HandleRegister(name: string, email: string, phone: string, password: string, now: nat) returns (error: Option<string>)
      requires Valid()
      modifies this
      ensures Valid()
      ensures apps == old(apps)
      ensures var e := ToLower(Trim(email));
        && (Trim(name) == "" || e == "" || password == "" ==>
              error == Some("Please fill required fields."))
        && (!(Trim(name) == "" || e == "" || password == "") && EmailTaken(old(users), e) ==>
              error == Some("Email already registered."))
        && (error.None? <==> !(Trim(name) == "" || e == "" || password == "") && !EmailTaken(old(users), e))
      ensures error.Some? ==> users == old(users) && session == old(session)
      ensures error.None? ==>
        var u := NewDemoUser(name, email, phone, password, now);
        users == old(users) + [u] && session == Some(Session(u.id, u.name, u.email, "user"))
    {
      var u := NewDemoUser(name, email, phone, password, now);
      if u.name == "" || u.email == "" || password == "" {
        return Some("Please fill required fields.");
      }
      if EmailTaken(users, u.email) {
        return Some("Email already registered.");
      }
      RegisterKeepsEmailsDistinct(users, u);
      users := users + [u];
      session := Some(Session(u.id, u.name, u.email, "user"));
      error := None;
    }

    /** `handleLogin`: a failed login leaves the session as it was. */
    method HandleLogin(email: string, password: string) returns (error: Option<string>)
      modifies this
      ensures users == old(users) && apps == old(apps)
      ensures var s := LoginSession(old(users), email, password);
        && (s.Some? ==> error.None? && session == s)
        && (s.None? ==> error == Some("Invalid credentials.") && session == old(session))
    {
      var e := ToLower(Trim(email));
      if e == AdminEmail && password == AdminPassword {
        session := Some(Session("admin", "Administrator", AdminEmail, "admin"));
        return None;
      }
      var found := FindLogin(users, e, password);
      if found.None? {
        return Some("Invalid credentials.");
      }
      var u := users[found.value];
      session := Some(Session(u.id, u.name, u.email, "user"));
      error := None;
    }

    /** `handleApply`: only a logged-in user may apply; a zero (or missing)
        amount, tenure or income, or an amount under 10000, saves nothing. */
    method HandleApply(amount: real, tenure: int, income: real, employment: string, purpose: string,
                       collateral: string, notes: string, now: nat, iso: string) returns (error: Option<string>)
      modifies this
      ensures users == old(users) && session == old(session)
      ensures var isUser := old(session).Some? && old(session).value.role == "user";
        && (!isUser ==> error == Some("You must be logged in as a user to apply."))
        && (isUser && (amount == 0.0 || income == 0.0 || tenure == 0) ==>
              error == Some("Please provide amount, tenure and income."))
        && (isUser && amount != 0.0 && income != 0.0 && tenure != 0 && amount < 10000.0 ==>
              error == Some("Minimum loan amount is \U{20A6}10,000."))
        && (error.None? <==> isUser && income != 0.0 && tenure != 0 && amount >= 10000.0)
      ensures error.Some? ==> apps == old(apps)
      ensures error.None? ==>
        apps == old(apps) + [NewDemoApp(old(session).value, amount, tenure, income, employment, purpose, collateral, notes, now, iso)]
    {
      if session.None? || session.value.role != "user" {
        return Some("You must be logged in as a user to apply.");
      }
      if amount == 0.0 || income == 0.0 || tenure == 0 {
        return Some("Please provide amount, tenure and income.");
      }
      if amount < 10000.0 {
        return Some("Minimum loan amount is \U{20A6}10,000.");
      }
      var annualRate := CalcInterestRate(tenure, purpose);
      var emi := Ceil(MonthlyPayment(amount, annualRate, tenure));
      var preview := ClientEligibility(amount, income, emi, employment, purpose);
      var s := session.value;
      var app := DemoApp("a" + NatToString(now), s.id, s.name, s.email, amount, tenure, income, employment, purpose,
                         Trim(collateral), Trim(notes), annualRate, emi, preview.eligible, preview.reasons, "Pending", "", iso);
      apps := apps + [app];
      error := None;
    }

    /** `updateAppStatus`: sets the status of the first application with the
        id; an unknown id changes nothing. */
    method UpdateAppStatus(id: string, status: string) returns (error: Option<string>)
      modifies this
      ensures users == old(users) && session == old(session)
      ensures FindApp(old(apps), id).None? ==> error == Some("Not found") && apps == old(apps)
      ensures FindApp(old(apps), id).Some? ==>
        var i := FindApp(old(apps), id).value;
        && error.None?
        && |apps| == |old(apps)|
        && apps[i] == old(apps)[i].(status := status)
        && (forall j :: 0 <= j < |apps| && j != i ==> apps[j] == old(apps)[j])
    {
      var found := FindApp(apps, id);
      if found.None? {
        return Some("Not found");
      }
      var i := found.value;
      apps := apps[i := apps[i].(status := status)];
      error := None;
    }

    /** `updateAppNote`: appends a line to the notes of the first application
        with the id; an unknown id changes nothing. */
    method UpdateAppNote(id: string, note: string) returns (error: Option<string>)
      modifies this
      ensures users == old(users) && session == old(session)
      ensures FindApp(old(apps), id).None? ==> error == Some("Not found") && apps == old(apps)
      ensures FindApp(old(apps), id).Some? ==>
        var i := FindApp(old(apps), id).value;
        && error.None?
        && |apps| == |old(apps)|
        && apps[i] == old(apps)[i].(adminNotes := AppendedNotes(old(apps)[i].adminNotes, note))
        && (forall j :: 0 <= j < |apps| && j != i ==> apps[j] == old(apps)[j])
    {
      var found := FindApp(apps, id);
      if found.None? {
        return Some("Not found");
      }
      var i := found.value;
      apps := apps[i := apps[i].(adminNotes := AppendedNotes(apps[i].adminNotes, note))];
      error := None;
    }

    /** The administrator's answer to the `viewApp` prompt: `approve` or
        `reject`, in any case, sets the status; any other non-empty answer is
        added as a note; a cancelled or empty answer does nothing. */
    method ViewApp(id: string, action: Option<string>) returns (error: Option<string>)
      modifies this
      ensures users == old(users) && session == old(session)
      ensures FindApp(old(apps), id).None? ==> error == Some("Application not found.") && apps == old(apps)
      ensures FindApp(old(apps), id).Some? && !Filled(action) ==> error.None? && apps == old(apps)
      ensures FindApp(old(apps), id).Some? && Filled(action) ==>
        var i := FindApp(old(apps), id).value;
        var a := ToLower(action.value);
        && error.None?
        && |apps| == |old(apps)|
        && (forall j :: 0 <= j < |apps| && j != i ==> apps[j] == old(apps)[j])
        && (a == "approve" ==> apps[i] == old(apps)[i].(status := "Approved"))
        && (a == "reject" ==> apps[i] == old(apps)[i].(status := "Rejected"))
        && (a != "approve" && a != "reject" ==>
              apps[i] == old(apps)[i].(adminNotes := AppendedNotes(old(apps)[i].adminNotes, action.value)))
    {
      if FindApp(apps, id).None? {
        return Some("Application not found.");
      }
      if !Filled(action) {
        return None;
      }
      var a := ToLower(action.value);
      if a == "approve" {
        error := UpdateAppStatus(id, "Approved");
      } else if a == "reject" {
        error := UpdateAppStatus(id, "Rejected");
      } else {
        error := UpdateAppNote(id, action.value);
      }
    }
  }

  /** A user who has just registered can log in with the same email text and
      password, and is then the newly stored user (unless those are the demo
      administrator's credentials, which are checked first). */
  lemma RegisteredUserCanLogIn(users: seq<DemoUser>, name: string, email: string, phone: string, password: string, now: nat)
    requires DistinctEmails(users) && !EmailTaken(users, ToLower(Trim(email)))
    requires !(ToLower(Trim(email)) == AdminEmail && password == AdminPassword)
    ensures var u := NewDemoUser(name, email, phone, password, now);
      LoginSession(users + [u], email, password) == Some(Session(u.id, u.name, u.email, "user"))
  {
    var u := NewDemoUser(name, email, phone, password, now);
    var all := users + [u];
    var e := ToLower(Trim(email));
    assert all[|users|] == u;
    assert forall j :: 0 <= j < |users| ==> all[j].email != e;
  }

  // -------------------------------------------------------------------------
  // HTML escaping

  predicate Special(c: char)
  {
    c == '&' || c == '<' || c == '>' || c == '"' || c == '\''
  }

  function Entity(c: char): (e: string)
    ensures !Special(c) ==> e == [c]
    ensures Special(c) ==> |e| >= 4 && e[0] == '&'
    ensures forall i :: 0 <= i < |e| ==> !(Special(e[i]) && e[i] != '&')
  {
    match c
    case '&' => "&amp;"
    case '<' => "&lt;"
    case '>' => "&gt;"
    case '"' => "&quot;"
    case '\'' => "&#39;"
    case _ => [c]
  }

  /** Each character replaced by its entity. */
  function Escape(s: string): (r: string)
    ensures |r| >= |s|
    ensures forall i :: 0 <= i < |r| ==> !(Special(r[i]) && r[i] != '&')
    decreases |s|
  {
    if s == [] then [] else Entity(s[0]) + Escape(s[1..])
  }

  /** `escapeHtml`: `String(s || '')`, then the five markup characters
      replaced; absent or empty input gives the empty string. */
  function EscapeHtml(s: Option<string>): (r: string)
    ensures s.None? ==> r == ""
    ensures s.Some? ==> r == Escape(s.value)
    ensures forall i :: 0 <= i < |r| ==> r[i] != '<' && r[i] != '>' && r[i] != '"' && r[i] != '\''
  {
    if s.None? then "" else Escape(s.value)
  }

  /** Decoding the five entities, the partner of `Escape`. */
  function Unescape(t: string): string
    decreases |t|
  {
    if t == [] then []
    else if t[0] != '&' then [t[0]] + Unescape(t[1..])
    else if StartsWith(t, "&amp;") then "&" + Unescape(t[5..])
    else if StartsWith(t, "&lt;") then "<" + Unescape(t[4..])
    else if StartsWith(t, "&gt;") then ">" + Unescape(t[4..])
    else if StartsWith(t, "&quot;") then "\"" + Unescape(t[6..])
    else if StartsWith(t, "&#39;") then "'" + Unescape(t[5..])
    else "&" + Unescape(t[1..])
  }

  lemma UnescapeEntity(c: char, rest: string)
    ensures Unescape(Entity(c) + rest) == [c] + Unescape(rest)
  {
    var t := Entity(c) + rest;
    var n := |Entity(c)|;
    assert t[..n] == Entity(c) && t[n..] == rest;
    if c == '&' {
      assert StartsWith(t, "&amp;");
    } else if c == '<' {
      assert t[1] == 'l' && StartsWith(t, "&lt;");
    } else if c == '>' {
      assert t[1] == 'g' && StartsWith(t, "&gt;");
    } else if c == '"' {
      assert t[1] == 'q' && StartsWith(t, "&quot;");
    } else if c == '\'' {
      assert t[1] == '#' && StartsWith(t, "&#39;");
    } else {
      assert t[0] == c;
    }
  }

  /** Escaping loses nothing: decoding the entities gives the text back. */
  lemma {:induction false} EscapeRoundTrip(s: string)
    ensures Unescape(Escape(s)) == s
    decreases |s|
  {
    if s != [] {
      UnescapeEntity(s[0], Escape(s[1..]));
      EscapeRoundTrip(s[1..]);
    }
  }

  /** Text without markup characters is left as it is. */
  lemma {:induction false} EscapeKeepsPlainText(s: string)
    requires forall i :: 0 <= i < |s| ==> !Special(s[i])
    ensures Escape(s) == s
    decreases |s|
  {
    if s != [] {
      EscapeKeepsPlainText(s[1..]);
    }
  }

  // -------------------------------------------------------------------------
  // CSV

  /** Every `"` doubled. */
  function DoubleQuotes(s: string): (r: string)
    ensures |r| >= |s|
    decreases |s|
  {
    if s == [] then []
    else (if s[0] == '"' then "\"\"" else [s[0]]) + DoubleQuotes(s[1..])
  }

  /** The partner of `DoubleQuotes`: each `""` read back as one `"`. */
  function UndoubleQuotes(t: string): string
    decreases |t|
  {
    if t == [] then []
    else if |t| >= 2 && t[0] == '"' && t[1] == '"' then "\"" + UndoubleQuotes(t[2..])
    else [t[0]] + UndoubleQuotes(t[1..])
  }

  lemma {:induction false} UndoubleRoundTrip(s: string)
    ensures UndoubleQuotes(DoubleQuotes(s)) == s
    decreases |s|
  {
    if s != [] {
      var head := if s[0] == '"' then "\"\"" else [s[0]];
      var t := head + DoubleQuotes(s[1..]);
      assert t[|head|..] == DoubleQuotes(s[1..]);
      UndoubleRoundTrip(s[1..]);
    }
  }

  /** A cell of `downloadCSV`: quoted, with inner quotes doubled. */
  function CsvCell(c: string): (r: string)
    ensures |r| >= 2 && r[0] == '"' && r[|r| - 1] == '"'
  {
    "\"" + DoubleQuotes(c) + "\""
  }

  /** Reading a cell back: strip the outer quotes and undouble. */
  function UnquoteCell(r: string): string
  {
    if |r| < 2 then r else UndoubleQuotes(r[1..|r| - 1])
  }

  lemma CellRoundTrip(c: string)
    ensures UnquoteCell(CsvCell(c)) == c
  {
    var r := CsvCell(c);
    assert r[1..|r| - 1] == DoubleQuotes(c);
    UndoubleRoundTrip(c);
  }

  function CsvRow(cells: seq<string>): string
  {
    Join(seq(|cells|, i requires 0 <= i < |cells| => CsvCell(cells[i])), ",")
  }

  /** `downloadCSV`'s content: cells joined by `,`, rows by a newline. */
  function CsvContent(rows: seq<seq<string>>): string
  {
    Join(seq(|rows|, i requires 0 <= i < |rows| => CsvRow(rows[i])), "\n")
  }

  lemma {:induction false} NewlineFreeJoin(parts: seq<string>, sep: string)
    requires '\n' !in sep
    requires forall i :: 0 <= i < |parts| ==> '\n' !in parts[i]
    ensures '\n' !in Join(parts, sep)
    decreases |parts|
  {
    if |parts| > 1 {
      NewlineFreeJoin(parts[1..], sep);
    }
  }

  lemma {:induction false} DoubleQuotesKeepsNewlines(s: string)
    requires '\n' !in s
    ensures '\n' !in DoubleQuotes(s)
    decreases |s|
  {
    if s != [] {
      DoubleQuotesKeepsNewlines(s[1..]);
    }
  }

  /** When no cell holds a newline, the lines of the file are exactly the
      encoded rows, one per row. `exportAllCSV` replaces the newlines in the
      notes, so this holds for its file; `downloadAppCSV` keeps them, so it
      does not hold there once an application has two notes. */
  lemma CsvLinesAreRows(rows: seq<seq<string>>)
    requires |rows| >= 1
    requires forall i, j :: 0 <= i < |rows| && 0 <= j < |rows[i]| ==> '\n' !in rows[i][j]
    ensures Split(CsvContent(rows), '\n') == seq(|rows|, i requires 0 <= i < |rows| => CsvRow(rows[i]))
  {
    var lines := seq(|rows|, i requires 0 <= i < |rows| => CsvRow(rows[i]));
    forall i | 0 <= i < |rows| ensures '\n' !in lines[i] {
      var cells := seq(|rows[i]|, k requires 0 <= k < |rows[i]| => CsvCell(rows[i][k]));
      forall k | 0 <= k < |rows[i]| ensures '\n' !in cells[k] {
        DoubleQuotesKeepsNewlines(rows[i][k]);
      }
      NewlineFreeJoin(cells, ",");
    }
    SplitJoin(lines, '\n');
  }
}
