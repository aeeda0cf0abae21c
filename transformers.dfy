/** backend/src/utils/transformers.js: reading back the stored eligibility
    preview and shaping a `loan_applications` row for the API. `JSON.parse`
    and `JSON.stringify` are parameters. */
module Transformers {
  import opened Common
  import opened Schema

  /** `JSON.parse` (None where it throws) and `JSON.stringify` form a lawful
      pair on what loans.js stores: the text of an array of strings is never
      empty and parses back to that array. */
  ghost predicate Lawful(parse: string -> Option<Json>, stringify: Json -> string)
  {
    forall reasons: seq<string> {:trigger Strings(reasons)} ::
      var v := JArr(Strings(reasons));
      stringify(v) != "" && parse(stringify(v)) == Some(v)
  }

  /** `parsePreviewReasons`: the stored array, or [] for an empty column,
      malformed text or JSON that is not an array. */
  function ParsePreviewReasons(value: Option<string>, parse: string -> Option<Json>): (r: seq<Json>)
    ensures !Filled(value) ==> r == []
    ensures Filled(value) && parse(value.value).None? ==> r == []
    ensures Filled(value) && parse(value.value).Some? && !parse(value.value).value.JArr? ==> r == []
    ensures Filled(value) && parse(value.value).Some? && parse(value.value).value.JArr? ==> r == parse(value.value).value.items
  {
    if !Filled(value) then []
    else match parse(value.value)
      case Some(JArr(items)) => items
      case _ => []
  }

  /** The reasons as the JSON array of strings `JSON.stringify` is given. */
  function Strings(reasons: seq<string>): (r: seq<Json>)
    ensures |r| == |reasons|
    ensures forall i :: 0 <= i < |r| ==> r[i] == JStr(reasons[i])
  {
    seq(|reasons|, i requires 0 <= i < |reasons| => JStr(reasons[i]))
  }

  /** How loans.js stores a preview: the verdict as 1 or 0 and the reasons
      as JSON text. */
  function StoredFlag(eligible: bool): int
  {
    if eligible then 1 else 0
  }

  function StoredReasons(reasons: seq<string>, stringify: Json -> string): Option<string>
  {
    Some(stringify(JArr(Strings(reasons))))
  }

  /** Stored reasons read back as they were written. */
  lemma ReasonsRoundTrip(reasons: seq<string>, parse: string -> Option<Json>, stringify: Json -> string)
    requires Lawful(parse, stringify)
    ensures ParsePreviewReasons(StoredReasons(reasons, stringify), parse) == Strings(reasons)
  {
    var v := JArr(Strings(reasons));
    assert stringify(v) != "" && parse(stringify(v)) == Some(v);
  }

  /** A row as the queries return it: the application, the joined
      `user_name`/`user_email` columns, and the camelCase fields `mapLoan`
      falls back to. */
  datatype LoanRecord = LoanRecord(
    app: AppRow,
    joinedName: Option<string>, joinedEmail: Option<string>,
    fallbackName: Option<string>, fallbackEmail: Option<string>)

  /** The API shape of an application. */
  datatype LoanView = LoanView(
    id: int, userId: int, userName: Option<string>, userEmail: Option<string>,
    amount: int, tenure: int, income: int, employment: string, purpose: string,
    collateral: Option<string>, notes: Option<string>,
    annualRate: real, monthlyEmi: int, eligiblePreview: bool, previewReasons: seq<Json>,
    status: Status, adminNotes: Option<string>, createdAt: int, updatedAt: int)

  /** `mapLoan`: no row gives no view; otherwise every column is carried
      over, the stored flag becomes a boolean, the reasons are parsed, and
      the joined name and email win over the fallbacks. */
  function MapLoan(row: Option<LoanRecord>, parse: string -> Option<Json>): (v: Option<LoanView>)
    ensures v.None? <==> row.None?
    ensures v.Some? ==> var a := row.value.app; var w := v.value;
      && w.id == a.id && w.userId == a.userId
      && w.amount == a.amount && w.tenure == a.tenure && w.income == a.income
      && w.employment == a.employment && w.purpose == a.purpose
      && w.collateral == a.collateral && w.notes == a.notes
      && w.annualRate == a.annualRate && w.monthlyEmi == a.monthlyEmi
      && w.status == a.status && w.adminNotes == a.adminNotes
      && w.createdAt == a.createdAt && w.updatedAt == a.updatedAt
    ensures v.Some? ==> (v.value.eligiblePreview <==> row.value.app.eligiblePreview != 0)
    ensures v.Some? ==> v.value.previewReasons == ParsePreviewReasons(row.value.app.previewReasons, parse)
    ensures v.Some? && Filled(row.value.joinedName) ==> v.value.userName == row.value.joinedName
    ensures v.Some? && !Filled(row.value.joinedName) ==> v.value.userName == row.value.fallbackName
    ensures v.Some? && Filled(row.value.joinedEmail) ==> v.value.userEmail == row.value.joinedEmail
    ensures v.Some? && !Filled(row.value.joinedEmail) ==> v.value.userEmail == row.value.fallbackEmail
  {
    match row
    case None => None
    case Some(r) =>
      var a := r.app;
      Some(LoanView(
        a.id, a.userId, OrElse(r.joinedName, r.fallbackName), OrElse(r.joinedEmail, r.fallbackEmail),
        a.amount, a.tenure, a.income, a.employment, a.purpose, a.collateral, a.notes,
        a.annualRate, a.monthlyEmi, a.eligiblePreview != 0,
        ParsePreviewReasons(a.previewReasons, parse),
        a.status, a.adminNotes, a.createdAt, a.updatedAt))
  }

  /** A preview survives storage: the view of a stored application shows
      the verdict and the reasons that were computed for it. */
  lemma PreviewSurvivesStorage(row: LoanRecord, eligible: bool, reasons: seq<string>,
                               parse: string -> Option<Json>, stringify: Json -> string)
    requires Lawful(parse, stringify)
    requires row.app.eligiblePreview == StoredFlag(eligible)
    requires row.app.previewReasons == StoredReasons(reasons, stringify)
    ensures MapLoan(Some(row), parse).Some?
    ensures MapLoan(Some(row), parse).value.eligiblePreview == eligible
    ensures MapLoan(Some(row), parse).value.previewReasons == Strings(reasons)
  {
    ReasonsRoundTrip(reasons, parse, stringify);
  }
}
