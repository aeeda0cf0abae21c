/** backend/src/middleware/error.js: how a thrown error and an unmatched
    route become a response. */
module Errors {
  import opened Common

  /** What a handler throws: `err.status` (absent, or 0, when not set),
      `err.message` and `err.details`. */
  datatype Thrown = Thrown(status: Option<int>, message: string, details: Option<Json>)

  /** The status code and JSON payload sent back. */
  datatype Response = Response(status: int, message: string, details: Option<Json>)

  /** `errorHandler`: the error's own status, or 500; its message, or a
      generic one; its details only when they are truthy. */
  function ErrorHandler(err: Thrown): (r: Response)
    ensures err.status.Some? && err.status.value != 0 ==> r.status == err.status.value
    ensures err.status.None? || err.status.value == 0 ==> r.status == 500
    ensures r.message != ""
    ensures err.message != "" ==> r.message == err.message
    ensures err.message == "" ==> r.message == "Something went wrong"
    ensures r.details.Some? <==> err.details.Some? && Truthy(err.details.value)
    ensures r.details.Some? ==> r.details == err.details
  {
    var status := if err.status.Some? && err.status.value != 0 then err.status.value else 500;
    var message := if err.message != "" then err.message else "Something went wrong";
    var details := if err.details.Some? && Truthy(err.details.value) then err.details else None;
    Response(status, message, details)
  }

  /** `notFound` */
  function NotFound(): (r: Response)
    ensures r.status == 404 && r.message == "Not found" && r.details.None?
  {
    Response(404, "Not found", None)
  }

  /** A handler's `ApiError` as it is thrown: with its status, no details. */
  function Raise(e: ApiError): Thrown
  {
    Thrown(Some(e.status), e.message, None)
  }

  /** The errors the handlers raise reach the client unchanged. */
  lemma RaisedErrorsPassThrough(e: ApiError)
    requires e.status != 0 && e.message != ""
    ensures ErrorHandler(Raise(e)) == Response(e.status, e.message, None)
  {
  }
}
