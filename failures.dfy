/** What a `catch` clause in the route handlers can receive, and the JSON
    replies the handlers send. */
module Failures {
  import opened Wrappers

  /** A MongoDB `_id`. */
  type ObjectId = nat

  /** An exception: an `Error` with its `name` and `message`, or a thrown
      value that is not an `Error` at all. */
  datatype Failure = Thrown(name: string, message: string) | NotAnError

  const ValidationError: string := "ValidationError"
  const CastError: string := "CastError"

  /** Mongoose's `required` validator rejects a missing value and the empty
      string; this is the exception it raises. */
  function Invalid(path: string): Failure {
    Thrown(ValidationError, path + " is required")
  }

  /** The unique-index violation MongoDB reports on insert. */
  function DuplicateKey(path: string): Failure {
    Thrown("MongoServerError", "E11000 duplicate key error: " + path)
  }

  /** A JSON error body: `{ error, message?, missingFields? }`. */
  datatype ErrorBody = ErrorBody(error: string, message: Option<string>, missingFields: Option<seq<string>>)

  /** A route handler's answer. `Crash` is an exception the handler does not
      catch; Next.js then answers 500 without a JSON body. */
  datatype Reply<T> = Ok(status: nat, payload: T) | Err(status: nat, body: ErrorBody) | Crash {
    function Status(): nat {
      match this
      case Ok(s, _) => s
      case Err(s, _) => s
      case Crash => 500
    }
  }

  function Fail<T>(status: nat, error: string): Reply<T> {
    Err(status, ErrorBody(error, None, None))
  }

  /** The catch block shared by both shipment POST handlers
      (and, without its 400 branches, by the shipment GET handler). */
  function ShipmentError<T>(f: Failure): (r: Reply<T>)
    ensures r.Err?
    ensures r.status == 400 <==> f.Thrown? && (f.name == ValidationError || f.name == CastError)
    ensures r.status != 400 ==> r.status == 500
  {
    match f
    case Thrown(name, msg) =>
      if name == ValidationError then Err(400, ErrorBody("Validation failed", Some(msg), None))
      else if name == CastError then Err(400, ErrorBody("Invalid data format", Some(msg), None))
      else Err(500, ErrorBody("Internal server error", Some(msg), None))
    case NotAnError => Err(500, ErrorBody("Unknown server error", None, None))
  }

  /** The catch block of the shipment GET handlers: every failure is a 500. */
  function ServerError<T>(f: Failure): (r: Reply<T>)
    ensures r.Err? && r.status == 500
    ensures f.Thrown? ==> r.body.message == Some(f.message)
    ensures f.NotAnError? ==> r.body.message.None?
  {
    match f
    case Thrown(_, msg) => Err(500, ErrorBody("Internal server error", Some(msg), None))
    case NotAnError => Err(500, ErrorBody("Unknown server error", None, None))
  }
}
