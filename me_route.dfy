/** `GET /api/auth/me` of the client app: the caller's own user record,
    found from the id claim of their bearer token. */
module MeRoute {
  import opened Wrappers
  import opened Failures
  import opened UserModel
  import opened Auth
  import Store

  /** The `id` claim of a token that verifies and decodes to a claims object;
      a string payload or a missing id has none. */
  function IdClaim(header: Option<string>, verify: string -> Option<Payload>): Option<ObjectId> {
    match VerifyAuth(header, verify)
    case Some(Claims(id, _, _, _)) => id
    case _ => None
  }

  /** The handler, given whether `dbConnect` succeeds, the Authorization
      header, the token verifier, the users collection and whether
      `findById` throws. */
  function Get(connected: bool, header: Option<string>, verify: string -> Option<Payload>,
               users: seq<User>, fault: Option<Failure>): (r: Reply<PublicUser>)
    // The connection is opened before the header is looked at.
    ensures !connected ==> r == Fail(500, "Something went wrong")
    ensures connected && BearerToken(header).None? ==> r == Fail(401, "Unauthorized")
    ensures connected && BearerToken(header).Some? && VerifyAuth(header, verify).None?
            ==> r == Fail(401, "Invalid token")
    ensures connected && VerifyAuth(header, verify).Some? && IdClaim(header, verify).None?
            ==> r == Fail(401, "Invalid token payload")
    ensures connected && IdClaim(header, verify).Some? && fault.Some? ==> r == Fail(500, "Something went wrong")
    ensures r.Status() == 404 <==> connected && IdClaim(header, verify).Some? && fault.None?
                                   && forall i :: 0 <= i < |users| ==> users[i].id != IdClaim(header, verify).value
    ensures r.Ok? <==> connected && IdClaim(header, verify).Some? && fault.None?
                       && exists i :: 0 <= i < |users| && users[i].id == IdClaim(header, verify).value
    ensures r.Ok? ==> r.status == 200 && r.payload.id == IdClaim(header, verify).value
                      && exists u :: u in users && r.payload == Public(u)
  {
    if !connected then Fail(500, "Something went wrong")
    else match BearerToken(header)
      case None => Fail(401, "Unauthorized")
      case Some(token) =>
        match verify(token)
        case None => Fail(401, "Invalid token")
        case Some(decoded) =>
          if decoded.TextPayload? || decoded.id.None? then Fail(401, "Invalid token payload")
          else if fault.Some? then Fail(500, "Something went wrong")
          else match Store.FindUserById(users, decoded.id.value)
            case None => Fail(404, "User not found")
            case Some(u) => Ok(200, Public(u))
  }
}
