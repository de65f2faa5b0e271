/** `GET` and `POST /api/users` of the root app: listing users for Admins
    and Managers, and creating one for Admins. The bearer check is written
    out inline here; the connection is opened outside the `try`, so a
    connection failure escapes the handler. */
module UsersRoute {
  import opened Wrappers
  import opened Text
  import opened Failures
  import opened UserModel
  import opened Auth
  import Store

  /** `decoded.role !== "Admin" && decoded.role !== "Manager"` */
  predicate AdminOrManager(p: Payload) {
    RoleClaim(p) == Some("Admin") || RoleClaim(p) == Some("Manager")
  }

  /** The inline role test is the shared `authorize` with the same list. */
  lemma AdminOrManagerIsAuthorize(p: Payload)
    ensures AdminOrManager(p) <==> Authorize(Some(p), [Admin, Manager])
  {
    assert RoleName(Admin) == "Admin" && RoleName(Manager) == "Manager";
    if Authorize(Some(p), [Admin, Manager]) {
      var r :| r in [Admin, Manager] && RoleName(r) == RoleClaim(p).value;
    }
  }

  /** `decoded.role !== "Admin"` */
  predicate IsAdmin(p: Payload) {
    RoleClaim(p) == Some("Admin")
  }

  lemma IsAdminIsAuthorize(p: Payload)
    ensures IsAdmin(p) <==> Authorize(Some(p), [Admin])
  {
    assert RoleName(Admin) == "Admin";
    if Authorize(Some(p), [Admin]) {
      var r :| r in [Admin] && RoleName(r) == RoleClaim(p).value;
    }
  }

  /** `User.find().select("-password")` */
  function PublicList(users: seq<User>): (r: seq<PublicUser>)
    ensures |r| == |users|
    ensures forall i :: 0 <= i < |users| ==> r[i] == Public(users[i])
  {
    seq(|users|, i requires 0 <= i < |users| => Public(users[i]))
  }

  /** `GET`, given whether `dbConnect` succeeds and whether `User.find`
      throws; neither is caught, so either ends the request uncaught. */
  function Get(connected: bool, header: Option<string>, verify: string -> Option<Payload>, users: seq<User>,
               findThrows: bool)
    : (r: Reply<seq<PublicUser>>)
    ensures !connected ==> r.Crash?
    ensures connected && Authorize(VerifyAuth(header, verify), [Admin, Manager]) && findThrows ==> r.Crash?
    ensures connected && BearerToken(header).None? ==> r == Fail(401, "Unauthorized")
    ensures connected && BearerToken(header).Some? && VerifyAuth(header, verify).None?
            ==> r == Fail(401, "Invalid token")
    ensures connected && VerifyAuth(header, verify).Some? && !Authorize(VerifyAuth(header, verify), [Admin, Manager])
            ==> r == Fail(403, "Forbidden")
    ensures r.Ok? <==> connected && Authorize(VerifyAuth(header, verify), [Admin, Manager]) && !findThrows
    ensures r.Ok? ==> r.status == 200 && |r.payload| == |users|
                      && forall i :: 0 <= i < |users| ==> r.payload[i] == Public(users[i])
  {
    if !connected then Crash
    else match BearerToken(header)
      case None => Fail(401, "Unauthorized")
      case Some(token) =>
        match verify(token)
        case None => Fail(401, "Invalid token")
        case Some(decoded) =>
          AdminOrManagerIsAuthorize(decoded);
          if !AdminOrManager(decoded) then Fail(403, "Forbidden")
          else if findThrows then Crash
          else Ok(200, PublicList(users))
  }

  datatype NewUserBody = NewUserBody(name: Option<string>, email: Option<string>, password: Option<string>,
                                     role: Option<string>)

  /** The 201 reply: `{ message, user: { ...user, password: undefined } }`. */
  datatype Created = Created(message: string, user: PublicUser)

  /** `POST`, given whether `dbConnect` succeeds, the Authorization header,
      the crypto, whether `req.json()` throws, and the body. */
  method Post(db: Store.Database, connected: bool, header: Option<string>, crypto: Crypto,
              bodyFault: Option<Failure>, body: NewUserBody, now: int)
    returns (r: Reply<Created>)
    requires db.Valid()
    modifies db`users, db`nextId
    ensures db.Valid()
    ensures !connected ==> r.Crash?
    ensures connected && BearerToken(header).None? ==> r == Fail(401, "Unauthorized")
    ensures connected && BearerToken(header).Some? && VerifyAuth(header, crypto.verify).None?
            ==> r == Fail(401, "Invalid token")
    ensures r.Status() == 403 <==> connected && VerifyAuth(header, crypto.verify).Some?
                                   && !Authorize(VerifyAuth(header, crypto.verify), [Admin])
    ensures r.Status() == 403 ==> r == Fail(403, "Forbidden")
    ensures connected && Authorize(VerifyAuth(header, crypto.verify), [Admin]) && bodyFault.None?
            && !(Filled(body.name) && Filled(body.email) && Filled(body.password))
            ==> r == Fail(400, "Missing required fields")
    ensures connected && Authorize(VerifyAuth(header, crypto.verify), [Admin]) && bodyFault.None?
            && Filled(body.name) && Filled(body.email) && Filled(body.password)
            && Store.FindUserByEmail(old(db.users), body.email.value).Some?
            ==> r == Fail(400, "User already exists")
    ensures !r.Ok? ==> db.users == old(db.users) && db.nextId == old(db.nextId)
    ensures r.Ok? ==> && r.status == 201 && Authorize(VerifyAuth(header, crypto.verify), [Admin])
                      && |db.users| == |old(db.users)| + 1 && db.users[..|old(db.users)|] == old(db.users)
                      && var u := db.users[|old(db.users)|];
                         && Some(u.name) == body.name && Some(u.email) == body.email
                         && body.password.Some? && u.password == crypto.hash(body.password.value)
                         && (Filled(body.role) ==> RoleName(u.role) == body.role.value)
                         && (!Filled(body.role) ==> u.role == WarehouseStaff)
                         && r.payload == Created("User created successfully", Public(u))
  {
    if !connected {
      return Crash;
    }
    var token := BearerToken(header);
    if token.None? {
      return Fail(401, "Unauthorized");
    }
    var decoded := crypto.verify(token.value);
    if decoded.None? {
      return Fail(401, "Invalid token");
    }
    IsAdminIsAuthorize(decoded.value);
    if !IsAdmin(decoded.value) {
      return Fail(403, "Forbidden");
    }
    if bodyFault.Some? {
      return Fail(500, "Failed to create user");
    }
    if !Filled(body.name) || !Filled(body.email) || !Filled(body.password) {
      return Fail(400, "Missing required fields");
    }
    if Store.FindUserByEmail(db.users, body.email.value).Some? {
      return Fail(400, "User already exists");
    }
    var hashed := crypto.hash(body.password.value);
    var input := UserInput(body.name, body.email, Some(hashed), Some(Or(body.role, RoleName(DefaultRole))));
    var created := db.CreateUser(input, now, None);
    match created
    case Failure(_) =>
      r := Fail(500, "Failed to create user");
    case Success(u) =>
      r := Ok(201, Created("User created successfully", Public(u)));
  }
}
