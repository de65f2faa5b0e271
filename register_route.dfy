/** `POST /api/auth/register` of the client app: creates a user unless the
    email is taken, then signs them in. */
module RegisterRoute {
  import opened Wrappers
  import opened Text
  import opened Failures
  import opened UserModel
  import opened Auth
  import opened LoginRoute
  import Store

  /** The JSON body. Its fields are not checked before use. */
  datatype RegisterBody = RegisterBody(name: Option<string>, email: string, password: Option<string>,
                                       role: Option<string>)

  /** The document handed to `User.create`: the hashed password and
      `role || "WarehouseStaff"`, so any role the client sends is kept. */
  function NewUser(body: RegisterBody, hashed: string): (input: UserInput)
    ensures input.email == Some(body.email) && input.password == Some(hashed)
    ensures Filled(body.role) ==> input.role == body.role
    ensures !Filled(body.role) ==> input.role == Some("WarehouseStaff")
  {
    UserInput(body.name, Some(body.email), Some(hashed), Some(Or(body.role, RoleName(DefaultRole))))
  }

  /** The handler, given whether connecting or parsing the body throws. A
      missing password makes `bcrypt.hash` throw; like every other failure
      after the duplicate check it ends as a 500. */
  method Post(db: Store.Database, fault: Option<Failure>, body: RegisterBody, crypto: Crypto, now: int)
    returns (r: Reply<Session>)
    requires db.Valid()
    modifies db`users, db`nextId
    ensures db.Valid()
    ensures fault.Some? ==> r == Fail(500, "Something went wrong")
    ensures fault.None? && Store.FindUserByEmail(old(db.users), body.email).Some?
            ==> r == Fail(400, "User already exists")
    ensures r.Ok? <==> fault.None? && Store.FindUserByEmail(old(db.users), body.email).None?
                       && body.password.Some?
                       && Build(NewUser(body, crypto.hash(body.password.value)), old(db.nextId), now).Success?
    ensures !r.Ok? && r.Status() != 400 ==> r == Fail(500, "Something went wrong")
    ensures !r.Ok? ==> db.users == old(db.users) && db.nextId == old(db.nextId)
    ensures r.Ok? ==> && r.status == 200 && body.password.Some?
                      && |db.users| == |old(db.users)| + 1 && db.users[..|old(db.users)|] == old(db.users)
                      && var u := db.users[|old(db.users)|];
                         && body.name == Some(u.name) && u.id == old(db.nextId)
                         && u.email == body.email && u.password == crypto.hash(body.password.value)
                         && (Filled(body.role) ==> RoleName(u.role) == body.role.value)
                         && (!Filled(body.role) ==> u.role == WarehouseStaff)
                         && r.payload == Session(Summary(u), crypto.sign(ClaimsFor(u)))
  {
    if fault.Some? {
      return Fail(500, "Something went wrong");
    }
    if Store.FindUserByEmail(db.users, body.email).Some? {
      return Fail(400, "User already exists");
    }
    if body.password.None? {
      return Fail(500, "Something went wrong");
    }
    var hashed := crypto.hash(body.password.value);
    var created := db.CreateUser(NewUser(body, hashed), now, None);
    match created
    case Failure(_) =>
      r := Fail(500, "Something went wrong");
    case Success(u) =>
      r := Ok(200, Session(Summary(u), crypto.sign(ClaimsFor(u))));
  }
}
