/** The `User` collection's schema: name, unique email, hashed password and
    a role from a fixed enum that defaults to WarehouseStaff. */
module UserModel {
  import opened Wrappers
  import opened Text
  import opened Failures

  datatype Role = Admin | Manager | WarehouseStaff

  function RoleName(r: Role): string {
    match r
    case Admin => "Admin"
    case Manager => "Manager"
    case WarehouseStaff => "WarehouseStaff"
  }

  /** The schema's enum check on a role string. */
  function ParseRole(s: string): (r: Option<Role>)
    ensures r.Some? ==> RoleName(r.value) == s
    ensures r.None? ==> forall role :: RoleName(role) != s
  {
    if s == "Admin" then Some(Admin)
    else if s == "Manager" then Some(Manager)
    else if s == "WarehouseStaff" then Some(WarehouseStaff)
    else None
  }

  const DefaultRole: Role := WarehouseStaff

  datatype User = User(id: ObjectId, name: string, email: string, password: string, role: Role,
                       createdAt: int, updatedAt: int)

  /** The required string fields are non-empty. */
  predicate Valid(u: User) {
    u.name != [] && u.email != [] && u.password != []
  }

  /** The document handed to `User.create`. */
  datatype UserInput = UserInput(name: Option<string>, email: Option<string>, password: Option<string>,
                                 role: Option<string>)

  /** What `User.create` stores for `input`, with the id and the timestamps it
      assigns, or the validation error it raises. */
  function Build(input: UserInput, id: ObjectId, now: int): (r: Result<User, Failure>)
    ensures r.Success? <==> Filled(input.name) && Filled(input.email) && Filled(input.password)
                            && (input.role.None? || ParseRole(input.role.value).Some?)
    ensures r.Success? ==> Valid(r.value) && r.value.id == id
                           && r.value.name == input.name.value && r.value.email == input.email.value
                           && r.value.password == input.password.value
                           && r.value.createdAt == now && r.value.updatedAt == now
                           && (input.role.None? ==> r.value.role == DefaultRole)
                           && (input.role.Some? ==> RoleName(r.value.role) == input.role.value)
    ensures r.Failure? ==> r.error.Thrown? && r.error.name == ValidationError
  {
    if !Filled(input.name) then Failure(Invalid("name"))
    else if !Filled(input.email) then Failure(Invalid("email"))
    else if !Filled(input.password) then Failure(Invalid("password"))
    else
      var role := if input.role.None? then Some(DefaultRole) else ParseRole(input.role.value);
      if role.None? then Failure(Thrown(ValidationError, "role is not a valid enum value"))
      else Success(User(id, input.name.value, input.email.value, input.password.value, role.value, now, now))
  }

  /** A user as `select("-password")` returns it. */
  datatype PublicUser = PublicUser(id: ObjectId, name: string, email: string, role: Role,
                                   createdAt: int, updatedAt: int)

  /** The `{ id, name, email, role }` object the login and register replies carry. */
  datatype UserSummary = UserSummary(id: ObjectId, name: string, email: string, role: Role)

  function Public(u: User): (p: PublicUser)
    ensures p.id == u.id && p.name == u.name && p.email == u.email && p.role == u.role
    ensures p.createdAt == u.createdAt && p.updatedAt == u.updatedAt
  {
    PublicUser(u.id, u.name, u.email, u.role, u.createdAt, u.updatedAt)
  }

  function Summary(u: User): (s: UserSummary)
    ensures s.id == u.id && s.name == u.name && s.email == u.email && s.role == u.role
  {
    UserSummary(u.id, u.name, u.email, u.role)
  }

  /** Every role name parses back to its role, and only the three names parse. */
  lemma RoleNameRoundTrip(r: Role)
    ensures ParseRole(RoleName(r)) == Some(r)
  {
  }
}
