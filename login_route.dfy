/** `POST /api/auth/login`: checks an email and password against the users
    collection and, on a match, signs a seven-day token for that user. */
module LoginRoute {
  import opened Wrappers
  import opened Failures
  import opened UserModel
  import opened Auth
  import Store

  /** The `{ user, token }` reply of login and register. */
  datatype Session = Session(user: UserSummary, token: string)

  /** The handler, given whether connecting and parsing the body throw, the
      submitted credentials, the crypto and the users collection. It only
      reads the collection. */
  function Post(fault: Option<Failure>, email: string, password: string, crypto: Crypto, users: seq<User>)
    : (r: Reply<Session>)
    ensures fault.Some? ==> r == Fail(500, "Something went wrong")
    ensures fault.None? && !r.Ok? ==> r == Fail(401, "Invalid credentials")
    ensures r.Ok? ==> fault.None? && r.status == 200
                      && exists u :: u in users && u.email == email && crypto.compare(password, u.password)
                                     && r.payload == Session(Summary(u), crypto.sign(ClaimsFor(u)))
  {
    if fault.Some? then Fail(500, "Something went wrong")
    else match Store.FindUserByEmail(users, email)
      case None => Fail(401, "Invalid credentials")
      case Some(u) =>
        if !crypto.compare(password, u.password) then Fail(401, "Invalid credentials")
        else Ok(200, Session(Summary(u), crypto.sign(ClaimsFor(u))))
  }

  /** An unknown email and a wrong password get the same answer. */
  lemma FailuresIndistinguishable(email: string, password: string, crypto: Crypto, users: seq<User>,
                                  other: string, u: User, next: ObjectId)
    requires forall i :: 0 <= i < |users| ==> users[i].email != email
    requires Store.UsersOk(users, next)
    requires u in users && !crypto.compare(other, u.password)
    ensures Post(None, email, password, crypto, users) == Post(None, u.email, other, crypto, users)
  {
    EmailKeysUser(users, u, next);
  }

  /** With unique emails, looking up a stored user's email finds that user. */
  lemma EmailKeysUser(users: seq<User>, u: User, next: ObjectId)
    requires Store.UsersOk(users, next) && u in users
    ensures Store.FindUserByEmail(users, u.email) == Some(u)
  {
    var k :| 0 <= k < |users| && users[k] == u;
    EmailKeysUserAt(users, k, next);
  }

  lemma {:induction false} EmailKeysUserAt(users: seq<User>, k: nat, next: ObjectId)
    requires Store.UsersOk(users, next) && k < |users|
    ensures Store.FindUserByEmail(users, users[k].email) == Some(users[k])
    decreases k
  {
    if k > 0 {
      assert users[0].email != users[k].email;
      assert Store.UsersOk(users[1..], next) by {
        forall i, j | 0 <= i < j < |users[1..]|
          ensures users[1..][i].id != users[1..][j].id && users[1..][i].email != users[1..][j].email
        {
          assert users[1..][i] == users[i + 1] && users[1..][j] == users[j + 1];
        }
      }
      EmailKeysUserAt(users[1..], k - 1, next);
      assert users[1..][k - 1] == users[k];
    }
  }

  /** A stored user who presents a password that matches their stored hash
      logs in as themselves, with a token signed over their own id, email and
      role for seven days. */
  lemma MatchingPasswordLogsIn(users: seq<User>, next: ObjectId, u: User, password: string, crypto: Crypto)
    requires Store.UsersOk(users, next) && u in users
    requires crypto.compare(password, u.password)
    ensures Post(None, u.email, password, crypto, users)
            == Ok(200, Session(UserSummary(u.id, u.name, u.email, u.role),
                               crypto.sign(TokenClaims(u.id, u.email, u.role, SevenDays))))
  {
    EmailKeysUser(users, u, next);
  }
}
