/** The bearer-token gate of `client/lib/auth.ts`: pulling the token out of
    an `Authorization: Bearer <token>` header, verifying it, and checking
    the caller's role against an allow-list. JWT signing and verification and
    bcrypt hashing are opaque to the model: they arrive as the functions of a
    `Crypto` value. */
module Auth {
  import opened Wrappers
  import opened Text
  import opened Failures
  import opened UserModel

  /** What `jwt.verify` hands back: the string that was signed, or the
      claims object (each claim may be absent). */
  datatype Payload =
    | TextPayload(text: string)
    | Claims(id: Option<ObjectId>, email: Option<string>, role: Option<string>, warehouse: Option<ObjectId>)

  /** The claims the login and register handlers sign, with the lifetime in seconds. */
  datatype TokenClaims = TokenClaims(id: ObjectId, email: string, role: Role, expiresIn: nat)

  /** `expiresIn: "7d"` */
  const SevenDays: nat := 7 * 24 * 60 * 60

  /** The signed token's claims for a stored user. */
  function ClaimsFor(u: User): (c: TokenClaims)
    ensures c.id == u.id && c.email == u.email && c.role == u.role && c.expiresIn == SevenDays
  {
    TokenClaims(u.id, u.email, u.role, SevenDays)
  }

  /** `jwt.sign`, `jwt.verify` (None where it throws), `bcrypt.hash` and
      `bcrypt.compare`, all under the server's fixed secret and cost. */
  datatype Crypto = Crypto(sign: TokenClaims -> string, verify: string -> Option<Payload>,
                           hash: string -> string, compare: (string, string) -> bool)

  const Scheme: string := "Bearer "

  lemma SplitAfterScheme(h: string)
    requires StartsWith(h, Scheme)
    ensures Split(h, ' ') == ["Bearer"] + Split(h[|Scheme|..], ' ')
  {
    assert h[..|Scheme|] == Scheme;
    var i := IndexOf(h, ' ');
    assert h[6] == ' ';
    assert i == 6 by {
      if i < 6 {
        assert h[i] == Scheme[i];
      }
    }
    assert h[..i] == "Bearer";
  }

  /** `authHeader.split(" ")[1]` behind the guard
      `!authHeader || !authHeader.startsWith("Bearer ")`. The scheme
      comparison is exact, capitals included. */
  function BearerToken(header: Option<string>): (token: Option<string>)
    ensures token.Some? <==> header.Some? && StartsWith(header.value, Scheme)
  {
    if header.None? || !StartsWith(header.value, Scheme) then None
    else
      SplitAfterScheme(header.value);
      Some(Split(header.value, ' ')[1])
  }

  /** The token is the text after "Bearer " up to the next space. */
  lemma BearerTokenIsFirstWord(rest: string)
    ensures BearerToken(Some(Scheme + rest)) == Some(rest[..IndexOf(rest, ' ')])
  {
    var h := Scheme + rest;
    assert StartsWith(h, Scheme) by { assert h[..|Scheme|] == Scheme; }
    SplitAfterScheme(h);
    assert h[|Scheme|..] == rest;
    var j := IndexOf(rest, ' ');
    if j == |rest| {
      assert Split(rest, ' ') == [rest];
      assert rest[..j] == rest;
    } else {
      assert Split(rest, ' ')[0] == rest[..j];
    }
  }

  /** Whatever follows a second space is ignored. */
  lemma TokenIgnoresTail(token: string, tail: string)
    requires ' ' !in token
    ensures BearerToken(Some(Scheme + token + " " + tail)) == Some(token)
  {
    var rest := token + " " + tail;
    assert Scheme + token + " " + tail == Scheme + rest;
    BearerTokenIsFirstWord(rest);
    var i := IndexOf(rest, ' ');
    assert rest[|token|] == ' ';
    assert i == |token|;
    assert rest[..|token|] == token;
  }

  /** The scheme must be spelled exactly "Bearer": other capitalisations are
      refused although HTTP treats the scheme name case-insensitively. */
  lemma SchemeIsCaseSensitive(rest: string)
    ensures BearerToken(Some("bearer " + rest)).None?
    ensures BearerToken(Some("BEARER " + rest)).None?
  {
    assert ("bearer " + rest)[0] != Scheme[0];
    assert ("BEARER " + rest)[1] != Scheme[1];
  }

  /** `verifyAuth`: the decoded payload, or null for a missing or non-Bearer
      header and for a token `jwt.verify` rejects. */
  function VerifyAuth(header: Option<string>, verify: string -> Option<Payload>): (user: Option<Payload>)
    ensures BearerToken(header).None? ==> user.None?
    ensures BearerToken(header).Some? ==> user == verify(BearerToken(header).value)
  {
    match BearerToken(header)
    case None => None
    case Some(token) => verify(token)
  }

  /** The `role` claim, which a string payload lacks. */
  function RoleClaim(p: Payload): Option<string> {
    if p.Claims? then p.role else None
  }

  /** `allowed.includes(role)` */
  predicate Includes(allowed: seq<Role>, role: string)
    ensures Includes(allowed, role) <==> exists r :: r in allowed && RoleName(r) == role
  {
    allowed != [] && (RoleName(allowed[0]) == role || Includes(allowed[1..], role))
  }

  /** `authorize(user, allowedRoles)` */
  predicate Authorize(user: Option<Payload>, allowed: seq<Role>)
  {
    user.Some? && RoleClaim(user.value).Some? && Includes(allowed, RoleClaim(user.value).value)
  }

  /** Access is exactly membership of the caller's role claim in the
      allow-list; no caller passes an empty list, and null never passes. */
  lemma AuthorizeMeansMembership(user: Option<Payload>, allowed: seq<Role>)
    ensures Authorize(user, allowed) <==>
            user.Some? && exists r :: r in allowed && RoleClaim(user.value) == Some(RoleName(r))
    ensures user.None? ==> !Authorize(user, allowed)
    ensures allowed == [] ==> !Authorize(user, allowed)
  {
  }

  /** Widening an allow-list never revokes access. */
  lemma AuthorizeMonotone(user: Option<Payload>, allowed: seq<Role>, wider: seq<Role>)
    requires forall r :: r in allowed ==> r in wider
    ensures Authorize(user, allowed) ==> Authorize(user, wider)
  {
  }
}
