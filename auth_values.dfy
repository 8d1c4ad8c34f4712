/**
 * The values AuthController.cs builds without side effects: the login claim list,
 * the JWT record handed to the serialiser, the two cookie-option records and the
 * ModelState entries made from Identity errors. Time is a `DateTime` in ticks.
 */
module AuthValues {

  /** The cookie that carries the session token (AuthController.cs:71, :90). */
  const CookieName := "TOKEN_TEST_LOGIN"

  const TicksPerDay: int := 864_000_000_000
  /** `AddDays(30)` moves a `DateTime` by exactly this many ticks. */
  const ThirtyDays: int := 30 * TicksPerDay

  // ---- claims and token -------------------------------------------------

  /** The three `ClaimTypes` URIs the controller uses. */
  datatype ClaimType = Email | NameIdentifier | Role

  datatype Claim = Claim(claimType: ClaimType, value: string)

  /** The `AuthSettings` configuration section: Key, Issuer, Audience. */
  datatype AuthSettings = AuthSettings(key: string, issuer: string, audience: string)

  datatype SecurityAlgorithm = HmacSha256

  datatype SigningCredentials = SigningCredentials(key: string, algorithm: SecurityAlgorithm)

  /** The `JwtSecurityToken` before serialisation; `expires` in ticks. */
  datatype JwtToken = JwtToken(
    issuer: string,
    audience: string,
    claims: seq<Claim>,
    expires: int,
    credentials: SigningCredentials)

  /** The claim list of a successful login: the request's email, the user id and two fixed roles. */
  function LoginClaims(email: string, userId: string): seq<Claim> {
    [ Claim(Email, email),
      Claim(NameIdentifier, userId),
      Claim(Role, "Admin"),
      Claim(Role, "Noob") ]
  }

  /**
   * The values a token consumer reads back for one claim type, in order
   * (what `ClaimsPrincipal.FindAll(type)` yields).
   */
  function ValuesOf(claims: seq<Claim>, t: ClaimType): (vs: seq<string>)
    ensures |vs| <= |claims|
    ensures forall v :: v in vs <==> Claim(t, v) in claims
  {
    if claims == [] then []
    else
      (if claims[0].claimType == t then [claims[0].value] else [])
      + ValuesOf(claims[1..], t)
  }

  /** A login token's claims name exactly one email, one subject id and the roles Admin then Noob. */
  lemma {:induction false} LoginClaimsIdentifySubject(email: string, userId: string)
    ensures |LoginClaims(email, userId)| == 4
    ensures ValuesOf(LoginClaims(email, userId), Email) == [email]
    ensures ValuesOf(LoginClaims(email, userId), NameIdentifier) == [userId]
    ensures ValuesOf(LoginClaims(email, userId), Role) == ["Admin", "Noob"]
  {
    var cs := LoginClaims(email, userId);
    forall t: ClaimType
      ensures ValuesOf(cs, t) ==
        (if t == Email then [email] else [])
        + (if t == NameIdentifier then [userId] else [])
        + (if t == Role then ["Admin", "Noob"] else [])
    {
      var tail3 := cs[3..];
      assert ValuesOf(tail3, t) == (if t == Role then ["Noob"] else []) by {
        assert tail3[1..] == [];
      }
      var tail2 := cs[2..];
      assert ValuesOf(tail2, t) == (if t == Role then ["Admin", "Noob"] else []) by {
        assert tail2[1..] == tail3;
      }
      var tail1 := cs[1..];
      assert ValuesOf(tail1, t) ==
        (if t == NameIdentifier then [userId] else [])
        + (if t == Role then ["Admin", "Noob"] else [])
      by {
        assert tail1[1..] == tail2;
      }
      assert cs[1..] == tail1;
    }
  }

  /** The token built at AuthController.cs:52-59, signed with HMAC-SHA256 under the configured key. */
  function IssueToken(settings: AuthSettings, claims: seq<Claim>, now: int): JwtToken {
    JwtToken(settings.issuer, settings.audience, claims, now + ThirtyDays,
             SigningCredentials(settings.key, HmacSha256))
  }

  // ---- cookies ------------------------------------------------------------

  datatype SameSiteMode = Unspecified | None | Lax | Strict

  /** The `CookieOptions` the controller sets; `expires` in ticks. */
  datatype CookieOptions = CookieOptions(
    httpOnly: bool,
    expires: int,
    sameSite: SameSiteMode,
    secure: bool)

  /** One `Response.Cookies.Append(name, value, options)`. */
  datatype Cookie = Cookie(name: string, value: string, options: CookieOptions)

  /** Hidden from scripts, sent cross-site, and only over HTTPS. */
  predicate Hardened(o: CookieOptions) {
    o.httpOnly && o.sameSite == None && o.secure
  }

  /** The options for the session cookie (AuthController.cs:63-69). */
  function SessionCookieOptions(now: int): CookieOptions {
    CookieOptions(true, now + ThirtyDays, None, true)
  }

  /** The options for the clearing cookie (AuthController.cs:82-88). */
  function ExpiredCookieOptions(now: int): CookieOptions {
    CookieOptions(true, now - ThirtyDays, None, true)
  }

  // ---- Identity errors and ModelState -----------------------------------

  datatype IdentityError = IdentityError(code: string, description: string)

  /** What `UserManager.CreateAsync` reports. */
  datatype IdentityResult = IdentityResult(succeeded: bool, errors: seq<IdentityError>)

  /** One `ModelState.AddModelError(key, message)`. */
  datatype ModelError = ModelError(key: string, message: string)

  /** The ModelState entries made from `errors`: one per error, in order, under the empty key. */
  function ErrorEntries(errors: seq<IdentityError>): (entries: seq<ModelError>)
    ensures |entries| == |errors|
    ensures forall i :: 0 <= i < |errors| ==> entries[i] == ModelError("", errors[i].description)
  {
    if errors == [] then []
    else ErrorEntries(errors[..|errors| - 1]) + [ModelError("", errors[|errors| - 1].description)]
  }
}
