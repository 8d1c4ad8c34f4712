/**
 * AuthController (Controllers/AuthController.cs): login, logout and registration.
 * The injected collaborators are the controller's constant fields; the state the
 * actions change is the response's cookie list, the ModelState error list, the
 * user store and the log of calls made to the collaborators.
 */
module Controllers {
  import opened AuthValues
  import ViewModels

  const WrongCredential := "Wrong credential."
  const WrongPassword := "Wrong password."
  const Authenticated := "Authenticated."
  const Unthenticated := "Unthenticated."
  const EmailTaken := "Email already used by another."

  /** An `IdentityUser` as far as the controller reads or fills it. */
  datatype IdentityUser = IdentityUser(id: string, userName: string, email: string)

  /**
   * A user as the user manager keeps it: the password stands for the hash
   * `CreateAsync` stored, which `CheckPasswordAsync` accepts for that password only.
   */
  datatype Account = Account(user: IdentityUser, password: string)

  /** What a response body carries. */
  datatype Body =
    | Text(text: string)                          // a bare string
    | Message(message: string)                    // `new { Message = ... }`
    | Model(model: ViewModels.RegisterVM)         // the bound form echoed back
    | Result(result: IdentityResult)              // the `IdentityResult` itself
    | Errors(errors: seq<IdentityError>)          // `result.Errors`

  datatype ActionResult = Ok(body: Body) | BadRequest(body: Body)

  /** One call into a collaborator, in the order the actions make them. */
  datatype Call =
    | FindByEmail(email: string)                        // userManager.FindByEmailAsync
    | CheckPassword(userId: string, password: string)   // userManager.CheckPasswordAsync
    | QueryUsersByEmail(email: string)                  // context.Users.FirstOrDefault
    | CreateUser(user: IdentityUser, password: string)  // userManager.CreateAsync

  /** The cookie a successful login appends. */
  function SessionCookie(token: string, now: int): Cookie {
    Cookie(CookieName, token, SessionCookieOptions(now))
  }

  /** The cookie a logout appends. */
  function ClearingCookie(now: int): Cookie {
    Cookie(CookieName, "", ExpiredCookieOptions(now))
  }

  /**
   * One controller and what outlives it. ASP.NET makes a new controller, ModelState
   * and Response for every request, so `calls`, `cookies` and `modelErrors` are
   * per-request logs: an action's effect is what it appends to them, read against
   * `old(...)`. Only the user store and the database carry over between requests.
   */
  class AuthController {
    /** The `AuthSettings` section of the configuration. */
    const settings: AuthSettings
    /** Whether `httpContextAccessor.HttpContext` is non-null. */
    const hasHttpContext: bool
    /** `UserManager.CreateAsync`, as the result it reports. */
    const create: (IdentityUser, string) -> IdentityResult
    /** `JwtSecurityTokenHandler.WriteToken`: compact serialisation and signing. */
    const encode: JwtToken -> string
    /** The syntax test of `[EmailAddress]`. */
    const isEmailAddress: string -> bool

    /** The accounts `UserManager.FindByEmailAsync` finds, by email. */
    var users: map<string, Account>
    /** The emails of the rows in `context.Users`. */
    var dbEmails: set<string>
    /** Every collaborator call made so far. */
    var calls: seq<Call>
    /** `Response.Cookies`, in the order they were appended. */
    var cookies: seq<Cookie>
    /** `ModelState`'s errors, in the order they were added. */
    var modelErrors: seq<ModelError>

    /** Every cookie the controller sets is the token cookie, hidden from scripts and HTTPS-only. */
    ghost predicate Valid()
      reads this
    {
      forall i :: 0 <= i < |cookies| ==> cookies[i].name == CookieName && Hardened(cookies[i].options)
    }

    constructor (
      settings: AuthSettings,
      hasHttpContext: bool,
      create: (IdentityUser, string) -> IdentityResult,
      encode: JwtToken -> string,
      isEmailAddress: string -> bool,
      users: map<string, Account>,
      dbEmails: set<string>)
      ensures Valid()
      ensures this.settings == settings && this.hasHttpContext == hasHttpContext
      ensures this.create == create
      ensures this.encode == encode && this.isEmailAddress == isEmailAddress
      ensures this.users == users && this.dbEmails == dbEmails
      ensures calls == [] && cookies == [] && modelErrors == []
    {
      this.settings := settings;
      this.hasHttpContext := hasHttpContext;
      this.create := create;
      this.encode := encode;
      this.isEmailAddress := isEmailAddress;
      this.users := users;
      this.dbEmails := dbEmails;
      calls, cookies, modelErrors := [], [], [];
    }

    /**
     * LoginAsync. `tokenNow` and `cookieNow` are the two reads of `DateTime.Now`
     * (the token's expiry and the cookie's).
     */
    method Login(email: string, password: string, tokenNow: int, cookieNow: int)
      returns (r: ActionResult)
      requires Valid()
      modifies this`calls, this`cookies
      ensures Valid()
      // an unknown email is rejected before any password check, and no cookie is set
      ensures email !in users ==>
        && r == BadRequest(Text(WrongCredential))
        && calls == old(calls) + [FindByEmail(email)]
        && cookies == old(cookies)
      // a known email is followed by exactly one password check
      ensures email in users ==>
        calls == old(calls) + [FindByEmail(email), CheckPassword(users[email].user.id, password)]
      ensures email in users && users[email].password != password ==>
        r == BadRequest(Text(WrongPassword)) && cookies == old(cookies)
      // success exactly when the user exists and the password is the one it was created with
      ensures r.Ok? <==> email in users && users[email].password == password
      ensures r.Ok? ==>
        && r == Ok(Message(Authenticated))
        && cookies == old(cookies) +
             (if hasHttpContext
              then [SessionCookie(encode(IssueToken(settings, LoginClaims(email, users[email].user.id), tokenNow)), cookieNow)]
              else [])
    {
      calls := calls + [FindByEmail(email)];
      if email !in users {
        return BadRequest(Text(WrongCredential));
      }
      var account := users[email];
      var user := account.user;

      calls := calls + [CheckPassword(user.id, password)];
      if account.password != password {
        return BadRequest(Text(WrongPassword));
      }

      var claims := LoginClaims(email, user.id);
      var token := IssueToken(settings, claims, tokenNow);
      var tokenAsString := encode(token);
      var options := SessionCookieOptions(cookieNow);
      if hasHttpContext {
        cookies := cookies + [Cookie(CookieName, tokenAsString, options)];
      }
      r := Ok(Message(Authenticated));
    }

    /** LogoutAsync: always overwrites the token cookie with an empty, already expired one. */
    method Logout(now: int) returns (r: ActionResult)
      requires Valid()
      modifies this`cookies
      ensures Valid()
      ensures r == Ok(Message(Unthenticated))
      ensures calls == old(calls)
      ensures cookies == old(cookies) + (if hasHttpContext then [ClearingCookie(now)] else [])
      ensures hasHttpContext ==> cookies[|cookies| - 1].options.expires < now
    {
      var options := ExpiredCookieOptions(now);
      if hasHttpContext {
        cookies := cookies + [Cookie(CookieName, "", options)];
      }
      r := Ok(Message(Unthenticated));
    }

    /**
     * RegisterAsync. `newId` is the fresh `Guid` string the new `IdentityUser`
     * receives. On success the created user becomes visible to both the user
     * manager and `context.Users`.
     */
    method Register(model: ViewModels.RegisterVM, newId: string) returns (r: ActionResult)
      requires Valid()
      modifies this`calls, this`users, this`dbEmails, this`modelErrors
      ensures Valid()
      ensures cookies == old(cookies)
      // an invalid form is echoed back before any collaborator is called
      ensures !ViewModels.Valid(model, isEmailAddress) ==>
        && r == BadRequest(Model(model))
        && calls == old(calls)
        && users == old(users) && dbEmails == old(dbEmails) && modelErrors == old(modelErrors)
      // a form that gets past the first check has matching passwords
      ensures ViewModels.Valid(model, isEmailAddress) ==>
        && model.email.Some? && model.password.Some? && model.username.Some?
        && model.confirmPassword == model.password
      // a taken email is rejected after the lookup and before any create
      ensures ViewModels.Valid(model, isEmailAddress) && model.email.value in old(dbEmails) ==>
        && r == BadRequest(Text(EmailTaken))
        && calls == old(calls) + [QueryUsersByEmail(model.email.value)]
        && users == old(users) && dbEmails == old(dbEmails) && modelErrors == old(modelErrors)
      ensures ViewModels.Valid(model, isEmailAddress) && model.email.value !in old(dbEmails) ==>
        var user := IdentityUser(newId, model.username.value, model.email.value);
        var result := create(user, model.password.value);
        && calls == old(calls) + [QueryUsersByEmail(model.email.value), CreateUser(user, model.password.value)]
        && (result.succeeded ==>
              && r == Ok(Result(result))
              && users == old(users)[user.email := Account(user, model.password.value)]
              && dbEmails == old(dbEmails) + {user.email}
              && modelErrors == old(modelErrors))
        && (!result.succeeded ==>
              && r == BadRequest(Errors(result.errors))
              && users == old(users) && dbEmails == old(dbEmails)
              && modelErrors == old(modelErrors) + ErrorEntries(result.errors))
    {
      if !ViewModels.Valid(model, isEmailAddress) {
        return BadRequest(Model(model));
      }
      var email := model.email.value;

      calls := calls + [QueryUsersByEmail(email)];
      if email in dbEmails {
        return BadRequest(Text(EmailTaken));
      }

      var user := IdentityUser(newId, model.username.value, email);
      calls := calls + [CreateUser(user, model.password.value)];
      assert calls == old(calls) + [QueryUsersByEmail(email), CreateUser(user, model.password.value)];
      var result := create(user, model.password.value);
      if result.succeeded {
        users := users[email := Account(user, model.password.value)];
        dbEmails := dbEmails + {email};
        return Ok(Result(result));
      }

      var errors := result.errors;
      var i := 0;
      while i < |errors|
        invariant 0 <= i <= |errors|
        invariant modelErrors == old(modelErrors) + ErrorEntries(errors[..i])
        invariant calls == old(calls) + [QueryUsersByEmail(email), CreateUser(user, model.password.value)]
        invariant users == old(users) && dbEmails == old(dbEmails)
      {
        assert errors[..i + 1][..i] == errors[..i];
        modelErrors := modelErrors + [ModelError("", errors[i].description)];
        i := i + 1;
      }
      assert errors[..|errors|] == errors;
      r := BadRequest(Errors(errors));
    }
  }
}
