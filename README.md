# AuthController and RegisterVM in Dafny

A verified model of the authentication core of an ASP.NET Core Web API:
`AuthController`'s three actions and the validation rules on the registration
form `RegisterVM`.

- **Login** looks the user up by email, checks the password, builds a four-claim
  JWT (issuer and audience from the `AuthSettings` configuration section, expiry
  30 days ahead, HMAC-SHA256) and stores its serialised form in the cookie
  `TOKEN_TEST_LOGIN` (HttpOnly, SameSite=None, Secure).
- **Logout** overwrites that cookie with an empty one that expired 30 days ago.
- **Register** rejects an invalid form, then an email already present in the
  database, then delegates account creation to ASP.NET Identity and copies its
  errors into ModelState.

Files:

- `nullable.dfy`: `Option`, for C# `null`.
- `register_vm.dfy`: module `ViewModels`. It holds the form, the annotations
  `[Required]`, `[EmailAddress]` and `[Compare]` as a set of violations, and
  `Valid` (`ModelState.IsValid`).
- `auth_values.dfy`: module `AuthValues`. It holds the values the controller builds
  without side effects: the claim list, the token record, the two cookie-option
  records and the ModelState entries made from Identity errors.
- `auth_controller.dfy`: module `Controllers`. It holds the class `AuthController`.
  Its constant fields are the injected collaborators:
  - the configuration;
  - whether an `HttpContext` exists;
  - `CreateAsync`;
  - the token serialiser;
  - the e-mail syntax test.

  Its variable fields are the state the actions read or change:
  - the user store: by email, each user with the password it was created with;
  - the set of emails in `context.Users`;
  - a log of collaborator calls;
  - the response's cookies;
  - ModelState's errors.

  ASP.NET makes a new controller, ModelState and Response for every request. So
  the call log, the cookies and the ModelState errors are per-request logs: an
  action's effect is what it appends to them. Only the user store and the
  database carry over from one request to the next.
- `scenarios.dfy`: three request sequences against a fresh controller, proved from
  the actions' contracts alone.

Collaborators the model cannot see are parameters:
- `JwtSecurityTokenHandler.WriteToken` is the uninterpreted `encode`.
- The `[EmailAddress]` check is `isEmailAddress`.
- `CheckPasswordAsync` accepts exactly the password the account was created with.
  The store keeps that password in place of its hash.
- The outcome of `CreateAsync` is `create`.
- The two reads of `DateTime.Now` are integers in ticks. One tick is 100 ns, and
  `AddDays(30)` adds exactly 30 × 864 000 000 000 ticks.
- The fresh `Guid` of a new `IdentityUser` is `newId`.

"The password is never checked" and "create is never called" are stated on the
`calls` log. Each collaborator call appends one entry to it.

Two assumptions about collaborators go beyond the source text:
- A successful `CreateAsync` makes the new user visible to `FindByEmailAsync`
  (keyed by its email), together with its password, and to `context.Users`.
- A failed `CreateAsync` changes neither.

The code does not check for a missing or empty signing key, so the model does
not reject one. The token carries no issued-at time.

## Model

| member | source | states |
|---|---|---|
| `ViewModels.Violations` | ViewModels/Auth/RegisterVM.cs:7-22 | The form has no violation exactly when Username, Email, Password and ConfirmPassword are all non-null and not blank, Email has address form and ConfirmPassword equals Password. Each violation is in the set exactly when its annotation fails: `Required` on a field exactly when it is missing or blank, `EmailAddress` exactly when a non-null Email fails the address test, and `Compare` with the message "Password doesn't matches." exactly when ConfirmPassword differs from Password. Nothing else is in the set. |
| `AuthValues.LoginClaimsIdentifySubject` | Controllers/AuthController.cs:44-50 | The login claim list has four entries. Read back by type, it gives exactly the request email as Email, exactly the user id as NameIdentifier, and the roles "Admin" then "Noob". |
| `AuthValues.ErrorEntries` | Controllers/AuthController.cs:118-121 | The ModelState entries made from an Identity error list are one per error, in order, each under the empty key with that error's description. |
| `Controllers.AuthController.constructor` | Controllers/AuthController.cs:23-29 | The controller keeps the injected collaborators. It starts with no cookies, no ModelState errors and no collaborator calls. |
| `Controllers.AuthController.Login` | Controllers/AuthController.cs:31-77 | An unknown email returns BadRequest "Wrong credential." after one lookup: no password check, no cookie. A password other than the account's returns BadRequest "Wrong password." with no cookie. The result is Ok "Authenticated." exactly when the user exists and the password is the account's. On success, exactly one cookie "TOKEN_TEST_LOGIN" is appended when an HttpContext exists, and none otherwise. Its value is the encoded token: configured issuer and audience, the claims for the request email and the user id, expiry token-clock + 30 days, HMAC-SHA256 with the configured key. Its options are HttpOnly, SameSite=None, Secure, expiry cookie-clock + 30 days. Every cookie keeps those flags. |
| `Controllers.AuthController.Logout` | Controllers/AuthController.cs:79-96 | Always returns Ok "Unthenticated." and calls no collaborator. When an HttpContext exists, it appends exactly one cookie: "TOKEN_TEST_LOGIN", value "", the same three flags, and expiry now − 30 days, which is strictly before now. |
| `Controllers.AuthController.Register` | Controllers/AuthController.cs:98-124 | An invalid form returns BadRequest(form) before any collaborator call and changes nothing. An accepted form has Password == ConfirmPassword. An email already in the database returns BadRequest "Email already used by another." after the lookup only, and create is never called. Otherwise create is called once, with UserName = Username, Email = Email and the password. Success returns Ok(result) and stores the user with that password. Failure returns BadRequest(errors) and appends one ModelState entry per error, in order, under the empty key. Register never sets a cookie. |
| `Scenarios.KnownUserLogsIn` | Controllers/AuthController.cs:31-77 | Setup: a stored user "u1" with email "a@x.com" and password "pw1". Logging in returns Ok "Authenticated." and sets one cookie. That cookie holds the token whose Email claim is "a@x.com" and whose NameIdentifier is "u1", with the configured issuer and audience, and expires now + 30 days. |
| `Scenarios.RegisteredUserLogsIn` | Controllers/AuthController.cs:31-124 | "bob" registers with "P@ss1" and then logs in. With "P@ss1" the login succeeds and the one cookie carries the token for bob's email and new id. With any other password the login returns "Wrong password.". |
| `Scenarios.SameEmailRegistersOnce` | Controllers/AuthController.cs:98-124 | Registering "bob" / "bob@x.com" twice: the first call succeeds. The second returns "Email already used by another." The only create is the first call's. |

## Left out

- JWT compact serialisation and HMAC-SHA256 signing (RFC 7519; HS256, section 3.2 of RFC 7518) are library code. The token is a record passed to the uninterpreted `encode`, and no round-trip is claimed. The conversion of `exp` to whole seconds since the epoch belongs to `encode` as well.
- Library failures on the key: the model does not capture the exceptions `Encoding.UTF8.GetBytes`, `SymmetricSecurityKey` and the signer throw for a missing, empty or too short key. Configuration values are taken as present strings.
- UserManager internals are left out: email normalisation, password hashing and salting (the store keeps the password itself), the create-account rules behind `CreateAsync`'s errors, and the exception `FindByEmailAsync` throws when two users share an email. The user store is keyed by the raw email.
- The EF query translation and database collation behind `x.Email == model.Email` are left out. The database is a set of emails, separate from the user store.
- Data/ApiDbContext.cs has no logic of its own.
- The syntax rules of `[EmailAddress]` are library code, so `isEmailAddress` is uninterpreted.
- `ViewModels.Violations`: MVC keys its errors by property and also gives default messages to `Required` and `EmailAddress`. The model keeps the failed annotations as a set, without that order or those library messages.
- The LoginVM form is not part of this model. Its email and password are taken as non-null strings.
- `[ApiController]` automatic 400 responses are left out. That framework filter answers an invalid form before the action runs; the model follows the action's own check.
- Time is left out beyond plain ticks: local time and time zones, the `DateTimeOffset` conversion of the cookie expiry, and the `ArgumentOutOfRangeException` of `AddDays` at the ends of the `DateTime` range.
- Cookie options the controller leaves at their defaults (Path, Domain, MaxAge, IsEssential) are left out, and so is the browser's handling of the cookie.
- `Controllers.AuthController.Register`: does not model ModelState's cap on the number of errors (`MaxAllowedErrors`). Past that cap MVC records a single "too many errors" entry instead of each further one.
- Async/Task, dependency injection, routing, form binding and response serialisation are framework plumbing.
- Concurrent registrations and the race between the email check and the create are left out, because the model is sequential.
