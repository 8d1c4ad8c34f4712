/**
 * Two request sequences run against a fresh controller, showing what a caller
 * can conclude from the actions' contracts alone.
 */
module Scenarios {
  import opened AuthValues
  import opened Controllers
  import opened Nullable
  import ViewModels

  /**
   * A stored user "u1" with email "a@x.com" and password "pw1"
   * logs in: the only cookie set carries the token for that subject, valid for 30 days.
   */
  method KnownUserLogsIn(settings: AuthSettings, encode: JwtToken -> string, now: int)
    returns (r: ActionResult, cookies: seq<Cookie>, token: JwtToken)
    ensures r == Ok(Message("Authenticated."))
    ensures cookies == [SessionCookie(encode(token), now)]
    ensures cookies[0].options.expires == now + ThirtyDays
    ensures token.issuer == settings.issuer && token.audience == settings.audience
    ensures token.expires == now + ThirtyDays
    ensures ValuesOf(token.claims, ClaimType.Email) == ["a@x.com"]
    ensures ValuesOf(token.claims, NameIdentifier) == ["u1"]
  {
    var u1 := IdentityUser("u1", "a", "a@x.com");
    var c := new AuthController(
      settings, true,
      (u: IdentityUser, p: string) => IdentityResult(true, []),
      encode,
      (s: string) => true,
      map["a@x.com" := Account(u1, "pw1")], {"a@x.com"});
    assert "a@x.com" in c.users && c.users["a@x.com"] == Account(u1, "pw1");
    token := IssueToken(settings, LoginClaims("a@x.com", "u1"), now);
    r := c.Login("a@x.com", "pw1", now, now);
    cookies := c.cookies;
    assert cookies == [SessionCookie(encode(token), now)];
    LoginClaimsIdentifySubject("a@x.com", "u1");
  }

  /**
   * Registering "bob" twice with the same email: the first call creates the
   * account, the second is refused by the uniqueness check without a second create.
   */
  method SameEmailRegistersOnce(isEmailAddress: string -> bool, newId1: string, newId2: string)
    returns (first: ActionResult, second: ActionResult, calls: seq<Call>)
    requires isEmailAddress("bob@x.com")
    ensures first == Ok(Result(IdentityResult(true, [])))
    ensures second == BadRequest(Text("Email already used by another."))
    ensures calls == [
      QueryUsersByEmail("bob@x.com"),
      CreateUser(IdentityUser(newId1, "bob", "bob@x.com"), "P@ss1"),
      QueryUsersByEmail("bob@x.com")]
  {
    var c := new AuthController(
      AuthSettings("key", "issuer", "audience"), true,
      (u: IdentityUser, p: string) => IdentityResult(true, []),
      (t: JwtToken) => "",
      isEmailAddress,
      map[], {});
    var bob := ViewModels.RegisterVM(Some("bob"), Some("bob@x.com"), Some("P@ss1"), Some("P@ss1"));
    assert ViewModels.Valid(bob, isEmailAddress) by {
      assert !ViewModels.IsBlank("bob") by { assert !ViewModels.IsWhiteSpace("bob"[0]); }
      assert !ViewModels.IsBlank("bob@x.com") by { assert !ViewModels.IsWhiteSpace("bob@x.com"[0]); }
      assert !ViewModels.IsBlank("P@ss1") by { assert !ViewModels.IsWhiteSpace("P@ss1"[0]); }
    }
    first := c.Register(bob, newId1);
    second := c.Register(bob, newId2);
    calls := c.calls;
  }

  /**
   * "bob" registers and then logs in: with the password he registered, login
   * succeeds and the token names the id he was given; with any other password
   * it is refused as a wrong password.
   */
  method RegisteredUserLogsIn(
    encode: JwtToken -> string, isEmailAddress: string -> bool, newId: string, other: string, now: int)
    returns (registered: ActionResult, right: ActionResult, wrong: ActionResult, cookies: seq<Cookie>)
    requires isEmailAddress("bob@x.com")
    requires other != "P@ss1"
    ensures registered == Ok(Result(IdentityResult(true, [])))
    ensures right == Ok(Message("Authenticated."))
    ensures wrong == BadRequest(Text("Wrong password."))
    ensures |cookies| == 1
    ensures cookies[0].value
      == encode(IssueToken(AuthSettings("key", "issuer", "audience"), LoginClaims("bob@x.com", newId), now))
  {
    var c := new AuthController(
      AuthSettings("key", "issuer", "audience"), true,
      (u: IdentityUser, p: string) => IdentityResult(true, []),
      encode,
      isEmailAddress,
      map[], {});
    var bob := ViewModels.RegisterVM(Some("bob"), Some("bob@x.com"), Some("P@ss1"), Some("P@ss1"));
    assert ViewModels.Valid(bob, isEmailAddress) by {
      assert !ViewModels.IsBlank("bob") by { assert !ViewModels.IsWhiteSpace("bob"[0]); }
      assert !ViewModels.IsBlank("bob@x.com") by { assert !ViewModels.IsWhiteSpace("bob@x.com"[0]); }
      assert !ViewModels.IsBlank("P@ss1") by { assert !ViewModels.IsWhiteSpace("P@ss1"[0]); }
    }
    registered := c.Register(bob, newId);
    assert c.users["bob@x.com"] == Account(IdentityUser(newId, "bob", "bob@x.com"), "P@ss1");
    right := c.Login("bob@x.com", "P@ss1", now, now);
    wrong := c.Login("bob@x.com", other, now, now);
    cookies := c.cookies;
  }
}
