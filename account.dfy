/** Sign-in of the storefront: the fixed table of accounts that `IsValidUser`
    checks, and the choice of where `Login` sends the user afterwards.  The
    framework's `string.ToLower` and `Url.IsLocalUrl` are given as functions;
    `AsciiLower` is one concrete lower-casing used in the examples. */
module Account {
  import opened Wrappers

  /** The password and role stored for a user name. */
  datatype UserInfo = UserInfo(password: string, role: string)

  /** The simulated account table, keyed by lower-case user name. */
  const Users: map<string, UserInfo> := map[
    "admin" := UserInfo("admin123", "Admin"),
    "manager" := UserInfo("manager123", "Manager"),
    "user" := UserInfo("user123", "User")
  ]

  /** The boolean result of `IsValidUser` and its `out` role (None for null). */
  datatype Validation = Validation(valid: bool, role: Option<string>)

  /** A user is valid when the name is not null, its lower-cased form is in the
      table and the password is exactly the stored one; the role comes from the
      table, and a rejection sets it to null. */
  function IsValidUser(username: Option<string>, password: Option<string>, toLower: string -> string): (r: Validation)
    ensures r.valid <==> r.role.Some?
    ensures username.None? ==> r == Validation(false, None)
    ensures r.valid ==> toLower(username.value) in Users
    ensures r.valid ==> password == Some(Users[toLower(username.value)].password)
    ensures r.valid ==> r.role == Some(Users[toLower(username.value)].role)
  {
    if username.Some? && toLower(username.value) in Users
       && Some(Users[toLower(username.value)].password) == password
    then Validation(true, Some(Users[toLower(username.value)].role))
    else Validation(false, None)
  }

  /** Exactly three credential pairs are accepted, each with its role. */
  lemma AcceptedExactly(username: Option<string>, password: Option<string>, toLower: string -> string)
    ensures IsValidUser(username, password, toLower) ==
      if username.None? then Validation(false, None)
      else if toLower(username.value) == "admin" && password == Some("admin123") then Validation(true, Some("Admin"))
      else if toLower(username.value) == "manager" && password == Some("manager123") then Validation(true, Some("Manager"))
      else if toLower(username.value) == "user" && password == Some("user123") then Validation(true, Some("User"))
      else Validation(false, None)
  {
    if username.Some? {
      var key := toLower(username.value);
      assert key in Users <==> key == "admin" || key == "manager" || key == "user";
    }
  }

  /** User names that lower-case alike are treated alike. */
  lemma UsernameCaseInsensitive(u1: string, u2: string, password: Option<string>, toLower: string -> string)
    requires toLower(u1) == toLower(u2)
    ensures IsValidUser(Some(u1), password, toLower) == IsValidUser(Some(u2), password, toLower)
  {
  }

  /** The password is compared exactly: at most one password is accepted for a
      user name. */
  lemma PasswordExact(username: Option<string>, p1: string, p2: string, toLower: string -> string)
    requires IsValidUser(username, Some(p1), toLower).valid && p1 != p2
    ensures !IsValidUser(username, Some(p2), toLower).valid
  {
  }

  /** Lower-casing of one ASCII letter; other characters are kept. */
  function LowerChar(c: char): char {
    if 'A' <= c <= 'Z' then (c as int + 32) as char else c
  }

  /** `ToLower` restricted to ASCII: each upper-case letter becomes its
      lower-case letter, everything else is kept, and no upper-case letter is
      left. */
  function AsciiLower(s: string): (r: string)
    ensures |r| == |s|
    ensures forall i :: 0 <= i < |s| && 'A' <= s[i] <= 'Z' ==> r[i] as int == s[i] as int + 32
    ensures forall i :: 0 <= i < |s| && !('A' <= s[i] <= 'Z') ==> r[i] == s[i]
    ensures forall i :: 0 <= i < |r| ==> !('A' <= r[i] <= 'Z')
  {
    seq(|s|, i requires 0 <= i < |s| => LowerChar(s[i]))
  }

  /** Lower-casing twice is lower-casing once. */
  lemma AsciiLowerIdempotent(s: string)
    ensures AsciiLower(AsciiLower(s)) == AsciiLower(s)
  {
    var r := AsciiLower(s);
    assert forall i :: 0 <= i < |r| ==> AsciiLower(r)[i] == r[i];
  }

  /** Two names are equal up to ASCII case: same length, and at each position
      the same character or the upper- and lower-case forms of one letter. */
  predicate EqualIgnoringAsciiCase(a: string, b: string) {
    |a| == |b| &&
    forall i :: 0 <= i < |a| ==>
      a[i] == b[i]
      || ('A' <= a[i] <= 'Z' && b[i] as int == a[i] as int + 32)
      || ('A' <= b[i] <= 'Z' && a[i] as int == b[i] as int + 32)
  }

  /** ASCII lower-casing identifies exactly the names that are equal up to ASCII
      case. */
  lemma AsciiLowerEqualIff(a: string, b: string)
    ensures AsciiLower(a) == AsciiLower(b) <==> EqualIgnoringAsciiCase(a, b)
  {
    if AsciiLower(a) == AsciiLower(b) {
      forall i | 0 <= i < |a|
        ensures a[i] == b[i]
             || ('A' <= a[i] <= 'Z' && b[i] as int == a[i] as int + 32)
             || ('A' <= b[i] <= 'Z' && a[i] as int == b[i] as int + 32)
      {
        assert AsciiLower(a)[i] == AsciiLower(b)[i];
      }
    }
    if EqualIgnoringAsciiCase(a, b) {
      assert forall i :: 0 <= i < |a| ==> AsciiLower(a)[i] == AsciiLower(b)[i];
    }
  }

  /** With ASCII lower-casing, names equal up to ASCII case get the same answer. */
  lemma AsciiCaseInsensitiveLogin(u1: string, u2: string, password: Option<string>)
    requires EqualIgnoringAsciiCase(u1, u2)
    ensures IsValidUser(Some(u1), password, AsciiLower) == IsValidUser(Some(u2), password, AsciiLower)
  {
    AsciiLowerEqualIff(u1, u2);
    UsernameCaseInsensitive(u1, u2, password, AsciiLower);
  }

  /** With ASCII lower-casing, "ADMIN" signs in as Admin, while a password that
      differs only in case is refused. */
  lemma AsciiExamples()
    ensures IsValidUser(Some("ADMIN"), Some("admin123"), AsciiLower) == Validation(true, Some("Admin"))
    ensures IsValidUser(Some("admin"), Some("ADMIN123"), AsciiLower) == Validation(false, None)
    ensures IsValidUser(None, Some("admin123"), AsciiLower) == Validation(false, None)
  {
    assert AsciiLower("ADMIN") == "admin";
    assert AsciiLower("admin") == "admin";
    AcceptedExactly(Some("ADMIN"), Some("admin123"), AsciiLower);
    AcceptedExactly(Some("admin"), Some("ADMIN123"), AsciiLower);
  }

  /** The identity a successful login signs in with: the name as typed and the
      role from the table. */
  datatype Principal = Principal(name: string, role: string)

  /** Where the browser goes after the POST /Account/Login. */
  datatype LoginResponse =
    | Redirect(url: string)
    | RedirectToAction(action: string, controller: string)
    | LoginView(returnUrl: Option<string>)   // the form again, with an error

  datatype LoginResult = LoginResult(signedIn: Option<Principal>, response: LoginResponse)

  /** A non-empty local return URL given at login. */
  predicate UsableReturnUrl(returnUrl: Option<string>, isLocalUrl: string -> bool) {
    returnUrl.Some? && returnUrl.value != "" && isLocalUrl(returnUrl.value)
  }

  /** POST /Account/Login: sign in when the credentials are valid, then go to the
      local return URL if one was given, else to the administration for Admin
      and Manager and to the home page for everyone else; on failure show the
      form again with the same return URL and sign no one in. */
  function Login(username: Option<string>, password: Option<string>, returnUrl: Option<string>,
                 toLower: string -> string, isLocalUrl: string -> bool): (r: LoginResult)
    ensures r.signedIn.Some? <==> IsValidUser(username, password, toLower).valid
    ensures r.signedIn.Some? ==>
      r.signedIn.value == Principal(username.value, IsValidUser(username, password, toLower).role.value)
    ensures r.signedIn.None? ==> r.response == LoginView(returnUrl)
    ensures r.response.Redirect? ==>
      r.signedIn.Some? && returnUrl == Some(r.response.url) && UsableReturnUrl(returnUrl, isLocalUrl)
    ensures r.response == RedirectToAction("Index", "Admin") ==>
      r.signedIn.Some? && r.signedIn.value.role in {"Admin", "Manager"}
  {
    var v := IsValidUser(username, password, toLower);
    if v.valid then
      var principal := Principal(username.value, v.role.value);
      if UsableReturnUrl(returnUrl, isLocalUrl) then
        LoginResult(Some(principal), Redirect(returnUrl.value))
      else if v.role.value == "Admin" || v.role.value == "Manager" then
        LoginResult(Some(principal), RedirectToAction("Index", "Admin"))
      else
        LoginResult(Some(principal), RedirectToAction("Index", "Home"))
    else
      LoginResult(None, LoginView(returnUrl))
  }

  /** After a successful login a usable return URL wins over every role. */
  lemma ReturnUrlWins(username: Option<string>, password: Option<string>, returnUrl: Option<string>,
                      toLower: string -> string, isLocalUrl: string -> bool)
    requires IsValidUser(username, password, toLower).valid
    requires UsableReturnUrl(returnUrl, isLocalUrl)
    ensures Login(username, password, returnUrl, toLower, isLocalUrl).response == Redirect(returnUrl.value)
  {
  }

  /** Without a usable return URL, Admin and Manager go to Admin/Index and every
      other role to Home/Index. */
  lemma RoleLandingPage(username: Option<string>, password: Option<string>, returnUrl: Option<string>,
                        toLower: string -> string, isLocalUrl: string -> bool)
    requires IsValidUser(username, password, toLower).valid
    requires !UsableReturnUrl(returnUrl, isLocalUrl)
    ensures var role := IsValidUser(username, password, toLower).role.value;
      Login(username, password, returnUrl, toLower, isLocalUrl).response ==
        if role == "Admin" || role == "Manager" then RedirectToAction("Index", "Admin")
        else RedirectToAction("Index", "Home")
  {
  }

  /** Without a usable return URL, the three accounts land on their role's page:
      admin and manager on Admin/Index, user on Home/Index. */
  lemma LandingPageByAccount(username: string, password: Option<string>, returnUrl: Option<string>,
                             toLower: string -> string, isLocalUrl: string -> bool)
    requires !UsableReturnUrl(returnUrl, isLocalUrl)
    ensures var r := Login(Some(username), password, returnUrl, toLower, isLocalUrl).response;
      && (toLower(username) == "admin" && password == Some("admin123") ==> r == RedirectToAction("Index", "Admin"))
      && (toLower(username) == "manager" && password == Some("manager123") ==> r == RedirectToAction("Index", "Admin"))
      && (toLower(username) == "user" && password == Some("user123") ==> r == RedirectToAction("Index", "Home"))
  {
    AcceptedExactly(Some(username), password, toLower);
  }
}
