/**
 * The session store of the wellness dashboard (vue-flourish-hub/src/stores/auth.ts):
 * a fixed identity table, the credential check, role-ranked permissions, and the
 * login / logout / refresh / profile-update life cycle over two storage tiers.
 *
 * `durable` stands for the browser's localStorage and `ephemeral` for its
 * sessionStorage. A clock reading `now` (milliseconds, as `Date.now()` returns)
 * is passed in wherever the source reads the clock.
 */
module Auth {
  import opened Wrappers

  // ---------------------------------------------------------------------------
  // Users and roles
  // ---------------------------------------------------------------------------

  datatype Role = Individual | Professional | Educator

  /** A role's place in the hierarchy the permission check compares. */
  function Rank(r: Role): (n: nat)
    ensures 1 <= n <= 3
    ensures n == 1 <==> r == Individual
    ensures n == 3 <==> r == Educator
  {
    match r
    case Individual => 1
    case Professional => 2
    case Educator => 3
  }

  datatype User = User(
    id: string,
    email: string,
    name: string,
    role: Role,
    profileComplete: bool,
    lastLogin: nat)

  datatype Credentials = Credentials(email: string, password: string, rememberMe: bool)

  /** The fields a profile update may carry; `None` leaves a field as it is. */
  datatype ProfileUpdate = ProfileUpdate(
    id: Option<string>,
    email: Option<string>,
    name: Option<string>,
    role: Option<Role>,
    profileComplete: Option<bool>,
    lastLogin: Option<nat>)

  datatype Outcome = Ok | Failed(message: string)

  const LOGIN_FAILED: string := "Login failed"

  // ---------------------------------------------------------------------------
  // Identity table and credential check
  // ---------------------------------------------------------------------------

  /** The six accounts `login` knows. Their `lastLogin` is replaced on every login. */
  const Accounts: seq<User> := [
    User("1", "sarah@example.com", "Sarah Chen", Individual, true, 0),
    User("2", "robert@example.com", "Robert Thompson", Individual, true, 0),
    User("3", "maria@example.com", "Maria Rodriguez", Educator, true, 0),
    User("4", "admin@example.com", "Admin User", Professional, true, 0),
    User("5", "admin", "Administrator", Professional, true, 0),
    User("6", "user", "Regular User", Individual, false, 0)
  ]

  /** The first user whose email is exactly `email`, as `Array.prototype.find` returns it. */
  function FindByEmail(users: seq<User>, email: string): (r: Option<User>)
    ensures r.None? <==> forall i :: 0 <= i < |users| ==> users[i].email != email
    ensures r.Some? ==>
      exists i :: 0 <= i < |users| && users[i] == r.value && r.value.email == email &&
        forall j :: 0 <= j < i ==> users[j].email != email
  {
    if users == [] then None
    else if users[0].email == email then Some(users[0])
    else
      var r := FindByEmail(users[1..], email);
      assert r.Some? ==>
        exists i :: 0 < i < |users| && users[i] == r.value && forall j :: 0 <= j < i ==> users[j].email != email
      by {
        if r.Some? {
          var k :| 0 <= k < |users[1..]| && users[1..][k] == r.value &&
            forall j :: 0 <= j < k ==> users[1..][j].email != email;
          assert users[k + 1] == r.value;
          assert forall j :: 0 <= j < k + 1 ==> users[j].email != email by {
            forall j | 0 <= j < k + 1 ensures users[j].email != email {
              if j > 0 { assert users[j] == users[1..][j - 1]; }
            }
          }
        }
      }
      r
  }

  /** The password each account expects: its own name for `admin` and `user`, else one shared password. */
  function ExpectedPassword(email: string): string {
    if email == "admin" then "admin"
    else if email == "user" then "user"
    else "password123"
  }

  /**
   * The credential check inside `login`: look the email up, then compare the password.
   * It succeeds exactly when the email is in the table and the password is the one
   * that email expects; no case folding is applied to either.
   */
  function CheckCredentials(email: string, password: string): (r: Option<User>)
    ensures r.Some? <==>
      (exists u :: u in Accounts && u.email == email) && password == ExpectedPassword(email)
    ensures r.Some? ==> r.value in Accounts && r.value.email == email
  {
    var found := FindByEmail(Accounts, email);
    if found.Some? &&
       ((found.value.email == "admin" && password == "admin") ||
        (found.value.email == "user" && password == "user") ||
        (found.value.email != "admin" && found.value.email != "user" && password == "password123"))
    then found
    else None
  }

  // ---------------------------------------------------------------------------
  // Tokens
  // ---------------------------------------------------------------------------

  /** A natural number written in decimal, as a template string renders it. */
  function DecimalText(n: nat): (s: string)
    ensures |s| >= 1
    ensures forall i :: 0 <= i < |s| ==> '0' <= s[i] <= '9'
  {
    var last := [(48 + n % 10) as char];
    if n < 10 then last else DecimalText(n / 10) + last
  }

  /** The value of a string of decimal digits. */
  function DecimalValue(s: string): nat
    requires forall i :: 0 <= i < |s| ==> '0' <= s[i] <= '9'
  {
    if s == [] then 0
    else DecimalValue(s[..|s| - 1]) * 10 + (s[|s| - 1] as int - 48)
  }

  /** Reading the decimal text of a clock value gives that value back. */
  lemma {:induction false} DecimalRoundTrip(n: nat)
    ensures DecimalValue(DecimalText(n)) == n
  {
    var s := DecimalText(n);
    if n >= 10 {
      var prefix := DecimalText(n / 10);
      assert s[..|s| - 1] == prefix;
      DecimalRoundTrip(n / 10);
    }
  }

  function TokenFor(now: nat): string { "token_" + DecimalText(now) }

  function RefreshTokenFor(now: nat): string { "refresh_" + DecimalText(now) }

  /** Tokens issued at different clock readings differ. */
  lemma TokensAreFresh(t1: nat, t2: nat)
    requires t1 != t2
    ensures TokenFor(t1) != TokenFor(t2)
    ensures RefreshTokenFor(t1) != RefreshTokenFor(t2)
  {
    DecimalRoundTrip(t1);
    DecimalRoundTrip(t2);
    assert TokenFor(t1)[6..] == DecimalText(t1) && TokenFor(t2)[6..] == DecimalText(t2);
    assert RefreshTokenFor(t1)[8..] == DecimalText(t1) && RefreshTokenFor(t2)[8..] == DecimalText(t2);
  }

  // ---------------------------------------------------------------------------
  // Storage tiers
  // ---------------------------------------------------------------------------

  const USER_KEY: string := "nutrition_app_user"
  const TOKEN_KEY: string := "nutrition_app_token"
  const REFRESH_TOKEN_KEY: string := "nutrition_app_refresh_token"

  /** A stored value: a plain string (a token) or the JSON text of a user record. */
  datatype Entry = Text(s: string) | UserJson(user: User)

  function RoleText(r: Role): string {
    match r
    case Individual => "individual"
    case Professional => "professional"
    case Educator => "educator"
  }

  /** The text `getItem` returns for an entry (string escaping is not modelled). */
  function EntryText(e: Entry): string {
    match e
    case Text(s) => s
    case UserJson(u) =>
      "{\"id\":\"" + u.id + "\",\"email\":\"" + u.email + "\",\"name\":\"" + u.name +
      "\",\"role\":\"" + RoleText(u.role) + "\",\"profileComplete\":" +
      (if u.profileComplete then "true" else "false") +
      ",\"lastLogin\":" + DecimalText(u.lastLogin) + "}"
  }

  /** `JSON.parse` of a stored user: only a user record's JSON text parses to a user. */
  function ParseUser(e: Entry): Option<User> {
    match e
    case UserJson(u) => Some(u)
    case Text(_) => None
  }

  function Get(tier: map<string, Entry>, key: string): Option<Entry> {
    if key in tier then Some(tier[key]) else None
  }

  /** Whether `getItem(key)` is truthy: the key is present and its text is not empty. */
  predicate Holds(tier: map<string, Entry>, key: string) {
    key in tier && EntryText(tier[key]) != ""
  }

  // ---------------------------------------------------------------------------
  // Session state and derived reads
  // ---------------------------------------------------------------------------

  datatype Session = Session(
    user: Option<User>,
    token: Option<string>,
    refreshToken: Option<string>,
    durable: map<string, Entry>,
    ephemeral: map<string, Entry>)

  /** `isAuthenticated`: a user is present and the token is a non-empty string. */
  function IsAuthenticated(s: Session): (r: bool)
    ensures r ==> s.user.Some? && s.token.Some?
    ensures s.token == Some("") ==> !r
  {
    s.user.Some? && s.token.Some? && s.token.value != ""
  }

  /** `hasPermission(required)`: a user is present and ranks at least as high as `required`. */
  function HasPermission(s: Session, required: Role): (r: bool)
    ensures r ==> s.user.Some?
    ensures s.user.Some? && s.user.value.role == Educator ==> r
    ensures required == Individual ==> (r <==> s.user.Some?)
    ensures s.user.Some? && s.user.value.role == Individual ==> (r <==> required == Individual)
  {
    s.user.Some? && Rank(s.user.value.role) >= Rank(required)
  }

  /** `isIndividual`, `isProfessional`, `isEducator`: the user is present and holds `role`. */
  function HasRole(s: Session, role: Role): (r: bool)
    ensures r ==> HasPermission(s, role)
    ensures r <==> s.user.Some? && Rank(s.user.value.role) == Rank(role)
  {
    s.user.Some? && s.user.value.role == role
  }

  /** The app never holds an empty token, so being authenticated means holding both a user and a token. */
  lemma AuthenticatedIffPresent(s: Session)
    requires s.token != Some("")
    ensures IsAuthenticated(s) <==> s.user.Some? && s.token.Some?
  {
  }

  /** An educator passes every permission check; an individual passes only the individual one. */
  lemma RolesAndPermissions(s: Session)
    ensures HasRole(s, Educator) ==> forall r :: HasPermission(s, r)
    ensures HasRole(s, Individual) ==> !HasPermission(s, Professional) && !HasPermission(s, Educator)
    ensures HasRole(s, Professional) ==> HasPermission(s, Professional) && !HasPermission(s, Educator)
  {
  }

  /** Granting permission is monotone in the required role. */
  lemma PermissionMonotone(s: Session, r: Role, r': Role)
    requires HasPermission(s, r) && Rank(r') <= Rank(r)
    ensures HasPermission(s, r')
  {
  }

  /** The keys `clearAuth` removes from the durable tier and from the ephemeral tier. */
  const DURABLE_AUTH_KEYS: set<string> := {USER_KEY, TOKEN_KEY, REFRESH_TOKEN_KEY}
  const EPHEMERAL_AUTH_KEYS: set<string> := {USER_KEY, TOKEN_KEY}

  // ---------------------------------------------------------------------------
  // Operations, as functions of the session before the call
  // ---------------------------------------------------------------------------

  /** `clearAuth`: removes every auth key from both tiers; the in-memory fields stay. */
  function AfterClearAuth(s: Session): (r: Session)
    ensures r.user == s.user && r.token == s.token && r.refreshToken == s.refreshToken
    ensures forall k :: k in DURABLE_AUTH_KEYS ==> k !in r.durable
    ensures forall k :: k in EPHEMERAL_AUTH_KEYS ==> k !in r.ephemeral
    ensures forall k :: k !in DURABLE_AUTH_KEYS ==> Get(r.durable, k) == Get(s.durable, k)
    ensures forall k :: k !in EPHEMERAL_AUTH_KEYS ==> Get(r.ephemeral, k) == Get(s.ephemeral, k)
  {
    s.(durable := s.durable - DURABLE_AUTH_KEYS, ephemeral := s.ephemeral - EPHEMERAL_AUTH_KEYS)
  }

  /** `logout`: forgets user and both tokens, then clears both tiers. */
  function AfterLogout(s: Session): (r: Session)
    ensures r.user.None? && r.token.None? && r.refreshToken.None?
    ensures !IsAuthenticated(r)
    ensures forall role :: !HasPermission(r, role)
    ensures forall k :: k in DURABLE_AUTH_KEYS ==> k !in r.durable
    ensures forall k :: k in EPHEMERAL_AUTH_KEYS ==> k !in r.ephemeral
    ensures forall k :: k !in DURABLE_AUTH_KEYS ==> Get(r.durable, k) == Get(s.durable, k)
    ensures forall k :: k !in EPHEMERAL_AUTH_KEYS ==> Get(r.ephemeral, k) == Get(s.ephemeral, k)
  {
    AfterClearAuth(s.(user := None, token := None, refreshToken := None))
  }

  /** Logging out twice is the same as logging out once. */
  lemma LogoutIdempotent(s: Session)
    ensures AfterLogout(AfterLogout(s)) == AfterLogout(s)
  {
  }

  /**
   * `initializeAuth`: restores a session from the durable tier when it holds both a
   * user and a token. A user entry that does not parse clears both tiers and leaves
   * the in-memory fields as they were. The ephemeral tier is never read.
   */
  function AfterInitialize(s: Session): (r: Session)
    ensures !(Holds(s.durable, USER_KEY) && Holds(s.durable, TOKEN_KEY)) ==> r == s
    ensures (Holds(s.durable, USER_KEY) && Holds(s.durable, TOKEN_KEY) && s.durable[USER_KEY].UserJson?) ==>
      && r.user == Some(s.durable[USER_KEY].user)
      && r.token == Some(EntryText(s.durable[TOKEN_KEY]))
      && IsAuthenticated(r)
      && (REFRESH_TOKEN_KEY !in s.durable ==> r.refreshToken.None?)
      && (REFRESH_TOKEN_KEY in s.durable ==> r.refreshToken == Some(EntryText(s.durable[REFRESH_TOKEN_KEY])))
      && r.durable == s.durable && r.ephemeral == s.ephemeral
    ensures (Holds(s.durable, USER_KEY) && Holds(s.durable, TOKEN_KEY) && s.durable[USER_KEY].Text?) ==>
      r == AfterClearAuth(s)
  {
    var storedUser := Get(s.durable, USER_KEY);
    var storedToken := Get(s.durable, TOKEN_KEY);
    var storedRefreshToken := Get(s.durable, REFRESH_TOKEN_KEY);
    if Holds(s.durable, USER_KEY) && Holds(s.durable, TOKEN_KEY) then
      match ParseUser(storedUser.value)
      case Some(u) =>
        s.(user := Some(u),
           token := Some(EntryText(storedToken.value)),
           refreshToken := if storedRefreshToken.Some? then Some(EntryText(storedRefreshToken.value)) else None)
      case None => AfterClearAuth(s)
    else s
  }

  /** What start-up restores depends on the durable tier alone. */
  lemma InitializeIgnoresEphemeral(s: Session, other: map<string, Entry>)
    ensures var a, b := AfterInitialize(s), AfterInitialize(s.(ephemeral := other));
      a.user == b.user && a.token == b.token && a.refreshToken == b.refreshToken && a.durable == b.durable
  {
  }

  /** Restoring twice is the same as restoring once. */
  lemma InitializeIdempotent(s: Session)
    ensures AfterInitialize(AfterInitialize(s)) == AfterInitialize(s)
  {
    var r := AfterInitialize(s);
    if Holds(s.durable, USER_KEY) && Holds(s.durable, TOKEN_KEY) && s.durable[USER_KEY].Text? {
      assert USER_KEY !in r.durable;
    }
  }

  /** A tier after `login` writes the user and the token (and, when given, the refresh token) to it. */
  function WithSession(tier: map<string, Entry>, u: User, token: string, refresh: Option<string>): (t: map<string, Entry>)
    ensures Get(t, USER_KEY) == Some(UserJson(u)) && Get(t, TOKEN_KEY) == Some(Text(token))
    ensures refresh.Some? ==> Get(t, REFRESH_TOKEN_KEY) == Some(Text(refresh.value))
    ensures forall k :: k !in EPHEMERAL_AUTH_KEYS && (refresh.Some? ==> k != REFRESH_TOKEN_KEY) ==> Get(t, k) == Get(tier, k)
  {
    var t := tier[USER_KEY := UserJson(u)][TOKEN_KEY := Text(token)];
    if refresh.Some? then t[REFRESH_TOKEN_KEY := Text(refresh.value)] else t
  }

  /**
   * `login`: on a failed credential check nothing changes and the call fails with
   * "Login failed". Otherwise the matched user (with its role) becomes current, fresh
   * tokens are issued, and the session is written to the durable tier (user, token and
   * refresh token) when `rememberMe` is set, else to the ephemeral tier (user and token).
   */
  function AfterLogin(s: Session, c: Credentials, now: nat): (r: (Outcome, Session))
    ensures CheckCredentials(c.email, c.password).None? ==> r.0 == Failed(LOGIN_FAILED) && r.1 == s
    ensures CheckCredentials(c.email, c.password).Some? ==>
      var u := CheckCredentials(c.email, c.password).value;
      && r.0 == Ok
      && r.1.user == Some(u.(lastLogin := now))
      && r.1.user.value.role == u.role
      && r.1.token == Some(TokenFor(now))
      && r.1.refreshToken == Some(RefreshTokenFor(now))
      && IsAuthenticated(r.1)
    ensures r.0.Ok? && c.rememberMe ==>
      && r.1.ephemeral == s.ephemeral
      && r.1.durable == WithSession(s.durable, r.1.user.value, r.1.token.value, r.1.refreshToken)
    ensures r.0.Ok? && !c.rememberMe ==>
      && r.1.durable == s.durable
      && r.1.ephemeral == WithSession(s.ephemeral, r.1.user.value, r.1.token.value, None)
  {
    match CheckCredentials(c.email, c.password)
    case None => (Failed(LOGIN_FAILED), s)
    case Some(found) =>
      var u := found.(lastLogin := now);
      var token := TokenFor(now);
      var refresh := RefreshTokenFor(now);
      var s' := s.(user := Some(u), token := Some(token), refreshToken := Some(refresh));
      if c.rememberMe then (Ok, s'.(durable := WithSession(s.durable, u, token, Some(refresh))))
      else (Ok, s'.(ephemeral := WithSession(s.ephemeral, u, token, None)))
  }

  /** No two accounts share an email. */
  lemma AccountEmailsDistinct()
    ensures forall i, j :: 0 <= i < j < |Accounts| ==> Accounts[i].email != Accounts[j].email
  {
  }

  /** Every account logs in with its expected password, as itself and with its recorded role. */
  lemma AccountLogsIn(s: Session, i: nat, now: nat, remember: bool)
    requires i < |Accounts|
    ensures var r := AfterLogin(s, Credentials(Accounts[i].email, ExpectedPassword(Accounts[i].email), remember), now);
      r.0 == Ok && r.1.user == Some(Accounts[i].(lastLogin := now)) && r.1.user.value.role == Accounts[i].role
  {
    AccountEmailsDistinct();
    var found := CheckCredentials(Accounts[i].email, ExpectedPassword(Accounts[i].email));
    assert Accounts[i] in Accounts;
    assert found.Some?;
    var k :| 0 <= k < |Accounts| && Accounts[k] == found.value;
  }

  /**
   * `admin`/`admin` with `rememberMe` logs in as the professional account and writes the
   * user, the token and the refresh token to the durable tier; `user`/`user` without it
   * logs in as the individual account and writes user and token to the ephemeral tier only.
   */
  lemma ShortNameLogins(s: Session, now: nat)
    ensures var r := AfterLogin(s, Credentials("admin", "admin", true), now);
      && r.0 == Ok && r.1.user.Some? && r.1.user.value.email == "admin" && r.1.user.value.role == Professional
      && Get(r.1.durable, USER_KEY) == Some(UserJson(r.1.user.value))
      && Get(r.1.durable, TOKEN_KEY) == Some(Text(TokenFor(now)))
      && Get(r.1.durable, REFRESH_TOKEN_KEY) == Some(Text(RefreshTokenFor(now)))
      && r.1.ephemeral == s.ephemeral
    ensures var r := AfterLogin(s, Credentials("user", "user", false), now);
      && r.0 == Ok && r.1.user.Some? && r.1.user.value.email == "user" && r.1.user.value.role == Individual
      && Get(r.1.ephemeral, USER_KEY) == Some(UserJson(r.1.user.value))
      && Get(r.1.ephemeral, TOKEN_KEY) == Some(Text(TokenFor(now)))
      && r.1.durable == s.durable
  {
    AccountLogsIn(s, 4, now, true);
    AccountLogsIn(s, 5, now, false);
  }

  /**
   * A wrong password, the shared `password123` for an account whose password is its
   * own name, and a differently cased email are all refused.
   */
  lemma BadCredentialsRefused(s: Session, now: nat, remember: bool)
    ensures AfterLogin(s, Credentials("user", "wrong", remember), now) == (Failed(LOGIN_FAILED), s)
    ensures AfterLogin(s, Credentials("admin", "password123", remember), now) == (Failed(LOGIN_FAILED), s)
    ensures AfterLogin(s, Credentials("Admin", "admin", remember), now) == (Failed(LOGIN_FAILED), s)
  {
    assert "wrong" != ExpectedPassword("user");
    assert "password123" != ExpectedPassword("admin");
    assert forall u :: u in Accounts ==> u.email != "Admin";
  }

  /** `{...user, ...updates}`: every field the update carries overrides, every other field stays. */
  function ApplyUpdate(u: User, p: ProfileUpdate): (r: User)
    ensures (p.id.Some? ==> r.id == p.id.value) && (p.id.None? ==> r.id == u.id)
    ensures (p.email.Some? ==> r.email == p.email.value) && (p.email.None? ==> r.email == u.email)
    ensures (p.name.Some? ==> r.name == p.name.value) && (p.name.None? ==> r.name == u.name)
    ensures (p.role.Some? ==> r.role == p.role.value) && (p.role.None? ==> r.role == u.role)
    ensures (p.profileComplete.Some? ==> r.profileComplete == p.profileComplete.value)
      && (p.profileComplete.None? ==> r.profileComplete == u.profileComplete)
    ensures (p.lastLogin.Some? ==> r.lastLogin == p.lastLogin.value) && (p.lastLogin.None? ==> r.lastLogin == u.lastLogin)
  {
    User(
      p.id.GetOr(u.id),
      p.email.GetOr(u.email),
      p.name.GetOr(u.name),
      p.role.GetOr(u.role),
      p.profileComplete.GetOr(u.profileComplete),
      p.lastLogin.GetOr(u.lastLogin))
  }

  /**
   * `updateProfile`: without a user nothing happens. Otherwise the given fields are
   * merged into the user, the tokens stay, and the user is rewritten to the durable
   * tier if that tier holds a user, else to the ephemeral tier.
   */
  function AfterUpdateProfile(s: Session, p: ProfileUpdate): (r: Session)
    ensures s.user.None? ==> r == s
    ensures r.token == s.token && r.refreshToken == s.refreshToken
    ensures s.user.Some? ==>
      && r.user.Some?
      && r.user.value.id == p.id.GetOr(s.user.value.id)
      && r.user.value.email == p.email.GetOr(s.user.value.email)
      && r.user.value.name == p.name.GetOr(s.user.value.name)
      && r.user.value.role == p.role.GetOr(s.user.value.role)
      && r.user.value.profileComplete == p.profileComplete.GetOr(s.user.value.profileComplete)
      && r.user.value.lastLogin == p.lastLogin.GetOr(s.user.value.lastLogin)
    ensures s.user.Some? && Holds(s.durable, USER_KEY) ==>
      r.ephemeral == s.ephemeral && r.durable == s.durable[USER_KEY := UserJson(r.user.value)]
    ensures s.user.Some? && !Holds(s.durable, USER_KEY) ==>
      r.durable == s.durable && r.ephemeral == s.ephemeral[USER_KEY := UserJson(r.user.value)]
  {
    match s.user
    case None => s
    case Some(u) =>
      var u' := ApplyUpdate(u, p);
      if Holds(s.durable, USER_KEY) then s.(user := Some(u'), durable := s.durable[USER_KEY := UserJson(u')])
      else s.(user := Some(u'), ephemeral := s.ephemeral[USER_KEY := UserJson(u')])
  }

  /** Applying the same profile update twice is the same as applying it once. */
  lemma UpdateProfileIdempotent(s: Session, p: ProfileUpdate)
    ensures AfterUpdateProfile(AfterUpdateProfile(s, p), p) == AfterUpdateProfile(s, p)
  {
    if s.user.Some? && !Holds(s.durable, USER_KEY) {
      assert AfterUpdateProfile(s, p).durable == s.durable;
    }
  }

  /**
   * `refreshAuthToken`: without a (non-empty) refresh token it reports false and
   * changes nothing. Otherwise only the token is replaced, it is written to the tier
   * that holds a token (durable first), and the call reports true.
   */
  function AfterRefresh(s: Session, now: nat): (r: (bool, Session))
    ensures !r.0 <==> s.refreshToken.None? || s.refreshToken.value == ""
    ensures !r.0 ==> r.1 == s
    ensures r.0 ==>
      && r.1.user == s.user && r.1.refreshToken == s.refreshToken
      && r.1.token == Some(TokenFor(now))
      && (IsAuthenticated(r.1) <==> s.user.Some?)
    ensures r.0 && Holds(s.durable, TOKEN_KEY) ==>
      r.1.ephemeral == s.ephemeral && r.1.durable == s.durable[TOKEN_KEY := Text(TokenFor(now))]
    ensures r.0 && !Holds(s.durable, TOKEN_KEY) ==>
      r.1.durable == s.durable && r.1.ephemeral == s.ephemeral[TOKEN_KEY := Text(TokenFor(now))]
  {
    if s.refreshToken.None? || s.refreshToken.value == "" then (false, s)
    else
      var t := TokenFor(now);
      if Holds(s.durable, TOKEN_KEY) then (true, s.(token := Some(t), durable := s.durable[TOKEN_KEY := Text(t)]))
      else (true, s.(token := Some(t), ephemeral := s.ephemeral[TOKEN_KEY := Text(t)]))
  }

  /** A session that logged in without `rememberMe` can still refresh, but the new token stays ephemeral. */
  lemma EphemeralSessionRefreshes(s: Session, c: Credentials, t1: nat, t2: nat)
    requires CheckCredentials(c.email, c.password).Some? && !c.rememberMe
    requires TOKEN_KEY !in s.durable && REFRESH_TOKEN_KEY !in s.durable
    ensures var (ok, r) := AfterRefresh(AfterLogin(s, c, t1).1, t2);
      ok && r.durable == s.durable && r.ephemeral[TOKEN_KEY] == Text(TokenFor(t2))
      && REFRESH_TOKEN_KEY !in r.durable
  {
    var s1 := AfterLogin(s, c, t1).1;
    assert s1.durable == s.durable;
    assert s1.refreshToken == Some(RefreshTokenFor(t1));
    assert RefreshTokenFor(t1) != "";
    assert !Holds(s1.durable, TOKEN_KEY);
    var (ok, r) := AfterRefresh(s1, t2);
    assert ok;
    assert r.durable == s.durable;
  }

  /** A remembered login is what the next start restores; a non-remembered one is not. */
  lemma RestartRestoresRememberedLogin(s: Session, c: Credentials, now: nat, restartTier: map<string, Entry>)
    requires CheckCredentials(c.email, c.password).Some?
    requires s.user.None? && s.token.None? && s.refreshToken.None?
    requires s.durable == map[] && s.ephemeral == map[]
    ensures var after := AfterLogin(s, c, now).1;
      var restarted := AfterInitialize(s.(durable := after.durable, ephemeral := restartTier));
      (c.rememberMe ==>
        restarted.user == after.user && restarted.token == after.token &&
        restarted.refreshToken == after.refreshToken) &&
      (!c.rememberMe ==> restarted.user.None? && !IsAuthenticated(restarted))
  {
    var after := AfterLogin(s, c, now).1;
    var r := s.(durable := after.durable, ephemeral := restartTier);
    if c.rememberMe {
      assert r.durable[TOKEN_KEY] == Text(TokenFor(now));
      assert EntryText(r.durable[USER_KEY]) != "";
    } else {
      assert USER_KEY !in r.durable;
    }
  }

  // ---------------------------------------------------------------------------
  // The store
  // ---------------------------------------------------------------------------

  /** The session store: the three session refs plus the two storage tiers it writes. */
  class SessionStore {
    var user: Option<User>
    var token: Option<string>
    var refreshToken: Option<string>
    var durable: map<string, Entry>
    var ephemeral: map<string, Entry>

    function State(): Session
      reads this
    {
      Session(user, token, refreshToken, durable, ephemeral)
    }

    /** A fresh store: nobody is logged in; the tiers hold whatever the browser kept. */
    constructor(durable0: map<string, Entry>, ephemeral0: map<string, Entry>)
      ensures State() == Session(None, None, None, durable0, ephemeral0)
      ensures !IsAuthenticated(State())
    {
      user, token, refreshToken := None, None, None;
      durable, ephemeral := durable0, ephemeral0;
    }

    method ClearAuth()
      modifies this
      ensures State() == AfterClearAuth(old(State()))
    {
      durable := durable - {USER_KEY};
      durable := durable - {TOKEN_KEY};
      durable := durable - {REFRESH_TOKEN_KEY};
      ephemeral := ephemeral - {USER_KEY};
      ephemeral := ephemeral - {TOKEN_KEY};
    }

    method InitializeAuth()
      modifies this
      ensures State() == AfterInitialize(old(State()))
    {
      var storedUser := Get(durable, USER_KEY);
      var storedToken := Get(durable, TOKEN_KEY);
      var storedRefreshToken := Get(durable, REFRESH_TOKEN_KEY);
      if Holds(durable, USER_KEY) && Holds(durable, TOKEN_KEY) {
        var parsed := ParseUser(storedUser.value);
        if parsed.Some? {
          user := parsed;
          token := Some(EntryText(storedToken.value));
          refreshToken := if storedRefreshToken.Some? then Some(EntryText(storedRefreshToken.value)) else None;
        } else {
          ClearAuth();
        }
      }
    }

    method Login(credentials: Credentials, now: nat) returns (outcome: Outcome)
      modifies this
      ensures (outcome, State()) == AfterLogin(old(State()), credentials, now)
    {
      ghost var before := State();
      var found := CheckCredentials(credentials.email, credentials.password);
      if found.None? {
        return Failed(LOGIN_FAILED);
      }
      var mockToken := TokenFor(now);
      var mockRefreshToken := RefreshTokenFor(now);
      user := Some(found.value.(lastLogin := now));
      token := Some(mockToken);
      refreshToken := Some(mockRefreshToken);
      if credentials.rememberMe {
        durable := durable[USER_KEY := UserJson(user.value)];
        durable := durable[TOKEN_KEY := Text(mockToken)];
        durable := durable[REFRESH_TOKEN_KEY := Text(mockRefreshToken)];
      } else {
        ephemeral := ephemeral[USER_KEY := UserJson(user.value)];
        ephemeral := ephemeral[TOKEN_KEY := Text(mockToken)];
      }
      outcome := Ok;
    }

    method Logout()
      modifies this
      ensures State() == AfterLogout(old(State()))
    {
      user := None;
      token := None;
      refreshToken := None;
      ClearAuth();
    }

    method UpdateProfile(updates: ProfileUpdate)
      modifies this
      ensures State() == AfterUpdateProfile(old(State()), updates)
    {
      if user.Some? {
        user := Some(ApplyUpdate(user.value, updates));
        if Holds(durable, USER_KEY) {
          durable := durable[USER_KEY := UserJson(user.value)];
        } else {
          ephemeral := ephemeral[USER_KEY := UserJson(user.value)];
        }
      }
    }

    method RefreshAuthToken(now: nat) returns (refreshed: bool)
      modifies this
      ensures (refreshed, State()) == AfterRefresh(old(State()), now)
    {
      if refreshToken.None? || refreshToken.value == "" {
        return false;
      }
      var newToken := TokenFor(now);
      token := Some(newToken);
      if Holds(durable, TOKEN_KEY) {
        durable := durable[TOKEN_KEY := Text(newToken)];
      } else {
        ephemeral := ephemeral[TOKEN_KEY := Text(newToken)];
      }
      refreshed := true;
    }
  }
}
