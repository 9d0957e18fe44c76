/**
 * The client session of the desktop application, as values: the five fields
 * a `LoginManager` keeps (access token, refresh token, current user, menu
 * permissions, accessible areas) together with the encrypted token file on
 * disk. Every transition of the manager is a function from the old state and
 * what the environment supplies (a server reply, the current time) to the new
 * state; the class in module Auth runs the same steps in place.
 */
module SessionModel {
  import opened Common

  /** The keys of the user profile the client reads (`user.get('role')`, ...). */
  datatype User = User(username: Option<string>, role: Option<string>)

  /** Per-menu flags, `{"can_view": true, "can_create": false, ...}`. */
  type Flags = map<string, bool>

  /** `permissions`: menu display name to its flags. */
  type MenuFlags = map<string, Flags>

  /** `accessible_areas`: "desa" and "kelompok" to the names assigned. */
  type Areas = map<string, seq<string>>

  datatype Session = Session(
    accessToken: Option<string>,
    refreshToken: Option<string>,
    currentUser: Option<User>,
    permissions: MenuFlags,
    accessibleAreas: Areas)

  /** What `_save_tokens` writes: the five fields and `saved_at`. */
  datatype TokenRecord = TokenRecord(saved: Session, savedAt: int)

  /**
   * The token file. Encryption and JSON are a perfect round trip; a file that
   * fails to decrypt or parse (tampered, written under another key) is
   * `Unreadable`.
   */
  datatype TokenFile = Sealed(record: TokenRecord) | Unreadable

  /** The session fields and the token file (`None` when there is no file). */
  datatype State = State(session: Session, tokenFile: Option<TokenFile>)

  // ---------------------------------------------------------------------------
  // What the network supplies
  // ---------------------------------------------------------------------------

  /** A response body: `response.json()` either parses or raises. */
  datatype Body<B> = Malformed(reason: string) | Parsed(value: B)

  /** The outcome of one `requests` call with a 10 second timeout. */
  datatype Outcome<B> =
    | Timeout
    | ConnectionError
    | Raised(reason: string)
    | Replied(status: int, body: Body<B>)

  /** `data['data']` of a login reply; `None` is a missing key. */
  datatype LoginData = LoginData(accessToken: Option<string>, refreshToken: Option<string>, user: Option<User>)
  datatype LoginBody = LoginBody(success: bool, error: Option<string>, data: Option<LoginData>)

  datatype PermissionsData = PermissionsData(permissions: Option<MenuFlags>, accessibleAreas: Option<Areas>)
  datatype PermissionsBody = PermissionsBody(success: bool, data: Option<PermissionsData>)

  /** `valid` of a verify reply, `False` when the key is missing. */
  datatype VerifyBody = VerifyBody(valid: bool)

  datatype RefreshData = RefreshData(accessToken: Option<string>, user: Option<User>)
  datatype RefreshBody = RefreshBody(success: bool, data: Option<RefreshData>)

  /** What one `is_logged_in` call may meet: the verify reply, the refresh reply, the clock. */
  datatype Probe = Probe(verifyReply: Outcome<VerifyBody>, refreshReply: Outcome<RefreshBody>, now: int)

  /** The state after a transition and the boolean the source method returns. */
  datatype Step = Step(next: State, ok: bool)

  /** The state after `login` and its `(success, message)` pair. */
  datatype LoginResult = LoginResult(next: State, ok: bool, message: string)

  // ---------------------------------------------------------------------------
  // Constants
  // ---------------------------------------------------------------------------

  /** `timedelta(days=6)` in seconds. */
  const MaxTokenAge: int := 6 * 24 * 60 * 60

  const SuperAdmin := "super_admin"

  const LoginSucceeded := "Login berhasil"
  const LoginFailed := "Login gagal"
  const TimeoutMessage := "Koneksi timeout. Periksa koneksi internet Anda."
  const ConnectionMessage := "Tidak dapat terhubung ke server. Periksa koneksi internet Anda."

  /** `f"Error: {str(e)}"`. */
  function ErrorMessage(reason: string): string
  {
    "Error: " + reason
  }

  /** `str(KeyError(key))`: the key in single quotes. */
  function MissingKey(key: string): string
  {
    "'" + key + "'"
  }

  /** The fields of a fresh `LoginManager`, and of one after `_clear_tokens`. */
  const Empty := Session(None, None, None, map[], map[])

  // ---------------------------------------------------------------------------
  // Token file
  // ---------------------------------------------------------------------------

  /** `_clear_tokens`: forget the session and delete the token file. */
  function ClearTokens(st: State): State
  {
    State(Empty, None)
  }

  /** A session holding both tokens, the only kind `_save_tokens` writes. */
  predicate Authenticated(s: Session)
  {
    Truthy(s.accessToken) && Truthy(s.refreshToken)
  }

  /** `_save_tokens`: overwrite the file with the fields stamped `now`, if both tokens are set. */
  function SaveTokens(st: State, now: int): State
  {
    if Authenticated(st.session)
    then st.(tokenFile := Some(Sealed(TokenRecord(st.session, now))))
    else st
  }

  /** `_load_tokens`: take the fields from the file, unless it is unreadable or older than six days. */
  function LoadTokens(st: State, now: int): State
  {
    match st.tokenFile
    case None => st
    case Some(Unreadable) => ClearTokens(st)
    case Some(Sealed(record)) =>
      if now - record.savedAt > MaxTokenAge then ClearTokens(st)
      else st.(session := record.saved)
  }

  /** `LoginManager.__init__`: empty fields, then `_load_tokens`. */
  function Start(tokenFile: Option<TokenFile>, now: int): State
  {
    LoadTokens(State(Empty, tokenFile), now)
  }

  // ---------------------------------------------------------------------------
  // Network transitions
  // ---------------------------------------------------------------------------

  /**
   * `_load_permissions`: with an access token, a 200 reply whose `success`
   * holds replaces `permissions` and then `accessible_areas`; a missing key
   * stops the assignments where it is met; every other outcome changes nothing.
   */
  function LoadPermissions(st: State, reply: Outcome<PermissionsBody>): State
  {
    if !Truthy(st.session.accessToken) then st
    else match reply
      case Replied(status, Parsed(body)) =>
        if status == 200 && body.success && body.data.Some? && body.data.value.permissions.Some? then
          var withFlags := st.session.(permissions := body.data.value.permissions.value);
          match body.data.value.accessibleAreas
          case None => st.(session := withFlags)
          case Some(areas) => st.(session := withFlags.(accessibleAreas := areas))
        else st
      case _ => st
  }

  /** `login` after a 200 reply with `success`: assign the fields key by key, then fetch permissions and save. */
  function AcceptLogin(st: State, data: Option<LoginData>, permissionsReply: Outcome<PermissionsBody>, now: int): LoginResult
  {
    match data
    case None => LoginResult(st, false, ErrorMessage(MissingKey("data")))
    case Some(d) =>
      match d.accessToken
      case None => LoginResult(st, false, ErrorMessage(MissingKey("access_token")))
      case Some(access) =>
        var s1 := st.session.(accessToken := Some(access));
        match d.refreshToken
        case None => LoginResult(st.(session := s1), false, ErrorMessage(MissingKey("refresh_token")))
        case Some(refresh) =>
          var s2 := s1.(refreshToken := Some(refresh));
          match d.user
          case None => LoginResult(st.(session := s2), false, ErrorMessage(MissingKey("user")))
          case Some(user) =>
            var signedIn := st.(session := s2.(currentUser := Some(user)));
            LoginResult(SaveTokens(LoadPermissions(signedIn, permissionsReply), now), true, LoginSucceeded)
  }

  /** `login(username, password)` given the server's reply to the credentials. */
  function Login(st: State, reply: Outcome<LoginBody>, permissionsReply: Outcome<PermissionsBody>, now: int): LoginResult
  {
    match reply
    case Timeout => LoginResult(st, false, TimeoutMessage)
    case ConnectionError => LoginResult(st, false, ConnectionMessage)
    case Raised(reason) => LoginResult(st, false, ErrorMessage(reason))
    case Replied(_, Malformed(reason)) => LoginResult(st, false, ErrorMessage(reason))
    case Replied(status, Parsed(body)) =>
      if status == 200 && body.success then AcceptLogin(st, body.data, permissionsReply, now)
      else LoginResult(st, false, if body.error.Some? then body.error.value else LoginFailed)
  }

  /** `verify_token`: a 200 reply whose `valid` holds; every failure is `False`. */
  function Verify(st: State, reply: Outcome<VerifyBody>): bool
  {
    Truthy(st.session.accessToken) &&
    match reply
    case Replied(200, Parsed(body)) => body.valid
    case _ => false
  }

  /**
   * `refresh_access_token`: with a refresh token, a 200 reply whose `success`
   * holds replaces the access token and then the user, and saves; a missing
   * key stops the assignments where it is met and the call returns `False`.
   */
  function Refresh(st: State, reply: Outcome<RefreshBody>, now: int): Step
  {
    if !Truthy(st.session.refreshToken) then Step(st, false)
    else match reply
      case Replied(status, Parsed(body)) =>
        if status == 200 && body.success && body.data.Some? && body.data.value.accessToken.Some? then
          var renewed := st.session.(accessToken := body.data.value.accessToken);
          match body.data.value.user
          case None => Step(st.(session := renewed), false)
          case Some(user) => Step(SaveTokens(st.(session := renewed.(currentUser := Some(user))), now), true)
        else Step(st, false)
      case _ => Step(st, false)
  }

  /** `is_logged_in`: verify, else refresh, else clear. */
  function IsLoggedIn(st: State, probe: Probe): Step
  {
    if !Truthy(st.session.accessToken) then Step(st, false)
    else if Verify(st, probe.verifyReply) then Step(st, true)
    else
      var refreshed := Refresh(st, probe.refreshReply, probe.now);
      if refreshed.ok then refreshed
      else Step(ClearTokens(refreshed.next), false)
  }

  /** `logout`: clear, and report `True`. */
  function Logout(st: State): Step
  {
    Step(ClearTokens(st), true)
  }

  // ---------------------------------------------------------------------------
  // Read-only queries
  // ---------------------------------------------------------------------------

  /** The two kinds of area a user can be assigned. */
  datatype Scope = Desa | Kelompok
  {
    /** The key in `accessible_areas`. */
    function Key(): string
    {
      match this
      case Desa => "desa"
      case Kelompok => "kelompok"
    }

    /** The full list `get_accessible_desa` / `get_accessible_kelompok` give a super admin. */
    function Catalogue(): seq<string>
    {
      match this
      case Desa => DesaCatalogue
      case Kelompok => KelompokCatalogue
    }
  }

  const DesaCatalogue: seq<string> := [
    "BANDARA", "CENGKARENG", "CIPONDOH", "JELAMBAR", "KALIDERES", "KEBON JAHE",
    "TAMAN KOTA", "KAPUK MELATI"]

  const KelompokCatalogue: seq<string> := [
    "TEGAL ALUR A", "TEGAL ALUR B", "PREPEDAN A", "PREPEDAN B", "KEBON KELAPA",
    "PRIMA", "RAWA LELE", "KAMPUNG DURI", "FAJAR A", "FAJAR B", "FAJAR C",
    "DAMAI", "JAYA", "INDAH", "PEJAGALAN", "BGN", "MELATI A", "MELATI B",
    "GRIYA PERMATA", "SEMANAN A", "SEMANAN B", "PONDOK BAHAR",
    "KEBON JAHE A", "KEBON JAHE B", "GARIKAS", "TANIWAN",
    "TAMAN KOTA A", "TAMAN KOTA B", "RAWA BUAYA A", "RAWA BUAYA B"]

  /** `current_user and current_user.get('role') == 'super_admin'`. */
  predicate IsSuperAdmin(s: Session)
  {
    s.currentUser.Some? && s.currentUser.value.role == Some(SuperAdmin)
  }

  /** `accessible_areas.get(key, [])`. */
  function AssignedAreas(s: Session, scope: Scope): seq<string>
  {
    if scope.Key() in s.accessibleAreas then s.accessibleAreas[scope.Key()] else []
  }

  /** `has_permission(menu_name, action)`. */
  function HasPermission(s: Session, menuName: string, action: string): (allowed: bool)
    ensures s.permissions == map[] || menuName !in s.permissions ==> !allowed
    ensures allowed ==>
      menuName in s.permissions && "can_" + action in s.permissions[menuName] && s.permissions[menuName]["can_" + action]
  {
    if s.permissions == map[] then false
    else
      var flags := if menuName in s.permissions then s.permissions[menuName] else map[];
      var key := "can_" + action;
      if key in flags then flags[key] else false
  }

  /** `can_access_desa(name)` / `can_access_kelompok(name)`. */
  function CanAccess(s: Session, scope: Scope, name: string): (allowed: bool)
    ensures s.currentUser.None? ==> !allowed
    ensures IsSuperAdmin(s) ==> allowed
    ensures allowed && !IsSuperAdmin(s) ==> name in AssignedAreas(s, scope)
  {
    if s.currentUser.None? then false
    else if IsSuperAdmin(s) then true
    else name in AssignedAreas(s, scope)
  }

  /** `get_accessible_desa()` / `get_accessible_kelompok()`. */
  function Accessible(s: Session, scope: Scope): (names: seq<string>)
    ensures IsSuperAdmin(s) ==> names == scope.Catalogue()
    ensures s.currentUser.Some? ==> forall x :: x in names ==> CanAccess(s, scope, x)
    ensures s.currentUser.Some? && !IsSuperAdmin(s) ==> forall x :: CanAccess(s, scope, x) ==> x in names
  {
    if IsSuperAdmin(s) then scope.Catalogue() else AssignedAreas(s, scope)
  }

  // ---------------------------------------------------------------------------
  // Properties of the token file
  // ---------------------------------------------------------------------------

  /** `_clear_tokens` leaves no token, no user, no permissions, no areas and no file; a second call changes nothing. */
  lemma ClearTokensForgetsEverything(st: State)
    ensures var cleared := ClearTokens(st);
      && cleared.session.accessToken == None && cleared.session.refreshToken == None
      && cleared.session.currentUser == None
      && cleared.session.permissions == map[] && cleared.session.accessibleAreas == map[]
      && cleared.tokenFile == None
      && ClearTokens(cleared) == cleared
  {
  }

  /** `_save_tokens` writes the fields stamped `now` exactly when both tokens are set, and never touches the fields. */
  lemma SaveTokensWritesOnlyAuthenticated(st: State, now: int)
    ensures SaveTokens(st, now).session == st.session
    ensures Authenticated(st.session) ==> SaveTokens(st, now).tokenFile == Some(Sealed(TokenRecord(st.session, now)))
    ensures !Authenticated(st.session) ==> SaveTokens(st, now) == st
  {
  }

  /** Saving and loading again within six days gives back the saved fields; a restarted manager sees them too. */
  lemma SaveThenLoadRoundTrip(st: State, savedAt: int, now: int)
    requires Authenticated(st.session)
    requires now - savedAt <= MaxTokenAge
    ensures LoadTokens(SaveTokens(st, savedAt), now) == SaveTokens(st, savedAt)
    ensures Start(SaveTokens(st, savedAt).tokenFile, now).session == st.session
  {
  }

  /** A file older than six days, or one that does not decrypt, is deleted and the session cleared. */
  lemma LoadTokensDiscardsStaleOrUnreadable(st: State, now: int)
    requires st.tokenFile == Some(Unreadable)
      || (st.tokenFile.Some? && st.tokenFile.value.Sealed? && now - st.tokenFile.value.record.savedAt > MaxTokenAge)
    ensures LoadTokens(st, now) == State(Empty, None)
  {
  }

  /** Exactly six days old is still fresh: the comparison is strict. */
  lemma SixDaysIsStillFresh(record: TokenRecord, session: Session)
    ensures LoadTokens(State(session, Some(Sealed(record))), record.savedAt + MaxTokenAge).session == record.saved
    ensures LoadTokens(State(session, Some(Sealed(record))), record.savedAt + MaxTokenAge + 1).session == Empty
  {
  }

  /** Without a token file `_load_tokens` does nothing. */
  lemma LoadTokensWithoutFile(st: State, now: int)
    requires st.tokenFile == None
    ensures LoadTokens(st, now) == st
  {
  }

  // ---------------------------------------------------------------------------
  // Properties of login
  // ---------------------------------------------------------------------------

  /** A 200 reply with `success` and complete data. */
  predicate LoginAccepted(reply: Outcome<LoginBody>)
  {
    && reply.Replied? && reply.status == 200 && reply.body.Parsed?
    && reply.body.value.success && reply.body.value.data.Some?
    && reply.body.value.data.value.accessToken.Some?
    && reply.body.value.data.value.refreshToken.Some?
    && reply.body.value.data.value.user.Some?
  }

  /**
   * A login succeeds exactly on an accepted reply. It then holds the reply's
   * tokens and user, the permissions fetched afterwards, and the file saved
   * from those fields at `now`.
   */
  lemma LoginSucceedsOnlyWhenAccepted(st: State, reply: Outcome<LoginBody>, permissionsReply: Outcome<PermissionsBody>, now: int)
    ensures Login(st, reply, permissionsReply, now).ok <==> LoginAccepted(reply)
    ensures LoginAccepted(reply) ==>
      var data := reply.body.value.data.value;
      var signedIn := st.(session := st.session.(accessToken := data.accessToken, refreshToken := data.refreshToken,
                                                  currentUser := data.user));
      && Login(st, reply, permissionsReply, now) ==
           LoginResult(SaveTokens(LoadPermissions(signedIn, permissionsReply), now), true, LoginSucceeded)
    ensures LoginAccepted(reply) ==>
      var data := reply.body.value.data.value;
      var next := Login(st, reply, permissionsReply, now).next;
      && next.session.accessToken == data.accessToken
      && next.session.refreshToken == data.refreshToken
      && next.session.currentUser == data.user
      && (Authenticated(next.session) ==> next.tokenFile == Some(Sealed(TokenRecord(next.session, now))))
      && (!Authenticated(next.session) ==> next.tokenFile == st.tokenFile)
  {
  }

  /** A reply that is not a 200 with `success` leaves the state alone and reports the server's `error`, or "Login gagal". */
  lemma LoginRejectedKeepsState(st: State, status: int, body: LoginBody, permissionsReply: Outcome<PermissionsBody>, now: int)
    requires !(status == 200 && body.success)
    ensures var result := Login(st, Replied(status, Parsed(body)), permissionsReply, now);
      && result.next == st && !result.ok
      && result.message == (if body.error.Some? then body.error.value else LoginFailed)
  {
  }

  /** Network failures leave the state alone and map to fixed messages. */
  lemma LoginNetworkFailures(st: State, permissionsReply: Outcome<PermissionsBody>, now: int, reason: string)
    ensures Login(st, Timeout, permissionsReply, now) == LoginResult(st, false, TimeoutMessage)
    ensures Login(st, ConnectionError, permissionsReply, now) == LoginResult(st, false, ConnectionMessage)
    ensures Login(st, Raised(reason), permissionsReply, now) == LoginResult(st, false, "Error: " + reason)
  {
  }

  /**
   * A failed permissions fetch does not fail the login: `permissions` and
   * `accessible_areas` keep the values they had before the login.
   */
  lemma PermissionsFailureKeepsOldPermissions(st: State, reply: Outcome<LoginBody>, permissionsReply: Outcome<PermissionsBody>, now: int)
    requires LoginAccepted(reply)
    requires !(permissionsReply.Replied? && permissionsReply.status == 200 && permissionsReply.body.Parsed?
               && permissionsReply.body.value.success)
    ensures var result := Login(st, reply, permissionsReply, now);
      && result.ok
      && result.next.session.permissions == st.session.permissions
      && result.next.session.accessibleAreas == st.session.accessibleAreas
  {
  }

  /**
   * A reply whose data lacks `refresh_token` fails the login, yet the access
   * token it carried has already been stored: a session can hold an access
   * token without a refresh token.
   */
  lemma LoginMissingRefreshTokenKeepsAccessToken(st: State, access: string, error: Option<string>, user: Option<User>,
                                                 permissionsReply: Outcome<PermissionsBody>, now: int)
    ensures Login(st, Replied(200, Parsed(LoginBody(true, error, Some(LoginData(Some(access), None, user))))), permissionsReply, now)
      == LoginResult(st.(session := st.session.(accessToken := Some(access))), false, "Error: 'refresh_token'")
    ensures var reply := Replied(200, Parsed(LoginBody(true, None, Some(LoginData(Some(access), None, None)))));
      var result := Login(State(Empty, None), reply, permissionsReply, now);
      && !result.ok
      && result.message == "Error: 'refresh_token'"
      && result.next.session.accessToken == Some(access)
      && result.next.session.refreshToken == None
  {
  }

  // ---------------------------------------------------------------------------
  // Properties of refresh and is_logged_in
  // ---------------------------------------------------------------------------

  /** `verify_token` is `True` exactly for an access token and a 200 reply whose `valid` holds. */
  lemma VerifyAcceptsOnlyValidReply(st: State, reply: Outcome<VerifyBody>)
    ensures Verify(st, reply) <==> Truthy(st.session.accessToken) && reply == Replied(200, Parsed(VerifyBody(true)))
  {
  }

  /** Without a refresh token nothing is asked and nothing changes. */
  lemma RefreshNeedsRefreshToken(st: State, reply: Outcome<RefreshBody>, now: int)
    requires !Truthy(st.session.refreshToken)
    ensures Refresh(st, reply, now) == Step(st, false)
  {
  }

  /** A 200 reply with `success`, a new access token and a user. */
  predicate RefreshAccepted(reply: Outcome<RefreshBody>)
  {
    && reply.Replied? && reply.status == 200 && reply.body.Parsed?
    && reply.body.value.success && reply.body.value.data.Some?
    && reply.body.value.data.value.accessToken.Some?
    && reply.body.value.data.value.user.Some?
  }

  /**
   * A refresh succeeds exactly when there is a refresh token and the reply is
   * accepted. Whatever the reply, it never changes the refresh token, the
   * permissions or the areas. On success it holds the new access token and
   * user and the file is saved from them.
   */
  lemma RefreshReplacesOnlyAccessTokenAndUser(st: State, reply: Outcome<RefreshBody>, now: int)
    ensures Refresh(st, reply, now).ok <==> Truthy(st.session.refreshToken) && RefreshAccepted(reply)
    ensures var step := Refresh(st, reply, now);
      && step.next.session.refreshToken == st.session.refreshToken
      && step.next.session.permissions == st.session.permissions
      && step.next.session.accessibleAreas == st.session.accessibleAreas
    ensures var step := Refresh(st, reply, now);
      step.ok ==>
        && reply.Replied? && reply.status == 200 && reply.body.Parsed? && reply.body.value.success
        && reply.body.value.data.Some?
        && var data := reply.body.value.data.value;
        && data.user.Some?
        && step.next == SaveTokens(st.(session := st.session.(accessToken := data.accessToken, currentUser := data.user)), now)
    ensures var step := Refresh(st, reply, now);
      !step.ok ==> step.next.tokenFile == st.tokenFile && step.next.session.currentUser == st.session.currentUser
  {
  }

  /**
   * A 200 `success` reply with a new access token but no `user` fails the
   * refresh, yet the new access token has already replaced the old one.
   */
  lemma RefreshMissingUserKeepsNewAccessToken(st: State, access: string, now: int)
    requires Truthy(st.session.refreshToken)
    ensures Refresh(st, Replied(200, Parsed(RefreshBody(true, Some(RefreshData(Some(access), None))))), now)
      == Step(st.(session := st.session.(accessToken := Some(access))), false)
  {
  }

  /** `is_logged_in` with no access token is `False` and changes nothing. */
  lemma IsLoggedInWithoutAccessToken(st: State, probe: Probe)
    requires !Truthy(st.session.accessToken)
    ensures IsLoggedIn(st, probe) == Step(st, false)
  {
  }

  /** A successful verify answers `True` without refreshing: the state is untouched. */
  lemma IsLoggedInVerifiedSkipsRefresh(st: State, probe: Probe)
    requires Verify(st, probe.verifyReply)
    ensures IsLoggedIn(st, probe) == Step(st, true)
  {
  }

  /** After a failed verify, the answer is the refresh's; a failed refresh clears the session and the file. */
  lemma IsLoggedInFallsBackToRefresh(st: State, probe: Probe)
    requires Truthy(st.session.accessToken) && !Verify(st, probe.verifyReply)
    ensures var refreshed := Refresh(st, probe.refreshReply, probe.now);
      IsLoggedIn(st, probe) == if refreshed.ok then refreshed else Step(State(Empty, None), false)
  {
  }

  /**
   * An expired access token is recovered by refresh: after a failed verify, an
   * accepted refresh reply answers `True` with the new access token and user,
   * saved to the file.
   */
  lemma IsLoggedInRecoversByRefresh(st: State, probe: Probe)
    requires Truthy(st.session.accessToken) && !Verify(st, probe.verifyReply)
    requires Truthy(st.session.refreshToken) && RefreshAccepted(probe.refreshReply)
    ensures var step := IsLoggedIn(st, probe);
      var data := probe.refreshReply.body.value.data.value;
      && step.ok
      && step.next.session == st.session.(accessToken := data.accessToken, currentUser := data.user)
      && (Truthy(data.accessToken) ==> step.next.tokenFile == Some(Sealed(TokenRecord(step.next.session, probe.now))))
  {
  }

  /** `is_logged_in` only ever answers `False` from a session without an access token or after clearing it. */
  lemma IsLoggedInFalseMeansCleared(st: State, probe: Probe)
    ensures var step := IsLoggedIn(st, probe);
      !step.ok ==> (!Truthy(st.session.accessToken) && step.next == st) || step.next == State(Empty, None)
  {
  }

  /** After `logout` the next `is_logged_in` is `False`, whatever the server would say. */
  lemma LogoutThenNotLoggedIn(st: State, probe: Probe)
    ensures Logout(st).ok
    ensures Logout(st).next.tokenFile == None
    ensures IsLoggedIn(Logout(st).next, probe) == Step(State(Empty, None), false)
  {
  }

  // ---------------------------------------------------------------------------
  // Properties of the queries
  // ---------------------------------------------------------------------------

  /** `has_permission` is the stored flag `can_<action>` of the menu, and `False` when anything is missing. */
  lemma HasPermissionIsStoredFlag(s: Session, menuName: string, action: string)
    ensures HasPermission(s, menuName, action) <==>
      menuName in s.permissions && "can_" + action in s.permissions[menuName]
      && s.permissions[menuName]["can_" + action]
  {
  }

  /** A super admin may access every name, including names outside the catalogue. */
  lemma SuperAdminAccessesAnyName(s: Session, scope: Scope, name: string)
    requires IsSuperAdmin(s)
    ensures CanAccess(s, scope, name)
    ensures Accessible(s, scope) == scope.Catalogue()
  {
  }

  /** For anyone else, the access check is membership in the list the getter returns; without a user it is `False`. */
  lemma CanAccessMatchesAccessible(s: Session, scope: Scope, name: string)
    requires !IsSuperAdmin(s)
    ensures CanAccess(s, scope, name) <==> s.currentUser.Some? && name in Accessible(s, scope)
    ensures Accessible(s, scope) == AssignedAreas(s, scope)
  {
  }

  /** The catalogues hold 8 desa and 30 kelompok, with no name twice. */
  lemma CatalogueSizes()
    ensures |Desa.Catalogue()| == 8 && |Kelompok.Catalogue()| == 30
    ensures forall i, j :: 0 <= i < j < |DesaCatalogue| ==> DesaCatalogue[i] != DesaCatalogue[j]
  {
  }
}
