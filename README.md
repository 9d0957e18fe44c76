# Session and permission core of the membership admin client

This project models the session and permission logic of a desktop client for a membership-administration API. The client tracks desa (villages) and kelompok (groups). The model covers three parts:

- **`LoginManager`** (auth/login_manager.py) keeps five fields: the access token, the refresh token, the current user, the menu permissions and the accessible areas. It also keeps an encrypted token file on disk. It logs in, fetches permissions, verifies and refreshes the access token, logs out, and loads or saves the token file. The file expires after six days. Read-only queries answer permission and area questions. A super admin gets fixed catalogues of 8 desa and 30 kelompok.
- **`PermissionManager`** (auth/permission_manager.py) derives capabilities from the login manager. It checks menus, filters option lists, builds the SQL `WHERE` clause, checks participant access and formats display strings. Every query first runs `is_logged_in`, which may refresh or clear the session.
- **The `GET /api/user/permissions` handler** (api/user/permissions.js) gates the HTTP method and the `Bearer ` header. It takes the token from the header. It folds the role's `role_permissions` rows into a menu-to-flags map and defaults the areas to empty lists.

Files:

- `common.dfy` (`Common`) holds `Option` and Python truthiness of an optional string.
- `text.dfy` (`Text`) holds `str.join`, decimal printing of counts, and the quoted `IN (...)` list. The decimal printing and the quoted list each have a reader, and are proved to round-trip through it. `Join` has no reader. Its lemmas only fix the one-part and two-part cases and the leading part.
- `session.dfy` (`SessionModel`) models the login manager as values. Each transition is a function from the old state and the environment's input to the new state. The properties are proved there.
- `login_manager.dfy` (`Auth`) holds the class `LoginManager`. Its fields change in place, one step at a time, as in the source. Each method's postcondition equates the new fields and file with the matching `SessionModel` transition.
- `permission_manager.dfy` (`Access`) holds the permission rules as functions and the class `PermissionManager`. The class's methods run `IsLoggedIn` on the login manager, then compute the answer.
- `permissions_api.dfy` (`PermissionsApi`) holds the server handler. JWT verification and the database query are function parameters. The `forEach` fold is a loop.
- `end_to_end.dfy` (`EndToEnd`) feeds a reply of the handler to the client and proves what `has_permission` and the area checks then answer.

Inputs from the environment:

- Each network call is an `Outcome`: `Timeout`, `ConnectionError`, `Raised(reason)` (any other exception), or `Replied(status, body)`. The body either parsed or failed to parse.
- A key missing from a success payload is `None`, and reading it raises `KeyError`.
- The clock is an integer `now` in seconds. The token file is `Sealed(record)` or `Unreadable`.

In several places the code does not do what a reader of its names would expect. The model follows the code:

- One might expect a failed login or refresh to leave the state unchanged. The code assigns the fields one by one, so a reply missing `refresh_token` (login) or `user` (refresh) leaves the earlier assignments in place. This shows in `LoginMissingRefreshTokenKeepsAccessToken` and `RefreshMissingUserKeepsNewAccessToken`. It also means that the access and refresh tokens are not always both present or both absent.
- One might expect a failed permissions fetch to leave empty permission maps. In the code, `permissions` and `accessible_areas` keep their previous values (`PermissionsFailureKeepsOldPermissions`).
- On the server, an exception thrown by the permissions query is caught by the JWT `catch`. It answers 401, not 500. Only an `error` returned by the query answers 500.

Observations the proofs make explicit:

- For a super admin, the area checks accept any name. The option filters, however, keep only catalogue names (`SuperAdminFilterUsesCatalogue`).
- Values go into the SQL `IN (...)` list verbatim. A list reads back only when no name contains a single quote (`InConditionReadsBack`, `Text.QuoteInNameBreaksList`).

## Model

| member | source | states |
|---|---|---|
| Auth.LoginManager.constructor | auth/login_manager.py:8-19 | A new manager starts with empty fields, then applies `_load_tokens` to whatever token file exists. |
| Auth.LoginManager.ClearTokens | auth/login_manager.py:70-78 | Resets all five fields and deletes the token file. |
| Auth.LoginManager.SaveTokens | auth/login_manager.py:32-45 | Writes the fields stamped with `now` when both tokens are set. Otherwise nothing changes. |
| Auth.LoginManager.LoadTokens | auth/login_manager.py:47-68 | Copies the saved fields, then clears everything if the file is older than six days. An unreadable file is cleared. A missing file changes nothing. |
| Auth.LoginManager.Login | auth/login_manager.py:80-115 | The fields, file, result and message are those of `SessionModel.Login`, including the key-by-key assignment order. |
| Auth.LoginManager.LoadPermissions | auth/login_manager.py:117-135 | Without an access token, nothing happens. A 200 reply with `success` replaces `permissions`, then `accessible_areas`. Anything else changes nothing. |
| Auth.LoginManager.VerifyToken | auth/login_manager.py:137-151 | True only with an access token and a 200 reply whose `valid` holds. Changes nothing. |
| SessionModel.VerifyAcceptsOnlyValidReply | auth/login_manager.py:137-151 | `verify_token` is true if and only if there is an access token and the reply is a 200 whose `valid` is true. A timeout, a connection error, a malformed body or any other status gives false. |
| Auth.LoginManager.RefreshAccessToken | auth/login_manager.py:153-175 | The fields, file and result are those of `SessionModel.Refresh`. |
| Auth.LoginManager.Logout | auth/login_manager.py:177-179 | Clears the session and the file, and returns true. |
| Auth.LoginManager.IsLoggedIn | auth/login_manager.py:181-192 | Runs verify, then refresh, then clear, with the state and answer of `SessionModel.IsLoggedIn`. |
| SessionModel.ClearTokensForgetsEverything | auth/login_manager.py:70-78 | After clearing, no token, user, permissions, areas or file remain. Clearing twice equals clearing once. |
| SessionModel.SaveTokensWritesOnlyAuthenticated | auth/login_manager.py:32-45 | The file gets the fields and `now` exactly when both tokens are truthy. The fields never change. |
| SessionModel.SaveThenLoadRoundTrip | auth/login_manager.py:32-68 | Loading within six days of a save restores the saved fields. A restarted manager sees them too. |
| SessionModel.LoadTokensDiscardsStaleOrUnreadable | auth/login_manager.py:62-68 | A file older than six days, or one that fails to decrypt or parse, is deleted and the session cleared. |
| SessionModel.SixDaysIsStillFresh | auth/login_manager.py:62-64 | The age comparison is strict: exactly six days still loads, one second more clears. |
| SessionModel.LoadTokensWithoutFile | auth/login_manager.py:47-48 | With no token file, loading changes nothing. |
| SessionModel.LoginSucceedsOnlyWhenAccepted | auth/login_manager.py:93-103 | Login returns true if and only if it gets a 200 reply with `success` and complete data. It then stores the tokens and user, fetches permissions, saves, and says "Login berhasil". Afterwards the tokens and user are the reply's. The file holds the new fields stamped `now` when both tokens are non-empty; otherwise the file is as before. |
| SessionModel.LoginRejectedKeepsState | auth/login_manager.py:104-108 | A non-200 reply, or one with `success` false, leaves the state unchanged. It returns the server's `error`, or "Login gagal". |
| SessionModel.LoginNetworkFailures | auth/login_manager.py:110-115 | A timeout, a connection error or another exception leaves the state unchanged and gives the fixed messages, or "Error: " followed by the reason. |
| SessionModel.PermissionsFailureKeepsOldPermissions | auth/login_manager.py:100-135 | A failed permissions fetch still lets login succeed. `permissions` and `accessible_areas` keep their previous values. |
| SessionModel.LoginMissingRefreshTokenKeepsAccessToken | auth/login_manager.py:96-97 | From any state, a success payload without `refresh_token` fails with "Error: 'refresh_token'". The new access token has already replaced the old one, and the refresh token, user, permissions, areas and file are kept. From an empty session this leaves an access token with no refresh token. |
| SessionModel.RefreshNeedsRefreshToken | auth/login_manager.py:153-155 | Without a refresh token, refresh returns false and changes nothing. |
| SessionModel.RefreshReplacesOnlyAccessTokenAndUser | auth/login_manager.py:153-175 | A refresh returns true if and only if there is a refresh token and a 200 reply with `success`, a new access token and a user. A refresh never changes the refresh token, permissions or areas. On success it stores the new access token and user and saves. On failure the user and file are unchanged. |
| SessionModel.RefreshMissingUserKeepsNewAccessToken | auth/login_manager.py:164-168 | A 200 `success` reply with an access token but no `user` makes refresh return false. The new access token has already replaced the old one, and nothing else changes. |
| SessionModel.IsLoggedInWithoutAccessToken | auth/login_manager.py:181-183 | With no access token, the answer is false and nothing changes. |
| SessionModel.IsLoggedInVerifiedSkipsRefresh | auth/login_manager.py:185-186 | A successful verify answers true and leaves the state untouched, with no refresh. |
| SessionModel.IsLoggedInFallsBackToRefresh | auth/login_manager.py:188-192 | After a failed verify, the refresh result decides. If refresh fails too, the session and file are cleared. |
| SessionModel.IsLoggedInRecoversByRefresh | auth/login_manager.py:181-192 | After a failed verify, an accepted refresh reply makes `is_logged_in` true. The session then holds the new access token and user, and the file is saved from them. |
| SessionModel.IsLoggedInFalseMeansCleared | auth/login_manager.py:181-192 | A false answer means either there was no access token (state unchanged) or the state is now cleared. |
| SessionModel.LogoutThenNotLoggedIn | auth/login_manager.py:177-192 | Logout returns true and removes the file. The next `is_logged_in` is false whatever the server says. |
| SessionModel.HasPermissionIsStoredFlag | auth/login_manager.py:197-203 | `has_permission` holds exactly when the menu's stored `can_<action>` flag exists and is true. |
| SessionModel.HasPermission | auth/login_manager.py:197-203 | With no permissions, or no entry for the menu, the answer is false. A true answer means the menu's `can_<action>` flag is stored and true. |
| SessionModel.CanAccess | auth/login_manager.py:205-223 | Without a user the answer is false. A super admin is always allowed. Anyone else is allowed only for names in the assigned list under `desa` or `kelompok`. |
| SessionModel.Accessible | auth/login_manager.py:225-242 | A super admin gets the catalogue. With a user signed in, every returned name passes the access check. For anyone but a super admin, the names that pass are exactly the returned ones. |
| SessionModel.SuperAdminAccessesAnyName | auth/login_manager.py:205-242 | A super admin may access any desa or kelompok name. The getters return the fixed catalogues. |
| SessionModel.CanAccessMatchesAccessible | auth/login_manager.py:205-242 | For anyone else, the access check is membership in the stored list (default empty), which the getter returns. Without a user, the check is false. |
| SessionModel.CatalogueSizes | auth/login_manager.py:225-240 | The catalogues hold 8 desa and 30 kelompok. No desa appears twice. |
| Access.PermissionManager.CheckMenu | auth/permission_manager.py:16-58 | False when not logged in. Otherwise the menu rule applies to the session left by `is_logged_in`. |
| Access.PermissionManager.constructor | auth/permission_manager.py:2-14 | The manager keeps the login manager it is given. The table of seven menus is the module constant `MenuNames`. |
| Access.PermissionManager.CanAccessMenu | auth/permission_manager.py:16-25 | `CheckMenu` with action "view". |
| Access.PermissionManager.CanCreateData | auth/permission_manager.py:27-36 | `CheckMenu` with action "create". |
| Access.PermissionManager.CanEditData | auth/permission_manager.py:38-47 | `CheckMenu` with action "edit". |
| Access.PermissionManager.CanDeleteData | auth/permission_manager.py:49-58 | `CheckMenu` with action "delete". |
| Access.MenuAllowedFallsBackToAllowed | auth/permission_manager.py:6-25 | The table has seven keys. An unmapped key is allowed. A mapped key is `has_permission` of its display name. |
| Access.NoPermissionsRefusesMappedMenus | auth/permission_manager.py:21-25 | With no stored permissions, exactly the unmapped keys are allowed. |
| Access.PermissionManager.FilterAreaOptions | auth/permission_manager.py:60-80 | Not logged in gives an empty list. An empty accessible list returns the input. Otherwise the input is filtered by the accessible list. |
| Access.KeepAllowed | auth/permission_manager.py:69 | The result holds exactly the options that are in the allowed list, as a subsequence of the input. |
| Access.KeepAllowedCounts | auth/permission_manager.py:69 | Each allowed option is kept as many times as it occurs. Nothing else is kept. |
| Access.FilterOptionsCases | auth/permission_manager.py:60-80 | With no areas, options pass through. Otherwise the result is the accessible options, in input order, with their multiplicities. |
| Access.SuperAdminFilterUsesCatalogue | auth/permission_manager.py:65-69 | For a super admin the filter keeps only catalogue names. A desa outside the catalogue passes the access check but is dropped. |
| Access.PermissionManager.GetDataFilterClause | auth/permission_manager.py:82-111 | Builds the `conditions` list by appending. Not logged in gives "1=0". Otherwise the result is `DataFilterClause` of the session. |
| Access.DataFilterClauseExtremes | auth/permission_manager.py:84-111 | A super admin gets "1=1". Anyone else gets "1=0" exactly when both area lists are empty. |
| Access.DataFilterClauseJoinsTests | auth/permission_manager.py:91-109 | The clause is the desa test, the kelompok test, or both joined by " OR ", each only when its list is non-empty. |
| Access.InConditionReadsBack | auth/permission_manager.py:96-106 | The test is `<column> IN (...)`. The quoted list inside reads back to the names when none contains a quote. |
| Access.PermissionManager.CanAccessParticipantData | auth/permission_manager.py:113-126 | False when not logged in. Otherwise it applies the participant rule. |
| Access.ParticipantAllowedMeansBothChecks | auth/permission_manager.py:118-126 | An empty or missing desa or kelompok is skipped. Each given one must pass its access check. |
| Access.PermissionManager.GetUserInfoDisplay | auth/permission_manager.py:128-147 | "Tidak login" when not logged in or without a user. Otherwise `username (RoleLabel)`. |
| Access.UserInfoShowsRoleLabel | auth/permission_manager.py:137-147 | Each of the four known roles shows its label, and distinct roles show distinct labels. An unknown role shows its raw text. A missing username shows as the empty string. |
| Access.RoleLabel | auth/permission_manager.py:137-144 | A known role maps to its label, which is never itself a role key. An unknown role is shown as it is. A missing role is the empty string. |
| Access.UserInfo | auth/permission_manager.py:144-147 | The display is the username (or the empty string), then " (", the role's label, and ")". |
| Access.PermissionManager.GetAccessibleAreasDisplay | auth/permission_manager.py:149-172 | Builds `areas` with append and `areas[-1] +=`. Not logged in gives "". Otherwise the result is `AreasDisplay` of the session. |
| Access.AreaSummaryCountsHidden | auth/permission_manager.py:162-170 | Past the limit, the summary shows the first names and " (+n lainnya)". Reading n back gives the number of names not shown. |
| Access.AppendSummary | auth/permission_manager.py:161-170 | Appending an area's first line and then, past the limit, adding the ` (+n lainnya)` suffix to it leaves the list extended by that area's summary. |
| Access.AreasDisplayExamples | auth/permission_manager.py:155-172 | A super admin gets "Akses: Semua Area". No areas gives "Akses: Terbatas". Five desa give "Akses: Desa: A, B, C (+2 lainnya)". |
| Access.AreasDisplayBoth | auth/permission_manager.py:161-172 | With both desa and kelompok, the display is "Akses: ", the desa summary, " | ", then the kelompok summary. |
| Access.FiveDesaDisplay | auth/permission_manager.py:158-172 | Five desa and no kelompok display as "Akses: Desa: A, B, C (+2 lainnya)". |
| Text.DecimalRoundTrip | auth/permission_manager.py:165 | The printed count `str(n)` reads back as n. |
| Text.QuotedListRoundTrip | auth/permission_manager.py:97-99 | `','.join(f"'{x}'")` of quote-free names parses back to the same list. |
| Text.QuoteInNameBreaksList | auth/permission_manager.py:97-98 | A list in which any name contains a single quote never reads back as itself. |
| Text.ParsedNamesAreQuoteFree | auth/permission_manager.py:97-98 | Every value the reader gives back is free of single quotes. |
| Text.QuotedApostropheExample | auth/permission_manager.py:98 | "O'BRIEN" is quoted verbatim as `'O'BRIEN'`, which does not read back at all. |
| PermissionsApi.Handle | api/user/permissions.js:16-80 | OPTIONS gives 200 with no body. Any other non-GET gives 405. A missing or non-Bearer header gives 401 "Token tidak ditemukan". An invalid token or a thrown query gives 401. A query error gives 500. Otherwise 200 with the folded map and the areas. |
| PermissionsApi.BuildMenuPermissions | api/user/permissions.js:45-53 | The loop over the rows yields the map of the fold, with each row overwriting its menu's entry. |
| PermissionsApi.MenuPermissionsOf | api/user/permissions.js:45-53 | The fold has at most one entry per row. |
| PermissionsApi.EveryMenuHasFourFlags | api/user/permissions.js:47-52 | Every entry of the map holds exactly `can_view`, `can_create`, `can_edit` and `can_delete`. |
| PermissionsApi.BearerTokenRoundTrip | api/user/permissions.js:25-30 | "Bearer " + t passes the gate and yields t. The check is case-sensitive. |
| PermissionsApi.HasBearer | api/user/permissions.js:25-27 | The gate passes if and only if a header is present and starts with "Bearer ". An empty header fails. |
| PermissionsApi.BearerToken | api/user/permissions.js:30 | For a header starting with "Bearer ", the prefix followed by the token is the header. The token is never longer than the header. |
| PermissionsApi.MenuPermissionsKeys | api/user/permissions.js:45-53 | The map's keys are exactly the rows' `menu_name` values. |
| PermissionsApi.LastRowWins | api/user/permissions.js:46-52 | Each menu holds the four flags of the last row that names it. |
| PermissionsApi.GrantDefaultsAreas | api/user/permissions.js:66-69 | The reply's desa and kelompok lists are the token's, or empty when absent. |
| EndToEnd.GrantReplacesPermissionsAndAreas | auth/login_manager.py:128-132 | A granted reply replaces the client's permissions with the folded map and its areas with the token's lists. Tokens and user are untouched. |
| EndToEnd.ClientView | auth/login_manager.py:128-132 | The client sees the handler's status. The body fails to parse only for a reply with no body. `success` holds only for a granted reply. A granted reply carries its map and its areas under `desa` and `kelompok`. |
| EndToEnd.PermissionIsLastRowFlag | auth/login_manager.py:197-203 | After loading a grant, `has_permission(menu, action)` is that action's flag in the last row naming the menu. |
| EndToEnd.UnlistedMenuIsRefused | auth/login_manager.py:197-203 | A menu named by no row is refused. |
| EndToEnd.MenuCheckFollowsRoleRows | auth/permission_manager.py:16-58 | For each of the four actions, a mapped menu key follows that action's flag in the role's last row for its display name. Every unmapped key is allowed for every action, whatever the rows say. |
| EndToEnd.AreaChecksUseAssignedLists | auth/login_manager.py:205-223 | For a user who is not a super admin, the area checks after a grant test the token's assigned lists. |
| EndToEnd.RefusalKeepsClientState | auth/login_manager.py:128-135 | A 401, 405 or 500 reply changes nothing on the client. |

## Left out

- Encryption key handling (`_init_encryption`, the key file, Fernet) and JSON encoding are not modelled, because they are foreign cryptography and library code. The token file is a perfect round trip, or `Unreadable` when decryption or parsing fails.
- HTTP transport and the 10-second timeouts are not modelled. Each call is an `Outcome` value supplied by the caller.
- The login request body is not modelled: the username, the password and the fixed device descriptor only go into the request, and the model starts from the server's reply.
- `datetime.now()` and ISO timestamps are not modelled. Time is whole seconds, so sub-second precision is lost.
- Failures to write or delete the token file are not modelled. Disk operations always succeed.
- JSON `null` values, bodies that are not objects, non-boolean `success`/`valid` values, and a user record that is an empty dict (falsy in Python) are not modelled. A present user is always truthy.
- `get_current_user` is not modelled as a member, because it only returns a field. The model reads the field directly.
- The outer `catch` of the permissions handler (500 "Internal server error") is not modelled. It is reachable only if reading the header throws.
- Logging (`print`, `console.log`) and CORS headers are not modelled, because they carry no logic.
- The login window (auth/login_screen.py), its threads, and the other API handlers are not part of this model: they are UI and thin database wrappers.
- Concurrency is not modelled. Every call runs to completion before the next one starts. The login window's worker threads, which could interleave calls, are outside this model.
- `PermissionsApi.MenuPermissionsOf` stores a row whose `menu_name` is `"__proto__"` as an ordinary key. In JavaScript that assignment sets the object's prototype instead, and `res.json` omits it. Real menu names never take that value.
