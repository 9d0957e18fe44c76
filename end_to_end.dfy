/**
 * The client fed by the server: what the handler of `/api/user/permissions`
 * sends, read by the login manager's `_load_permissions`, and then asked by
 * `has_permission`, the menu checks and the area checks.
 */
module EndToEnd {
  import opened Common
  import opened SessionModel
  import Access
  import Api = PermissionsApi

  /** How the client's `response.json()` sees a reply of the handler. */
  function ClientView(response: Api.Response): (view: Outcome<PermissionsBody>)
    ensures view.Replied? && view.status == response.status
    ensures response.reply.NoBody? <==> view.body.Malformed?
    ensures response.reply.Granted? <==> view.body.Parsed? && view.body.value.success
    ensures response.reply.Granted? ==> view.body.value.data == Some(PermissionsData(
      Some(response.reply.permissions),
      Some(map["desa" := response.reply.desa, "kelompok" := response.reply.kelompok])))
  {
    match response.reply
    case NoBody => Replied(response.status, Malformed("Expecting value: line 1 column 1 (char 0)"))
    case Failure(_) => Replied(response.status, Parsed(PermissionsBody(false, None)))
    case Granted(_, permissions, desa, kelompok) =>
      Replied(response.status, Parsed(PermissionsBody(true,
        Some(PermissionsData(Some(permissions), Some(map["desa" := desa, "kelompok" := kelompok]))))))
  }

  /** The column of a row that `has_permission(menu, action)` reads. */
  function ActionFlag(row: Api.PermissionRow, action: string): bool
  {
    match action
    case "view" => row.canView
    case "create" => row.canCreate
    case "edit" => row.canEdit
    case "delete" => row.canDelete
    case _ => false
  }

  /** The session after `_load_permissions` read a 200 reply built from `claims` and `rows`. */
  function Loaded(st: State, claims: Api.Claims, rows: seq<Api.PermissionRow>): Session
  {
    LoadPermissions(st, ClientView(Api.Grant(claims, rows))).session
  }

  /** A granted reply replaces both maps, and leaves the tokens and the user as they were. */
  lemma GrantReplacesPermissionsAndAreas(st: State, claims: Api.Claims, rows: seq<Api.PermissionRow>)
    requires Truthy(st.session.accessToken)
    ensures var s := Loaded(st, claims, rows);
      && s.permissions == Api.MenuPermissionsOf(rows)
      && AssignedAreas(s, Desa) == Api.OrEmpty(claims.assignedDesa)
      && AssignedAreas(s, Kelompok) == Api.OrEmpty(claims.assignedKelompok)
      && s.accessToken == st.session.accessToken && s.refreshToken == st.session.refreshToken
      && s.currentUser == st.session.currentUser
  {
  }

  /** `has_permission(menu, action)` answers the flag of the last row naming the menu. */
  lemma PermissionIsLastRowFlag(st: State, claims: Api.Claims, rows: seq<Api.PermissionRow>, i: nat, action: string)
    requires Truthy(st.session.accessToken)
    requires i < |rows| && forall j :: i < j < |rows| ==> rows[j].menuName != rows[i].menuName
    requires action == "view" || action == "create" || action == "edit" || action == "delete"
    ensures HasPermission(Loaded(st, claims, rows), rows[i].menuName, action) == ActionFlag(rows[i], action)
  {
    Api.LastRowWins(rows, i);
    var s := Loaded(st, claims, rows);
    assert rows[i].menuName in s.permissions;
    assert "can_" + "view" == "can_view" && "can_" + "create" == "can_create";
    assert "can_" + "edit" == "can_edit" && "can_" + "delete" == "can_delete";
  }

  /** A menu no row names is refused by `has_permission`. */
  lemma UnlistedMenuIsRefused(st: State, claims: Api.Claims, rows: seq<Api.PermissionRow>, menuName: string, action: string)
    requires Truthy(st.session.accessToken)
    requires forall j :: 0 <= j < |rows| ==> rows[j].menuName != menuName
    ensures !HasPermission(Loaded(st, claims, rows), menuName, action)
  {
    Api.MenuPermissionsKeys(rows);
  }

  /**
   * A menu check for a key of the table follows the last row of the role that
   * names the key's display name; a key outside the table is allowed whatever
   * the rows say.
   */
  lemma MenuCheckFollowsRoleRows(st: State, claims: Api.Claims, rows: seq<Api.PermissionRow>, menuKey: string, i: nat, action: string)
    requires Truthy(st.session.accessToken)
    requires menuKey in Access.MenuNames
    requires i < |rows| && rows[i].menuName == Access.MenuNames[menuKey]
    requires forall j :: i < j < |rows| ==> rows[j].menuName != rows[i].menuName
    requires action == "view" || action == "create" || action == "edit" || action == "delete"
    ensures Access.MenuAllowed(Loaded(st, claims, rows), menuKey, action) == ActionFlag(rows[i], action)
    ensures forall k :: k !in Access.MenuNames ==> Access.MenuAllowed(Loaded(st, claims, rows), k, action)
  {
    PermissionIsLastRowFlag(st, claims, rows, i, action);
  }

  /** For users other than a super admin, the area checks test the token's assigned lists. */
  lemma AreaChecksUseAssignedLists(st: State, claims: Api.Claims, rows: seq<Api.PermissionRow>, name: string)
    requires Truthy(st.session.accessToken) && st.session.currentUser.Some?
    requires !IsSuperAdmin(st.session)
    ensures CanAccess(Loaded(st, claims, rows), Desa, name) <==> name in Api.OrEmpty(claims.assignedDesa)
    ensures CanAccess(Loaded(st, claims, rows), Kelompok, name) <==> name in Api.OrEmpty(claims.assignedKelompok)
  {
  }

  /** A refusal of the server (401, 405, 500) changes nothing on the client. */
  lemma RefusalKeepsClientState(st: State, response: Api.Response)
    requires response.reply.Failure?
    ensures LoadPermissions(st, ClientView(response)) == st
  {
  }
}
