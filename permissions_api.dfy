/**
 * The server's `GET /api/user/permissions` handler. JWT verification and the
 * `role_permissions` query are supplied as functions (the secret and the
 * database are outside the model); the handler gates the request, folds the
 * rows into a menu-to-flags map and defaults the areas to empty lists.
 */
module PermissionsApi {
  import opened Common

  datatype Request = Request(httpMethod: string, authorization: Option<string>)

  /** The payload of a verified token (`decoded`); the area lists may be absent. */
  datatype Claims = Claims(
    userId: string,
    username: string,
    role: string,
    assignedDesa: Option<seq<string>>,
    assignedKelompok: Option<seq<string>>)

  /** A row of `role_permissions`. */
  datatype PermissionRow = PermissionRow(menuName: string, canView: bool, canCreate: bool, canEdit: bool, canDelete: bool)

  /** The query's outcome: rows, an `error` in the result, or a thrown exception. */
  datatype QueryResult = Rows(rows: seq<PermissionRow>) | QueryError | QueryThrew

  datatype Reply =
    | NoBody
    | Failure(error: string)
    | Granted(user: Claims, permissions: map<string, map<string, bool>>, desa: seq<string>, kelompok: seq<string>)

  datatype Response = Response(status: int, reply: Reply)

  const BearerPrefix := "Bearer "
  const TokenMissing := "Token tidak ditemukan"
  const TokenInvalid := "Token tidak valid atau expired"
  const QueryFailed := "Gagal mengambil permissions"

  /** `authHeader && authHeader.startsWith('Bearer ')`. */
  function HasBearer(header: Option<string>): (present: bool)
    ensures present <==> header.Some? && BearerPrefix <= header.value
  {
    header.Some? && header.value != "" && |BearerPrefix| <= |header.value| && header.value[..|BearerPrefix|] == BearerPrefix
  }

  /** `authHeader.substring(7)`. */
  function BearerToken(header: string): (token: string)
    ensures BearerPrefix <= header ==> BearerPrefix + token == header
    ensures |token| <= |header|
  {
    if |header| <= 7 then "" else header[7..]
  }

  /** The entry stored for one row. */
  function FlagsOf(row: PermissionRow): map<string, bool>
  {
    map["can_view" := row.canView, "can_create" := row.canCreate, "can_edit" := row.canEdit, "can_delete" := row.canDelete]
  }

  /** `menuPermissions` after the `forEach` over `rows`: each row overwrites its menu's entry. */
  function MenuPermissionsOf(rows: seq<PermissionRow>): (menuPermissions: map<string, map<string, bool>>)
    ensures |menuPermissions| <= |rows|
  {
    if rows == [] then map[]
    else MenuPermissionsOf(rows[..|rows| - 1])[rows[|rows| - 1].menuName := FlagsOf(rows[|rows| - 1])]
  }

  /** `value || []` for an area list. */
  function OrEmpty(names: Option<seq<string>>): seq<string>
  {
    if names.Some? then names.value else []
  }

  /** The 200 reply for a verified token and its role's rows. */
  function Grant(claims: Claims, rows: seq<PermissionRow>): Response
  {
    Response(200, Granted(claims, MenuPermissionsOf(rows), OrEmpty(claims.assignedDesa), OrEmpty(claims.assignedKelompok)))
  }

  method BuildMenuPermissions(rows: seq<PermissionRow>) returns (menuPermissions: map<string, map<string, bool>>)
    ensures menuPermissions == MenuPermissionsOf(rows)
  {
    menuPermissions := map[];
    var i := 0;
    while i < |rows|
      invariant 0 <= i <= |rows|
      invariant menuPermissions == MenuPermissionsOf(rows[..i])
    {
      menuPermissions := menuPermissions[rows[i].menuName := FlagsOf(rows[i])];
      assert rows[..i + 1][..i] == rows[..i];
      i := i + 1;
    }
    assert rows[..|rows|] == rows;
  }

  method Handle(request: Request, verifyJwt: string -> Option<Claims>, queryRole: string -> QueryResult)
    returns (response: Response)
    ensures request.httpMethod == "OPTIONS" ==> response == Response(200, NoBody)
    ensures request.httpMethod != "OPTIONS" && request.httpMethod != "GET" ==>
      response == Response(405, Failure("Method not allowed"))
    ensures request.httpMethod == "GET" && !HasBearer(request.authorization) ==>
      response == Response(401, Failure(TokenMissing))
    ensures request.httpMethod == "GET" && HasBearer(request.authorization) ==>
      response ==
        match verifyJwt(BearerToken(request.authorization.value))
        case None => Response(401, Failure(TokenInvalid))
        case Some(claims) =>
          match queryRole(claims.role)
          case QueryError => Response(500, Failure(QueryFailed))
          case QueryThrew => Response(401, Failure(TokenInvalid))
          case Rows(rows) => Grant(claims, rows)
  {
    if request.httpMethod == "OPTIONS" {
      return Response(200, NoBody);
    }
    if request.httpMethod != "GET" {
      return Response(405, Failure("Method not allowed"));
    }
    var authHeader := request.authorization;
    if !HasBearer(authHeader) {
      return Response(401, Failure(TokenMissing));
    }
    var token := BearerToken(authHeader.value);
    var decoded := verifyJwt(token);
    if decoded.None? {
      return Response(401, Failure(TokenInvalid));
    }
    var claims := decoded.value;
    var result := queryRole(claims.role);
    match result
    case QueryError =>
      return Response(500, Failure(QueryFailed));
    case QueryThrew =>
      return Response(401, Failure(TokenInvalid));
    case Rows(rows) =>
      var menuPermissions := BuildMenuPermissions(rows);
      var desa := if claims.assignedDesa.Some? then claims.assignedDesa.value else [];
      var kelompok := if claims.assignedKelompok.Some? then claims.assignedKelompok.value else [];
      return Response(200, Granted(claims, menuPermissions, desa, kelompok));
  }

  // ---------------------------------------------------------------------------
  // Properties
  // ---------------------------------------------------------------------------

  /** A header "Bearer " + t passes the gate and yields t; the prefix is case-sensitive. */
  lemma BearerTokenRoundTrip(token: string)
    ensures HasBearer(Some(BearerPrefix + token))
    ensures BearerToken(BearerPrefix + token) == token
    ensures !HasBearer(Some("bearer " + token))
  {
    assert (BearerPrefix + token)[..|BearerPrefix|] == BearerPrefix;
    assert ("bearer " + token)[0] == 'b';
  }

  /** The map's keys are exactly the menu names of the rows. */
  lemma {:induction false} MenuPermissionsKeys(rows: seq<PermissionRow>)
    ensures MenuPermissionsOf(rows).Keys == RowNames(rows)
  {
    if rows != [] {
      var init, last := rows[..|rows| - 1], rows[|rows| - 1];
      MenuPermissionsKeys(init);
      assert MenuPermissionsOf(rows).Keys == MenuPermissionsOf(init).Keys + {last.menuName};
      RowNamesSnoc(rows);
    }
  }

  /** The menu names the rows carry. */
  ghost function RowNames(rows: seq<PermissionRow>): set<string>
  {
    set i | 0 <= i < |rows| :: rows[i].menuName
  }

  /** The menu names of the rows are those of all rows but the last, and the last one's. */
  lemma RowNamesSnoc(rows: seq<PermissionRow>)
    requires rows != []
    ensures RowNames(rows) == RowNames(rows[..|rows| - 1]) + {rows[|rows| - 1].menuName}
  {
    var init := rows[..|rows| - 1];
    forall m | m in RowNames(rows)
      ensures m in RowNames(init) + {rows[|rows| - 1].menuName}
    {
      var i :| 0 <= i < |rows| && rows[i].menuName == m;
      if i < |init| {
        assert init[i] == rows[i];
      }
    }
    forall m | m in RowNames(init)
      ensures m in RowNames(rows)
    {
      var i :| 0 <= i < |init| && init[i].menuName == m;
      assert rows[i] == init[i];
    }
  }

  /** Every menu of the map carries exactly the four flags the client reads. */
  lemma {:induction false} EveryMenuHasFourFlags(rows: seq<PermissionRow>, menuName: string)
    requires menuName in MenuPermissionsOf(rows)
    ensures MenuPermissionsOf(rows)[menuName].Keys == {"can_view", "can_create", "can_edit", "can_delete"}
  {
    if menuName != rows[|rows| - 1].menuName {
      EveryMenuHasFourFlags(rows[..|rows| - 1], menuName);
    }
  }

  /** Each menu holds the four flags of the LAST row that names it. */
  lemma {:induction false} LastRowWins(rows: seq<PermissionRow>, i: nat)
    requires i < |rows|
    requires forall j :: i < j < |rows| ==> rows[j].menuName != rows[i].menuName
    ensures rows[i].menuName in MenuPermissionsOf(rows)
    ensures MenuPermissionsOf(rows)[rows[i].menuName] == FlagsOf(rows[i])
  {
    if i < |rows| - 1 {
      var init := rows[..|rows| - 1];
      LastRowWins(init, i);
    }
  }

  /** A 200 reply carries the token's areas, or empty lists for those it lacks. */
  lemma GrantDefaultsAreas(claims: Claims, rows: seq<PermissionRow>)
    ensures Grant(claims, rows).reply.desa == (if claims.assignedDesa.Some? then claims.assignedDesa.value else [])
    ensures Grant(claims, rows).reply.kelompok == (if claims.assignedKelompok.Some? then claims.assignedKelompok.value else [])
    ensures claims.assignedDesa.None? && claims.assignedKelompok.None? ==>
      Grant(claims, rows).reply.desa == [] && Grant(claims, rows).reply.kelompok == []
  {
  }
}
