/**
 * `PermissionManager`: menu capabilities, option filters, the SQL filter
 * clause, the participant check and the display strings, all derived from a
 * `LoginManager`. Every query first runs `is_logged_in`, which may refresh or
 * clear the session, so the class's methods modify the login manager; what
 * they compute afterwards is a function of the resulting session, given here
 * first.
 */
module Access {
  import opened Common
  import opened Text
  import opened SessionModel
  import Auth

  /** Menu keys of the application and the display names permissions are stored under. */
  const MenuNames: map<string, string> := map[
    "dashboard" := "Dashboard",
    "input_data" := "Input Data Muda-Mudi",
    "manajemen_kegiatan" := "Manajemen Kegiatan",
    "scan_qr" := "Scan QR Absensi",
    "pencarian_data" := "Pencarian Data",
    "laporan" := "Laporan",
    "gabung_database" := "Gabung Database"]

  /** For a logged-in user: may `action` be done in menu `menuKey`? A key without a display name is allowed. */
  function MenuAllowed(s: Session, menuKey: string, action: string): bool
  {
    if menuKey !in MenuNames then true
    else HasPermission(s, MenuNames[menuKey], action)
  }

  /** `xs` can be obtained from `ys` by deleting elements. */
  ghost predicate IsSubsequence(xs: seq<string>, ys: seq<string>)
    decreases |ys|
  {
    xs == [] ||
    (ys != [] && (IsSubsequence(xs, ys[1..]) || (xs[0] == ys[0] && IsSubsequence(xs[1..], ys[1..]))))
  }

  /**
   * `[x for x in options if x in allowed]`: the options that are allowed, every
   * occurrence of them, in their original order.
   */
  function KeepAllowed(options: seq<string>, allowed: seq<string>): (kept: seq<string>)
    ensures forall x :: x in kept <==> x in options && x in allowed
    ensures IsSubsequence(kept, options)
  {
    if options == [] then []
    else
      var rest := KeepAllowed(options[1..], allowed);
      if options[0] in allowed then
        assert ([options[0]] + rest)[1..] == rest;
        [options[0]] + rest
      else rest
  }

  /** Every allowed option is kept as often as it occurs, and nothing else is kept. */
  lemma {:induction false} KeepAllowedCounts(options: seq<string>, allowed: seq<string>, x: string)
    ensures multiset(KeepAllowed(options, allowed))[x] == if x in allowed then multiset(options)[x] else 0
    decreases |options|
  {
    if options != [] {
      KeepAllowedCounts(options[1..], allowed, x);
      assert options == [options[0]] + options[1..];
    }
  }

  /** `filter_desa_options` / `filter_kelompok_options` for a logged-in user: an empty list of areas restricts nothing. */
  function FilterOptions(s: Session, scope: Scope, options: seq<string>): seq<string>
  {
    var accessible := Accessible(s, scope);
    if accessible == [] then options else KeepAllowed(options, accessible)
  }

  /** `can_access_participant_data` for a logged-in user: an empty or missing argument is not checked. */
  function ParticipantAllowed(s: Session, desa: Option<string>, kelompok: Option<string>): bool
  {
    if Truthy(desa) && !CanAccess(s, Desa, desa.value) then false
    else if Truthy(kelompok) && !CanAccess(s, Kelompok, kelompok.value) then false
    else true
  }

  /** `"<column> IN ('a','b')"`. */
  function InCondition(column: string, names: seq<string>): string
  {
    column + " IN (" + QuotedList(names) + ")"
  }

  /** The `conditions` list: one membership test per scope that has names. */
  function Conditions(s: Session): seq<string>
  {
    (if Accessible(s, Desa) != [] then [InCondition("desa", Accessible(s, Desa))] else []) +
    (if Accessible(s, Kelompok) != [] then [InCondition("kelompok", Accessible(s, Kelompok))] else [])
  }

  /** `get_data_filter_clause` for a logged-in user. */
  function DataFilterClause(s: Session): string
  {
    if IsSuperAdmin(s) then "1=1"
    else if Conditions(s) != [] then Join(Conditions(s), " OR ")
    else "1=0"
  }

  const RoleLabels: map<string, string> := map[
    "super_admin" := "Super Admin",
    "admin" := "Admin Regional",
    "admin_desa" := "Admin Desa",
    "admin_kelompok" := "Admin Kelompok"]

  /** `role_display.get(role, role)` with a missing role read as `''`. */
  function RoleLabel(role: Option<string>): (shown: string)
    ensures role.Some? && role.value in RoleLabels ==> shown == RoleLabels[role.value] && shown !in RoleLabels
    ensures role.Some? && role.value !in RoleLabels ==> shown == role.value
    ensures role.None? ==> shown == ""
  {
    var raw := if role.Some? then role.value else "";
    if raw in RoleLabels then RoleLabels[raw] else raw
  }

  /** `f"{username} ({role})"` for a user record. */
  function UserInfo(user: User): (info: string)
    ensures var name := if user.username.Some? then user.username.value else "";
      && |info| == |name| + |RoleLabel(user.role)| + 3
      && info[..|name| + 2] == name + " ("
      && info[|name| + 2..|info| - 1] == RoleLabel(user.role)
      && info[|info| - 1] == ')'
  {
    (if user.username.Some? then user.username.value else "") + " (" + RoleLabel(user.role) + ")"
  }

  function Min(a: nat, b: nat): nat
  {
    if a < b then a else b
  }

  /** `"<heading>: a, b, c"` showing at most `limit` names, then `" (+n lainnya)"` for the rest. */
  function AreaSummary(heading: string, names: seq<string>, limit: nat): string
  {
    heading + ": " + Join(names[..Min(limit, |names|)], ", ")
    + (if |names| > limit then " (+" + DecimalString(|names| - limit) + " lainnya)" else "")
  }

  /** A summary is its first line, `"<heading>: a, b"`, with the `" (+n lainnya)"` suffix appended when names are left out. */
  lemma SummaryLine(heading: string, prefix: string, names: seq<string>, limit: nat)
    requires prefix == heading + ": "
    ensures var line := prefix + Join(names[..Min(limit, |names|)], ", ");
      AreaSummary(heading, names, limit) ==
        if |names| > limit then line + " (+" + DecimalString(|names| - limit) + " lainnya)" else line
  {
    var line := prefix + Join(names[..Min(limit, |names|)], ", ");
    if |names| <= limit {
      assert line + "" == line;
    }
  }

  /**
   * `areas.append(f"<heading>: ...")`, then `areas[-1] += " (+n lainnya)"` when
   * names are left out: the list grows by the area's summary.
   */
  method AppendSummary(areas: seq<string>, heading: string, names: seq<string>, limit: nat) returns (extended: seq<string>)
    ensures extended == areas + [AreaSummary(heading, names, limit)]
  {
    var line := heading + ": " + Join(names[..Min(limit, |names|)], ", ");
    extended := areas + [line];
    if |names| > limit {
      extended := extended[..|extended| - 1] + [extended[|extended| - 1] + " (+" + DecimalString(|names| - limit) + " lainnya)"];
      assert extended[..|areas|] == areas;
    }
    SummaryLine(heading, heading + ": ", names, limit);
  }

  /** The `areas` list: at most three desa and two kelompok. */
  function AreaSummaries(s: Session): seq<string>
  {
    (if Accessible(s, Desa) != [] then [AreaSummary("Desa", Accessible(s, Desa), 3)] else []) +
    (if Accessible(s, Kelompok) != [] then [AreaSummary("Kelompok", Accessible(s, Kelompok), 2)] else [])
  }

  /** `get_accessible_areas_display` for a logged-in user. */
  function AreasDisplay(s: Session): string
  {
    if IsSuperAdmin(s) then "Akses: Semua Area"
    else if AreaSummaries(s) != [] then "Akses: " + Join(AreaSummaries(s), " | ")
    else "Akses: Terbatas"
  }

  // ---------------------------------------------------------------------------
  // Properties of the rules
  // ---------------------------------------------------------------------------

  /** The table has seven menus. A key outside it is allowed; a key in it is the stored flag of its display name. */
  lemma MenuAllowedFallsBackToAllowed(s: Session, menuKey: string, action: string)
    ensures |MenuNames| == 7
    ensures menuKey !in MenuNames ==> MenuAllowed(s, menuKey, action)
    ensures menuKey in MenuNames ==> MenuAllowed(s, menuKey, action) == HasPermission(s, MenuNames[menuKey], action)
  {
    assert MenuNames.Keys == {"dashboard", "input_data", "manajemen_kegiatan", "scan_qr", "pencarian_data",
                              "laporan", "gabung_database"};
  }

  /** Without stored permissions, every mapped menu is refused while every unmapped key is still allowed. */
  lemma NoPermissionsRefusesMappedMenus(s: Session, menuKey: string, action: string)
    requires s.permissions == map[]
    ensures MenuAllowed(s, menuKey, action) <==> menuKey !in MenuNames
  {
  }

  /** An empty list of accessible areas passes the options through; otherwise only accessible options remain, in order. */
  lemma FilterOptionsCases(s: Session, scope: Scope, options: seq<string>)
    ensures Accessible(s, scope) == [] ==> FilterOptions(s, scope, options) == options
    ensures Accessible(s, scope) != [] ==>
      var kept := FilterOptions(s, scope, options);
      && IsSubsequence(kept, options)
      && (forall x :: x in kept <==> x in options && x in Accessible(s, scope))
      && (forall x :: multiset(kept)[x] == if x in Accessible(s, scope) then multiset(options)[x] else 0)
  {
    if Accessible(s, scope) != [] {
      forall x ensures multiset(FilterOptions(s, scope, options))[x] ==
                         if x in Accessible(s, scope) then multiset(options)[x] else 0 {
        KeepAllowedCounts(options, Accessible(s, scope), x);
      }
    }
  }

  /**
   * For a super admin the filter keeps only catalogue names, although the
   * access check accepts any name: a desa outside the catalogue passes
   * `can_access_desa` and is dropped by `filter_desa_options`.
   */
  lemma SuperAdminFilterUsesCatalogue(s: Session, scope: Scope, options: seq<string>)
    requires IsSuperAdmin(s)
    ensures FilterOptions(s, scope, options) == KeepAllowed(options, scope.Catalogue())
    ensures CanAccess(s, Desa, "MONAS") && FilterOptions(s, Desa, ["MONAS"]) == []
  {
    assert "MONAS" !in DesaCatalogue;
  }

  /** The participant check passes exactly when each given (non-empty) area is accessible. */
  lemma ParticipantAllowedMeansBothChecks(s: Session, desa: Option<string>, kelompok: Option<string>)
    ensures ParticipantAllowed(s, desa, kelompok) <==>
      (!Truthy(desa) || CanAccess(s, Desa, desa.value)) && (!Truthy(kelompok) || CanAccess(s, Kelompok, kelompok.value))
  {
  }

  /** The clause allows everything for a super admin and nothing for a user without areas. */
  lemma DataFilterClauseExtremes(s: Session)
    ensures IsSuperAdmin(s) ==> DataFilterClause(s) == "1=1"
    ensures !IsSuperAdmin(s) ==>
      (DataFilterClause(s) == "1=0" <==> Accessible(s, Desa) == [] && Accessible(s, Kelompok) == [])
  {
    if !IsSuperAdmin(s) && Conditions(s) != [] {
      JoinStartsWithFirst(Conditions(s), " OR ");
      var first := Conditions(s)[0];
      assert first[0] == 'd' || first[0] == 'k';
    }
  }

  /** Otherwise the clause is the desa test, the kelompok test, or both joined by " OR ", in that order. */
  lemma DataFilterClauseJoinsTests(s: Session)
    requires !IsSuperAdmin(s)
    ensures var desa, kelompok := Accessible(s, Desa), Accessible(s, Kelompok);
      DataFilterClause(s) ==
        if desa != [] && kelompok != [] then InCondition("desa", desa) + " OR " + InCondition("kelompok", kelompok)
        else if desa != [] then InCondition("desa", desa)
        else if kelompok != [] then InCondition("kelompok", kelompok)
        else "1=0"
  {
    var desa, kelompok := Accessible(s, Desa), Accessible(s, Kelompok);
    if desa != [] && kelompok != [] {
      JoinPair(InCondition("desa", desa), InCondition("kelompok", kelompok), " OR ");
    }
  }

  /** The names inside a membership test read back unchanged, provided none holds a single quote. */
  lemma InConditionReadsBack(column: string, names: seq<string>)
    requires |names| > 0 && forall i :: 0 <= i < |names| ==> QuoteFree(names[i])
    ensures var test := InCondition(column, names);
      && test[..|column| + 5] == column + " IN ("
      && test[|test| - 1] == ')'
      && ParseQuotedList(test[|column| + 5..|test| - 1]) == Some(names)
  {
    var test := InCondition(column, names);
    assert test[|column| + 5..|test| - 1] == QuotedList(names);
    QuotedListRoundTrip(names);
  }

  /**
   * Known roles show their label, distinct roles showing distinct labels; any
   * other role shows as it is; a missing username shows as the empty string.
   */
  lemma UserInfoShowsRoleLabel(username: string, role: string)
    ensures role in RoleLabels ==> UserInfo(User(Some(username), Some(role))) == username + " (" + RoleLabels[role] + ")"
    ensures role !in RoleLabels ==> UserInfo(User(Some(username), Some(role))) == username + " (" + role + ")"
    ensures UserInfo(User(None, Some(role))) == " (" + RoleLabel(Some(role)) + ")"
    ensures forall r1, r2 :: r1 in RoleLabels && r2 in RoleLabels && r1 != r2 ==> RoleLabels[r1] != RoleLabels[r2]
  {
  }

  /** The number in " (+n lainnya)" is the count of names not shown. */
  lemma AreaSummaryCountsHidden(heading: string, names: seq<string>, limit: nat)
    requires |names| > limit
    ensures var hidden := DecimalString(|names| - limit);
      && AreaSummary(heading, names, limit) ==
           heading + ": " + Join(names[..limit], ", ") + " (+" + hidden + " lainnya)"
      && limit + DecimalValue(hidden) == |names|
  {
    DecimalRoundTrip(|names| - limit);
  }

  /** Five desa show the first three and " (+2 lainnya)". */
  lemma FiveDesaSummary()
    ensures AreaSummary("Desa", ["A", "B", "C", "D", "E"], 3) == "Desa: A, B, C (+2 lainnya)"
  {
    var names := ["A", "B", "C", "D", "E"];
    assert names[..Min(3, |names|)] == ["A", "B", "C"];
    JoinPair("B", "C", ", ");
    assert ["A", "B", "C"][1..] == ["B", "C"];
    var shown := Join(["A", "B", "C"], ", ");
    assert shown == "A, B, C";
    var hidden := DecimalString(2);
    assert hidden == "2";
    assert AreaSummary("Desa", names, 3) == "Desa" + ": " + shown + (" (+" + hidden + " lainnya)");
  }

  /** The display for a super admin, for a user without areas, and for a user with five desa. */
  lemma AreasDisplayExamples(s: Session)
    ensures IsSuperAdmin(s) ==> AreasDisplay(s) == "Akses: Semua Area"
    ensures !IsSuperAdmin(s) && Accessible(s, Desa) == [] && Accessible(s, Kelompok) == [] ==>
      AreasDisplay(s) == "Akses: Terbatas"
    ensures !IsSuperAdmin(s) && Accessible(s, Desa) == ["A", "B", "C", "D", "E"] && Accessible(s, Kelompok) == [] ==>
      AreasDisplay(s) == "Akses: Desa: A, B, C (+2 lainnya)"
  {
    if !IsSuperAdmin(s) && Accessible(s, Desa) == ["A", "B", "C", "D", "E"] && Accessible(s, Kelompok) == [] {
      FiveDesaDisplay(s);
    }
  }

  /** A user with both desa and kelompok sees the two summaries joined by " | ". */
  lemma AreasDisplayBoth(s: Session)
    requires !IsSuperAdmin(s) && Accessible(s, Desa) != [] && Accessible(s, Kelompok) != []
    ensures AreasDisplay(s) ==
      "Akses: " + AreaSummary("Desa", Accessible(s, Desa), 3) + " | " + AreaSummary("Kelompok", Accessible(s, Kelompok), 2)
  {
    JoinPair(AreaSummary("Desa", Accessible(s, Desa), 3), AreaSummary("Kelompok", Accessible(s, Kelompok), 2), " | ");
  }

  /** The display for a user with five desa and no kelompok. */
  lemma FiveDesaDisplay(s: Session)
    requires !IsSuperAdmin(s)
    requires Accessible(s, Desa) == ["A", "B", "C", "D", "E"] && Accessible(s, Kelompok) == []
    ensures AreasDisplay(s) == "Akses: Desa: A, B, C (+2 lainnya)"
  {
    FiveDesaSummary();
    var line := AreaSummary("Desa", ["A", "B", "C", "D", "E"], 3);
    assert AreaSummaries(s) == [line] + [];
    JoinSingle(line, " | ");
  }

  class PermissionManager {
    const loginManager: Auth.LoginManager

    constructor(loginManager: Auth.LoginManager)
      ensures this.loginManager == loginManager
    {
      this.loginManager := loginManager;
    }

    /** The body shared by `can_access_menu`, `can_create_data`, `can_edit_data` and `can_delete_data`. */
    method CheckMenu(menuKey: string, action: string, probe: Probe) returns (allowed: bool)
      modifies loginManager
      ensures var step := IsLoggedIn(old(loginManager.Snapshot()), probe);
        loginManager.Snapshot() == step.next && allowed == (step.ok && MenuAllowed(step.next.session, menuKey, action))
    {
      var loggedIn := loginManager.IsLoggedIn(probe);
      if !loggedIn {
        return false;
      }
      if menuKey !in MenuNames {
        return true;
      }
      allowed := HasPermission(loginManager.Snapshot().session, MenuNames[menuKey], action);
    }

    method CanAccessMenu(menuKey: string, probe: Probe) returns (allowed: bool)
      modifies loginManager
      ensures var step := IsLoggedIn(old(loginManager.Snapshot()), probe);
        loginManager.Snapshot() == step.next && allowed == (step.ok && MenuAllowed(step.next.session, menuKey, "view"))
    {
      allowed := CheckMenu(menuKey, "view", probe);
    }

    method CanCreateData(menuKey: string, probe: Probe) returns (allowed: bool)
      modifies loginManager
      ensures var step := IsLoggedIn(old(loginManager.Snapshot()), probe);
        loginManager.Snapshot() == step.next && allowed == (step.ok && MenuAllowed(step.next.session, menuKey, "create"))
    {
      allowed := CheckMenu(menuKey, "create", probe);
    }

    method CanEditData(menuKey: string, probe: Probe) returns (allowed: bool)
      modifies loginManager
      ensures var step := IsLoggedIn(old(loginManager.Snapshot()), probe);
        loginManager.Snapshot() == step.next && allowed == (step.ok && MenuAllowed(step.next.session, menuKey, "edit"))
    {
      allowed := CheckMenu(menuKey, "edit", probe);
    }

    method CanDeleteData(menuKey: string, probe: Probe) returns (allowed: bool)
      modifies loginManager
      ensures var step := IsLoggedIn(old(loginManager.Snapshot()), probe);
        loginManager.Snapshot() == step.next && allowed == (step.ok && MenuAllowed(step.next.session, menuKey, "delete"))
    {
      allowed := CheckMenu(menuKey, "delete", probe);
    }

    /** `filter_desa_options` (scope `Desa`) and `filter_kelompok_options` (scope `Kelompok`). */
    method FilterAreaOptions(scope: Scope, options: seq<string>, probe: Probe) returns (kept: seq<string>)
      modifies loginManager
      ensures var step := IsLoggedIn(old(loginManager.Snapshot()), probe);
        loginManager.Snapshot() == step.next && kept == (if step.ok then FilterOptions(step.next.session, scope, options) else [])
    {
      var loggedIn := loginManager.IsLoggedIn(probe);
      if !loggedIn {
        return [];
      }
      var accessible := Accessible(loginManager.Snapshot().session, scope);
      if accessible == [] {
        return options;
      }
      kept := KeepAllowed(options, accessible);
    }

    method GetDataFilterClause(probe: Probe) returns (clause: string)
      modifies loginManager
      ensures var step := IsLoggedIn(old(loginManager.Snapshot()), probe);
        loginManager.Snapshot() == step.next && clause == (if step.ok then DataFilterClause(step.next.session) else "1=0")
    {
      var loggedIn := loginManager.IsLoggedIn(probe);
      if !loggedIn {
        return "1=0";
      }
      var s := loginManager.Snapshot().session;
      if IsSuperAdmin(s) {
        return "1=1";
      }
      var accessibleDesa := Accessible(s, Desa);
      var accessibleKelompok := Accessible(s, Kelompok);
      var conditions: seq<string> := [];
      if accessibleDesa != [] {
        conditions := conditions + [InCondition("desa", accessibleDesa)];
      }
      if accessibleKelompok != [] {
        conditions := conditions + [InCondition("kelompok", accessibleKelompok)];
      }
      clause := if conditions != [] then Join(conditions, " OR ") else "1=0";
    }

    method CanAccessParticipantData(desa: Option<string>, kelompok: Option<string>, probe: Probe) returns (allowed: bool)
      modifies loginManager
      ensures var step := IsLoggedIn(old(loginManager.Snapshot()), probe);
        loginManager.Snapshot() == step.next && allowed == (step.ok && ParticipantAllowed(step.next.session, desa, kelompok))
    {
      var loggedIn := loginManager.IsLoggedIn(probe);
      if !loggedIn {
        return false;
      }
      var s := loginManager.Snapshot().session;
      if Truthy(desa) && !CanAccess(s, Desa, desa.value) {
        return false;
      }
      if Truthy(kelompok) && !CanAccess(s, Kelompok, kelompok.value) {
        return false;
      }
      return true;
    }

    method GetUserInfoDisplay(probe: Probe) returns (text: string)
      modifies loginManager
      ensures var step := IsLoggedIn(old(loginManager.Snapshot()), probe);
        && loginManager.Snapshot() == step.next
        && text == (if step.ok && step.next.session.currentUser.Some? then UserInfo(step.next.session.currentUser.value)
                    else "Tidak login")
    {
      var loggedIn := loginManager.IsLoggedIn(probe);
      if !loggedIn {
        return "Tidak login";
      }
      var user := loginManager.currentUser;
      if user.None? {
        return "Tidak login";
      }
      text := UserInfo(user.value);
    }

    method GetAccessibleAreasDisplay(probe: Probe) returns (text: string)
      modifies loginManager
      ensures var step := IsLoggedIn(old(loginManager.Snapshot()), probe);
        loginManager.Snapshot() == step.next && text == (if step.ok then AreasDisplay(step.next.session) else "")
    {
      var loggedIn := loginManager.IsLoggedIn(probe);
      if !loggedIn {
        return "";
      }
      var s := loginManager.Snapshot().session;
      if IsSuperAdmin(s) {
        return "Akses: Semua Area";
      }
      var accessibleDesa := Accessible(s, Desa);
      var accessibleKelompok := Accessible(s, Kelompok);
      var areas: seq<string> := [];
      if accessibleDesa != [] {
        areas := AppendSummary(areas, "Desa", accessibleDesa, 3);
      }
      if accessibleKelompok != [] {
        areas := AppendSummary(areas, "Kelompok", accessibleKelompok, 2);
      }
      assert areas == AreaSummaries(s);
      text := if areas != [] then "Akses: " + Join(areas, " | ") else "Akses: Terbatas";
    }
  }
}
