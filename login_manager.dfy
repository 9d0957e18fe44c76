/**
 * `LoginManager` as an object whose fields change in place. Each method does
 * the source's steps in the source's order, and its postcondition ties the new
 * fields (and token file) to the matching transition of module SessionModel,
 * where the properties of those transitions are proved.
 */
module Auth {
  import opened Common
  import opened SessionModel

  class LoginManager {
    var accessToken: Option<string>
    var refreshToken: Option<string>
    var currentUser: Option<User>
    var permissions: MenuFlags
    var accessibleAreas: Areas

    /** The encrypted token file on disk; `None` when it does not exist. */
    var tokenFile: Option<TokenFile>

    /** The fields and the token file as one value. */
    function Snapshot(): State
      reads this
    {
      State(Session(accessToken, refreshToken, currentUser, permissions, accessibleAreas), tokenFile)
    }

    /** `__init__`: empty fields, then whatever `_load_tokens` finds on disk. */
    constructor(tokenFile: Option<TokenFile>, now: int)
      ensures Snapshot() == Start(tokenFile, now)
    {
      currentUser := None;
      accessToken := None;
      refreshToken := None;
      permissions := map[];
      accessibleAreas := map[];
      this.tokenFile := tokenFile;
      new;
      LoadTokens(now);
    }

    method ClearTokens()
      modifies this
      ensures Snapshot() == SessionModel.ClearTokens(old(Snapshot()))
    {
      accessToken := None;
      refreshToken := None;
      currentUser := None;
      permissions := map[];
      accessibleAreas := map[];
      if tokenFile.Some? {
        tokenFile := None;
      }
    }

    method SaveTokens(now: int)
      modifies this
      ensures Snapshot() == SessionModel.SaveTokens(old(Snapshot()), now)
    {
      if Truthy(accessToken) && Truthy(refreshToken) {
        var record := TokenRecord(Session(accessToken, refreshToken, currentUser, permissions, accessibleAreas), now);
        tokenFile := Some(Sealed(record));
      }
    }

    method LoadTokens(now: int)
      modifies this
      ensures Snapshot() == SessionModel.LoadTokens(old(Snapshot()), now)
    {
      if tokenFile.Some? {
        match tokenFile.value
        case Unreadable =>
          ClearTokens();
        case Sealed(record) =>
          accessToken := record.saved.accessToken;
          refreshToken := record.saved.refreshToken;
          currentUser := record.saved.currentUser;
          permissions := record.saved.permissions;
          accessibleAreas := record.saved.accessibleAreas;
          if now - record.savedAt > MaxTokenAge {
            ClearTokens();
          }
      }
    }

    method Login(reply: Outcome<LoginBody>, permissionsReply: Outcome<PermissionsBody>, now: int)
      returns (ok: bool, message: string)
      modifies this
      ensures var result := SessionModel.Login(old(Snapshot()), reply, permissionsReply, now);
        Snapshot() == result.next && ok == result.ok && message == result.message
    {
      match reply
      case Timeout =>
        return false, TimeoutMessage;
      case ConnectionError =>
        return false, ConnectionMessage;
      case Raised(reason) =>
        return false, ErrorMessage(reason);
      case Replied(status, Malformed(reason)) =>
        return false, ErrorMessage(reason);
      case Replied(status, Parsed(body)) =>
        if status != 200 || !body.success {
          return false, if body.error.Some? then body.error.value else LoginFailed;
        }
        if body.data.None? {
          return false, ErrorMessage(MissingKey("data"));
        }
        var data := body.data.value;
        if data.accessToken.None? {
          return false, ErrorMessage(MissingKey("access_token"));
        }
        accessToken := data.accessToken;
        if data.refreshToken.None? {
          return false, ErrorMessage(MissingKey("refresh_token"));
        }
        refreshToken := data.refreshToken;
        if data.user.None? {
          return false, ErrorMessage(MissingKey("user"));
        }
        currentUser := data.user;
        LoadPermissions(permissionsReply);
        SaveTokens(now);
        return true, LoginSucceeded;
    }

    method LoadPermissions(reply: Outcome<PermissionsBody>)
      modifies this
      ensures Snapshot() == SessionModel.LoadPermissions(old(Snapshot()), reply)
    {
      if !Truthy(accessToken) {
        return;
      }
      if reply.Replied? && reply.status == 200 && reply.body.Parsed? && reply.body.value.success {
        var data := reply.body.value.data;
        if data.Some? && data.value.permissions.Some? {
          permissions := data.value.permissions.value;
          if data.value.accessibleAreas.Some? {
            accessibleAreas := data.value.accessibleAreas.value;
          }
        }
      }
    }

    method VerifyToken(reply: Outcome<VerifyBody>) returns (valid: bool)
      ensures valid == Verify(Snapshot(), reply)
    {
      if !Truthy(accessToken) {
        return false;
      }
      valid := reply.Replied? && reply.status == 200 && reply.body.Parsed? && reply.body.value.valid;
    }

    method RefreshAccessToken(reply: Outcome<RefreshBody>, now: int) returns (ok: bool)
      modifies this
      ensures var step := Refresh(old(Snapshot()), reply, now);
        Snapshot() == step.next && ok == step.ok
    {
      if !Truthy(refreshToken) {
        return false;
      }
      if reply.Replied? && reply.status == 200 && reply.body.Parsed? && reply.body.value.success {
        var data := reply.body.value.data;
        if data.Some? && data.value.accessToken.Some? {
          accessToken := data.value.accessToken;
          if data.value.user.Some? {
            currentUser := data.value.user;
            SaveTokens(now);
            return true;
          }
        }
      }
      return false;
    }

    method Logout() returns (done: bool)
      modifies this
      ensures var step := SessionModel.Logout(old(Snapshot()));
        Snapshot() == step.next && done == step.ok
    {
      ClearTokens();
      return true;
    }

    method IsLoggedIn(probe: Probe) returns (loggedIn: bool)
      modifies this
      ensures var step := SessionModel.IsLoggedIn(old(Snapshot()), probe);
        Snapshot() == step.next && loggedIn == step.ok
    {
      if !Truthy(accessToken) {
        return false;
      }
      var valid := VerifyToken(probe.verifyReply);
      if valid {
        return true;
      }
      var refreshed := RefreshAccessToken(probe.refreshReply, probe.now);
      if refreshed {
        return true;
      }
      ClearTokens();
      return false;
    }
  }
}
