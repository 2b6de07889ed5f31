/** The `user` store module: the session record with its `status` getter,
    the `setToken` and `setUserInfo` mutations, and the `handleLogin`,
    `handleLogout` and `getPermissions` actions. Each action runs as one
    sequential step whose API outcome is given: the login and permissions
    calls as functions of the request object, the logout call as its
    settled outcome. */
module UserModule {
  import opened JsValue
  import opened Collaborators
  import opened SessionSpec

  class UserStore {
    /** The session record: the declared fields and whatever keys
        `setUserInfo` has added. */
    var state: Fields
    /** The persistence helper the mutations write through to. */
    const db: Db
    /** The request-authentication side-channel. */
    const service: Service
    /** `config.token.expires`: the token lifetime in seconds. */
    const tokenExpires: int

    /** Everything this store's operations change, as a value. */
    ghost function Snapshot(): Session
      reads this, db, service
    {
      Session(state, service.token, db.entries)
    }

    ghost predicate Valid()
      reads this
    {
      HasDeclaredFields(state)
    }

    constructor (db: Db, service: Service, tokenExpires: int)
      ensures this.db == db && this.service == service && this.tokenExpires == tokenExpires
      ensures state == InitialRecord()
      ensures Valid()
    {
      this.db := db;
      this.service := service;
      this.tokenExpires := tokenExpires;
      state := InitialRecord();
    }

    /** The `status` getter. */
    function Status(): string
      reads this
    {
      SessionSpec.Status(state)
    }

    /** The `setToken` mutation; an omitted `token` or `remember` is
        `undefined`. */
    method SetToken(token: Value, remember: Value)
      requires Valid()
      modifies this, db, service
      ensures Valid()
      ensures Snapshot() == AfterSetToken(old(Snapshot()), token, remember, tokenExpires)
    {
      state := state["token" := token];
      service.SetToken(token);
      db.Set("token", token, Some(tokenExpires * 1000));
      if !IsNullish(remember) {
        db.Set("remember", remember, None);
      }
    }

    /** The `setUserInfo` mutation: each entry of the payload, in order,
        assigned onto the record, then the payload persisted as it is. */
    method SetUserInfo(userInfo: Entries)
      requires Valid()
      modifies this, db
      ensures Valid()
      ensures Snapshot() == AfterSetUserInfo(old(Snapshot()), userInfo)
    {
      for i := 0 to |userInfo|
        invariant state == Assign(old(state), userInfo[..i])
        invariant unchanged(db)
      {
        state := state[userInfo[i].0 := userInfo[i].1];
        assert userInfo[..i + 1][..i] == userInfo[..i];
      }
      assert userInfo[..|userInfo|] == userInfo;
      db.Set("userInfo", Obj(userInfo), None);
    }

    /** The `handleLogin` action: calls the login API with the credentials,
        commits the token, then the normalised user info, and settles with
        the response. */
    method HandleLogin(username: Value, password: Value, remember: Value,
                       login: Entries -> ApiResult<LoginResponse>)
      returns (r: ApiResult<LoginResponse>)
      requires Valid()
      modifies this, db, service
      ensures Valid()
      ensures (Snapshot(), r)
           == AfterLogin(old(Snapshot()), login(Credentials(username, password)), remember, tokenExpires)
    {
      var outcome := login(Credentials(username, password));
      match outcome {
        case Rejected(e) =>
          r := Rejected(e);
        case Resolved(res) =>
          SetToken(res.accessToken, remember);
          if IsNullish(res.info) {
            r := Rejected(TypeError);
          } else {
            var userInfo := NormalizeUserInfo(res.info);
            SetUserInfo(userInfo);
            r := Resolved(res);
          }
      }
    }

    /** The `handleLogout` action: once the logout call has resolved,
        commits `setToken` with no payload. */
    method HandleLogout(outcome: ApiResult<Value>) returns (r: ApiResult<Value>)
      requires Valid()
      modifies this, db, service
      ensures Valid()
      ensures (Snapshot(), r) == AfterLogout(old(Snapshot()), outcome, tokenExpires)
    {
      match outcome {
        case Rejected(e) =>
          r := Rejected(e);
        case Resolved(_) =>
          SetToken(Undefined, Undefined);
          r := Resolved(Undefined);
      }
    }

    /** The `getPermissions` action: asks the permissions API for the
        current `userId` and passes its outcome on, changing nothing. */
    method GetPermissions(permissions: Entries -> ApiResult<Value>) returns (r: ApiResult<Value>)
      ensures r == permissions([("userId", Get(state, "userId"))])
    {
      r := permissions(PermissionsRequest(state));
    }
  }
}
