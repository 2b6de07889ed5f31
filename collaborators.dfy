/** The collaborators the session store calls but does not implement:
    the persistence helper (`@/libs/db`), the request-authentication
    side-channel (`@/libs/service`) and the outcome of a session API call
    (`@/api/user`). Each is reduced to the state the store writes or the
    value it receives. */
module Collaborators {
  import opened JsValue

  /** A durable entry: the value and the expiry (in milliseconds) passed
      with it, if any. Expiry is recorded, never enforced. */
  datatype Entry = Entry(value: Value, expires: Option<int>)

  datatype Option<T> = None | Some(value: T)

  /** Why a call was rejected: the API client's own rejection reason, or the
      `TypeError` JavaScript raises when a property is read off `null` or
      `undefined`. */
  datatype Error = ApiError(reason: Value) | TypeError

  /** The settled outcome of a promise returned by an API call. */
  datatype ApiResult<T> = Resolved(value: T) | Rejected(error: Error)

  /** What the login call resolves with: `access_token` and `info`. */
  datatype LoginResponse = LoginResponse(accessToken: Value, info: Value)

  /** The persistence helper: a durable key/value table. */
  class Db {
    var entries: map<string, Entry>

    constructor ()
      ensures entries == map[]
    {
      entries := map[];
    }

    /** `db.set(key, value, expires)`: replaces the entry under `key` and
        touches no other key. */
    method Set(key: string, value: Value, expires: Option<int>)
      modifies this
      ensures entries == old(entries)[key := Entry(value, expires)]
    {
      entries := entries[key := Entry(value, expires)];
    }
  }

  /** The request-authentication side-channel: the token that outgoing
      requests carry. */
  class Service {
    var token: Value

    constructor ()
      ensures token == Undefined
    {
      token := Undefined;
    }

    /** `service.setToken(token)`: installs `token` for later requests. */
    method SetToken(t: Value)
      modifies this
      ensures token == t
    {
      token := t;
    }
  }
}
