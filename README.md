# User session store — a Dafny model

This project models the `user` Vuex store module of an admin-template
single-page application (`src/store/modules/user.js`). The module holds the
session record of the signed-in user:

- `userId`, `username`, `token`, `avatar` and `nickname`, plus any key a
  `setUserInfo` payload adds (login adds `email`; it copies exactly five
  named fields of the response's `info` and drops any other);
- a derived `status` getter.

Two mutations change the record:

- `setToken` writes the token in three places: the record, the
  request-authentication side-channel and the durable key/value table. It
  also writes `remember` to the table, but only when it is neither `null`
  nor `undefined` (an explicit `false` is written).
- `setUserInfo` copies a payload onto the record and persists that payload
  as it is.

Three actions sequence these mutations around API calls: `handleLogin`,
`handleLogout` and `getPermissions`.

Files:

- `js_value.dfy` (module `JsValue`): the JavaScript values the store
  handles. A plain object passed in (a mutation payload, the login
  response's `info`) is the list of its entries in enumeration order. The
  module also defines property reads, `a || b` and truthiness.
- `collaborators.dfy` (module `Collaborators`): the parts the store calls
  but does not implement, each reduced to the state the store writes:
  - the persistence helper: a class over a map from key to value and
    optional expiry;
  - the side-channel: a class with one token field;
  - the settled outcome of an API call: `Resolved(value)` or
    `Rejected(error)`.
- `session_spec.dfy` (module `SessionSpec`): the effect of every mutation
  and action as a function on a value snapshot (`Session`: record,
  side-channel token, durable table), and the lemmas stating what the
  module promises.
- `user_store.dfy` (module `UserModule`): the store as a class with the
  record as a field. Its methods change the record, the table and the
  side-channel in place, in the order the source does. Each is proved to
  leave exactly the state the matching `SessionSpec` function describes,
  and to keep the declared fields present.

In the source the login and permissions calls receive a request object. In
the model they are functions from that object to an outcome, so the
contracts also state which object is sent. The logout call takes no
argument, so its outcome is a plain parameter. `config.token.expires` (in
seconds) is a constant of the store.

After a successful logout the token becomes `undefined`, not the empty
string. `handleLogout` commits `setToken` with no payload (user.js:48), so
the default `{}` leaves `token` undefined (user.js:21). The record, the
side-channel and the durable `token` entry all hold `undefined`, and the
entry still gets the configured expiry (user.js:24). `status` is `offline`.

The class's `Valid()` predicate says that the five declared keys are always
present in the record. The constructor establishes it and every mutating
method keeps it, so the keys that `status` (`token`) and `getPermissions`
(`userId`) read are always there; the record only ever gains keys.

## Model

| member | source | states |
|---|---|---|
| `JsValue.Or` | src/store/modules/user.js:38 | JavaScript's logical or is one of its operands, and it is truthy exactly when either operand is |
| `JsValue.Lookup` | src/store/modules/user.js:37-41 | reading a property an object does not have gives `undefined` |
| `JsValue.Truthy` | src/store/modules/user.js:18 | definition of JavaScript truthiness used by the `status` test and by logical or; its consequences are stated in `SessionSpec.StatusOfToken` and `JsValue.Or` |
| `JsValue.Prop` | src/store/modules/user.js:37-41 | reading a property of a non-null value: on an object it is the entry's value, on a primitive it is `undefined` |
| `JsValue.IsNullish` | src/store/modules/user.js:25 | definition of `v == null` (true exactly for `null` and `undefined`), the test that guards the `remember` write and that makes reading `res.info.id` throw; its consequences are stated in `SessionSpec.SetTokenWrites` and `SessionSpec.LoginWithoutInfo` |
| `JsValue.Get` | src/store/modules/user.js:52 | definition of reading a record field by name, `undefined` when absent, as in `state.userId` (and `state.token` at line 18); its consequences are stated in `SessionSpec.StatusOfToken` and `SessionSpec.PermissionsRequestCarriesUserId` |
| `SessionSpec.TokenExpiry` | src/store/modules/user.js:24 | definition of the durable token expiry, `config.token.expires * 1000`; `SessionSpec.SetTokenWrites`, `SessionSpec.LoginSucceeds` and `SessionSpec.LogoutSucceeds` state that the durable token entry carries it |
| `SessionSpec.AfterSetToken` | src/store/modules/user.js:21-25 | definition of the `setToken` mutation on the snapshot; its properties are stated in `SessionSpec.SetTokenWrites` and `SessionSpec.SetTokenIdempotent` |
| `SessionSpec.AfterSetUserInfo` | src/store/modules/user.js:27-29 | definition of the `setUserInfo` mutation on the snapshot; its properties are stated in `SessionSpec.SetUserInfoWrites` and `SessionSpec.SetUserInfoReplacesDurable` |
| `SessionSpec.NormalizeUserInfo` | src/store/modules/user.js:36-42 | definition of the user-info object built from the response's `info`; its properties are stated in `SessionSpec.NormalizeUserInfoFields` |
| `SessionSpec.AfterLogin` | src/store/modules/user.js:33-45 | definition of the `handleLogin` action for a given login outcome; its properties are stated in `SessionSpec.LoginSucceeds`, `SessionSpec.LoginRejected` and `SessionSpec.LoginWithoutInfo` |
| `SessionSpec.AfterLogout` | src/store/modules/user.js:47-49 | definition of the `handleLogout` action for a given logout outcome; its properties are stated in `SessionSpec.LogoutSucceeds` and `SessionSpec.LogoutRejected` |
| `SessionSpec.Credentials` | src/store/modules/user.js:34 | definition of the `{ username, password }` object sent to the login API; `UserModule.UserStore.HandleLogin` states that exactly this object is sent |
| `SessionSpec.PermissionsRequest` | src/store/modules/user.js:52 | definition of the `{ userId }` object sent to the permissions API; its properties are stated in `SessionSpec.PermissionsRequestCarriesUserId` |
| `UserModule.UserStore.Status` | src/store/modules/user.js:18 | the class's `status` getter, defined by `SessionSpec.Status` on the current record; its properties are stated in `SessionSpec.StatusOfToken` |
| `SessionSpec.InitialRecord` | src/store/modules/user.js:10-16 | the record starts with exactly the five declared keys, `userId` null and the other four empty strings |
| `SessionSpec.Status` | src/store/modules/user.js:18 | `status` is always either `online` or `offline` |
| `SessionSpec.StatusOfToken` | src/store/modules/user.js:18 | for a string token, `status` is `online` exactly when the token is non-empty; a null, undefined or missing token is `offline` |
| `SessionSpec.InitialOffline` | src/store/modules/user.js:10-18 | a fresh store is offline and has its declared fields |
| `SessionSpec.Assign` | src/store/modules/user.js:28 | after the assignment loop the record's keys are its old keys plus the payload's keys |
| `SessionSpec.AssignGet` | src/store/modules/user.js:28 | after the loop each payload key holds the payload's value and every other key keeps its old value or stays absent |
| `SessionSpec.AssignIdempotent` | src/store/modules/user.js:28 | running the loop twice with the same payload equals running it once |
| `SessionSpec.AssignUpdateCommute` | src/store/modules/user.js:22-28 | writing a key the payload lacks commutes with the loop |
| `SessionSpec.SetTokenWrites` | src/store/modules/user.js:21-25 | the record token, side-channel token and durable `token` entry all become the given token; the entry's expiry is the lifetime times 1000; `remember` is written with no expiry exactly when it is neither null nor undefined, so `false` is written; no other record key or table key changes |
| `SessionSpec.SetTokenIdempotent` | src/store/modules/user.js:21-25 | committing the same token twice equals committing it once |
| `SessionSpec.SetUserInfoWrites` | src/store/modules/user.js:27-29 | every payload key, declared or not, holds the payload's value; every other key is unchanged; the durable `userInfo` entry is the payload itself, the table's keys grow by `userInfo` alone and every other durable entry and the side-channel are unchanged |
| `SessionSpec.SetUserInfoEmpty` | src/store/modules/user.js:27-29 | an omitted (empty) payload changes no field, and the durable entry becomes the empty object |
| `SessionSpec.SetUserInfoIdempotent` | src/store/modules/user.js:27-29 | committing the same user info twice equals committing it once |
| `SessionSpec.SetUserInfoReplacesDurable` | src/store/modules/user.js:27-29 | the durable entry holds only the latest payload, not merged with an earlier one; a field only the earlier payload set survives in the record |
| `SessionSpec.SetTokenSetUserInfoCommute` | src/store/modules/user.js:35-43 | committing the token before or after a user-info payload without a `token` key gives the same state |
| `SessionSpec.MutationsKeepDeclaredFields` | src/store/modules/user.js:10-29 | both mutations keep the declared fields present |
| `SessionSpec.NormalizeUserInfoFields` | src/store/modules/user.js:36-42 | the login user info has exactly the keys `userId`, `avatar`, `nickname`, `username` and `email`; `userId` is `info.id`; `avatar` is `info.avatar` when truthy and `info.nickname` otherwise; the other three are copied |
| `SessionSpec.NormalizedRecord` | src/store/modules/user.js:36-43 | once the login user info is committed, those five fields come from `info` and every other key keeps its value |
| `SessionSpec.LoginSucceeds` | src/store/modules/user.js:33-44 | a successful login commits `setToken` with the response token and the caller's `remember`, then the normalised user info, and settles with the response unchanged; token, `status`, the five fields, side-channel and durable entries are stated; other keys are unchanged |
| `SessionSpec.LoginAvatarFallback` | src/store/modules/user.js:38 | when `info.avatar` is falsy the stored avatar is `info.nickname` |
| `SessionSpec.LoginRejected` | src/store/modules/user.js:34 | a rejected login call commits nothing and the action rejects with the same error |
| `SessionSpec.LoginWithoutInfo` | src/store/modules/user.js:35-37 | a response whose `info` is null or undefined raises a `TypeError` after the token is committed; the user info is not committed |
| `SessionSpec.LogoutSucceeds` | src/store/modules/user.js:47-48 | a successful logout makes the token `undefined` in the record, side-channel and durable table (`status` is `offline`); every other record field keeps its value; the durable table is the old one with only the `token` entry replaced (so `remember` and `userInfo` are kept); it settles with `undefined` |
| `SessionSpec.LogoutRejected` | src/store/modules/user.js:48 | a rejected logout call commits nothing and the action rejects with the same error |
| `SessionSpec.ActionsKeepDeclaredFields` | src/store/modules/user.js:33-48 | login and logout keep the declared fields present, whatever the API outcome |
| `SessionSpec.PermissionsRequestCarriesUserId` | src/store/modules/user.js:51-53 | the permissions request has the one key `userId`, with the record's current `userId` |
| `SessionSpec.AliceLogsIn` | src/store/modules/user.js:33-44 | worked example: alice logs in on a fresh record with response token `tok123` and no avatar; the record becomes `{userId: 7, avatar: "Al", nickname: "Al", username: "alice", email: "a@x.com", token: "tok123"}` and `status` is `online` |
| `SessionSpec.AliceLogsOut` | src/store/modules/user.js:47-48 | worked example, continued: after logout only the token changes, to `undefined`, and `status` is `offline` |
| `UserModule.UserStore.constructor` | src/store/modules/user.js:10-16 | the store starts with the declared initial record |
| `UserModule.UserStore.SetToken` | src/store/modules/user.js:21-25 | record, side-channel and table end as `SessionSpec.AfterSetToken` says, with the declared fields kept |
| `UserModule.UserStore.SetUserInfo` | src/store/modules/user.js:27-29 | the loop assigns the payload entries in order; record and table end as `SessionSpec.AfterSetUserInfo` says; the side-channel is untouched |
| `UserModule.UserStore.HandleLogin` | src/store/modules/user.js:33-45 | the login API receives exactly `{username, password}`; the state and the settled result are those of `SessionSpec.AfterLogin` for that call's outcome |
| `UserModule.UserStore.HandleLogout` | src/store/modules/user.js:47-49 | the state and the settled result are those of `SessionSpec.AfterLogout` for the logout call's outcome |
| `UserModule.UserStore.GetPermissions` | src/store/modules/user.js:51-53 | the permissions API receives `{userId}` with the current `userId`; its outcome is returned as it is; nothing changes |

## Left out

- `vue.config.js` is not part of this model. It is declarative build configuration (icons, PWA manifest, loaders, asset copying) over the bundler's plugin API and has no session logic.
- The implementations of `@/api/user`, `@/libs/service`, `@/libs/db` and `@/config` are not part of this model. They stand in as abstract state (the table, the side-channel token), as outcome parameters (API calls) or as a constant (the token lifetime).
- The durable table records the expiry it is given and never enforces it; time does not pass in the model. How values are serialised into storage is not modelled either.
- Promises and interleaving are not modelled. Each action is one sequential step whose API outcome is given, so a logout racing an in-flight login is not covered.
- Numbers are integers, so fractional lifetimes and `NaN` are not modelled.
- Property reads and writes are own-property only: prototypes are not modelled, so inherited members (such as a string's `length`) read as `undefined` and a payload key `__proto__` becomes an ordinary record field. None of the keys the store reads or writes is inherited.
- The login call is assumed to resolve with an object carrying `access_token` and `info`. In the source, a resolved value that is itself null or undefined throws before any commit; the model does not cover that case. A null or undefined `info` is covered.
- `UserModule.UserStore.SetToken` and `UserModule.UserStore.HandleLogin` take the payload's fields as values, so the payload is an object by type. In the source, a `setToken` payload of `null`, or a missing, `null` or `undefined` `handleLogin` payload, throws a `TypeError` while destructuring (user.js:21, 33), before any write or API call; the model does not cover that case.
- A `setUserInfo` payload is an object by type. A null payload, which would throw in `Object.entries`, is not modelled.
- Vuex machinery is not modelled: commits dispatched by name, namespacing and reactivity. The order of keys inside the record is not modelled either; payload order is.
