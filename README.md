# users-api: user-account handlers, modelled in Dafny

The users-api service handles three requests on a user collection: signup, login and delete. Its handlers work as pipelines. Signup and login first check the shape of the email and password; delete does not. Every handler then looks the email up in the database. Signup calls a sibling auth service to hash the password, and login calls it to issue a token. Signup and delete then write to the collection (login never does), and the handler replies. The first stage that fails forwards an error to one terminal error handler. That handler turns the error into the HTTP status and `{message}` body the client sees.

This project models those handlers and the terminal handler:

- `Credentials`: JavaScript's `trim` and the shape check `validateCredentials`. The check accepts a trimmed password of 7 characters, although its rejection message asks for 8. The model follows the code, and `SevenCharacterPasswordAccepted` shows the 7-character case.
- `Users`: the stored records and the collection, a map from email to `{id, email, password}`. The invariant `WellFormed` says every record is filed under its own email and no two records share an id.
- `Http`: the fault passed to `next`, the JSON bodies and the replies.
- `UserActions`: one function per handler, `SignUp`, `LogIn` and `Unregister`. Each says what a single request does: its outcome, the collection afterwards, and the calls it made to the database and the auth service, in order. The class `UserAccounts` runs the same pipelines step by step on a collection it holds. Each of its methods is proved equal to the matching function.
- `UsersApp`: the terminal error handler `ErrorResponse`, the `/user-health` route, and what the client finally receives for each handler.
- `Sessions`: sequences of requests. Because the collection is keyed by email, it can never hold two records for one email. The existence check in signup adds a further guarantee: a stored record survives any sequence of requests unchanged unless one of them deletes its email. This rests on `SignUp`'s promise that no existing record is replaced.

Collaborators are parameters. `AuthService` holds two total functions: `hash` and `issueToken`. Each one returns a value or fails with a `RemoteFault`, which carries the reply status (0 when there was no reply) and a message. `DbFaults` says which database calls of a request throw, and with what. The database assigns a new record's id, and the model takes that id as a parameter. A fault's code 0 stands for an error without a truthy code, and a message "" for an error without one.

The signup reply echoes the saved record, and that record includes the password hash. The model keeps this behaviour (`SignUp` states it) and does not fix it.

`deleteUser` is exported by `users-api/controllers/user-actions.js`, but `users-api/routes/user-routes.js` routes only `/signup`, `/login` and `/update`. The model covers it as a handler.

## Model

| member | source | states |
|---|---|---|
| `Credentials.TrimStartRemovesLeadingWhiteSpace` | users-api/controllers/user-actions.js:12 | the left half of `trim`: what it removes is a prefix of white space, and the rest starts with a non-white character |
| `Credentials.TrimEndRemovesTrailingWhiteSpace` | users-api/controllers/user-actions.js:15 | the right half of `trim`: what it removes is a suffix of white space, and the rest ends with a non-white character |
| `Credentials.TrimmedLengthAtLeast` | users-api/controllers/user-actions.js:15 | the trimmed string has at least n characters exactly when the string has two non-white characters n positions apart, counting both |
| `Credentials.BlankIffAllWhiteSpace` | users-api/controllers/user-actions.js:12 | an email is blank after trimming exactly when it is all white space |
| `Credentials.Trim` | users-api/controllers/user-actions.js:12 | `trim` returns a slice of the string such that everything before and after the slice is white space and the slice itself neither starts nor ends with white space |
| `Credentials.ValidateCredentials` | users-api/controllers/user-actions.js:9-22 | every rejection carries status 422 and the fixed invalid-input message |
| `Credentials.ValidateCredentialsAccepts` | users-api/controllers/user-actions.js:9-21 | the check passes exactly when the email is present and contains `@`, and the password is present and has at least 7 characters from its first to its last non-white one; the presence, empty and blank tests on the email add nothing to the `@` test |
| `Credentials.SevenCharacterPasswordAccepted` | users-api/controllers/user-actions.js:15-18 | `a@b.com` with `abcdefg` passes, although the message demands 8 characters |
| `Credentials.PaddedShortPasswordRejected` | users-api/controllers/user-actions.js:15 | a 6-character password padded with spaces is rejected, because trimming removes the padding |
| `Users.OneRecordPerEmail` | users-api/controllers/user-actions.js:24-35 | in a well-formed collection, a lookup by email finds at most one record, the one filed under that email |
| `Users.InsertKeepsWellFormed` | users-api/controllers/user-actions.js:89-100 | saving a record with a new email and a fresh id adds exactly one record and keeps the invariant |
| `Users.RemoveKeepsWellFormed` | users-api/controllers/user-actions.js:157-158 | deleting the record of a stored email removes exactly one record and keeps the invariant |
| `UserActions.Or` | users-api/controllers/user-actions.js:98 | the JavaScript or-fallback on strings (`err.message` or else the internal message) yields the first string when it is non-empty and the fallback when it is empty |
| `UserActions.RemoteCode` | users-api/controllers/user-actions.js:44 | a failed auth-service call forwards the reply's status when there is one and 500 when there is none, so the code is never falsy |
| `UserActions.HashFailure` | users-api/controllers/user-actions.js:43-46 | a failed hashing is thrown with the remote status, or 500 without one, and with the remote message as it is, possibly empty |
| `UserActions.TokenFailure` | users-api/controllers/user-actions.js:60-63 | a refused token request is thrown with the remote status, or 500 without one, and with the remote message or else "Failed to verify user.", so never an empty message |
| `UserActions.SignUp` | users-api/controllers/user-actions.js:66-106 | a failing signup leaves the collection unchanged; no existing record is ever replaced; success happens exactly when the shape check, the lookup, the hashing and the save all succeed for a new email; success adds exactly one record, holding the hash rather than the password, and replies 201 with that record; nothing is looked up for a malformed request; the hasher is called only for a well-formed new email; the invariant holds afterwards when the new id is fresh |
| `UserActions.LogIn` | users-api/controllers/user-actions.js:108-139 | a login never changes the collection; it succeeds exactly when the shape check passes, the email is stored and a token is issued for the submitted password and the stored hash; it then replies 200 with that token and the stored record's id; nothing is looked up for a malformed request |
| `UserActions.Unregister` | users-api/controllers/user-actions.js:141-166 | a failing delete leaves the collection unchanged; it succeeds exactly when the lookup and the delete both succeed for a stored email, with no shape check; success removes exactly that email's record, leaves every other record as it was and replies 200; the invariant is kept |
| `UserActions.SignUpRejectsMalformed` | users-api/controllers/user-actions.js:70-74 | a malformed signup gets 422 before any database or auth-service call, and nothing changes |
| `UserActions.SignUpRejectsKnownEmail` | users-api/controllers/user-actions.js:76-80 | a signup for a stored email gets 422 after the lookup alone, without hashing, and nothing changes |
| `UserActions.SignUpLookupFails` | users-api/controllers/user-actions.js:26-30 | a lookup that throws during the existence check gives 500 with the fixed internal message, and nothing changes |
| `UserActions.SignUpHashFails` | users-api/controllers/user-actions.js:37-47 | a failed hashing gives the remote status, or 500 without one, with the remote message as it is, and nothing changes |
| `UserActions.SignUpSaveFails` | users-api/controllers/user-actions.js:94-100 | a save that throws gives 500 with its message, or with the internal message when it has none, and nothing changes |
| `UserActions.LogInLookupFails` | users-api/controllers/user-actions.js:119-126 | a lookup that throws during login gives 500 with the database's message, or the internal message when it has none (unlike signup, which always uses the internal message), and nothing changes |
| `UserActions.LogInRejectsUnknownEmail` | users-api/controllers/user-actions.js:128-131 | a login for an unknown email gets 422 and no token is requested |
| `UserActions.LogInTokenFails` | users-api/controllers/user-actions.js:49-64 | a refused token request gives the remote status, or 500 without one, with the remote message or else "Failed to verify user." |
| `UserActions.UnregisterLookupFails` | users-api/controllers/user-actions.js:145-150 | a lookup that throws during a delete gives 500 with the database's message, or the internal message when it has none, and nothing changes |
| `UserActions.UnregisterRejectsUnknownEmail` | users-api/controllers/user-actions.js:152-155 | deleting an unknown email gets 422 and changes nothing |
| `UserActions.UnregisterDeleteFails` | users-api/controllers/user-actions.js:157-165 | a delete that throws forwards the database's own error unchanged, and nothing changes |
| `UserActions.UserAccounts.CreateUser` | users-api/controllers/user-actions.js:66-106 | running createUser stage by stage yields the outcome, new collection and calls that `SignUp` gives for the old collection, and keeps the invariant |
| `UserActions.UserAccounts.VerifyUser` | users-api/controllers/user-actions.js:108-139 | running verifyUser stage by stage yields the outcome and calls that `LogIn` gives, without modifying the collection |
| `UserActions.UserAccounts.DeleteUser` | users-api/controllers/user-actions.js:141-166 | running deleteUser stage by stage yields the outcome, new collection and calls that `Unregister` gives for the old collection, and keeps the invariant |
| `UsersApp.ErrorResponse` | users-api/users-app.js:37-48 | the reply body is `{message}` alone; its status is the error's code when it has one and 500 otherwise; its message is the error's message when it has one and "Something went wrong." otherwise; neither is ever falsy |
| `UsersApp.UserHealth` | users-api/users-app.js:22-24 | `/user-health` always replies 200 with its fixed message and modifies nothing |
| `UsersApp.Reply` | users-api/users-app.js:37-48 | a response a handler sends reaches the client as sent; a fault it passes to `next` reaches the terminal error handler, so the client gets a `{message}` body with a non-empty message and a truthy status, the fault's own code and message where it has them |
| `UsersApp.FaultRelayed` | users-api/users-app.js:37-48 | a fault with both a code and a message reaches the client exactly as it was raised |
| `UsersApp.MalformedRequestReply` | users-api/controllers/user-actions.js:70-74 | the client receives 422 with the invalid-input message for a malformed signup or login |
| `UsersApp.SignUpReplyStatus` | users-api/controllers/user-actions.js:66-106 | a signup's reply is 201 with a user exactly when it succeeded; any status other than 201, 422 and 500 is the one the auth service gave for a failed hashing |
| `UsersApp.SilentHashFailureReply` | users-api/controllers/user-actions.js:43-46 | a failed hashing without a message reaches the client with "Something went wrong." |
| `UsersApp.LogInReplyStatus` | users-api/controllers/user-actions.js:108-139 | a login's reply carries a token exactly when it succeeded, always with 200; any status other than 200, 422 and 500 is the one the auth service gave for a refused token |
| `UsersApp.UnregisterReplyStatus` | users-api/controllers/user-actions.js:141-166 | a successful delete replies 200 with the deletion message; any status other than 200, 422 and 500 is the code of the database's own delete error |
| `Sessions.HandleKeepsWellFormed` | users-api/controllers/user-actions.js:66-166 | each of the three handlers keeps the collection well formed |
| `Sessions.RunKeepsWellFormed` | users-api/controllers/user-actions.js:66-166 | after any sequence of signups, logins and deletes, every record is still filed under its own email and no id is shared, given that the database hands out fresh ids; one record per email follows from keying by email |
| `Sessions.RecordKeptUnlessDeleted` | users-api/controllers/user-actions.js:76-80 | a stored record survives any sequence of requests unchanged unless one of them deletes its email, because the existence check stops signup from overwriting it |
| `Sessions.LogInAfterSignUp` | users-api/controllers/user-actions.js:133-135 | after a successful signup, logging in with the same credentials requests a token for the password and the hash that signup stored, and returns it with the new record's id |
| `Sessions.UnregisterUndoesSignUp` | users-api/controllers/user-actions.js:157-158 | deleting the account a signup just created restores the collection exactly |
| `Sessions.SecondSignUpRefused` | users-api/controllers/user-actions.js:32-34 | a second signup with an email that was just registered gets 422 and changes nothing |

## Left out

- Database bootstrap, `app.listen`, body parsing and the CORS headers (users-api/users-app.js:1-20, 50-62) are framework and I/O plumbing.
- The `/auth-health` proxy (users-api/users-app.js:26-35) and the HTTP calls to the auth service are not modelled. The auth service appears only as the two functions of `AuthService`. The URL built from `AUTH_API_ADDRESSS` is also left out, including the unescaped password in the hashing URL's path.
- A successful hashing reply is taken to carry a hash string. The case where `response.data.hashed` is missing is not modelled.
- A successful token reply is likewise taken to carry a token string. The case where `response.data.token` is missing (users-api/controllers/user-actions.js:59, 135) is not modelled.
- A `save` or `deleteOne` that throws is taken to have written nothing. The claims that a failing signup or delete leaves the collection unchanged rest on this on the save and delete paths.
- Mongoose internals (`findOne`, `save`, `deleteOne`, `toObject`) are left out. The collection is a map from email to record. Any database call may throw, as `DbFaults` says.
- Id generation is left out. A new record's id is a parameter.
- `UserActions.UserAccounts.CreateUser`: requires that the new id is carried by no stored record. This stands for the database's promise of unique ids.
- The `/update` route (users-api/routes/user-routes.js:11) names a handler that does not exist, so there is nothing to model.
- Concurrency is left out. Two simultaneous signups can both pass the existence check before either saves, but the model handles one request at a time.
- `console.log` calls are left out. The Korean messages are kept verbatim as constants and treated as opaque.
- `Credentials.Trim`: the white-space set is the one the ECMAScript standard defines for `trim`. A Dafny `char` is a Unicode scalar value, while JavaScript counts UTF-16 code units. So for characters outside the Basic Multilingual Plane, the model's length differs from `password.trim().length`.
- Request fields are modelled only as strings or missing. Non-string JSON values are left out. In signup and login, a falsy one (`0`, `false`, `null`) fails `!email` or `!password` and gets 422, and a truthy one makes `trim` or `includes` throw inside the check. In delete, which never calls `trim`, a non-string email such as an object goes straight into the `findOne` and `deleteOne` queries, where it can act as a query operator.
- `UserActions.Unregister`: takes the email as a string. A delete request without an email field is left out, because its effect depends on how the database query treats an undefined value.
- Error codes are modelled as integers. Non-numeric codes are left out. So is Express's refusal of codes that are not valid HTTP statuses, such as a database error number forwarded by a failed delete.
