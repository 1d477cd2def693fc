# Record scoping and account routes of Mom-Backend, in Dafny

This project models the two route files of the Mom-Backend service that hold
decision logic.

- `routes/mom.js` decides which MOM records (meeting minutes) an authenticated
  principal may read through `GET /get-mom/:userId`. The outcome is unrestricted
  for `admin`, a 403 refusal when the path id is not the caller's, a zone filter
  for holders of any of the eight zone labels, and otherwise an owner filter. The
  file also guards `POST /mom` so that a caller can only create a record it owns.
  Five listing routes return `momCount` beside the records. Two of them,
  `/get-mom-by-pc/:pc` and `/get-all-moms-count`, compute it as the length of the
  returned list, and those two are modelled (module `Mom`, file `mom.dfy`).
- `routes/auth.js` handles signup, login and password update. They are modelled
  as transitions of a user store keyed by email (module `Auth`, file `auth.dfy`).
  The store is a class over a `map<string, User>`. Each method is proved equal
  to a pure step function (`SignupStep`, `LoginStep`, `UpdatePasswordStep`), and
  the properties are stated about those functions.

`seqs.dfy` holds an order-preserving selection over sequences (`Keep`) with its
lemmas. A query over the record collection and the `filter` over the role list
are both selections of this kind. `options.dfy` holds `Option`.

Abstractions:
- A record is its filterable attributes `{owner, zone, constituency, partyName, pc}`.
- A database query is a selection over the stored sequence, kept in storage order.
- The authenticated principal is given as `{id, roles}`, and its roles may be
  missing. The middleware that produces it is not part of this model.
- `comparePassword` is a comparator `(candidate, stored) -> bool` held by the user
  store. Hashing lives inside it.
- A signed token is modelled as its claims: the user id and the one-day lifetime
  (86400 s). Signing and verifying tokens are not modelled.
- The id that the database gives a new account is passed to signup as `freshId`.
- Query-string values of `/get-all-moms-count` are `Option<string>`. A value
  counts only when it is present and non-empty, which is JavaScript truthiness
  for a string.

Two behaviours of the code are worth noting:
- The path-id check (`routes/mom.js:57-59`) runs before zone resolution
  (`routes/mom.js:62-76`). So a zone-role caller who asks for another user's id
  gets 403, not its zone records. `Mom.OtherIdIsForbidden` and
  `Mom.ZoneCallerAskingForOtherIdIsForbidden` state this.
- Login answers an unknown email with 401 `User not found` (`routes/auth.js:31`).
  Update-password answers it with 404 (`routes/auth.js:67`).
  `Auth.UnknownEmailStatusesDiffer` states this.

## Model

| member | source | states |
|---|---|---|
| `Seqs.KeepIsSubsequence` | routes/mom.js:73 | selecting elements never reorders them: the result is a subsequence of the input |
| `Mom.ZoneRolesOf` | routes/mom.js:62-73 | the zone roles are exactly the caller's roles that are among the eight zone labels, each as often as the caller holds it, in the caller's order |
| `Mom.Find` | routes/mom.js:76-78 | a query returns exactly the stored records that match it, with their multiplicities, in storage order |
| `Mom.FindAllIsEverything` | routes/mom.js:53 | the empty query returns the whole collection unchanged |
| `Mom.ResolveScope` | routes/mom.js:47-85 | unrestricted iff `admin` is held; 403 iff not admin and the path id differs from the caller's id; a zone filter iff not admin, own id and some zone label held, listing exactly the held zone labels; the owner filter on the caller's own id iff not admin, own id and no zone label held |
| `Mom.GetMomForUser` | routes/mom.js:47-85 | the route refuses exactly when the caller is not admin and asks for another id; otherwise it returns only stored records |
| `Mom.AdminSeesAllRecords` | routes/mom.js:52-55 | an admin caller gets every stored record, whatever the path id and whatever other roles it holds |
| `Mom.OtherIdIsForbidden` | routes/mom.js:57-59 | a non-admin caller asking for another id gets 403, even when it holds zone roles |
| `Mom.ZoneCallerSeesItsZones` | routes/mom.js:62-76 | a caller holding any zone label sees exactly the records whose zone is one of its zone labels (an OR over all of them) |
| `Mom.SelfCallerSeesOwnRecords` | routes/mom.js:50-78 | a caller with no admin and no zone role, including a missing role list, sees exactly the records it owns |
| `Mom.ZoneCallerAskingForOtherIdIsForbidden` | routes/mom.js:57-76 | a Konkan-zone caller asking for another user's id is refused, not given its zone |
| `Mom.CreatedRecordIsVisibleToOwner` | routes/mom.js:9-16 | a record a self-scoped caller has created is among the records that caller then reads |
| `Mom.MomStore.Create` | routes/mom.js:9-16 | 403 and no write unless the body's `userId` is the caller's id; otherwise exactly the body is appended and returned with 201 |
| `Mom.GetMomByPc` | routes/mom.js:128-135 | `momCount` equals the number of returned records, which are exactly the stored records of that `pc`, each as often as it is stored |
| `Mom.GetAllMomsCount` | routes/mom.js:141-154 | a usable `pc` selects by `pc`; otherwise a usable `constituency` selects by constituency; otherwise every record is returned; selected records keep their multiplicity; `momCount` is the length of the list |
| `Mom.PcTakesPrecedence` | routes/mom.js:146-149 | when `pc` is usable, `constituency` has no effect on the result |
| `Auth.SignupStep` | routes/auth.js:7-23 | a registered email gets 409 and no write; a new email adds exactly one account under that email, leaves all others unchanged and gets 201 with a one-day token for the new id only |
| `Auth.LoginStep` | routes/auth.js:25-59 | success iff the email is registered and the password matches; unknown email and mismatch both give 401; on success token, cookie value and the user's id agree, the cookie is `token` with maxAge 36000000 ms (under the 1-day token), sameSite none, secure, not httpOnly, and `userObj` is email, id and role only, its email being the one logged in with |
| `Auth.UpdatePasswordStep` | routes/auth.js:61-87 | unknown email gives 404 and a wrong current password gives 401, both with no write; otherwise only that account's password becomes the new one and a one-day token for the same id is returned |
| `Auth.UnknownEmailStatusesDiffer` | routes/auth.js:28-68 | an unknown email is answered 401 by login and 404 by update-password |
| `Auth.FailedUpdateKeepsLogins` | routes/auth.js:64-74 | after a refused password update every login answers exactly as before |
| `Auth.UpdatedPasswordLogsIn` | routes/auth.js:75-82 | after a successful update the new password logs in with a token for the same id, and a current password that does not match the new one no longer does |
| `Auth.SignedUpUserLogsIn` | routes/auth.js:14-19 | a new account logs in with its signup password and gets a token for its new id and a view of its email, id and role |
| `Auth.UserStore.Signup` | routes/auth.js:7-23 | the store changes exactly as `SignupStep` says and keeps every account filed under its own email |
| `Auth.UserStore.Login` | routes/auth.js:25-59 | answers as `LoginStep` and writes the returned token into the session only on success; the store is untouched |
| `Auth.UserStore.UpdatePassword` | routes/auth.js:61-87 | the store changes exactly as `UpdatePasswordStep` says and keeps every account filed under its own email |

## Left out

- Express routing, request parsing and response framing: outcomes are datatypes with a status code.
- Database queries, `populate("userId")` and `countDocuments`: a query is a selection over a sequence of records.
- `GET /get-mom` and `PUT /update-mom/:momId`: each is one unguarded database call with no decision of its own.
- `/get-mom-by-id/:momId`: one lookup with its own 404 branch when no record has that id; records carry no id in this model.
- `/get-mom-by-party/:partyName`, `/get-mom-by-constituency/:constituency` and `/get-mom-by-zone/:zone`: each runs a `find` and then a separate `countDocuments`, so its `momCount` is a second query that need not equal the list length under concurrent writes; these routes are not modelled.
- Token signing and verification and wall-clock expiry: a token is its claims, so two tokens signed for the same id at different times are equal in the model.
- Password hashing and the user model's `comparePassword`: these live in `models/User`, which is not part of this model. The comparator is an opaque function.
- The `authenticateUser` middleware: the principal is an input.
- The 500 paths, the `next(error)` calls and the `throw err` inside the comparison callbacks: these are about exceptions and async propagation. A record body without a `userId` falls under this too.
- Logging (`console.log`).
- Concurrent requests: each operation runs alone, and racing password updates are not modelled.
- Auth.SignedUpUserLogsIn: assumes that the comparator accepts a password against itself, because the hashing that makes this hold is not part of this model.
- Auth.UpdatedPasswordLogsIn: assumes that the comparator accepts a password against itself, because the hashing that makes this hold is not part of this model.
