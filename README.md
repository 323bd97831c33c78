# Task manager API: a verified model of accounts, invitations, tasks and their guards

This project models the core of a small REST service for managing tasks. Accounts log in with a password and get session tokens. New accounts can only be created from an invitation that an administrator issues. Each account owns tasks, and administrators can list every task with filters and paging.

The model holds three stores, each a class with a sequence field that its methods reassign:

- `UserModel.UserCollection`: accounts.
- `InvitationModel.InvitationCollection`: invitations.
- `TaskModel.TaskCollection`: tasks.

Each store has an invariant (`Valid`) that stands for the schema's required fields and unique indexes. Every store-changing method preserves that invariant. On top of the stores sit:

- **Guards.** `AuthController.IsAuthenticated`, `IsInvited` and `IsAdmin` are decision functions over the request, the stored state and the clock.
- **Handlers.** These are methods that read, decide and write; their `ensures` give the whole new state.
- **Error handler.** `Errors.Respond` is the pure mapping. `Errors.HandleError` is the handler as written, proved equal to it.
- **Route tables.** `UserRouter.UserRoutes` and `TaskRouter.TaskRoutes` are constant sequences, with first-match lookup and guard chains in `Routing`.
- **Admin seed.** `SeedAdmin.SeedAdminUser`.

The foreign pieces are abstract:

- A token is the value it encodes: claims, `iat` and `exp` in whole seconds, and the key it was signed with.
- sha256 and bcrypt are injective constructors.
- `validator.isEmail` is an uninterpreted predicate.
- The clock (`nowMs`, milliseconds), the random reset secret and fresh ids are parameters.

The model follows the code in these places:

- The staleness test divides the millisecond change time exactly by 1000 and compares it with a whole-second `iat`. A password reset issues its session token before the save hook hashes the password and reads the clock again for the change time, so `AuthController.ResetPassword` takes the two instants separately (`nowMs` and `changedMs`). `AuthController.LaterChangeStale` shows the consequence: when the change is stamped any millisecond after the issue, the token the reset returns is already stale, and `AuthController.ResetSessionRefused` shows it never authenticates. Only when both fall in the same millisecond does the token survive, and then only at a whole second (`AuthController.SameInstantTokenStale`).
- `isInvited` compares two possibly absent emails.
- Only the second word of the `Authorization` header is read.
- `isAdmin` fails with 401.
- An invalid invite email is an operational 500.
- `resetPassword` changes the document in memory and then `save()` may refuse it; then nothing is written, and the reset fields stay as they were. `AuthController.ResetPassword` has a refused save leave the store unchanged.

## Model

| member | source | states |
|---|---|---|
| Errors.AppError | src/utils/appError.ts:9-16 | the error carries the given message and status code, status "error", and is operational |
| Errors.WithDefaults | src/controllers/errorController.ts:62-63 | a non-zero status code and a non-empty status are kept; an absent or 0 code becomes 500 and an absent or "" status becomes "error"; every other field is unchanged |
| Errors.Respond | src/controllers/errorController.ts:15-78 | cast error → 400 "Invalid path: value."; code 11000 → 400 "Duplicate field value: msg."; validation → 400 with the messages joined by ". "; invalid/expired token → 401 "Invalid Token"/"Expired Token."; another operational error → its own status (default 500) and message; anything else → 500 "Something went very wrong!" |
| Errors.HandleError | src/controllers/errorController.ts:56-78 | the handler as written (defaults in place, five tests in turn, each maybe replacing the error) sends exactly `Respond(err)` |
| Errors.DatabaseRejectionsAre400 | src/controllers/errorController.ts:15-30 | validation failures, cast failures and duplicate keys all reach the client as 400 |
| Errors.LibraryFailuresAre500 | src/controllers/errorController.ts:49-53 | a non-operational library error is hidden behind 500 "Something went very wrong!" |
| Errors.AppErrorSurfaces | src/utils/appError.ts:12-14 | every `AppError` with a non-zero status is sent with that status, status "error" and its own message |
| Primitives.Trim | src/models/user.ts:32 | the trimmed string is a contiguous piece of the input with only white space before and after it, and it neither starts nor ends with white space |
| Primitives.TrimIdempotent | src/models/task.ts:12 | trimming twice is trimming once |
| Primitives.CastBoolean | src/models/task.ts:15-18 | a Boolean casts to itself; a string casts to true exactly when it is "true", "1" or "yes", to false exactly when it is "false", "0" or "no", and otherwise fails |
| Primitives.ParseIntOfDecimal | src/controllers/taskController.ts:227-228 | `parseInt` reads back every decimal numeral as its value |
| Primitives.ParseIntOfNegativeDecimal | src/controllers/taskController.ts:227 | a numeral with a minus sign reads as its negation |
| Primitives.ParseIntOfNonNumeral | src/controllers/taskController.ts:227-228 | a string whose first non-blank character is neither a sign nor a digit falls back to 0 |
| Tokens.Sign | src/controllers/userController.ts:12-21 | a signed token carries the claims and key, `iat` is the issue second and `exp - iat` is the lifetime |
| Tokens.Verify | src/controllers/authController.ts:16-18 | verification succeeds only for a token signed with this key before its expiry second, returning its claims; failures are token errors without a driver code |
| Tokens.SignThenVerify | src/controllers/authController.ts:16-18 | a freshly signed token verifies to its own claims until it expires, then fails as expired |
| Tokens.ForeignKeyRejected | src/controllers/authController.ts:16-18 | a token signed with another key never verifies |
| UserController.GenerateAuthJwt | src/controllers/userController.ts:12-16 | the session token has the sole claim `{userId}` and expires 7 days (604800 s) after issue |
| UserController.GenerateInviteToken | src/controllers/userController.ts:18-21 | the invite token has the sole claim `{email}` and expires 1 day (86400 s) after issue |
| UserController.SessionTokenLifetime | src/controllers/userController.ts:12-16 | a session token verifies, yielding its account id, for exactly a week of whole seconds |
| UserController.InviteTokenLifetime | src/controllers/userController.ts:18-21 | an invite token verifies, yielding its email, for exactly a day of whole seconds |
| UserModel.ValidationMessages | src/models/user.ts:28-46 | no message exactly when the name is non-empty, the email is non-empty and valid, and the password is a hash or a plaintext of at least 8 characters |
| UserModel.PreSave | src/models/user.ts:71-84 | a newly assigned password leaves as its bcrypt hash with `passwordChangedAt` = now; otherwise the document is unchanged; nothing else ever changes |
| UserModel.EmailIndexUnique | src/models/user.ts:34-39 | in a valid store, looking up an account's email finds that account |
| UserModel.IdIndexUnique | src/models/user.ts:28-52 | in a valid store, looking up an account's id finds that account |
| UserModel.GetUserByCredentials | src/models/user.ts:60-69 | success exactly when the email is known and the password compares equal to its stored hash; the account returned has that email; every operational failure is the same 401 "Unable to login." |
| UserModel.CredentialsAccepted | src/models/user.ts:60-69 | an account's email with the password its hash was made from logs in as that account |
| UserModel.OwnKeysFree | src/models/user.ts:34-39 | an account rewritten under its own id and email is found at its own place and clashes with no other account on the email index |
| UserModel.AppendKeepsStore | src/models/user.ts:34-46 | adding a conforming, hashed account with a new id and a new email keeps ids and emails unique |
| UserModel.ReplaceKeepsStore | src/models/user.ts:34-46 | replacing an account under its id by a conforming one whose email no other account uses keeps the store valid |
| UserModel.ProfileMessages | src/models/user.ts:29-39 | an update passes validation exactly when a given name trims to non-empty and a given email is non-empty and valid |
| UserModel.UserCollection.Save | src/models/user.ts:71-84 | succeeds exactly when validation passes (unless skipped), the insert/replace fits and no other account has the email; the saved document is `PreSave(doc)`; an insert appends, a replace overwrites in place; a refusal changes nothing and is a 400 or 500 |
| UserModel.UserCollection.FindByIdAndUpdate | src/controllers/userController.ts:67-70 | the update's validators run first; a missing id changes nothing; an email used by another account is a code-11000 error with nothing changed; otherwise only that account's name/email are replaced |
| UserController.Registration | src/controllers/userController.ts:25-29 | the new account takes its email from the invite, whatever the body says, and is never an administrator; it has no sessions because body keys other than name and password are not modelled |
| UserController.CreateUser | src/controllers/userController.ts:23-33 | succeeds exactly when the registration document saves; then the stored password is the hash of the trimmed body password, `isAdmin` is false and the account is appended |
| UserController.UserLogin | src/controllers/userController.ts:35-44 | bad credentials change nothing; good ones append exactly one new session token (earlier ones kept, in order) to that account only, and return it |
| UserController.UntrimmedPasswordRejected | src/models/user.ts:40-46 | a password with surrounding white space never logs in, because the stored hash is of its trimmed form |
| UserController.UserLogout | src/controllers/userController.ts:45-52 | the caller's session list becomes empty and nothing else changes; logging out twice changes nothing |
| UserController.UpdateMe | src/controllers/userController.ts:54-78 | succeeds exactly when the keys are within {name, email}, the given fields pass their validators, the caller is stored and no other account has the new email; a key outside {name, email} is 400 "Invalid Updates."; failed validators give their validation error; a vanished account is 401 "Unauthorized Access"; success changes only the caller's name/email, and any refusal changes nothing |
| UserController.CreateUserInvite | src/controllers/userController.ts:80-101 | an invalid email is an operational 500 with the ledger unchanged; otherwise the email's invitation is overwritten (or appended) with the returned token, valid, and all other invitations are unchanged |
| UserController.InviteIsUnique | src/models/invitation.ts:11-16 | in a valid ledger, the invitation just written is the only one for its email |
| InvitationModel.FindByToken | src/controllers/authController.ts:68 | the invitation found holds exactly that token; none found means no invitation holds it |
| InvitationModel.FoundUnderOwnEmail | src/models/invitation.ts:10-23 | in a valid ledger, the invitation stored under a token is the one for the token's own email |
| InvitationModel.InvitationCollection.Upsert | src/controllers/userController.ts:93-97 | the invitation for the email gets the new token and `valid` true, or one is inserted; the email and token indexes stay unique |
| AuthController.IsAuthenticated | src/controllers/authController.ts:20-57 | no second header word is 401 "Please login…"; success means the word is a token signed with the key and unexpired, naming an account whose session list holds that very token, and not stale against `passwordChangedAt`; every refusal is a 401 |
| AuthController.ListedSessionAuthenticates | src/controllers/authController.ts:20-57 | conversely, a listed, unexpired, non-stale session token authenticates its account whatever the header's first word |
| AuthController.LoggedOutNeverAuthenticates | src/controllers/authController.ts:33-42 | an account with an empty session list is never authenticated as |
| AuthController.OnlySoleSessionAuthenticates | src/controllers/authController.ts:33-42 | an account whose list holds one token can only be acted as through that token (so after a reset, earlier sessions fail) |
| AuthController.SameInstantTokenStale | src/controllers/authController.ts:44-52 | a token issued in the same millisecond as a password change is stale exactly when that millisecond is not a whole second |
| AuthController.IsInvited | src/controllers/authController.ts:59-78 | accepted exactly when the token verifies and its email claim equals the email of the invitation stored under it (absent equals absent), binding that email; refusals are 401 |
| AuthController.CurrentInviteAccepted | src/controllers/authController.ts:59-78 | the latest invite token for an email, while unexpired, binds that email |
| AuthController.SupersededInviteRejected | src/controllers/authController.ts:59-78 | after re-inviting an email, the token it replaced is rejected |
| AuthController.NoEmailNoInvitationAccepted | src/controllers/authController.ts:70 | a verified token with no email claim that no invitation holds is accepted with no email |
| AuthController.IsAdmin | src/controllers/authController.ts:80-88 | passes exactly for an administrator; otherwise 401 "This endpoint requires Admin rights" |
| AuthController.ForgotPassword | src/controllers/authController.ts:90-112 | an unknown email is a 404 with nothing changed; otherwise only that account gets the sha256 of the secret and an expiry 10 minutes out, and the plaintext secret is returned |
| AuthController.Requested | src/controllers/authController.ts:99-106 | a reset request changes only the requesting account |
| AuthController.RequestedSecretRedeems | src/controllers/authController.ts:99-125 | a requested secret that no other account holds finds the requesting account before its ten-minute expiry and no account from the expiry on |
| AuthController.RedeemedSecretSpent | src/controllers/authController.ts:122-139 | once a reset has saved the requesting account, its reset fields are cleared and the secret finds no account |
| AuthController.ResetConforms | src/controllers/authController.ts:130-139 | a stored account given a new password of at least eight characters after trimming passes validation |
| AuthController.ResetRoundTrip | src/controllers/authController.ts:90-145 | a secret requested for a stored email redeems exactly when redeemed before its ten minutes are up, and after a successful redemption a second one is 400 |
| AuthController.ResetSaves | src/controllers/authController.ts:130-139 | a reset that passes validation stores the new password's hash, the save hook's change time, no reset fields and exactly one new session token |
| AuthController.LaterChangeStale | src/controllers/authController.ts:44-52 | a password change stamped any millisecond after a token's issue makes that token stale |
| AuthController.StaleSoleSessionRefused | src/controllers/authController.ts:20-57 | an account whose only session token is stale is never authenticated as |
| AuthController.ResetSessionRefused | src/controllers/authController.ts:130-139 | an account saved by a reset whose change was stamped after the token's issue is never authenticated as, so the returned token is unusable |
| AuthController.ResetPassword | src/controllers/authController.ts:114-145 | no account holding the secret's digest with an expiry after now is 400 with nothing changed; success saves exactly that account with the hashed password, the change time the save hook read, cleared reset fields and the returned token (issued at the request time) as its only session; a refused save changes nothing |
| TaskModel.TaskMessages | src/models/task.ts:9-24 | no message exactly when the trimmed description is non-empty, `completed` is absent or casts to a Boolean, and an owner is given |
| TaskModel.NewTask | src/models/task.ts:9-24 | the new task has the given id, its description is the trimmed `description` field (non-empty), `completed` is the cast of the supplied value or false when absent, and the owner is the one given |
| TaskModel.AppendKeepsValid | src/models/task.ts:10-14 | adding a described task with a new id keeps ids unique and every description valid |
| TaskModel.ReplaceKeepsValid | src/models/task.ts:10-14 | replacing a task by a described one with the same id keeps the invariant |
| TaskModel.Removed | src/controllers/taskController.ts:154-157 | removal drops exactly the task at that position and keeps the others in order |
| TaskModel.RemoveKeepsValid | src/controllers/taskController.ts:154-157 | removing a task keeps the invariant |
| TaskModel.TaskCollection.Insert | src/controllers/taskController.ts:36-37 | succeeds exactly when validation passes and the id is new, appending the new task; a refusal changes nothing and is a 400 |
| TaskModel.TaskCollection.FindOneAndUpdate | src/controllers/taskController.ts:114-124 | a bad update is refused with nothing changed; otherwise only the first task matching (id, owner), if any, is patched |
| TaskModel.TaskCollection.FindOneAndDelete | src/controllers/taskController.ts:154-157 | only the first task matching (id, owner), if any, is removed and returned |
| TaskController.CreateTask | src/controllers/taskController.ts:36-39 | the task belongs to the caller whatever owner the body names; `completed` defaults to false; success appends it, refusal is a 400 with nothing changed |
| TaskController.GetTaskById | src/controllers/taskController.ts:64-73 | a task is returned exactly when one has this id and the caller as owner; otherwise 404 "Missing task or unauthorized access" |
| TaskModel.UpdateError | src/models/task.ts:9-18 | an update is refused before the query exactly when its `completed` does not cast or its `description` trims to empty, and a refusal reaches the client as 400 |
| TaskController.UpdateTaskById | src/controllers/taskController.ts:106-130 | succeeds exactly when the keys are within {description, completed}, the update casts and validates, and the caller owns a task with the id; a key outside that set is 400 "Invalid Updates."; a failed cast or validator is its 400 error; no (id, caller) match is 404; success changes only that task, and any refusal changes nothing |
| TaskController.DeleteTaskById | src/controllers/taskController.ts:154-163 | only the caller's task with this id is removed and returned; otherwise 404 with nothing removed |
| TaskController.GetUserTasks | src/controllers/taskController.ts:187 | exactly the tasks the caller owns (their store order is stated by `TaskController.OwnTasksAreOwnerListing`) |
| TaskController.Page | src/controllers/taskController.ts:227-228 | skip then limit leave the contiguous run from `offset` of |limit| elements, or all of the rest when the limit is 0 |
| TaskController.ListTasks | src/controllers/taskController.ts:216-232 | succeeds exactly when any `completed` filter casts to a Boolean and the offset is not negative; a non-Boolean `completed` filter is a cast error; a negative offset is a non-operational error; a success is the contiguous page of the tasks passing both filters, in store order |
| TaskController.ListingRefusalStatus | src/controllers/taskController.ts:225-230 | a refused listing reaches the client as 400 or 500 |
| TaskController.GetAllTasks | src/controllers/taskController.ts:216-232 | the step-by-step query building yields exactly `ListTasks` |
| TaskController.OtherQueryKeysIgnored | src/controllers/taskController.ts:216-223 | query keys other than completed, owner, offset and limit change nothing |
| TaskController.EmptyQueryListsAll | src/controllers/taskController.ts:216-232 | with no query, the listing is the whole collection in store order |
| TaskController.OwnTasksAreOwnerListing | src/controllers/taskController.ts:187 | a caller's own list equals the admin listing filtered by that owner |
| Routing.LookupAt | src/routers/userRouter.ts:19-27 | a matching route with no earlier match is the one taken |
| Routing.GuardsEstablish | src/routers/userRouter.ts:22 | a guard chain that passes has authenticated the attached account, checked it is an administrator, or bound the invited email, for each guard it holds |
| Routing.Dispatch | src/routers/taskRouter.ts:14-20 | no matching route is left unhandled; otherwise the first match's guards run from an empty request state and a pass reaches its handler |
| Routing.DispatchEstablishes | src/routers/taskRouter.ts:14-20 | a handler reached through a route has every guard of that route behind it |
| Routing.ReachedOnlyThrough | src/routers/taskRouter.ts:15 | a handler every route to which carries a guard is reached only with what that guard establishes |
| Routing.ReachedOnlyWithToken | src/routers/userRouter.ts:25 | a handler reached only through `/:token` behind the invite check gets a one-segment path whose token passed that check |
| UserRouter.ForgotPasswordOpen | src/routers/userRouter.ts:20 | `POST /forgotPassword` reaches its handler with no guard |
| UserRouter.ResetPasswordOpen | src/routers/userRouter.ts:21 | `PATCH /resetPassword/:token` reaches its handler with no guard |
| UserRouter.LoginOpen | src/routers/userRouter.ts:23 | `POST /login` reaches its handler with no guard |
| UserRouter.GuardedBy | src/routers/userRouter.ts:22-27 | every route to the invite handler carries the session and admin checks; logout, profile update and profile read carry the session check; registration carries the invite check |
| UserRouter.InviteRequiresAdmin | src/routers/userRouter.ts:22 | the invite handler is reached only by an authenticated administrator |
| UserRouter.AccountRoutesAuthenticate | src/routers/userRouter.ts:24-27 | logout, profile update and profile read act only for the authenticated account |
| UserRouter.RegistrationRoute | src/routers/userRouter.ts:25 | the only route to registration is `POST /:token` behind the invite check |
| UserRouter.RegistrationRequiresInvite | src/routers/userRouter.ts:25 | registration is reached only with a token that passed the invite check, with the email it bound |
| UserRouter.LiteralPostsWin | src/routers/userRouter.ts:20-25 | a POST to forgotPassword, invite, login or logout goes to its own route, never to registration |
| UserRouter.OtherPostsRegister | src/routers/userRouter.ts:20-25 | any other single non-empty segment in a POST is read as an invite token |
| TaskRouter.EveryTaskRouteAuthenticates | src/routers/taskRouter.ts:15-20 | every task handler is reached only by an authenticated account |
| TaskRouter.AllTasksRequiresAdmin | src/routers/taskRouter.ts:15 | the all-tasks listing is reached only by an administrator |
| TaskRouter.AllIsNeverATaskId | src/routers/taskRouter.ts:15-16 | `GET /all` is the listing route, never the task-by-id route |
| TaskRouter.PerTaskRoutesNeedOnlyASession | src/routers/taskRouter.ts:16-20 | the `/:id` routes carry the session check only; ownership is left to the handlers |
| SeedAdmin.NoAdminIffNoneCounted | src/utils/seedAdmin.ts:11-15 | no administrator is found exactly when none is counted |
| SeedAdmin.AdminCountAppend | src/utils/seedAdmin.ts:24-25 | appending an account adds one to the count exactly when it is an administrator |
| SeedAdmin.SeedAdminUser | src/utils/seedAdmin.ts:9-29 | with an administrator present nothing is written; otherwise "admin"/"admin@gmail.com" is appended as an administrator with a hashed password, or a refused save changes nothing; the administrator count goes from 0 to at most 1 and is otherwise unchanged, so repeated runs seed at most one |

## Left out

- Server bootstrap, the database connection and disconnection, the documentation generator and all logging are I/O. They are not modelled.
- `catchAsyncError` is not modelled. A thrown error is a `Result` error that is handed to the error handler.
- Concurrency is not modelled. Each request runs alone against the stores, so the lost-update races between concurrent read-modify-write requests are out of scope.
- Ids are plain strings. mongoose's ObjectId cast is not modelled, so the 400 a malformed id would cause in the per-task handlers is missing.
- The router's path handling is simplified:
  - paths are given as their segments;
  - Express's case-insensitive matching and its optional trailing slash are not modelled;
  - a request no route matches is left to the framework (`None`).
- The `Authorization` header is given already split on single spaces.
- A token string is its `Tokens.Jwt` value, so the compact encoding is assumed injective. Signing, verification and the cryptography are abstract.
- sha256, bcrypt's salt and work factor, `crypto.randomBytes` and `Date.now` are abstract or parameters.
- `validator.isEmail` is a parameter of the stores and is not interpreted. The `emailValidation.ts` wrapper is `UserController.IsValidEmail`.
- Primitives.ParseIntOr0: numbers are unbounded integers. JavaScript's double precision for very long numerals and `Infinity` are not modelled.
- Request bodies hold only strings and Booleans. A query holds one string per key, so array-valued query parameters are not modelled.
- `getMe` is not modelled. Its route is in the table and is guarded, but the handler only reads the account back with two fields projected.
- UserModel.UserCollection.Save: validates the whole document instead of only the modified paths. This differs only for stored documents that already violate the schema, and the store invariant excludes those.
- UserController.Registration: reads only `name` and `password` from the body. The program spreads the whole body into the new document, so a body-supplied `tokens` array, `_id` or reset fields would be kept; the model's new account always has no sessions and no reset fields.
- UserController.CreateUser: body keys other than name, password, email and isAdmin (`tokens`, `_id`, the reset fields) are not read from the body.
- Errors.Respond: reads `name` on the copy `{ ...err }` that the handler makes, so it assumes the library errors carry `name` as an own property that the spread copies. If mongoose defines it only on the prototype, the copy of a cast or validation error has neither `name` nor `isOperational`, and the program as written answers it with 500 "Something went very wrong!" instead of the 400 the model gives.
- UserModel.ValidationMessages: measures the password's length in characters. The `minlength` validator counts UTF-16 code units, so a password made of characters outside the Basic Multilingual Plane is longer for the program than for the model.
- UserController.UserLogout: requires the caller to be a stored account. The route runs the session check first, which guarantees it.
- The admin seed is a single run. Repeated runs are covered by the administrator-count clause of `SeedAdmin.SeedAdminUser` rather than by a loop.
- mongoose query internals are not modelled: `populate`, the upsert options, and the order of validators inside `save`. The double `next()` in the pre-save hook is not modelled either.
