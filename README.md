# Auth system: access gate, signup/login, user schema, error handler

A Dafny model of the core of a small Node.js account service. The model has four parts:

- **Access gate** (`AccessGate`, `access_gate.dfy`). This holds the two Express middlewares, `authorizeUser(allowedRoles)` and `requireAuth`.
  - Each one tests the `Authorization` header for the case-sensitive prefix `"Bearer "`. It then takes `header.split(" ")[1]` as the token, which is a simplified form of the bearer scheme of section 2.1 of RFC 6750.
  - It then has the token verified, requires a `data` object in the claims and re-reads the account by the claimed id. It checks liveness and, in `authorizeUser` only, password freshness and role membership.
  - Finally it either sets `req.user` and calls `next()`, or calls `next(error)`.
  - The decision is a pure early-exit function (`AuthorizeUserChain`, `RequireAuthChain`). Both chains are proved equal to a stage-by-stage run in which the first failing stage decides the error.
  - The middlewares themselves are methods of the class `Request`. They assign `user` and append exactly one entry to the log of `next` calls.
- **Signup and login** (`UserController`, `user_controller.dfy`). The class `Controller` holds the user collection as a map from document id to record, plus the hashing and signing functions.
  - `Signup` inserts a record only if the username is absent.
  - `Login` only reads.
  - The functions `SignupOutcome` and `LoginOutcome` state what each handler answers and what the collection becomes. The lemmas beside them state the promises.
- **User schema** (`UserModel`, `user_model.dfy`). This covers the `firstName`/`lastName` validators `!/[^a-zA-Z ]/.test(value)`, the `role` enumeration with its default `"User"`, the required `username` and `password` paths, and the unique index on `username`.
- **Error handler** (`ErrorHandler`, `error_handler.dfy`). This covers the `CustomError` constructor's status default and the mapping from an error value to one `(status, {error})` response.

Supporting modules:
- `Outcomes` (`outcomes.dfy`): `Option` and `Result`.
- `Tokens` (`tokens.dfy`): the JSON Web Token claims (RFC 7519) as seen through the library. `jwt.verify` is an abstract outcome, either the decoded claims or the error it throws.

Collaborators that cannot be seen are parameters:
- **Hashing.** `bcrypt.hash` is the function value `Controller.hash`.
- **Signing.** `jwt.sign` is `Controller.sign`, applied to the payload, `"1d"` and the clock reading.
- **Verification.** `jwt.verify` is the `verify` argument of the gates.
- **Id generation.** The id the store gives a new document is a `Signup` argument.
- **Undeclared account members.** The gates read three account members that the schema does not declare: `isActive`, `changedPasswordAfter` and `email`. They are the uninterpreted `AccessGate.Hooks`.

### Behaviour as written

The model follows the code. Several consequences of the code are stated as lemmas:
- **Dead password check.** `bcrypt.compare` is not awaited (`controllers/userController.js:47`), so its value is a pending Promise, which is always truthy. The "Password is incorrect!" branch is dead, and any password logs a known username in (`LoginIgnoresPassword`).
- **Login tokens never pass a gate.** Login signs the payload `{username}` with no `data` member (`controllers/userController.js:56`). Both gates therefore refuse its token with "Invalid token structure" (`LoginTokenRejectedByGates`).
- **Signup response.** Signup answers 200, not 201. It applies no password-length rule, so any given password is accepted (`SignupAcceptsAnyPassword`), and it issues no token. Its response holds the new document's id and the stored record, hashed password included.
- **Duplicate usernames.** A duplicate username is answered 400 "Username already exist". The unique index's message "Username already taken" is never produced, because `unique` creates an index and is not a validator. In the sequential model the index's duplicate-key error cannot be reached from signup (`SignupNeverHitsDuplicateKey`).
- **Required strings.** A required string path is refused when it is empty as well as when it is missing.

## Model

| member | source | states |
|---|---|---|
| `UserModel.ParseRole` | models/userModel.js:27-31 | only "User" and "Admin" pass the role enumeration, and each names its role |
| `UserModel.NameValidatorIff` | models/userModel.js:9-11 | the regex validator accepts a name exactly when every character is in `[a-zA-Z ]` (both directions) |
| `UserModel.NameValidatorExamples` | models/userModel.js:9-11 | "" and "Mary Ann" pass; a digit, a hyphen, an apostrophe and "é" are refused |
| `UserModel.Validate` | models/userModel.js:4-40 | validation succeeds exactly when the fields meet the schema read declaratively; the built record keeps every field, with role "User" by default; a failure lists at least one schema path |
| `UserModel.FirstNameFailureMessage` | models/userModel.js:6-14 | a refused first name fails validation, and its failures include `firstName` with the first-name message |
| `UserModel.LastNameFailureMessage` | models/userModel.js:16-24 | a refused last name fails validation with a `lastName` failure carrying the last-name message |
| `UserModel.Create` | models/userModel.js:32-40 | the store creates a document exactly when the fields pass the schema and the username is not stored yet; a duplicate-key refusal happens only for valid fields with a taken username |
| `UserModel.CreateDefaultsRole` | models/userModel.js:27-31 | a document created without a role gets role User |
| `UserModel.CreatePreservesInvariant` | models/userModel.js:32-40 | inserting a created document under a fresh id keeps every record valid and all usernames distinct |
| `AccessGate.Split` | middlewares/roleMiddleware.js:21 | `split(" ")` yields at least one piece, and no piece contains a space |
| `AccessGate.JoinSplit` | middlewares/roleMiddleware.js:21 | joining the pieces of a split with single spaces gives the original header back |
| `AccessGate.SplitJoin` | middlewares/roleMiddleware.js:21 | splitting a join of space-free pieces gives the pieces back |
| `AccessGate.BearerTokenIsFirstWord` | middlewares/roleMiddleware.js:17-21 | after the prefix check, `split(" ")[1]` is the text after "Bearer " up to the next space or the end, and it is the only such text |
| `AccessGate.BearerTokenOfIssued` | middlewares/roleMiddleware.js:17-21 | a header "Bearer " + t with a space-free t passes the prefix check and yields t |
| `AccessGate.BearerTokenExamples` | middlewares/roleMiddleware.js:17-25 | "Bearer " and "Bearer  x" yield an empty token, "Bearer ab c" yields "ab", and "bearer ab" and "Bearer" fail the prefix test |
| `AccessGate.FirstFailureWins` | middlewares/roleMiddleware.js:14-70 | a staged run fails with the error of its first failing stage, and passes exactly when every stage passes |
| `AccessGate.AuthorizeUserIsStaged` | middlewares/roleMiddleware.js:14-70 | `authorizeUser` fails exactly when one of its eight checks fails, in source order, with the first failing check's error |
| `AccessGate.RequireAuthIsStaged` | middlewares/roleMiddleware.js:76-111 | `requireAuth` fails exactly when one of its five checks fails, in source order, with the first failing check's error |
| `AccessGate.MissingBearerRejected` | middlewares/roleMiddleware.js:17-19 | an absent header, or one without the exact "Bearer " prefix, gives AuthenticationError "Access token required" in both gates (also lines 79-81) |
| `AccessGate.EmptyTokenRejected` | middlewares/roleMiddleware.js:23-25 | in `authorizeUser` an empty token gives AuthenticationError "Access token required" |
| `AccessGate.MissingDataRejectedBeforeLookup` | middlewares/roleMiddleware.js:30-37 | verified claims without `data` give "Invalid token structure" in both gates, and the result does not depend on the stored accounts (also lines 86-91) |
| `AccessGate.AuthorizationOnlyAfterAuthentication` | middlewares/roleMiddleware.js:37-57 | a role refusal is an AuthorizationError, and it happens exactly when every authentication check passed and the role claim is not allowed |
| `AccessGate.AuthorizeUserGrants` | middlewares/roleMiddleware.js:54-65 | `authorizeUser` admits exactly the authenticated requests with an allowed role claim, and attaches the claim's id, role and username with the stored e-mail |
| `AccessGate.AdminOnlyGate` | middlewares/roleMiddleware.js:54-57 | the gate `["Admin"]` admits only Admin claims, and refuses an authenticated User claim with AuthorizationError |
| `AccessGate.RequireAuthIgnoresRoleAndFreshness` | middlewares/roleMiddleware.js:90-106 | `requireAuth` gives the same verdict whatever the freshness predicate, and on success takes role and username from the stored account |
| `AccessGate.AuthorizeUserImpliesRequireAuth` | middlewares/roleMiddleware.js:60-65 | a request `authorizeUser` admits is admitted by `requireAuth` for the same id and e-mail |
| `AccessGate.Request.AuthorizeUser` | middlewares/roleMiddleware.js:13-71 | exactly one `next` call is appended: `next()` on success, `next(error)` otherwise; `req.user` changes only on success; a role refusal records one denial |
| `AccessGate.Request.RequireAuth` | middlewares/roleMiddleware.js:75-112 | exactly one `next` call is appended, and `req.user` changes only on success |
| `UserController.LoginPayload` | controllers/userController.js:56 | the login payload has a username and no `data` member |
| `UserController.SignupDuplicateRejected` | controllers/userController.js:9-14 | a stored username is answered 400 "Username already exist" and the collection is unchanged |
| `UserController.SignupSuccess` | controllers/userController.js:16-28 | signup succeeds exactly when the username is free, a password is given and the fields pass the schema; it then adds the record with role User and password hash(password, 10) and answers 200 "User Created Successfully!" with the new id and that record |
| `UserController.SignupFailureLeavesStore` | controllers/userController.js:9-33 | signup answers only 200 or 400, and every 400 leaves the collection unchanged |
| `UserController.SignupThrownFailure` | controllers/userController.js:16-33 | for a free username, a missing password is answered 400 with the hashing error "data and salt arguments required", and fields that fail the schema are answered 400 with the store's validation error listing the failures; the collection is unchanged in both |
| `UserController.SignupAcceptsAnyPassword` | controllers/userController.js:16-28 | with a non-empty hash, a free non-empty username, any given password (even the empty one) and absent or well-formed names are answered 200 and the new id is added: no password rule applies |
| `UserController.SignupAddsAtMostOne` | controllers/userController.js:17-23 | signup adds at most one record, under the new id, and changes no stored record |
| `UserController.SignupPreservesInvariant` | controllers/userController.js:9-23 | after signup every record still passes the schema and no two share a username |
| `UserController.SignupNeverHitsDuplicateKey` | controllers/userController.js:9-14 | the store's duplicate-key refusal never reaches a signup response |
| `UserController.LoginUnknownUser` | controllers/userController.js:40-45 | an unknown username is answered 404 "User not found" with no token |
| `UserController.LoginSuccess` | controllers/userController.js:55-61 | a known username is answered 200 "User logged in successfully" with the token signed from `{username}` with `expiresIn: "1d"`, and no user record |
| `UserController.LoginIgnoresPassword` | controllers/userController.js:47-53 | login's answer does not depend on the password, "Password is incorrect!" is never sent, and a known username always gets 200 |
| `UserController.LoginTokenRejectedByGates` | controllers/userController.js:56 | a login token, once verified, is refused by both gates with "Invalid token structure" |
| `UserController.Controller.FindOne` | controllers/userController.js:9 | finds a record exactly when one with that username is stored, and returns a stored record with that username |
| `UserController.Controller.Signup` | controllers/userController.js:5-34 | answers and updates the collection as `SignupOutcome` says, keeping the collection invariant |
| `UserController.Controller.Login` | controllers/userController.js:36-67 | answers as `LoginOutcome` says, without modifying the collection |
| `ErrorHandler.NewCustomError` | middlewares/errorHandler.js:2-5 | the status is the one given, or 500 when it is missing or 0; it is never 0 |
| `ErrorHandler.Handle` | middlewares/errorHandler.js:8-21 | a falsy error gives 500 "Internal Server Error!", a CustomError its own status and message, any other error 500 and its message; only a CustomError yields a status other than 500 |
| `ErrorHandler.CustomErrorResponse` | middlewares/errorHandler.js:2-18 | a constructed CustomError is answered with its given status (500 when none or 0) and its message |

## Left out

- **Plumbing.** The Express wiring, helmet, CORS, the rate limiters, body parsing, logging sinks, `app.listen` and signal handling in `index.js` are out. So is the database connection in `config/connectToDb.js` and the route registration in `routes/userRoutes.js`. These are plumbing. The `["Admin"]` gate of the delete route is used only as the instance in `AdminOnlyGate`.
- **Missing handler.** `deleteUserById` is imported by the routes but defined nowhere, so it is not part of this model.
- **Cryptography.** Password hashing and comparison are left out, and so are token signing and verification, including the MAC, the expiry clock check and the token encoding. They are function values or abstract outcomes.
- **Login after verification.** `LoginTokenRejectedByGates` assumes that the verifier returns the signed payload plus `iat` and `exp`. It also assumes that the signed token is non-empty and contains no space. A compact JWS token (three base64url parts joined by dots) has that shape, but token encoding is not modelled.
- **Error classes.** AuthenticationError and AuthorizationError are imported from the error module, which does not define them. Their status codes, and whether they count as CustomError in `Handle`, are not modelled.
- **Secret check.** The check for a signing secret when the module loads (`middlewares/roleMiddleware.js:6-10`) is treated as given. So is login's `jwt.sign` failing for lack of a secret, which would end in login's `catch` with a 400.
- **Hash output.** `bcrypt.hash` is taken to return a non-empty string (`NonEmptyHashes`, part of `Controller.Valid`); its actual 60-character format is not modelled.
- **Store failures.** A lookup by a malformed id (a cast error passed to `next(error)`), database transport failures, the `createdAt`/`updatedAt` timestamps, `.select('+password')` and the numeric cast of `age` are not modelled. Neither is the exact combined text of a validation error, nor the order in which its failures are listed: the response carries the thrown error itself, as a list whose order is not significant.
- **Missing username.** A signup or login body without a `username` member is not modelled. Its lookup behaviour belongs to the query layer; the username is always a string here, possibly empty.
- **Unhandled rejection.** A login body without a `password` member makes the unawaited comparison reject with no handler. This is not modelled, because its effect depends on the runtime.
- **Console output.** The `console.log("Inside error")` in the error handler (`middlewares/errorHandler.js:15`) writes to the console only and is left out.
- **Audit log.** The `logger.warn` audit line is recorded only as a ghost `Denial` in `Request.denials`.
- **Concurrency.** Each handler runs to completion on its own. The race between the username pre-check and the insert cannot arise here, so the duplicate-key path is dead.
- UserController.SignupSuccess: states that the stored password is `hash(password, 10)`. That this differs from the plaintext is a property of the hash function, which is not modelled.
