# clay-humane-events: a verified model of the entity layer, authentication and the admin front end

This project models, in Dafny, the logic at the centre of the clay-humane-events
application. That application is an Express/MongoDB back end for an animal-welfare
organisation's events, with a React admin front end. Every managed resource (events,
registrations, users, e-mail templates, scheduled tasks, backups, migrations,
notifications) is served by one generic create/read/update/delete service and one
generic route table. Around those sit an audit log, two kinds of authentication and a
handful of small status machines.

What is modelled:

- **Request normalisation** (`request_params.dfy`). `parseParamsWithDefaults` turns an
  untrusted query into a store query, a window, an ordering and a cursor. Sort keys are
  allow-listed, `!` means descending, search keys are allow-listed, and `k:v,k:v`
  filter strings are parsed.
- **The generic entity layer.**
  - `store.dfy` and `doc_ordering.dfy` cover a collection keyed by increasing ids, and
    MongoDB's `$match`/`$sort`/`$skip`/`$limit`.
  - `entity_service.dfy` is the service, which announces every change on the lifecycle
    channel (`lifecycle.dfy`).
  - `entity_routes.dfy` covers the routes' permission table and their error envelope.
  - `change_audit.dfy` is the audit listener with its field-level diff.
- **Authentication.**
  - `credentials.dfy` and `api_helpers.dfy` cover password hashing and the session check.
  - `auth_sessions.dfy` covers bearer sessions, one per user.
  - `auth_middleware.dfy` covers the `Authorization` header dispatch, the API-key scope
    check and the role gates.
  - `users.dfy` and `user_service.dfy` cover the user record, strict mode, the login
    lockout, registration, updates, and the reset, invitation and change-password flows.
- **E-mail.**
  - `email_template.dfy`: template resolution (per-event, then global, then built-in),
    `{{name}}` substitution, validation, upsert and reset.
  - `emails.dfy` and `email_sends.dfy`: the pending → sent | failed send record and the
    registration-fields table.
- **Domain services.**
  - Event registration (`event_registration.dfy`).
  - Events with slugs, QR paths and queries (`events.dfy`).
  - Administrator notifications (`admin_notification.dfy`).
  - Scheduled tasks (`scheduled_task.dfy`).
  - Data migrations, database backups and note read marks (`data_migration.dfy`,
    `database_backup.dfy`, `note_read.dfy`).
- **The front end's logic.**
  - Local storage with a lifetime, the public-endpoint test, truncation and relative
    times (`frontend_helpers.dfy`).
  - The registration-field editor of the builder and its modal (`registration_fields.dfy`).
  - The public registration page (`event_registration_page.dfy`).
  - The shared change handler (`form_inputs.dfy`) and the generic entity dialog
    (`entity_form.dfy`).
  - The API-key page (`api_keys_page.dfy`).
  - The change-log and e-mail listings with their filter round trip through the
    server's parser (`admin_listings.dfy`).
  - The set-password and profile forms, compared with the server's password policy
    (`password_forms.dfy`).

Conventions of the model:

- **Values.** Values are JSON values (`values.dfy`). A stored record is a map from field
  name to value, and an absent field plays the part of `undefined`.
- **Time.** Time is an integer `now` in milliseconds.
- **Randomness and hashing.** Hash functions (PBKDF2, SHA-256) are function-typed
  parameters. Random tokens, salts and UUIDs are parameters too.
- **Errors.** Errors are `Result.Err` carrying the exact message the source throws or
  answers with.
- **Imperative code.** Code that changes state step by step is a class whose methods
  carry `modifies` clauses: the collections, the request object, the editor and dialog
  state. Each such method is proved against a specification function, and the
  properties of that function are proved as lemmas.
- **Duplicated handlers.** The modal field editor
  (`frontend/src/Components/Modal/RegistrationFieldsModal.jsx`) repeats the builder's
  handlers at lines 30-36, 67-81 and 117-131. Both share the members of
  `RegistrationFields`, so the rows below cite the builder.

## Model

| member | source | states |
|---|---|---|
| RequestParams.ParseParamsWithDefaults | api/inc/helpers.js:130-250 | the method builds, section by section, exactly the normalised query that `ParseParams` defines, including the search-key error |
| RequestParams.SearchKeyGuard | api/inc/helpers.js:135-145 | the request is refused with `Not a valid search key.` if and only if all three search parameters are truthy and the key is not `key` or `name` |
| RequestParams.LimitDefaults | api/inc/helpers.js:147-161 | the limit is `false` exactly when `all` is truthy and no numeric limit is given; with neither `limit` nor `all` it is 10; without `page` the page is 0 |
| RequestParams.ParseFilters | api/inc/helpers.js:163-176 | the filter loop yields the filters `FiltersOf` defines: string pieces parsed one by one, an object taken as it is |
| RequestParams.ArrayAsDoc | api/inc/helpers.js:173-178 | an array given as filters contributes one entry under each index |
| RequestParams.PiecesParse | api/inc/helpers.js:167-172 | pieces `k:v` with non-empty colon-free, comma-free key and value parse to exactly those pairs, the last repeated key winning |
| RequestParams.FilterStringRoundTrip | api/inc/helpers.js:165-172 | parsing a filter string joined from plain pairs gives back exactly the pairs as a map |
| RequestParams.FiltersOverrideSearch | api/inc/helpers.js:144-178 | every filter lands in the query and overrides a search entry of the same key; every other query key is the allow-listed search key with its value |
| RequestParams.Assign | api/inc/helpers.js:186 | `sort[k] = v` puts `(k, v)` in the ordering and keeps every other entry |
| RequestParams.ParseSort | api/inc/helpers.js:180-216 | the method computes the requested ordering `RequestedSort`, or the error a non-string column raises |
| RequestParams.SortObjectLoop | api/inc/helpers.js:183-188 | the object loop yields exactly the valid keys of the object in its own order |
| RequestParams.SortColumnsLoop | api/inc/helpers.js:189-202 | the array loop yields the ordering of `SortFromColumns`, stopping at the first column that throws |
| RequestParams.SortFromColumnsStops | api/inc/helpers.js:190-197 | once a column throws, later columns do not change the outcome |
| RequestParams.SortFromObjectAllowed | api/inc/helpers.js:183-188 | an object sort keeps only allow-listed keys |
| RequestParams.SortFromColumnsAllowed | api/inc/helpers.js:189-202 | an array sort keeps only allow-listed keys |
| RequestParams.SortFromColumnsError | api/inc/helpers.js:190-197 | the only failure of an array sort is the `startsWith` type error of a non-string column |
| RequestParams.SortErrorIsTypeError | api/inc/helpers.js:182-216 | the only failure of the sort section is that type error |
| RequestParams.SortAlwaysAllowListed | api/inc/helpers.js:180-222 | every accepted request yields a non-empty ordering over allow-listed keys only |
| RequestParams.SingleColumnSort | api/inc/helpers.js:203-222 | a single text column `!k` orders by `k` descending, `k` ascending, and a column naming no allow-listed key leaves `{createdAt: -1}` |
| EntityServices.Construct | api/services/abstracts/BaseEntityService.js:5-13 | constructing the abstract service directly fails; a concrete service keeps its configuration |
| EntityServices.SearchFields | api/services/abstracts/BaseEntityService.js:145-147 | without an override the search fields are exactly `['key']` |
| EntityServices.LookupByField | api/services/abstracts/BaseEntityService.js:75-95 | a lookup by a field other than id succeeds exactly when some record matches, returns a matching record, and otherwise fails with `No <lowercased name> found` |
| EntityServices.EntityService.GetEntityBy | api/services/abstracts/BaseEntityService.js:75-95 | by `id`: a record is returned exactly when the value is a stored id, and it is that record; a missing id fails with `No <name> found` and a value that is not an id with the cast error; by another field: a record is returned exactly when some stored record matches the field, it matches, and otherwise `No <name> found` |
| EntityServices.EntityService.InsertEntity | api/services/abstracts/BaseEntityService.js:23-38 | the data is cast by the resource's schema, keeping only declared paths and filling their defaults; the cast record is stored with a fresh id and timestamps, and exactly one creation event naming the entity is announced |
| EntityServices.EntityService.UpdateEntity | api/services/abstracts/BaseEntityService.js:40-57 | a missing id fails with `Unable to update <name>!` and changes and announces nothing; otherwise the record is patched with the schema-declared part of the data only, stored, and one update event carries the record before and after |
| EntityServices.EntityService.DeleteEntity | api/services/abstracts/BaseEntityService.js:59-73 | a missing id fails with `Unable to delete <name>!` and announces nothing; otherwise exactly that record is removed, returned and announced |
| EntityServices.EntityService.GetEntities | api/services/abstracts/BaseEntityService.js:101-126 | a malformed request fails with the parameter or sort error; otherwise the page is the matching stored records in the requested order, after skipping `page * limit` of them and taking at most the limit; without a limit it is every match |
| EntityServices.WindowOfSorted | api/services/abstracts/BaseEntityService.js:111-116 | a skip/limit window of an ordered list is ordered and holds only elements of the list |
| EntityServices.ListEntitiesShape | api/services/abstracts/BaseEntityService.js:101-117 | a listed page holds only matching records, at most `limit` of them, in the requested order, and is the window `page * limit` of the ordered matches; an unlimited request lists every match |
| EntityServices.WholeWindow | api/services/abstracts/BaseEntityService.js:112-115 | a window from the start at least as long as the list is the whole list |
| EntityServices.SearchDocs | api/services/abstracts/BaseEntityService.js:128-143 | a falsy or non-text term fails (`Search term is required!` when falsy); otherwise the result is a permutation of the records some search field of which contains the term case-insensitively, newest first |
| EntityServices.EntityService.SearchEntities | api/services/abstracts/BaseEntityService.js:128-143 | a falsy term fails with `Search term is required!`; otherwise the result is a permutation of the stored records that match on a search field, newest first |
| Store.Collection.Create | api/services/abstracts/BaseEntityService.js:24-25 | `save()` stores the prepared document with the next id and both timestamps and appends it to the natural order |
| Store.Collection.UpdateById | api/services/abstracts/BaseEntityService.js:42 | `findByIdAndUpdate` changes only the named record, keeps its `_id` and refreshes `updatedAt`; a missing id changes nothing |
| Store.Collection.DeleteById | api/services/abstracts/BaseEntityService.js:60 | `findByIdAndDelete` removes exactly the named record and returns it |
| Store.Window | api/services/abstracts/BaseEntityService.js:111-116 | a `$skip`/`$limit` pair succeeds only for a non-negative skip and a positive limit and returns the slice it names |
| Store.Select | api/services/abstracts/BaseEntityService.js:104-107 | a `$match` keeps exactly the records the predicate accepts, in their order |
| DocOrdering.SortDocs | api/services/abstracts/BaseEntityService.js:108-110 | a `$sort` stage returns a permutation of its input |
| DocOrdering.SortDocsSorted | api/services/abstracts/BaseEntityService.js:108-110 | the result of a `$sort` stage is ordered by the requested keys |
| DocOrdering.CompareDocsFacts | api/services/abstracts/BaseEntityService.js:108-110 | the document comparison is antisymmetric, three-valued and transitive, so sorting by it is well defined |
| ChangeAudit.ComputeChanges | api/listeners/changelog.js:4-23 | the loop over the fields of `after` returns the changes `ChangesBetween` defines, and nothing when either version is missing |
| ChangeAudit.ChangesCharacterised | api/listeners/changelog.js:11-20 | a field is reported if and only if it is a field of `after`, not `_id`/`__v`/`updatedAt`/`createdAt`, and its JSON differs from before; each report carries both versions; no field is reported twice |
| ChangeAudit.NoChangesWhenAgreeing | api/listeners/changelog.js:11-20 | versions that agree on every non-bookkeeping field of `after` produce no changes, so a field only removed in `after` is never reported |
| ChangeAudit.NoSelfChanges | api/listeners/changelog.js:4-23 | `computeChanges(x, x)` is empty |
| ChangeAudit.EntryForShape | api/listeners/changelog.js:30-88 | `ChangeLog` announcements write nothing; creations and deletions always write one entry; an update writes one exactly when its diff is non-empty; the entry carries the entity type and action, and without a user it is attributed to `System` with a null id |
| ChangeAudit.AuditLog.Handle | api/listeners/changelog.js:33-87 | one listener call appends exactly the entry `EntryFor` defines, or nothing when storing it fails, a failure that is swallowed |
| AuthSessions.UserByTokenFound | api/services/authSession.js:62-74 | a hashed token resolves to a principal if and only if a session is stored under it; the principal is that session's user when the user reference resolves, else the session itself |
| AuthSessions.SoleSessionResolves | api/services/authSession.js:62-74 | the only session under a hash that names a stored user authenticates as that user |
| AuthSessions.WithoutUser | api/services/authSession.js:76-78 | `deleteMany({userId})` removes exactly the sessions owned by the user and keeps the others unchanged |
| AuthSessions.FoundCarriesToken | api/services/authSession.js:18 | the first session found under a hash carries that hash |
| AuthSessions.SessionService.LoginUserWithToken | api/services/authSession.js:5-39 | a falsy token fails with `No auth token!` and changes nothing; without a session under the token's SHA-256 a new one holding the digest and a `lastLogin` of the save time is stored under the next id and returned; with one, only its update time is touched and the found session is returned; only digests are stored |
| AuthSessions.SessionService.Touch | api/services/authSession.js:31 | writing the same token digest again changes only the session's update time; every other session and the next id stay |
| AuthSessions.SessionService.CreateUserSession | api/services/authSession.js:41-60 | every session of the user is removed and one new session under the token's hash is stored; other users' sessions are kept |
| AuthSessions.SessionService.DestroyAllUserSessions | api/services/authSession.js:76-78 | exactly the sessions of that user are removed |
| AuthSessions.OneSessionPerUser | api/services/authSession.js:41-60 | after `createUserSession(t, u)` the user owns exactly one session, the new one, stored under the hash of `t` |
| EntityRoutes.ToCamelCase | api/routes/abstracts/BaseEntityRoutes.js:34-36 | only the first character is lower-cased; the length and the rest are kept |
| EntityRoutes.CamelCaseShape | api/routes/abstracts/BaseEntityRoutes.js:13-15 | the camel-case name agrees with the lower-cased name in its first character, is idempotent, and leaves a name without capitals unchanged |
| EntityRoutes.OptionsOverride | api/routes/abstracts/BaseEntityRoutes.js:17-23 | a given option replaces its default; options not given default to `requireAuth: true` and the three `public*: false` |
| EntityRoutes.PermissionTable | api/routes/abstracts/BaseEntityRoutes.js:47-59 | search, delete, update and listing always authenticate; insert, getById and getByKey are public exactly when their option is truthy |
| EntityRoutes.GenericRoutes | api/routes/abstracts/BaseEntityRoutes.js:38-45 | `setupRoutes` registers six generic routes |
| EntityRoutes.RouteScopes | api/routes/abstracts/BaseEntityRoutes.js:38-45 | insert, delete and update need the `write` scope and getById, search and listing the `read` scope; each route's guard is the one `getAuthMiddleware` picks |
| EntityRoutes.Dispatch | api/routes/abstracts/BaseEntityRoutes.js:25-27 | the route that answers is a registered one for the request's verb whose pattern matches its path segment by segment (a `:param` segment taking any non-empty segment), and nothing answers when no registered route matches |
| EntityRoutes.DispatchIsFirst | api/routes/abstracts/BaseEntityRoutes.js:25-27 | no route registered before the one that answers matches the request |
| EntityRoutes.DispatchFirst | api/routes/abstracts/BaseEntityRoutes.js:25-27 | a route registered earlier that matches answers before any later one |
| EntityRoutes.DispatchPast | api/routes/abstracts/BaseEntityRoutes.js:25-27 | when no earlier route matches, the later routes decide as if registered alone |
| EntityRoutes.CustomRoutesWin | api/routes/abstracts/BaseEntityRoutes.js:26-27 | a custom route matching the request is the one that answers, even when a generic pattern matches it too |
| EntityRoutes.RootedMatches | api/routes/abstracts/BaseEntityRoutes.js:43-44 | a one-segment pattern matches a one-segment path exactly when its segment does |
| EntityRoutes.InsertMissesSegment | api/routes/abstracts/BaseEntityRoutes.js:39 | the generic `POST /` matches no one-segment path other than the root |
| EntityRoutes.UpdateTakesSegment | api/routes/abstracts/BaseEntityRoutes.js:43 | the generic `POST /:id` matches every non-empty one-segment path |
| EntityRoutes.OneSegmentPostUpdates | api/routes/abstracts/BaseEntityRoutes.js:39-44 | a `POST` to any one-segment path no custom route matches, such as `POST /abc`, is answered by the generic update |
| EntityRoutes.RegisterShadowsUpdate | api/routes/api/eventRegistration.js:35 | the custom `POST /register` answers that path although the generic `POST /:eventRegistrationID` matches it too |
| EntityRoutes.Construct | api/routes/abstracts/BaseEntityRoutes.js:6-9 | constructing the abstract routes directly fails with its message; a subclass is built |
| EntityRoutes.ConstructShape | api/routes/abstracts/BaseEntityRoutes.js:6-28 | the id parameter is the camel-case name plus `ID`, custom routes come first, and the options are the merged defaults |
| EntityRoutes.Respond | api/routes/abstracts/BaseEntityRoutes.js:61-149 | every handler answers with status 200, and a failure with `{error: true, message}` |
| EntityRoutes.EnvelopeAlways200 | api/routes/abstracts/BaseEntityRoutes.js:61-149 | the status is always 200; a truthy result is sent as it is; a falsy result of insert, search, delete, update or listing becomes an error envelope |
| Credentials.VerifyHashRoundTrip | api/inc/helpers.js:9-21 | a stored `salt:derived` value accepts a candidate exactly when its derived key with that salt equals the original's |
| Credentials.VerifyAcceptsOriginal | api/inc/helpers.js:9-21 | `verifyPassword(p, hashPassword(p))` holds for a deterministic key derivation |
| Credentials.VerifyNeedsColon | api/inc/helpers.js:16-21 | a stored value without a colon accepts no password |
| Credentials.HashAuthToken | api/inc/helpers.js:27-32 | a token is hashed exactly when it is a non-empty string, and the hash is its SHA-256 |
| ApiHelpers.SanitizeUserForPublic | api/inc/helpers.js:53-62 | exactly `password`, `loginAttempts`, `lockUntil` and `metadata` are removed and every other field is kept unchanged |
| ApiHelpers.SanitizeIdempotent | api/inc/helpers.js:53-62 | sanitising twice is sanitising once, and a sanitised record holds no password or lock |
| ApiHelpers.ValidEmailShape | api/inc/helpers.js:34-45 | an address `isValidEmail` accepts has exactly one `@`, starts with a letter or digit and ends with two letters |
| ApiHelpers.ValidPasswordSymbols | api/inc/helpers.js:47-51 | a password `isValidPassword` accepts holds one of the listed symbols and no white space |
| ApiHelpers.PasswordCharNotSpace | api/inc/helpers.js:48 | no character the password pattern admits is white space |
| ApiHelpers.SpaceNotAdmitted | api/inc/helpers.js:48 | the space character is not admitted by the password pattern |
| ApiHelpers.ValidateAuth | api/inc/helpers.js:64-82 | an authenticated answer comes only from a non-empty string token and carries scope `all` |
| ApiHelpers.ValidateAuthCharacterised | api/inc/helpers.js:64-82 | a token authenticates if and only if it is a non-empty string and a session is stored under its hash |
| AuthMiddleware.FindByKey | api/middleware/auth.js:42 | the key found is an active stored key with that value |
| AuthMiddleware.Decide | api/middleware/auth.js:4-64 | every refusal is a 401; a user is accepted only from a `Bearer ` header, a key only from an `ApiKey ` header and only while it has not expired |
| AuthMiddleware.BearerAcceptedIffSession | api/middleware/auth.js:12-38 | a bearer token is accepted if and only if it is non-empty and a session is stored under its hash |
| AuthMiddleware.ApiKeyAccepted | api/middleware/auth.js:40-58 | an API key is accepted exactly when an active key with that value exists and has not expired; otherwise the answer is `Invalid API key` or `API key has expired` |
| AuthMiddleware.OtherSchemeRejected | api/middleware/auth.js:60 | any other non-empty header is refused with `Invalid authorization format` |
| AuthMiddleware.Authenticate | api/middleware/auth.js:4-64 | a refusal answers the status and message and changes nothing; a bearer token sets the user and `authType = bearer`; an accepted key is stamped with `lastUsedAt = now`, stored on the request with `authType = apiKey`, and the user is left unset |
| AuthMiddleware.RequireApiKeyScope | api/middleware/apiKeyScope.js:10-30 | non-API-key requests pass; an API-key request passes exactly when its scope entry grants the permission, and is otherwise refused with 403 `API key does not have <permission> access to <entityType>` |
| AuthMiddleware.RequireSuperadmin | api/middleware/superadmin.js:1-11 | without a user the answer is 401; it passes exactly when the role is `superadmin`, else 403 |
| AuthMiddleware.RequireAdmin | api/middleware/superadmin.js:13-23 | without a user the answer is 401; it passes exactly when the role is `admin`, else 403 |
| AuthMiddleware.RequireAdminOrSuperadmin | api/middleware/superadmin.js:25-35 | without a user the answer is 401; it passes exactly when the role is `admin` or `superadmin`, else 403 |
| AuthMiddleware.GatesRelated | api/middleware/superadmin.js:13-35 | `requireAdmin` refuses a superadmin with 403, and the combined gate passes exactly when one of the single gates does |
| Users.Strict | api/schemas/User.js:4-99 | strict mode keeps exactly the declared paths of the data, with their values |
| Users.StampedDeclared | api/schemas/User.js:97-99 | a saved record holds only declared paths and the system paths `_id`, `createdAt`, `updatedAt` |
| Users.Selected | api/schemas/User.js:18-71 | a query returns exactly the fields not declared `select: false`, plus the hidden ones it asks for |
| Users.WithDefaults | api/schemas/User.js:5-82 | every given field is kept; a missing `role` becomes `user`, `loginAttempts` 0 and `isActive` true, and `key` is always present |
| Users.Validate | api/schemas/User.js:18-22 | a save fails on the required-path check exactly when the schema requires a password and none is given |
| Users.InsertedKeeps | api/schemas/User.js:4-99 | a saved record keeps every declared field of the data as given |
| Users.InsertedNeedsPassword | api/schemas/User.js:18-22 | data without a password is refused with the required-path error |
| Users.InsertedDrops | api/schemas/User.js:4-99 | a saved record holds no undeclared field |
| Users.InsertedInvitationLive | api/models/user.js:66-71 | with the invitation paths declared, a saved invitation token resolves exactly until the expiry it was given |
| Users.InvitationFieldsLive | api/models/user.js:66-71 | a record whose token matches resolves it exactly while `now` lies before its expiry |
| Users.FullName | api/schemas/User.js:105-107 | the `fullName` virtual is trimmed: it neither starts nor ends with white space |
| Users.Incremented | api/models/user.js:31-37 | `$inc` adds one to the attempt counter, refreshes `updatedAt` and keeps every other field |
| Users.Unlocked | api/models/user.js:39-45 | `$unset` removes the counter and the lock, so the count reads 0 and the record is never locked, and keeps every other field |
| Users.LockedUntil | api/models/user.js:47-57 | `$set: {lockUntil}` locks the record exactly until that time and keeps the counter |
| Users.UserModel.ByEmail | api/models/user.js:15-17 | the record found is a stored one whose e-mail is the lower-cased address |
| Users.UserModel.ByResetToken | api/models/user.js:59-64 | the record found carries the hashed reset token and an expiry after now, and none is found only when no record does |
| Users.UserModel.ByInvitationToken | api/models/user.js:66-71 | the record found carries the hashed invitation token and an expiry after now, and none is found only when no record does |
| Users.UserModel.SearchUsers | api/models/user.js:73-83 | a user is listed if and only if the user is active and the first name, last name or e-mail contains the term case-insensitively |
| Users.UserModel.Insert | api/schemas/User.js:4-99 | a save stores the record `Inserted` defines under the next id, or changes nothing when the required-path check fails |
| Users.UserModel.UpdateById | api/models/user.js:23-25 | only the named record changes, by the strict part of the update |
| Users.UserModel.UpdateByEmail | api/models/user.js:27-29 | only the record with that e-mail changes, by the strict part of the update; no record, no change |
| Users.UserModel.IncrementLoginAttempts | api/models/user.js:31-37 | the record with that e-mail has its counter raised by one; no record, no change |
| Users.UserModel.ResetLoginAttempts | api/models/user.js:39-45 | the record with that e-mail loses its counter and lock; no record, no change |
| Users.UserModel.LockAccount | api/models/user.js:47-57 | the record with that e-mail is locked until `now + lockDuration`; no record, no change |
| Users.IncrementStrict | api/models/user.js:31-37 | the strict `$inc` update of a stored user is the counted record |
| Users.DeclaredSchemaDropsInvitations | api/models/user.js:66-71 | under the schema as declared no stored user carries an invitation token, so the invitation lookup never finds anyone |
| UserServices.LoginStamp | api/services/user.js:127-131 | a successful login writes exactly `lastLogin = now` and the metadata object |
| UserServices.LoginIsTwoWrites | api/services/user.js:125-133 | the reset of the counters followed by the login stamp is the record `LoggedIn` describes |
| UserServices.LoggedIn | api/services/user.js:125-133 | after a successful login the counter reads 0, the record is never locked, and `lastLogin` is now |
| UserServices.LockedAccountRefused | api/services/user.js:105-107 | a locked account is refused with the temporary-lock message before its password is looked at, and is left as it was |
| UserServices.WrongPasswordStep | api/services/user.js:113-123 | a wrong password adds one to the counter; the account is locked, for exactly two hours, if and only if the counter already stood at four or more, with the matching message; activity and stored hash are kept |
| UserServices.RelockAfterExpiry | api/services/user.js:113-120 | once a lock has run out the counter is still high, so the next wrong password locks again at once |
| UserServices.FailuresSnoc | api/services/user.js:113-123 | `n + 1` wrong passwords are `n` followed by one more |
| UserServices.FailuresStayOpen | api/services/user.js:113-123 | from a clean counter, up to four wrong passwords leave the account open, active and counting exactly their number |
| UserServices.FifthFailureLocks | api/services/user.js:113-123 | from a clean counter, wrong passwords one to four are answered `Invalid email or password!` and the fifth locks the account with its own message |
| UserServices.FailureBelowFour | api/services/user.js:113-122 | below four earlier failures a wrong password gives the generic error and keeps the account open for the next try |
| UserServices.SuccessfulLoginResets | api/services/user.js:125-146 | a right password on an open account clears the counter and any lock and stamps the login time |
| UserServices.AcceptedIsBuildable | api/services/user.js:23-42 | a request that passes the registration checks has the e-mail and names the record is built from |
| UserServices.RegisteredRecord | api/services/user.js:44-75 | the record built for a registration has a lower-cased e-mail; its role is `user` unless a superadmin asked for another; it has a password hash exactly when a password was sent and invitation fields (hash and 48-hour expiry) exactly for an admin-created account |
| UserServices.RegisteredPasswordVerifies | api/services/user.js:61-63 | the stored hash of a self-chosen password verifies that password |
| UserServices.PasswordMandatoryForSelfRegistration | api/services/user.js:23-42 | self-registration without a password is refused with `Password is required!`; an admin-created account with a valid, unused e-mail passes the checks |
| UserServices.PickAllowedCharacterised | api/services/user.js:192-199 | the filtered body holds exactly the allowed keys the request sends, each with its value |
| UserServices.AdminPicked | api/services/user.js:317-335 | the administrator's filtered body holds exactly the listed fields the request has, with their values |
| UserServices.AdminFieldsListed | api/services/user.js:318-335 | the copy over the field list picks exactly the administrator's fields |
| UserServices.AdminUpdateFiltered | api/services/user.js:317-335 | a role change reaches the store only from a superadmin, and no password or counter ever does |
| UserServices.ResetRequest | api/services/user.js:473-477 | a granted reset request writes exactly the token hash, its expiry and the request time |
| UserServices.PasswordChangeNotAudited | api/services/user.js:436-442 | a password change is announced with two equal versions, so it leaves no audit entry |
| UserServices.OnlyChange | api/listeners/changelog.js:11-20 | changing one non-bookkeeping field yields exactly one change, for that field |
| UserServices.TokenPasswordAuditShowsOldHash | api/services/user.js:548-554 | a password set by a reset or invitation token is audited with the replaced stored hash as the previous value |
| UserServices.IssuedResetTokenLive | api/services/user.js:461-477 | a reset token issued now resolves by its hash for exactly one day, and the next request is in its cooldown for exactly five minutes |
| UserServices.ResetTokenSingleUse | api/services/user.js:541-544 | after a reset no token resolves to the record |
| UserServices.InvitationTokenSingleUse | api/services/user.js:502-505 | after an invitation is accepted no invitation token resolves to the record |
| UserServices.PublicViews | api/services/user.js:246-247 | one public view per found user, in the order found |
| UserServices.PublicViewsCover | api/services/user.js:241-248 | the views listed are exactly the public views of the users the search hits |
| UserServices.AdminInviteNeedsPassword | api/services/user.js:65-75 | as declared, the schema refuses an admin-created account without a password with the required-path error |
| UserServices.AdminInviteTokenDropped | api/services/user.js:65-75 | as declared, strict mode drops the invitation token of a saved admin-created account, so the token never resolves |
| UserServices.AdminInviteWithoutPassword | api/services/user.js:65-75 | with the invitation paths declared and the password optional, an admin-created account without a password is saved and its token resolves for exactly 48 hours |
| UserServices.UserService.LockRecord | api/models/user.js:47-57 | the lock write changes only that record, as `LockedUntil` describes |
| UserServices.UserService.UnlockRecord | api/models/user.js:39-45 | the reset write changes only that record, as `Unlocked` describes |
| UserServices.UserService.StampLogin | api/services/user.js:125-137 | the two writes of a successful login leave the record `LoggedIn` describes |
| UserServices.UserService.FailRecord | api/services/user.js:114-122 | the writes after a wrong password leave the record `AfterWrongPassword` describes and report the lock or the generic error |
| UserServices.UserService.RecordAttempt | api/services/user.js:105-137 | the checks and writes on the found record report the error and leave the record `LoginAttempt` defines |
| UserServices.UserService.LoginUser | api/services/user.js:93-147 | missing credentials and unknown e-mails are refused without writes; otherwise the record becomes the attempt's result, and a success replaces the user's sessions with one for the fresh token and returns the public view |
| UserServices.UserService.CheckRegistration | api/services/user.js:23-42 | the checks run in the source's order and give the first refusal `RegistrationError` defines |
| UserServices.UserService.RegisterUser | api/services/user.js:19-91 | a refused request changes nothing; otherwise the built record is saved with defaults and strict mode, announced once, and returned as its public view with the raw invitation token |
| UserServices.UserService.SaveRegistration | api/services/user.js:74-90 | a save that fails changes and announces nothing; a save that succeeds stores, announces and returns the record |
| UserServices.UserService.UpdateUser | api/services/user.js:191-224 | no allowed field or no record is refused without writes; otherwise only the profile fields are set, the change is announced with both versions, and the public view is returned |
| UserServices.UserService.PickProfileFields | api/services/user.js:192-199 | the copy loop keeps exactly the allowed fields, the last occurrence of a key winning |
| UserServices.UserService.ApplyProfileUpdate | api/services/user.js:205-223 | the write, the announcement and the answer of a profile update |
| UserServices.UserService.PickFields | api/services/user.js:330-335 | the copy loop keeps exactly the listed fields the request has |
| UserServices.UserService.UpdateUserByAdmin | api/services/user.js:317-364 | a role change by anyone but a superadmin is refused; no field or no record is refused; otherwise the administrator's fields are set, announced, and returned without the password |
| UserServices.UserService.ApplyAdminUpdate | api/services/user.js:341-363 | the write, the announcement and the answer of a permitted administrator update |
| UserServices.UserService.StorePassword | api/services/user.js:502-505 | the password write sets the hash and removes the token fields of the flow |
| UserServices.UserService.ChangePassword | api/services/user.js:407-448 | each refusal leaves everything unchanged; otherwise the new hash is stored, the redacted announcement is made and sessions are not touched |
| UserServices.UserService.StoreAndLog | api/services/user.js:502-513 | a password write on one record followed by its announcement |
| UserServices.UserService.GeneratePasswordResetToken | api/services/user.js:450-480 | a missing e-mail is refused; an unknown address or a request within five minutes of the last succeeds without writing; otherwise the token hash, expiry and request time are written and the raw token is returned |
| UserServices.UserService.ResetPassword | api/services/user.js:521-560 | refusals leave everything unchanged; an accepted token sets the new hash, removes the reset fields, ends every session of the user and announces the change |
| UserServices.UserService.ApplyReset | api/services/user.js:537-554 | the writes of an accepted reset: password, sessions and announcement |
| UserServices.UserService.SetPasswordWithToken | api/services/user.js:482-519 | refusals leave everything unchanged; an accepted invitation sets the hash, removes the invitation fields and announces the change, leaving sessions alone |
| UserServices.UserService.AcceptInvitation | api/services/user.js:498-513 | the write and the announcement once the invitation token has found the user |
| UserServices.UserService.SearchUsers | api/services/user.js:241-248 | a term shorter than two UTF-16 code units is refused, so one emoji is accepted; otherwise the answer is exactly the public views of the active users whose names or e-mail contain the term |
| Store.Stamped | api/services/abstracts/BaseEntityService.js:24-25 | saving a prepared document, already cast by its schema, adds exactly `_id`, `createdAt` and `updatedAt` to its keys, sets the id and both timestamps, and keeps every other field as prepared |
| Store.Patched | api/services/abstracts/BaseEntityService.js:42 | an update refreshes `updatedAt`, never changes `_id` or the immutable `createdAt` of the timestamps, sets each other assigned field, removes each other unset one, and keeps every other field |
| Store.OrderingOf | api/services/abstracts/BaseEntityService.js:108-110 | a sort specification is accepted exactly when every direction is 1 or -1, keeping its keys in order |
| Store.Find | api/services/eventRegistration.js:178 | a query returns exactly the stored records that match it |
| Store.Collection.UpdateMany | api/services/adminNotification.js:87-92 | every matching record gets the update and every other record is kept; no record is added or removed |
| Store.Collection.DeleteMany | api/services/authSession.js:77 | exactly the matching records are removed |
| DocOrdering.SortDocsMembers | api/services/abstracts/BaseEntityService.js:108-110 | a `$sort` stage returns exactly the records it was given |
| DocOrdering.InsertSorted | api/services/abstracts/BaseEntityService.js:108-110 | inserting a record into a sorted list keeps it sorted |
| Lifecycle.Emitter.Emit | api/services/abstracts/BaseEntityService.js:31-35 | an announced event is appended to those already announced, in order |
| AuthSessions.SessionService.Store | api/services/authSession.js:20-23 | a session whose token is already hashed is saved with the next id and both timestamps; nothing else changes |
| Users.UserModel.Save | api/services/user.js:74-75 | a new user holding only declared fields is stored with the next id and both timestamps; no other record changes |
| Users.UserModel.IncrementRecord | api/models/user.js:31-37 | the counter write changes exactly that stored user, into the counted record |
| Users.StrictKeepsDeclared | api/models/user.js:23-25 | strict mode keeps an update made only of declared fields |
| Users.StrictKeepsOne | api/models/user.js:47-57 | strict mode keeps a one-field write of the login counter or the lock time |
| Users.InvitationUndeclared | api/services/user.js:70-71 | the invitation token is neither declared by the user schema nor a system path, so strict mode drops it |
| Users.InvitationPathsSaved | api/services/user.js:70-71 | a schema declaring the invitation paths keeps both of them |
| UserServices.UserService.StampRecord | api/services/user.js:127-133 | the login write changes exactly that record, setting `lastLogin` and `metadata` and refreshing `updatedAt` |
| UserServices.UserService.SetFields | api/services/user.js:206 | an update of declared fields changes exactly that record by those fields |
| UserServices.StaysOpen | api/services/user.js:113-123 | each of the first four wrong passwords leaves the account open |
| EmailTemplates.ActiveQueryMatch | api/models/emailTemplate.js:16-22 | a template answers `getTemplate`'s query exactly when its type, its event reference (the given `eventId`, or `null` when it is falsy) and `isActive: true` all match |
| EmailTemplates.PairQueryMatch | api/services/emailTemplate.js:143-146 | a template answers the save/reset query exactly when its type and event reference match, active or not |
| EmailTemplates.GetTemplate | api/models/emailTemplate.js:16-22 | a found template is stored and answers the active query; finding none means no stored template answers it |
| EmailTemplates.GetTemplateIsActive | api/models/emailTemplate.js:16-22 | a deactivated template is never returned |
| EmailTemplates.GetTemplatesByType | api/models/emailTemplate.js:32-34 | exactly the stored active templates of the type are listed |
| EmailTemplates.TemplateByKey | api/models/emailTemplate.js:56-58 | a found template has the key; none found means no stored template has it |
| EmailTemplates.DefaultFor | api/services/emailTemplate.js:58-59 | a built-in template is found exactly when the table has an entry of that name |
| EmailTemplates.ResolutionPrecedence | api/services/emailTemplate.js:31-72 | the per-event template is used exactly when the event id is truthy and one is active; the global one exactly when that fails and one is active; the built-in one exactly when both fail and the table has it |
| EmailTemplates.FalsyEventIsGlobal | api/services/emailTemplate.js:32-44 | a falsy event id resolves exactly as the global request |
| EmailTemplates.ReplaceAllAbsent | api/services/emailTemplate.js:87-88 | a global replace leaves text without the pattern unchanged |
| EmailTemplates.ReplaceFirst | api/services/emailTemplate.js:87-88 | a global replace keeps the text before the first occurrence, replaces it, and goes on after it without overlap |
| EmailTemplates.ReplaceHit | api/services/emailTemplate.js:87-88 | an occurrence at the start is replaced and the scan continues after it |
| EmailTemplates.ReplaceMiss | api/services/emailTemplate.js:87-88 | without an occurrence at the start the first character is kept |
| EmailTemplates.Placeholder | api/services/emailTemplate.js:87 | `{{key}}` is four characters longer than the key |
| EmailTemplates.SubstituteVariables | api/services/emailTemplate.js:83-92 | the loop replaces the variables one after another, in order, each globally, falsy values by the empty text |
| EmailTemplates.SubstituteUnchanged | api/services/emailTemplate.js:83-92 | a template holding none of the placeholders, in particular with no variables, comes back unchanged |
| EmailTemplates.SubstituteOne | api/services/emailTemplate.js:86-89 | with one variable the first placeholder becomes the value, or nothing when the value is falsy, and the rest is replaced the same way |
| EmailTemplates.WordRun | api/services/emailTemplate.js:111 | the leading run of `\w` characters, stopped by the first other character |
| EmailTemplates.MatchIsPlaceholder | api/services/emailTemplate.js:111-112 | each match of the global pattern satisfies the anchored test |
| EmailTemplates.PlaceholdersWellFormed | api/services/emailTemplate.js:111-112 | every match of `\{\{(\w+)\}\}` in a body passes the anchored test |
| EmailTemplates.Malformed | api/services/emailTemplate.js:112 | only matches that fail the anchored test are kept |
| EmailTemplates.NoneMalformed | api/services/emailTemplate.js:112-116 | when every match is well formed no invalid variable is reported |
| EmailTemplates.ValidateTemplate | api/services/emailTemplate.js:102-123 | the errors are collected in the source's order, `isValid` holds exactly when there are none, and a truthy body that is not text throws |
| EmailTemplates.ValidIffComplete | api/services/emailTemplate.js:102-123 | a template is valid exactly when type, subject and body are truthy; the only errors are the three `required` messages |
| EmailTemplates.PairMatch | api/services/emailTemplate.js:143-146 | for a well-filed template the pair query matches exactly its type and event reference |
| EmailTemplates.TemplateUpdate | api/services/emailTemplate.js:148-153 | an overwrite never touches the type, the event or the id |
| EmailTemplates.SaveableData | api/services/emailTemplate.js:134-141 | data that passes the checks has a text type, a subject, a body and a modifier |
| EmailTemplates.RefileKeepsUnique | api/schemas/EmailTemplate.js:52 | overwriting a template under its own pair keeps one template per (type, event) pair |
| EmailTemplates.FileNewKeepsUnique | api/schemas/EmailTemplate.js:52 | adding a template under an unused pair keeps one template per pair |
| EmailTemplates.RefiledCarries | api/services/emailTemplate.js:148-153 | an overwritten template holds the subject, body and modifier sent |
| EmailTemplates.NewTemplateCarries | api/services/emailTemplate.js:155-163 | a new template is filed under the pair, active, and holds the subject, body and modifier sent |
| EmailTemplates.RewriteFiled | api/services/emailTemplate.js:148-153 | an update that leaves type and event alone keeps the template's pair |
| EmailTemplates.StampFiled | api/services/emailTemplate.js:155-166 | storing a new template keeps the pair it was given |
| EmailTemplates.RefileKeepsFiled | api/schemas/EmailTemplate.js:11-21 | re-storing a template under its pair keeps every template filed under a text type and a scalar event |
| EmailTemplates.FileNewKeepsFiled | api/schemas/EmailTemplate.js:11-21 | adding a well-filed template under an unused pair keeps every template filed |
| EmailTemplates.TemplateStore.OnlyFiled | api/schemas/EmailTemplate.js:52 | the pair query can find only the template filed under the pair |
| EmailTemplates.TemplateStore.SaveTemplate | api/services/emailTemplate.js:134-171 | a failed check changes nothing and reports its message; otherwise the template filed under the pair is overwritten in place, or a new one is stored under the next id, with the subject, body and modifier sent; it is what `getTemplate` now finds for the pair, and every other template is unchanged |
| EmailTemplates.TemplateStore.Upsert | api/services/emailTemplate.js:143-166 | the found template is overwritten in place, or a new one is filed under the next id; nothing else changes and the saved template is the one found for the pair |
| EmailTemplates.TemplateStore.CheckTemplate | api/services/emailTemplate.js:137-141 | the checks report exactly the error `SaveError` defines |
| EmailTemplates.TemplateStore.Refile | api/services/emailTemplate.js:148-153 | the found template alone is overwritten and reactivated, the next id stays, and it becomes the one found for the pair |
| EmailTemplates.TemplateStore.Rewrite | api/services/emailTemplate.js:148-166 | `$set` on one stored template changes only that record and leaves the next id |
| EmailTemplates.TemplateStore.FileNew | api/services/emailTemplate.js:155-166 | the new template is stored under the next id, nothing else changes, and it becomes the one found for the pair |
| EmailTemplates.TemplateStore.Found | api/models/emailTemplate.js:16-22 | an active template filed under a pair is what `getTemplate` returns for it |
| EmailTemplates.TemplateStore.ResetTemplate | api/services/emailTemplate.js:182-198 | the answer is true exactly when a template was filed under the pair, which alone is then marked inactive with a new update time; without one nothing changes; the next id stays and afterwards `getTemplate` finds nothing for the pair |
| EmailTemplates.TemplateStore.Unfiled | api/models/emailTemplate.js:16-22 | with nothing filed under a pair `getTemplate` finds nothing for it |
| EmailTemplates.TemplateStore.Deactivate | api/services/emailTemplate.js:192-193 | the found template alone is marked inactive with a new update time, the next id stays, and `getTemplate` finds nothing for the pair |
| EmailTemplates.TemplateStore.Gone | api/models/emailTemplate.js:16-22 | an inactive template filed under a pair hides the pair from `getTemplate` |
| EmailTemplates.TemplateStore.GetAllTemplateTypes | api/services/emailTemplate.js:207-227 | the loop builds the summaries `Summaries` defines |
| EmailTemplates.SummariesPointwise | api/services/emailTemplate.js:212-224 | one summary per built-in type, the i-th describing the i-th type |
| EmailTemplates.SummariesCharacterised | api/services/emailTemplate.js:207-227 | one summary per built-in type in table order, with its variables, its label or else the type name, and marked customised exactly when an active global template of that type is stored |
| Emails.PendingRecord | api/services/email.js:71-82 | the inserted record has the lower-cased recipient and sender, the subject and body as given, status `pending` and no send time |
| Emails.MailFor | api/services/email.js:85-90 | the transport gets the body as HTML exactly when `bodyType` is `html`, addressed as given |
| Emails.Outcome | api/services/email.js:94-108 | the closing update sets `sent` with the message id and send time when the transport accepted, `failed` with the error message otherwise, and touches no address or content |
| Emails.FieldRow | api/services/email.js:213-223 | a field gives a row exactly when its submitted value is not undefined, null or empty text |
| Emails.RowsAppend | api/services/email.js:213-223 | rows follow the order of the field definitions |
| Emails.RowsSnoc | api/services/email.js:213-223 | one more field definition adds its row after the rows of the others |
| Emails.RowsSnocEmpty | api/services/email.js:213-223 | the rows of a list are empty exactly when those of its front are and its last field has nothing to show |
| Emails.NoneShownSnoc | api/services/email.js:213-223 | no field of a list shows a value exactly when none of its front does and its last does not |
| Emails.RowsEmpty | api/services/email.js:213-227 | the rows are empty exactly when no field has a value to show |
| Emails.RegistrationFieldsHtmlEmpty | api/services/email.js:208-230 | the table is empty exactly when the form data or the definitions are missing or empty or nothing is shown; otherwise it is the titled table of the rows |
| Emails.CustomisedIffStored | api/services/email.js:129-139 | a stored template is used exactly when an active one of that type, for the event or global, is stored |
| Emails.NothingActiveNotCustomised | api/services/email.js:132 | with no active template stored the built-in wording is used |
| Emails.BuiltInMessages | api/services/email.js:136-139 | without an active stored template the reset, registration and admin messages carry the fixed subjects and the built-in layouts |
| Emails.EmailService.SendEmail | api/services/email.js:58-113 | the reply, the stored e-mails and the announcements are those `SendReply`, `RecordsAfterSend` and `SendEvents` define for the transport's answer |
| Emails.AfterSend | api/services/email.js:58-113 | a send stopped by its checks changes nothing; otherwise the final record alone is added under the next id, the next id moves on by one, and two announcements are added |
| Emails.SendFiles | api/services/email.js:58-113 | a send that passes its checks stores its final record under the old next id and moves the next id on by one |
| Emails.SendKeeps | api/services/email.js:58-113 | a send, stopped or not, leaves every record stored below the next id as it was |
| Emails.AfterSendOf | api/services/email.js:58-113 | the records, next id and announcements a send leaves are exactly the outbox `AfterSend` gives |
| Emails.EmailService.Dispatch | api/services/email.js:71-112 | once the checks pass, one record is added under the next id and ends as the transport's answer says; it is announced created, then updated; the reply carries the message id or the failure text |
| Emails.EmailService.Open | api/services/email.js:71-82 | the `pending` record is inserted under the next id and its creation announced |
| Emails.EmailService.Close | api/services/email.js:94-108 | the pending record is updated to its final state and the update announced with both versions |
| Emails.EmailService.SendPasswordResetEmail | api/services/email.js:126-149 | the reset message (stored template or built-in) is sent to the user with the reset data; the reply, the stored e-mail record, the announcements and the next id are those of that send |
| Emails.EmailService.SendRegistrationConfirmationEmail | api/services/email.js:160-197 | a registration table that throws stops the send without writes; otherwise the reply, the stored e-mail record, the announcements and the next id are those of sending the confirmation |
| Emails.EmailService.SendAdminNotificationEmail | api/services/email.js:245-274 | the notification (stored template with its optional action button, or built-in) is sent; the reply, the stored e-mail record, the announcements and the next id are those of that send |
| EmailSends.FinalRecordStatus | api/services/email.js:94-108 | a record ends `sent` exactly when the transport accepted it, with the message id and send time, and `failed` exactly when it refused, with the error and no send time |
| EmailSends.FinalRecordContent | api/services/email.js:71-82 | the stored addresses are lower-cased and the subject and body kept as given |
| EmailSends.SendEventsAreEmail | api/services/email.js:71-108 | a send announces only changes to e-mail records |
| EmailSends.AnnouncedAreEmail | api/services/email.js:71-108 | the two announcements concern e-mail records |
| EmailSends.SendRefusedWritesNothing | api/services/email.js:61-67 | a send refused by its checks fails and writes and announces nothing |
| EmailSends.SendStatusMachine | api/services/email.js:71-112 | past the checks exactly one record is added, `sent` exactly when the reply succeeds and `failed` exactly when it fails |
| EmailSends.ReplyFollowsDelivery | api/services/email.js:92-112 | past the checks the reply succeeds exactly when the transport delivers |
| EmailSends.SendAnnouncements | api/services/email.js:71-108 | past the checks there are two announcements: the `pending` record created, then its update to the final record |
| EmailSends.PendingStamped | api/services/email.js:71-82 | the record as inserted is `pending` and not yet sent |
| EventRegistrations.CheckRegistration | api/services/eventRegistration.js:23-46 | the event is returned exactly when the event id is truthy, the e-mail is valid, both names are given, the event exists and is active and open; a missing event id and an invalid e-mail get their own messages, in that order |
| EventRegistrations.ClosedEventRefused | api/services/eventRegistration.js:44-46 | past the earlier checks, an inactive or closed event is refused exactly with `Registration is not open for this event!` |
| EventRegistrations.NewUserValidates | api/services/eventRegistration.js:51-67 | the lightweight account always carries a password, so the schema's checks pass |
| EventRegistrations.NewUserInserted | api/services/eventRegistration.js:55-68 | the save of the lightweight account always stores it |
| EventRegistrations.CopyIfGiven | api/services/eventRegistration.js:77-84 | copying an optional field keeps every other field |
| EventRegistrations.NewRegistration | api/services/eventRegistration.js:77-84 | the registration is `confirmed`, for the event and the registrant, with the form answers or `{}` |
| EventRegistrations.RecordListed | api/models/eventRegistration.js:23-25 | every stored registration is among those the duplicate query searches |
| EventRegistrations.PairFound | api/models/eventRegistration.js:23-25 | a stored registration of the same user and event is found by the duplicate query |
| EventRegistrations.RegisterKeepsUnique | api/services/eventRegistration.js:71-86 | storing a registration the duplicate query did not find keeps one registration per user and event |
| EventRegistrations.EmailTailTrans | api/services/eventRegistration.js:98-126 | e-mail-only announcement tails compose |
| EventRegistrations.SendTail | api/services/email.js:58-113 | a send, delivered or not, announces only e-mail records |
| EventRegistrations.ReplyDelivers | api/services/email.js:58-113 | the reply is a success exactly when the send passes its checks and the transport delivers it |
| EventRegistrations.MessageTail | api/services/eventRegistration.js:98-112 | a confirmation, whether or not its message renders, announces only e-mail records |
| EventRegistrations.EmailOnlyTail | api/services/eventRegistration.js:98-126 | appending e-mail announcements keeps the tail e-mail-only |
| EventRegistrations.PublicRegistrant | api/services/eventRegistration.js:128-132 | the reply's user holds only fields of the registrant, with their values, and no private field; a created registrant keeps every other field, a found one every field its schema does not hide |
| EventRegistrations.Confirmed | api/services/eventRegistration.js:98-112 | the registrant's confirmation adds only e-mail announcements |
| EventRegistrations.Round | api/services/eventRegistration.js:114-125 | the administrator round adds only e-mail announcements and at most one e-mail record per administrator |
| EventRegistrations.RoundDelivered | api/services/eventRegistration.js:114-125 | when every send goes through, the next id moves on by one per administrator and the records stored before stay |
| EventRegistrations.RoundRecords | api/services/eventRegistration.js:114-125 | when every send goes through, the notification of the k-th administrator is stored, as sent, under the k-th new id |
| EventRegistrations.RoundStops | api/services/eventRegistration.js:114-125 | a send that fails ends the round: the administrators after it get nothing, and at most one record per administrator up to it is added |
| EventRegistrations.Notified | api/services/eventRegistration.js:98-126 | the confirmation and the round add only e-mail announcements, and at most one e-mail record for the registrant and one per administrator |
| EventRegistrations.FilterQuery | api/services/eventRegistration.js:167-177 | the query holds the event id and the status exactly when each filter is truthy, with the filter's value, and nothing else |
| EventRegistrations.FilterQueryIgnoresRest | api/services/eventRegistration.js:167-177 | filter keys other than the event id and the status change nothing |
| EventRegistrations.AllRegistrationsFiltered | api/services/eventRegistration.js:167-182 | the listing is a permutation of the matching registrations (of the filtered event, with the filtered status), newest first |
| EventRegistrations.ByFieldNewestFirst | api/services/eventRegistration.js:143-157 | exactly the registrations of the event (or of the user), newest first |
| EventRegistrations.CountOfSnoc | api/services/eventRegistration.js:191-195 | the count of an event grows by one exactly for a registration of it |
| EventRegistrations.OccursSnoc | api/services/eventRegistration.js:191-195 | an event id occurs in a longer list exactly when it occurs earlier or in the last record |
| EventRegistrations.CountsExact | api/services/eventRegistration.js:191-195 | a group exists exactly for each event id that occurs, and its count is the number of registrations with that id |
| EventRegistrations.RegistrationService.RegisterForEvent | api/services/eventRegistration.js:23-133 | a failed check changes nothing; a known registrant is reused and an unknown one created; the registration succeeds exactly when that registrant is not already registered, is stored under the next id and announced; the reply carries the registrant without private fields, and the e-mail records are those of the confirmation and then the administrator round |
| EventRegistrations.RegistrationService.Admit | api/services/eventRegistration.js:48-133 | after the checks: the registrant found or created, the duplicate refusal that leaves the e-mails alone, the stored and announced registration, the public registrant in the reply, and the e-mails sent |
| EventRegistrations.RegistrationService.Record | api/services/eventRegistration.js:71-133 | the duplicate check for the registrant, then the stored and announced registration, the registrant without private fields, and the e-mails sent; a refusal sends nothing |
| EventRegistrations.RegistrationService.Accept | api/services/eventRegistration.js:77-126 | a new registration is stored and announced, then the confirmation and the administrator round leave the e-mail records `Notified` defines |
| EventRegistrations.RegistrationService.Enroll | api/services/eventRegistration.js:77-96 | the registration is stored under the next id, announced created with no user, pairs stay unique, and the e-mail records are untouched |
| EventRegistrations.RegistrationService.FindOrCreateUser | api/services/eventRegistration.js:48-69 | the registrant is the user with that e-mail, unchanged, or a new lightweight user stored under the next id; `isNewUser` says which |
| EventRegistrations.RegistrationService.CreateUser | api/services/eventRegistration.js:51-68 | the lightweight user is stored under the next id |
| EventRegistrations.RegistrationService.SendConfirmation | api/services/eventRegistration.js:98-112 | the e-mail records become those of the registrant's confirmation (none when its message cannot be rendered), adding only e-mail announcements |
| EventRegistrations.RegistrationService.SendConfirmationOf | api/services/email.js:160-197 | the e-mail records become those of the confirmation send, adding only e-mail announcements |
| EventRegistrations.RegistrationService.SendToAdmin | api/services/eventRegistration.js:118-122 | the e-mail records become those of one send of the administrator notification, and the answer is true exactly when that send passed its checks and was delivered |
| EventRegistrations.RegistrationService.Notify | api/services/eventRegistration.js:98-126 | the confirmation, then one notification per active administrator in order until one fails; the e-mail records are those `Notified` defines and only e-mail announcements are added |
| EventRegistrations.RegistrationService.NotifyAdmins | api/services/eventRegistration.js:114-125 | the notifications go out in order and the loop ends at the first send that fails, leaving the e-mail records `Round` defines |
| EventRegistrations.RegistrationService.GetAllRegistrations | api/services/eventRegistration.js:167-182 | the query built filter by filter gives the listing `AllRegistrations` defines: exactly the stored registrations of the filtered event with the filtered status, newest first |
| EventRegistrations.RegistrationService.GetRegistrationsByEvent | api/services/eventRegistration.js:143-145 | exactly the stored registrations of the event, newest first |
| EventRegistrations.RegistrationService.GetRegistrationsByUser | api/services/eventRegistration.js:155-157 | exactly the stored registrations of the user, newest first |
| EventRegistrations.RegistrationService.GetRegistrationCounts | api/services/eventRegistration.js:191-195 | one entry per event id that occurs among the stored registrations, holding the number of registrations with that id |
| Events.TrimDashStart | api/schemas/Event.js:43 | the leading dashes are removed: a suffix of the text that does not start with `-` |
| Events.TrimDashEnd | api/schemas/Event.js:43 | the trailing dashes are removed: a prefix of the text that does not end with `-` |
| Events.CollapseShape | api/schemas/Event.js:42 | after collapsing, the text holds only a–z, 0–9 and `-`, never two dashes in a row |
| Events.SliceShape | api/schemas/Event.js:43 | a slice of such text keeps both properties |
| Events.SlugifyShape | api/schemas/Event.js:39-44 | a slug holds only a–z, 0–9 and single dashes, with no dash at either end |
| Events.CollapseSlug | api/schemas/Event.js:42 | collapsing text already in slug shape leaves it unchanged |
| Events.SlugifyIdempotent | api/schemas/Event.js:39-44 | slugifying a slug leaves it unchanged |
| Events.LowerSlug | api/schemas/Event.js:41 | lower-casing leaves a–z, 0–9 and `-` unchanged |
| Events.PreSaveAsWritten | api/schemas/Event.js:121-126 | the hook as written leaves an event with a truthy slug alone |
| Events.WithSlug | api/schemas/Event.js:121-126 | the document gets the given `eventSlug` and keeps every other field as it was |
| Events.CollapseNoSlugChars | api/schemas/Event.js:42 | text with no letter or digit collapses to one dash, or to nothing when empty |
| Events.NoSlugName | api/schemas/Event.js:39-44 | a name without a letter or digit slugifies to the empty text |
| Events.EmptySlugsCollide | api/schemas/Event.js:121-126 | as written, the first new event whose name has no letter or digit is stored with the empty slug, and a second such event with a fresh key is refused with the duplicate-key error on `eventSlug` |
| Events.SluglessHooks | api/schemas/Event.js:121-126 | an event with no slug and no letter or digit in its name gets the empty slug from the hook as written, and is left as it is by the intended hook |
| Events.SlugRefused | api/schemas/Event.js:58-64 | a stored record holding a new record's slug makes the unique index refuse it with the duplicate-key error on `eventSlug` |
| Events.SluglessNamesCoexist | api/schemas/Event.js:121-126 | with the intended hook such events are saved without a slug, so a second one with a fresh key is saved as well |
| Events.PreSave | api/schemas/Event.js:121-126 | as intended: a truthy slug is kept, a non-empty derived slug is set, no empty slug is ever introduced, and no other field changes |
| Events.PreSaveSlug | api/schemas/Event.js:121-126 | a slug the hook sets is a non-empty, well-shaped slug |
| Events.Strict | api/schemas/Event.js:46-119 | strict mode keeps exactly the declared paths of the data, with their values |
| Events.ItemsWithDefaults | api/schemas/Event.js:4-37 | one registration field in, one out |
| Events.EntriesDefaultGet | api/schemas/Event.js:20-36 | a default is added for a field only when it is missing; other fields read as before |
| Events.FieldDefaultGet | api/schemas/Event.js:20-36 | a registration field without `required` is optional and one without `sortOrder` sorts at 0; other values are kept |
| Events.FieldDefaultsFilled | api/schemas/Event.js:20-36 | the registration-field defaults fill only the missing `required` and `sortOrder` and keep every given value |
| Events.DefaultsFilled | api/schemas/Event.js:46-119 | a new event holds only declared paths, keeps each declared value given, takes the schema default for every other defaulted path, and gets field defaults on each registration field |
| Events.FieldsDefaulted | api/schemas/Event.js:88-91 | only the registration fields differ from the defaults overlaid with the data |
| Events.BaseDefaults | api/schemas/Event.js:46-119 | the defaults overlaid with the declared data keep the data's values and the other defaults |
| Events.DefaultPathsDeclared | api/schemas/Event.js:46-119 | every defaulted path is declared and registration fields default to `[]` |
| Events.ItemIssuesNone | api/schemas/Event.js:4-37 | a registration field passes its validators exactly when it has a name, a label and one of the nine types |
| Events.ItemsIssuesNone | api/schemas/Event.js:88-91 | a list of registration fields passes exactly when each field does |
| Events.EventIssuesNone | api/schemas/Event.js:46-119 | the validators pass exactly on the events the schema accepts |
| Events.UniqueAfterWrite | api/schemas/Event.js:47-64 | a write whose value clashes with no other record keeps the unique index |
| Events.PatchedKeeps | api/services/event.js:104-115 | a patch that does not name a field leaves it as it was |
| Events.InsertPlan | api/services/event.js:83-92 | a saved event is the validated event after the intended slug hook, clashing with no stored key or slug; an invalid event fails with the validation message |
| Events.InsertPlanAsWritten | api/schemas/Event.js:121-126 | with the hook as written, a saved event is the validated event with the slug derived from its name, even an empty one; an invalid event fails with the validation message |
| Events.IndexCheck | api/schemas/Event.js:48-64 | a record passes exactly when no stored record has its key and, when it has a slug, none has its slug; otherwise the duplicate-key error names the key index first |
| Events.WithQRCodes | api/services/event.js:83-92 | the two QR paths are written exactly for a saved event with a slug |
| Events.RegeneratesOnSlugChange | api/services/event.js:104-115 | an update that does not name the slug never regenerates the codes; one setting a new non-empty slug always does |
| Events.KeyBeforeSlug | api/services/event.js:125-137 | a key match always wins; otherwise an event with the lower-cased slug; `No event found` exactly when neither exists |
| Events.OpenRegistrationExact | api/services/event.js:146-148 | exactly the open, active events, each as often as stored, earliest first |
| Events.FirstIsEarliest | api/services/event.js:159 | in a list sorted by date the first date is the smallest |
| Events.NextEventEarliest | api/services/event.js:157-160 | the next event is the upcoming active event with the earliest date, and there is none exactly when no active event is upcoming |
| Events.EventService.InsertEvent | api/services/event.js:83-92 | a refused save changes and announces nothing; otherwise the saved event is stored under the next id with its QR paths when it has a slug, and its creation is announced |
| Events.EventService.Save | api/services/event.js:84-91 | a prepared event is stored, announced and given its QR paths |
| Events.EventService.AddCodes | api/services/event.js:87-88 | `findByIdAndUpdate` with the QR paths changes only that event and announces nothing |
| Events.EventService.UpdateEvent | api/services/event.js:104-115 | a missing event or a clashing key or slug changes nothing; otherwise the update is stored and announced, and the QR paths are rewritten exactly when the slug changed to a new non-empty one; the creation time is kept |
| Events.EventService.Revise | api/services/event.js:105-114 | a clash-free update is stored, announced, and recoded when the slug changed |
| Events.EventService.Recode | api/services/event.js:108-114 | new QR paths exactly when the slug changed |
| Events.EventService.GetEventByKeyOrSlug | api/services/event.js:125-137 | when some stored event has the key, an event with that key is returned; otherwise one whose slug is the lower-cased text; `No event found` exactly when no stored event has either |
| Events.EventService.GetOpenRegistrationEvents | api/services/event.js:146-148 | exactly the stored events that are open for registration and active, each as often as stored, earliest date first |
| Events.EventService.GetNextEvent | api/services/event.js:157-160 | nothing exactly when no stored event is active and dated from now on; otherwise such an event whose date no other such event precedes |
| Events.EventService.SearchEvents | api/services/event.js:23-25 | a falsy term fails with `Search term is required!`; otherwise exactly the stored events whose key, name or description matches the term, newest first |
| Events.SaveKeepsIndex | api/schemas/Event.js:47-64 | a new event clashing with no stored key or slug keeps that unique index |
| Events.CreationTimeKept | api/schemas/Event.js:117-119 | strict mode keeps a `createdAt` in an update body, but the timestamps keep the stored creation time |
| Events.KeepsIndexes | api/schemas/Event.js:47-64 | a clash-free update keeps both unique indexes |
| Events.KeepsIndex | api/schemas/Event.js:47-64 | a clash-free update keeps the index on one field |
| AdminNotifications.WithFilterParams | api/services/adminNotification.js:34-46 | a truthy notification type and user id override the query's keys with their values; a present `dismissed` becomes true exactly for `'true'` or `true`; every other query key is kept |
| AdminNotifications.SkipPage | api/services/adminNotification.js:32-51 | a negative skip `page * limit` is refused; otherwise the page holds only ordered matches, at most the absolute value of a non-zero limit |
| AdminNotifications.PageSorted | api/services/adminNotification.js:48-51 | a page of an ordered list is ordered and starts at position `page * limit` |
| AdminNotifications.ListingShape | api/services/adminNotification.js:30-52 | a listed page holds only stored notifications meeting the normalised query and the three filters, in the requested order; it is the sorted matches after skipping `page * limit`, at most the limit long, and starts with the first match after the skip |
| AdminNotifications.TotalIgnoresOtherParams | api/services/adminNotification.js:112-128 | the total depends on the three filter parameters only: requests that agree on them get the same total |
| AdminNotifications.TotalMatchesPlainListing | api/services/adminNotification.js:112-128 | without search or filter strings the listing and the total use one query, so a page never exceeds the total |
| AdminNotifications.SearchNotifications | api/services/adminNotification.js:104-110 | the search is refused, with `Search term must be at least 2 characters!`, exactly for a falsy term or one shorter than two UTF-16 code units |
| AdminNotifications.SearchShape | api/models/adminNotification.js:31-40 | a term of two UTF-16 code units or more lists exactly the notifications whose title, text or type matches it case-insensitively, newest first; a shorter one is refused |
| AdminNotifications.Dismissed | api/services/adminNotification.js:80-85 | a dismissed notification is marked dismissed at that time and keeps everything else but its update time |
| AdminNotifications.AdminNotificationService.GetAdminNotifications | api/services/adminNotification.js:30-52 | a malformed request fails with the parameter or sort error; otherwise the page is the sorted notifications matching the filters after skipping `page * limit`, in the requested order, at most the limit long |
| AdminNotifications.AdminNotificationService.GetTotalAdminNotifications | api/services/adminNotification.js:112-128 | the total is at most the number of stored notifications, is zero exactly when none matches, and is the same for every request with the same filters |
| AdminNotifications.AdminNotificationService.SearchAdminNotifications | api/services/adminNotification.js:104-110 | a falsy term, or one shorter than two UTF-16 code units, fails with `Search term must be at least 2 characters!`; otherwise exactly the stored notifications whose title, text or type matches the term, newest first |
| AdminNotifications.AdminNotificationService.UpdateAdminNotification | api/services/adminNotification.js:66-78 | a missing id is refused with `No admin notification found!` and nothing changes; otherwise only that notification is updated and returned |
| AdminNotifications.AdminNotificationService.DismissAdminNotification | api/services/adminNotification.js:80-85 | a missing id is refused; otherwise that notification alone is marked dismissed at that time, with its other fields kept |
| AdminNotifications.AdminNotificationService.DismissAllAdminNotifications | api/services/adminNotification.js:87-92 | every stored notification is dismissed, and none is added or removed |
| ScheduledTasks.FrequenciesMatchSchema | api/services/scheduledTask.js:107-109 | the offered frequencies are five distinct values, exactly the schema's non-empty frequency values (api/schemas/ScheduledTask.js:53) |
| ScheduledTasks.DatesAscend | api/models/scheduledTask.js:19 | in a list ordered by scheduled date the dates never decrease |
| ScheduledTasks.PendingExact | api/models/scheduledTask.js:15-20 | the pending tasks are exactly those with status PENDING and a scheduled date no later than now, each as often as stored, earliest first |
| ScheduledTasks.NewestMatchingExact | api/models/scheduledTask.js:22-28 | a field-value listing holds exactly the matching tasks, each as often as stored, newest first |
| ScheduledTasks.RecurringAndStatusExact | api/models/scheduledTask.js:22-28 | recurring tasks are those flagged recurring, tasks by status those with exactly that status, both newest first |
| ScheduledTasks.CompleteFromAnyStatus | api/services/scheduledTask.js:50-52 | completing sets COMPLETE and the attempt time whatever the status was, changing nothing else but the update time |
| ScheduledTasks.FailAppendsOne | api/services/scheduledTask.js:64-73 | a failure appends exactly one `{message, date}` error after the earlier ones, counts exactly one more attempt and sets FAILED, changing nothing else |
| ScheduledTasks.FailTwice | api/services/scheduledTask.js:64-73 | two failures keep both errors in order and count two attempts |
| ScheduledTasks.ScheduledTaskService.GetPendingTasks | api/models/scheduledTask.js:15-20 | exactly the stored tasks with status PENDING dated no later than now, each as often as stored, earliest first |
| ScheduledTasks.ScheduledTaskService.GetRecurringTasks | api/models/scheduledTask.js:22-24 | exactly the stored recurring tasks, newest first |
| ScheduledTasks.ScheduledTaskService.GetTasksByStatus | api/models/scheduledTask.js:26-28 | exactly the stored tasks with that status, newest first |
| ScheduledTasks.ScheduledTaskService.CompleteTask | api/services/scheduledTask.js:50-52 | a missing task is the generic update's refusal and changes nothing; otherwise the completion is stored and announced through the audited update |
| ScheduledTasks.ScheduledTaskService.FailTask | api/services/scheduledTask.js:64-73 | a missing task is refused with `Task not found.` and changes nothing; otherwise the failure computed from the stored task is stored and announced through the audited update |
| DataMigrations.Progress | api/services/dataMigration.js:45-53 | the summary holds exactly the seven progress fields the migration has, with their values unchanged |
| DataMigrations.CancelCheck | api/services/dataMigration.js:65-76 | a cancel is allowed exactly for a stored migration that is pending or processing; a missing one fails with `Migration not found.` and any other with the not-cancellable message |
| DataMigrations.CancelShowsInProgress | api/services/dataMigration.js:45-76 | a cancelled migration reports `cancelled` and otherwise the same progress, and can not be cancelled again |
| DataMigrations.CancelledStatus | api/services/dataMigration.js:76 | the cancel write leaves the status `cancelled`, which is not cancellable |
| DataMigrations.CancelledProgress | api/services/dataMigration.js:45-76 | the cancel write changes only the status in the progress summary |
| DataMigrations.CancelOnce | api/services/dataMigration.js:72-76 | a second cancellation of the same migration is refused |
| DataMigrations.DataMigrationService.GetMigrationProgress | api/services/dataMigration.js:38-54 | the summary of the stored migration, or `Migration not found.` |
| DataMigrations.DataMigrationService.CancelMigration | api/services/dataMigration.js:65-77 | a refused cancel changes nothing; otherwise only the status becomes `cancelled`, through the audited update that announces both versions |
| DatabaseBackups.SearchFindsPath | api/services/databaseBackup.js:14-16 | a non-empty term succeeds, and an operation is listed exactly when the term is found in its key, name or backup path |
| DatabaseBackups.CancellableIsActive | api/models/databaseBackup.js:23-25 | an operation is listed as active exactly when it is stored with status pending or processing (or a status list holding one); every cancellable operation is listed, and for a status that is not a list being active and being cancellable coincide; newest first |
| DatabaseBackups.CancelCheck | api/services/databaseBackup.js:50-61 | a cancel is allowed exactly for a stored pending or processing operation; a missing one fails with `Operation not found.` and any other with the not-cancellable message |
| DatabaseBackups.CancelEndsOperation | api/services/databaseBackup.js:61 | a cancelled operation is no longer active, keeps every other field, and can not be cancelled again |
| DatabaseBackups.DatabaseBackupService.GetActiveOperations | api/models/databaseBackup.js:23-25 | exactly the stored operations that are pending or processing, every cancellable one among them, newest first |
| DatabaseBackups.DatabaseBackupService.CancelOperation | api/services/databaseBackup.js:50-62 | a refused cancel changes nothing; otherwise only the status becomes `cancelled`, through the audited update |
| NoteReads.IndexOfPair | api/models/noteRead.js:17-18 | the position of the pair's record, or none exactly when no record has that pair |
| NoteReads.UpsertShape | api/models/noteRead.js:16-22 | marking one pair adds exactly that pair with the new time, keeps one record per pair, adds a record only for a new pair and leaves every other record as it was |
| NoteReads.UpsertAllPairs | api/models/noteRead.js:33-43 | after marking many notes for a user exactly those pairs are added to what was read, and pairs stay unique |
| NoteReads.PairsForSnoc | api/models/noteRead.js:34-40 | the pairs of a longer id list add the last id's pair |
| NoteReads.RowsOfAppend | api/models/noteRead.js:33-43 | a user's records of a concatenation are those of the parts, in order |
| NoteReads.RowsOfUpdate | api/models/noteRead.js:17-21 | rewriting another user's record leaves this user's records alone |
| NoteReads.OtherUsersUntouched | api/models/noteRead.js:33-43 | marking notes for one user never changes another user's records |
| NoteReads.MarkManyIdempotent | api/models/noteRead.js:33-43 | repeating `markManyAsRead` with the same ids, at any later time, reads nothing new |
| NoteReads.ReadNoteIds | api/models/noteRead.js:54-57 | there are never more ids than records |
| NoteReads.ReadNoteIdsExact | api/models/noteRead.js:54-57 | the read ids are exactly the listed notes the user has read, each once |
| NoteReads.UnreadCountBounds | api/models/noteRead.js:68-73 | the unread count lies between 0 and the number of notes, and with distinct ids it is the number of listed notes the user has not read |
| NoteReads.NoteReadModel.MarkAsRead | api/models/noteRead.js:16-22 | the pair's record is upserted with the current time and returned; exactly that pair is added to what was read |
| NoteReads.NoteReadModel.MarkManyAsRead | api/models/noteRead.js:33-43 | one upsert per id, in order; exactly the listed pairs are added to what was read |
| NoteReads.NoteReadModel.GetReadNoteIds | api/models/noteRead.js:54-57 | exactly the ids of the notes the user has read, each once |
| NoteReads.NoteReadModel.GetUnreadCount | api/models/noteRead.js:68-73 | the count `UnreadCount` defines, which lies between zero and the number of notes given, and for distinct note ids is the number of them the user has not read |
| FrontendHelpers.Namespaced | frontend/src/inc/helpers.js:1-14 | the storage key is the namespace, a dash, then the key |
| FrontendHelpers.NamespacedInjective | frontend/src/inc/helpers.js:14 | two keys share a storage slot exactly when they are the same key |
| FrontendHelpers.Stamp | frontend/src/inc/helpers.js:3-15 | the stored item holds the value, and an expiration exactly when the lifetime is non-zero, `now + 1000·lifetime` |
| FrontendHelpers.SetThenGet | frontend/src/inc/helpers.js:3-37 | a value stored without a lifetime is read back at any later time and the read leaves the storage as it was |
| FrontendHelpers.SetWithLifetime | frontend/src/inc/helpers.js:3-37 | with a lifetime the value is read back up to its expiration (or always, when that instant is 0); afterwards the read gives `false` and deletes the entry |
| FrontendHelpers.MissingIsFalse | frontend/src/inc/helpers.js:17-22 | a key never stored reads `false` and nothing is removed |
| FrontendHelpers.SetLeavesOtherKeys | frontend/src/inc/helpers.js:3-37 | storing under one key does not change what another key reads |
| FrontendHelpers.LocalStore.Set | frontend/src/inc/helpers.js:3-15 | the namespaced slot holds the stamped item and no other slot changes |
| FrontendHelpers.LocalStore.Get | frontend/src/inc/helpers.js:17-37 | the value `Lookup` defines, with an expired entry deleted |
| FrontendHelpers.LocalStore.Delete | frontend/src/inc/helpers.js:39-41 | only the namespaced slot is removed |
| FrontendHelpers.PublicIffMarker | frontend/src/inc/helpers.js:43-50 | an endpoint is public exactly when it contains one of the six listed fragments |
| FrontendHelpers.ContainsWithin | frontend/src/inc/helpers.js:43-50 | containment survives surrounding text |
| FrontendHelpers.PublicInAnyContext | frontend/src/inc/helpers.js:43-50 | whatever surrounds a public endpoint it stays public |
| FrontendHelpers.AuthSessionLooksPublic | frontend/src/inc/helpers.js:44 | `authSession/search` contains `auth`, so it goes out without the bearer token |
| FrontendHelpers.TruncateShape | frontend/src/inc/helpers.js:60-64 | a text of at most `maxLength` UTF-16 code units comes back unchanged; a longer one becomes a prefix of the text with trailing white space trimmed, followed by `...`, at most `maxLength + 3` code units in all; a negative length leaves only `...` |
| FrontendHelpers.TruncateTwice | frontend/src/inc/helpers.js:60-64 | truncating again at the same length changes nothing when the cut ended on a non-blank character |
| FrontendHelpers.Classify | frontend/src/inc/helpers.js:66-105 | each bucket's count stays below the next unit: 30–59 seconds, under 60 minutes, 24 hours, 30 days, 12 months |
| FrontendHelpers.DivChain | frontend/src/inc/helpers.js:83-103 | the floors of successive divisions equal one floor by the product |
| FrontendHelpers.Buckets | frontend/src/inc/helpers.js:66-105 | the unit is chosen by whole elapsed seconds, with 30-day months and 360-day years, and the count is the elapsed time in that unit rounded down |
| FrontendHelpers.Plurals | frontend/src/inc/helpers.js:85-104 | the unit word is plural exactly when the count is not one, except seconds, which are always plural |
| FrontendHelpers.RelativeExamples | frontend/src/inc/helpers.js:66-105 | no date reads `Unknown`, a future date `Just now`, one minute `1 minute ago`, two hours `2 hours ago` |
| FrontendHelpers.AgoExample | frontend/src/inc/helpers.js:83-91 | an elapsed span of n whole minutes (or hours) falls in that bucket with count n |
| FrontendHelpers.RenderExamples | frontend/src/inc/helpers.js:85-91 | the rendering of one minute and of two hours |
| RegistrationFields.KeepNameChars | frontend/src/Components/RegistrationFormBuilder.jsx:31 | only lower-case letters, digits and white space survive |
| RegistrationFields.DropLeading | frontend/src/Components/RegistrationFormBuilder.jsx:33 | the leading underscores are removed: a suffix not starting with `_` |
| RegistrationFields.DropTrailing | frontend/src/Components/RegistrationFormBuilder.jsx:33 | the trailing underscores are removed: a prefix not ending with `_` |
| RegistrationFields.SpacesShape | frontend/src/Components/RegistrationFormBuilder.jsx:32 | after the white-space step the text holds only name characters, never two underscores in a row, and starts with one only when it started with white space |
| RegistrationFields.FieldNameShape | frontend/src/Components/RegistrationFormBuilder.jsx:28-34 | a generated name uses only lower-case letters, digits and underscores, with no underscore at either end and never two in a row |
| RegistrationFields.SliceShape | frontend/src/Components/RegistrationFormBuilder.jsx:33 | a slice of such a name keeps both properties |
| RegistrationFields.PlainNameUnchanged | frontend/src/Components/RegistrationFormBuilder.jsx:28-34 | a name made of lower-case letters and digits is generated unchanged |
| RegistrationFields.LowerPlain | frontend/src/Components/RegistrationFormBuilder.jsx:30 | lower-casing leaves text without capitals unchanged |
| RegistrationFields.KeepPlain | frontend/src/Components/RegistrationFormBuilder.jsx:31 | filtering leaves text of allowed characters unchanged |
| RegistrationFields.SpacesPlain | frontend/src/Components/RegistrationFormBuilder.jsx:32 | the white-space step leaves a plain name unchanged |
| RegistrationFields.Pipeline | frontend/src/Components/RegistrationFormBuilder.jsx:28-34 | the generated name is the three steps composed |
| RegistrationFields.JoinedPlain | frontend/src/Components/RegistrationFormBuilder.jsx:30 | two plain words joined by a separator without capitals have no capitals |
| RegistrationFields.KeepDropsUnderscore | frontend/src/Components/RegistrationFormBuilder.jsx:31 | the filter removes an underscore between two plain words |
| RegistrationFields.PlainJoin | frontend/src/Components/RegistrationFormBuilder.jsx:28-34 | two plain words joined are plain |
| RegistrationFields.UnderscoresDropped | frontend/src/Components/RegistrationFormBuilder.jsx:28-34 | an underscore typed into a label is dropped: `first_name` becomes `firstname` |
| RegistrationFields.SpaceBecomesUnderscore | frontend/src/Components/RegistrationFormBuilder.jsx:28-34 | one space between two plain words becomes an underscore |
| RegistrationFields.NotIdempotent | frontend/src/Components/RegistrationFormBuilder.jsx:28-34 | generating a name from a generated name changes it again |
| RegistrationFields.KeepAppend | frontend/src/Components/RegistrationFormBuilder.jsx:31 | the character filter distributes over concatenation |
| RegistrationFields.SpacesPlainPrefix | frontend/src/Components/RegistrationFormBuilder.jsx:32 | a plain prefix passes the white-space step unchanged |
| RegistrationFields.Renumbered | frontend/src/Components/RegistrationFormBuilder.jsx:86 | each field's `sortOrder` becomes its position and nothing else changes |
| RegistrationFields.DeleteShape | frontend/src/Components/RegistrationFormBuilder.jsx:85-88 | deleting removes exactly that position: earlier fields keep their places, later ones move up by one, and `sortOrder` runs from 0 |
| RegistrationFields.Unnumbered | frontend/src/Components/RegistrationFormBuilder.jsx:90-99 | the fields without their positions |
| RegistrationFields.MoveShape | frontend/src/Components/RegistrationFormBuilder.jsx:90-99 | a move within range exchanges the two fields, renumbers all of them and keeps the same fields; a target out of range changes nothing |
| RegistrationFields.MoveInRange | frontend/src/Components/RegistrationFormBuilder.jsx:94-98 | a move within range is the swap, renumbered |
| RegistrationFields.MoveBack | frontend/src/Components/RegistrationFormBuilder.jsx:90-99 | moving a field and moving it back restores the list, renumbered |
| RegistrationFields.SaveShape | frontend/src/Components/RegistrationFormBuilder.jsx:135-149 | a new field is appended with the next `sortOrder`; an edit replaces only its position; both keep a numbered list numbered when an edit keeps its own `sortOrder` |
| RegistrationFields.InsertPos | frontend/src/Components/RegistrationFormBuilder.jsx:54 | a stable sort places a field after every field whose `sortOrder` is not larger |
| RegistrationFields.InsertByOrder | frontend/src/Components/RegistrationFormBuilder.jsx:54 | inserting into a sorted list keeps it sorted and adds exactly the field |
| RegistrationFields.InsertAtFacts | frontend/src/Components/RegistrationFormBuilder.jsx:54 | inserting at that position keeps the list sorted and adds exactly the field |
| RegistrationFields.SortBySortOrder | frontend/src/Components/RegistrationFormBuilder.jsx:54 | the loaded list is sorted by `sortOrder` and a permutation of the event's fields |
| RegistrationFields.InsertAtEnd | frontend/src/Components/RegistrationFormBuilder.jsx:54 | a field not smaller than the last goes at the end |
| RegistrationFields.SortStep | frontend/src/Components/RegistrationFormBuilder.jsx:54 | sorting a sorted list extended by a not-smaller field changes nothing |
| RegistrationFields.SortKeepsSorted | frontend/src/Components/RegistrationFormBuilder.jsx:54 | loading a list already in order keeps it as it is |
| RegistrationFields.SortedFront | frontend/src/Components/RegistrationFormBuilder.jsx:54 | the front of a sorted list is sorted and ends no later than the last field |
| RegistrationFields.FieldDefaults | frontend/src/Components/RegistrationFormBuilder.jsx:62-65 | the defaults have an entry exactly for each field name |
| RegistrationFields.FieldDefaultsLast | frontend/src/Components/RegistrationFormBuilder.jsx:62-65 | a name's entry is the default of the last field with that name |
| RegistrationFields.InitialStateShape | frontend/src/Components/RegistrationFormBuilder.jsx:61-67 | the preview state holds the three person fields and one entry per field name and nothing else; a field's entry is its type's default when no later field shares its name; the person fields stay empty unless a field reuses their name; every entry is `''` or `false` |
| RegistrationFields.InitialEntry | frontend/src/Components/RegistrationFormBuilder.jsx:66 | an entry comes from the field defaults when a field has that name, else from the three person fields |
| RegistrationFields.ResetPreview | frontend/src/Components/RegistrationFormBuilder.jsx:61-67 | the loop builds the state `InitialFormState` defines |
| RegistrationFields.DefaultsAreBlank | frontend/src/Components/RegistrationFormBuilder.jsx:64 | every default is `''` or `false` |
| RegistrationFields.Relabel | frontend/src/Components/RegistrationFormBuilder.jsx:105-111 | the label changes; a new field's name is generated from it and an existing field's name is kept; nothing else changes |
| RegistrationFields.FieldEditor.Load | frontend/src/Components/RegistrationFormBuilder.jsx:52-59 | the editor holds the event's fields sorted by `sortOrder`, nothing being edited |
| RegistrationFields.FieldEditor.AddField | frontend/src/Components/RegistrationFormBuilder.jsx:73-78 | a blank field whose `sortOrder` is the list's length is being added |
| RegistrationFields.FieldEditor.EditField | frontend/src/Components/RegistrationFormBuilder.jsx:80-83 | the field at that position is being edited |
| RegistrationFields.FieldEditor.DeleteField | frontend/src/Components/RegistrationFormBuilder.jsx:85-88 | the list becomes `DeleteAt` of the old one and nothing else changes |
| RegistrationFields.FieldEditor.MoveFieldBy | frontend/src/Components/RegistrationFormBuilder.jsx:90-99 | the list becomes `MoveField` of the old one and nothing else changes |
| RegistrationFields.FieldEditor.FieldFormChange | frontend/src/Components/RegistrationFormBuilder.jsx:101-103 | one property of the edited field changes |
| RegistrationFields.FieldEditor.LabelChange | frontend/src/Components/RegistrationFormBuilder.jsx:105-111 | the edited field is relabelled, its name following only for a new field |
| RegistrationFields.FieldEditor.AddOption | frontend/src/Components/RegistrationFormBuilder.jsx:113-118 | one blank option is appended to the edited field |
| RegistrationFields.FieldEditor.OptionChange | frontend/src/Components/RegistrationFormBuilder.jsx:120-126 | one property of one option of the edited field changes |
| RegistrationFields.FieldEditor.RemoveOption | frontend/src/Components/RegistrationFormBuilder.jsx:128-133 | the option at that position is removed, or nothing when there is none |
| RegistrationFields.FieldEditor.SaveField | frontend/src/Components/RegistrationFormBuilder.jsx:135-149 | without a label or a name nothing happens; otherwise the field is saved into the list and editing ends |
| RegistrationFields.FieldEditor.CancelFieldEdit | frontend/src/Components/RegistrationFormBuilder.jsx:151-154 | editing ends and the list is kept |
| RegistrationFields.BuilderSave | frontend/src/Components/RegistrationFormBuilder.jsx:156-165 | the current list is sent and the saving flag is cleared whatever the outcome |
| RegistrationFields.FieldsModal.Open | frontend/src/Components/Modal/RegistrationFieldsModal.jsx:45-53 | on opening with an event the fields are sorted by `sortOrder`, the switch is the event's flag as a boolean, and nothing is edited |
| RegistrationFields.FieldsModal.Save | frontend/src/Components/Modal/RegistrationFieldsModal.jsx:138-149 | the fields and the switch are sent together; the modal closes only when the save resolves; saving ends either way |
| RegistrationFields.FieldsModal.Cancel | frontend/src/Components/Modal/RegistrationFieldsModal.jsx:151-155 | editing ends and the modal closes; the list is kept |
| RegistrationPage.OrElse | frontend/src/Pages/EventRegistration.jsx:35 | the or-fallback of JavaScript: a truthy value is kept, anything else gives the fallback |
| RegistrationPage.RenderedFields | frontend/src/Pages/EventRegistration.jsx:212 | the fields are shown ordered by `sortOrder`, a permutation of the event's fields (none when they are not an array) |
| RegistrationPage.SplitForm | frontend/src/Pages/EventRegistration.jsx:72-81 | the event's own answers never hold the person's details and keep every other form entry with its value |
| RegistrationPage.SplitRoundTrip | frontend/src/Pages/EventRegistration.jsx:72-81 | the person's details and the event's answers together give back the whole form state, sent for the loaded event |
| RegistrationPage.LoadedSubmission | frontend/src/Pages/EventRegistration.jsx:37-43 | a submission right after loading sends the three person fields and one blank answer per event field not named like them; the e-mail is empty unless a field is named `email` |
| RegistrationPage.Page.constructor | frontend/src/Pages/EventRegistration.jsx:19-24 | the page starts loading, with no event, an empty form, no result and no error |
| RegistrationPage.Page.Load | frontend/src/Pages/EventRegistration.jsx:26-53 | an event answer is shown and the form set to its blank state; an error answer shows its message or `Event not found.`, no answer `Event not found.`, a throw `Failed to load event.`; loading ends |
| RegistrationPage.Page.FieldChange | frontend/src/Pages/EventRegistration.jsx:59-65 | the form state becomes the change's entry laid over the old one, and nothing else changes |
| RegistrationPage.Page.Submit | frontend/src/Pages/EventRegistration.jsx:67-93 | a registration is sent exactly when an event is loaded, split from the form; a throw or no event shows the generic failure, an error answer its message, and a success is kept as the result |
| FormInputs.ChangeTouchesOne | frontend/src/Components/Modal/EntityFormModal.jsx:29-36 | a change sets exactly the named entry, to the checked flag for a checkbox and to the text otherwise, and leaves every other entry as it was |
| FormInputs.LastChangeWins | frontend/src/Components/Modal/EntityFormModal.jsx:32-35 | of two changes to the same input the later one wins |
| FormInputs.ChangesCommute | frontend/src/Components/Modal/EntityFormModal.jsx:32-35 | changes to different inputs do not interfere |
| EntityForms.DefaultState | frontend/src/Components/Modal/EntityFormModal.jsx:6-18 | the initial state has an entry for exactly the dialog's field names |
| EntityForms.BuildDefaultState | frontend/src/Components/Modal/EntityFormModal.jsx:6-18 | the loop builds the state `DefaultState` defines |
| EntityForms.DefaultStateLast | frontend/src/Components/Modal/EntityFormModal.jsx:9-15 | a name's entry is the one built for the last field with that name |
| EntityForms.DefaultStateShape | frontend/src/Components/Modal/EntityFormModal.jsx:9-15 | each field's entry is the initial value when one is given (even `null`), else its default when not `null`, else the empty string |
| EntityForms.ChangesKeepFields | frontend/src/Components/Modal/EntityFormModal.jsx:29-36 | after any number of changes every field still has an entry, and the only new keys are names the changes used |
| EntityForms.ReplayKeys | frontend/src/Components/Modal/EntityFormModal.jsx:32-35 | the keys after a sequence of changes are the first keys plus the names changed |
| EntityForms.EntityFormModal.constructor | frontend/src/Components/Modal/EntityFormModal.jsx:20-21 | the dialog starts closed and not saving, with the initial state |
| EntityForms.EntityFormModal.Open | frontend/src/Components/Modal/EntityFormModal.jsx:23-27 | opening rebuilds the initial state |
| EntityForms.EntityFormModal.FieldChange | frontend/src/Components/Modal/EntityFormModal.jsx:29-36 | the state becomes `ChangeEntry` of the old one and nothing else changes |
| EntityForms.EntityFormModal.Submit | frontend/src/Components/Modal/EntityFormModal.jsx:38-49 | the current state is submitted unchanged; the dialog closes only when the submit resolves; saving ends either way |
| EntityForms.EntityFormModal.Cancel | frontend/src/Components/Modal/EntityFormModal.jsx:51-54 | the edits are thrown away, the initial state rebuilt, and the dialog closes |
| ApiKeysPage.DefaultScopes | frontend/src/Pages/Admin/ApiKeys.jsx:8-41 | the default table has a row for exactly the thirteen resources, each with neither read nor write |
| ApiKeysPage.BuildDefaultScopes | frontend/src/Pages/Admin/ApiKeys.jsx:35-41 | the loop builds exactly the default table |
| ApiKeysPage.Step | frontend/src/Pages/Admin/ApiKeys.jsx:83-87 | one stored entry adds its key to the table only when it names a resource |
| ApiKeysPage.ApplyEntries | frontend/src/Pages/Admin/ApiKeys.jsx:76-90 | whatever entries are stored, a table read back has exactly the resource rows |
| ApiKeysPage.ScopesFromApi | frontend/src/Pages/Admin/ApiKeys.jsx:76-90 | the loop reads stored scopes into the table `ScopesFrom` defines: the defaults for a missing value, each stored entry applied otherwise |
| ApiKeysPage.ApplyEntriesSpec | frontend/src/Pages/Admin/ApiKeys.jsx:83-87 | when no resource is stored as `null`, each resource's row is its last stored entry coerced to two booleans, or no access without one; other keys are ignored |
| ApiKeysPage.NullEntryThrows | frontend/src/Pages/Admin/ApiKeys.jsx:85 | a resource stored as `null` makes reading the scopes throw |
| ApiKeysPage.ScopeChange | frontend/src/Pages/Admin/ApiKeys.jsx:92-100 | a click flips exactly one permission of one row; every other row and the other permission stay |
| ApiKeysPage.ToggleTwice | frontend/src/Pages/Admin/ApiKeys.jsx:92-100 | clicking the same box twice restores the table |
| ApiKeysPage.ScopesPayload | frontend/src/Pages/Admin/ApiKeys.jsx:127-133 | the body holds only rows that have a permission, each with its value from the table |
| ApiKeysPage.PayloadValue | frontend/src/Pages/Admin/ApiKeys.jsx:127-135 | the body's scopes object has one entry per sent row, in order, holding its two flags |
| ApiKeysPage.PayloadLookup | frontend/src/Pages/Admin/ApiKeys.jsx:127-133 | a resource appears in the body exactly when it has a permission, with its flags as they are in the table |
| ApiKeysPage.NotListedNotSent | frontend/src/Pages/Admin/ApiKeys.jsx:129 | a key that is not a row of the table is never sent |
| ApiKeysPage.PayloadReadable | frontend/src/Pages/Admin/ApiKeys.jsx:127-133 | no entry of the body is a resource stored as `null` |
| ApiKeysPage.ReadBackRow | frontend/src/Pages/Admin/ApiKeys.jsx:76-133 | each row of a saved table reads back unchanged |
| ApiKeysPage.CoerceScopeValue | frontend/src/Pages/Admin/ApiKeys.jsx:85 | stored flags read back as the same two booleans |
| ApiKeysPage.SavedScopesReadBack | frontend/src/Pages/Admin/ApiKeys.jsx:110-133 | editing a saved key shows exactly the table it was saved from: rows left out of the body read back as no access |
| ApiKeysPage.SubmitBody | frontend/src/Pages/Admin/ApiKeys.jsx:135-143 | the body carries the form's name; an edit never sends an expiry; a new key without a chosen expiry sends `null`; a chosen number of days gives now plus that many days |
| ApiKeysPage.ExpiryRules | frontend/src/Pages/Admin/ApiKeys.jsx:137-143 | a key created with a chosen number of days expires no earlier than now, later than now for a positive number, and an edit leaves the expiry alone |
| ApiKeysPage.ListRequestFallsBack | frontend/src/Pages/Admin/ApiKeys.jsx:60 | the list's sort `-createdAt` is not understood by the server, which falls back to its default sort and a limit of ten |
| ApiKeysPage.KeyDialog.OpenAdd | frontend/src/Pages/Admin/ApiKeys.jsx:102-108 | the dialog opens blank: no key edited, empty name, no expiry, the default table |
| ApiKeysPage.KeyDialog.OpenEdit | frontend/src/Pages/Admin/ApiKeys.jsx:110-116 | the key being edited, its name and an empty expiry are set first; the dialog opens on the stored scopes read back, and when reading them throws the scopes and the open flag stay as they were |
| ApiKeysPage.KeyDialog.ToggleScope | frontend/src/Pages/Admin/ApiKeys.jsx:92-100 | the table becomes `ScopeChange` of the old one and nothing else changes |
| ApiKeysPage.KeyDialog.Submit | frontend/src/Pages/Admin/ApiKeys.jsx:123-166 | the body is `SubmitBody` of the form; a thrown call shows the failure message and keeps the dialog; an error answer shows its message or error and keeps the dialog; otherwise the dialog closes with the created or updated message; saving ends every time |
| AdminListings.FilterPairs | frontend/src/Pages/Admin/ChangeLog.jsx:43-45 | the filters sent are the chosen ones, in order, and every chosen one is sent |
| AdminListings.ListQuery | frontend/src/Pages/Admin/ChangeLog.jsx:37-46 | the query carries `filters` exactly when a filter is chosen |
| AdminListings.QueryEntries | frontend/src/Pages/Admin/ChangeLog.jsx:37-46 | the query holds the sort `!createdAt`, the limit 25 and the page as text, the joined filters when any, and no search, cursor or `all` |
| AdminListings.QuerySort | frontend/src/Pages/Admin/ChangeLog.jsx:38 | the server reads the sort `!createdAt` as newest first |
| AdminListings.QueryWindow | frontend/src/Pages/Admin/ChangeLog.jsx:31-41 | the server reads a window of 25 rows at the page asked for, and no search |
| AdminListings.QueryFilters | frontend/src/Pages/Admin/ChangeLog.jsx:43-46 | the server reads back exactly the chosen pairs as filters |
| AdminListings.ListQueryRoundTrip | frontend/src/Pages/Admin/ChangeLog.jsx:33-48 | the server reads a listing's query back as newest first, 25 rows at the page asked for, and the chosen pairs as both filters and query |
| AdminListings.ChangeLogDropdownsPlain | frontend/src/Pages/Admin/ChangeLog.jsx:8-9 | every entity type and action the change log offers is plain text, safe on either side of `key:value` |
| AdminListings.EmailDropdownsPlain | frontend/src/Pages/Admin/Emails.jsx:10-11 | every type and status the e-mail listing offers is plain text |
| AdminListings.TwoPairs | frontend/src/Pages/Admin/ChangeLog.jsx:43-45 | two choices keep the first when set, then the second when set |
| AdminListings.TwoChoices | frontend/src/Pages/Admin/ChangeLog.jsx:43-46 | two choices under distinct keys give a filter for each one set and no other |
| AdminListings.TwoFiltersRoundTrip | frontend/src/Pages/Admin/ChangeLog.jsx:33-48 | for any two plain dropdown values the server reads back a filter for each one set and no other |
| AdminListings.ChangeLogFiltersRoundTrip | frontend/src/Pages/Admin/ChangeLog.jsx:33-48 | whatever the change log's dropdowns hold, the server filters on exactly the chosen entity type and action |
| AdminListings.EmailFiltersRoundTrip | frontend/src/Pages/Admin/Emails.jsx:34-49 | whatever the e-mail listing's dropdowns hold, the server filters on exactly the chosen type and status |
| AdminListings.Listing.SetFirstFilter | frontend/src/Pages/Admin/ChangeLog.jsx:65-67 | choosing the first filter sets it and returns to the first page; nothing else changes |
| AdminListings.Listing.SetSecondFilter | frontend/src/Pages/Admin/ChangeLog.jsx:65-67 | choosing the second filter sets it and returns to the first page; nothing else changes |
| AdminListings.Listing.PreviousPage | frontend/src/Pages/Admin/ChangeLog.jsx:157 | the button, offered past the first page, goes back one page and changes nothing else |
| AdminListings.Listing.NextPage | frontend/src/Pages/Admin/ChangeLog.jsx:161 | the button, offered after a full page, goes forward one page and changes nothing else |
| AdminListings.Listing.Load | frontend/src/Pages/Admin/ChangeLog.jsx:33-59 | the query sent is the page's current one; an array answer replaces the rows and sets `hasMore` exactly when 25 came back; anything else changes neither |
| AdminListings.FormatChanges | frontend/src/Pages/Admin/ChangeLog.jsx:11-18 | a create reads "Created" and a delete "Deleted" |
| AdminListings.UpdateNamesEveryField | frontend/src/Pages/Admin/ChangeLog.jsx:11-18 | an update names every changed field; "No changes recorded" appears only when nothing was recorded |
| AdminListings.FormatEmailType | frontend/src/Pages/Admin/Emails.jsx:13-15 | formatting keeps the length of the type |
| AdminListings.EmailTypeCaseOnly | frontend/src/Pages/Admin/Emails.jsx:13-15 | formatting leaves no `_` and otherwise only changes letter case |
| AdminListings.EmailTypeIdempotent | frontend/src/Pages/Admin/Emails.jsx:13-15 | formatting a formatted type changes nothing |
| AdminListings.TwoWordType | frontend/src/Pages/Admin/Emails.jsx:13-15 | two lower-case words joined by `_` become two capitalised words separated by a space |
| AdminListings.SendButtonMatchesServer | frontend/src/Pages/Admin/Emails.jsx:21 | the page offers sending an e-mail exactly to the users the server treats as superadmins |
| PasswordForms.TrimBlank | frontend/src/Pages/SetPassword.jsx:20 | a text trims to nothing exactly when it is empty or white space only |
| PasswordForms.PasswordError | frontend/src/Pages/SetPassword.jsx:20-26 | the password has no message exactly when it has non-blank text, eight or more UTF-16 code units, an upper-case letter, a lower-case letter, a digit and another character |
| PasswordForms.Validate | frontend/src/Pages/SetPassword.jsx:17-35 | the error map has a password entry exactly when the password breaks a rule, with that message, and a confirmation entry exactly when the two differ; nothing else |
| PasswordForms.SetPasswordAccepts | frontend/src/Pages/SetPassword.jsx:37-42 | the form is sent exactly when the password is not blank, has eight or more UTF-16 code units and all four character classes, and equals its confirmation |
| PasswordForms.PasswordErrorOrder | frontend/src/Pages/SetPassword.jsx:20-26 | blank text is reported first, then a password of fewer than eight UTF-16 code units, then a missing character class |
| PasswordForms.ServerValidPassesSetPassword | frontend/src/Pages/SetPassword.jsx:17-35 | every password the server's policy admits passes the page when confirmed |
| PasswordForms.SpaceSatisfiesPageOnly | frontend/src/Pages/SetPassword.jsx:24 | the page accepts a space as the special character, which the server's policy refuses |
| PasswordForms.SpaceExample | frontend/src/Pages/SetPassword.jsx:24 | `Abcdefg1 ` passes the page and fails the server's policy |
| PasswordForms.ProfileUpdate | frontend/src/Pages/Profile.jsx:65-73 | the names are refused exactly when one is blank, with the names-required message; otherwise the trimmed, non-empty names are sent |
| PasswordForms.TrimOfTrimmed | frontend/src/Pages/Profile.jsx:73 | trimming twice is trimming once |
| PasswordForms.PasswordChange | frontend/src/Pages/Profile.jsx:92-107 | the passwords are sent exactly when the current and new ones are given, the new one equals its confirmation and meets the profile policy of eight or more UTF-16 code units, no line break, and lower-case, upper-case and digit; the two passwords are what is sent |
| PasswordForms.PasswordChangeOrder | frontend/src/Pages/Profile.jsx:92-107 | a missing field is reported first, then a mismatch, then the policy |
| PasswordForms.ServerValidPassesProfile | frontend/src/Pages/Profile.jsx:102-104 | every password the server's policy admits passes the profile form |
| PasswordForms.ProfileLooserThanServer | frontend/src/Pages/Profile.jsx:102 | the profile form sends letters-and-digits passwords the server's policy refuses |
| PasswordForms.ProfileExample | frontend/src/Pages/Profile.jsx:102 | `Abcdefg1` passes the profile form and fails the server's policy |
| PasswordForms.ProfilePage.Save | frontend/src/Pages/Profile.jsx:62-87 | names that fail the check are not sent and show the names-required message; a thrown call shows the failure message; a failed answer shows an error; otherwise the answer becomes the signed-in user with the success message; the form is kept |
| PasswordForms.ProfilePage.ProfileAnswered | frontend/src/Pages/Profile.jsx:72-86 | after the request: a thrown call or an answer with a message and no id leaves the user and shows an error; otherwise the answer becomes the user |
| PasswordForms.ProfilePage.ChangePassword | frontend/src/Pages/Profile.jsx:89-128 | the passwords are sent exactly when `PasswordChange` accepts them, else its message shows; the three fields are cleared and success shown only after an answer without an error; otherwise they are kept |
| Schemas.SchemasByName | api/models/eventRegistration.js:5 | each model name finds the schema registered under it: backups, migrations, scheduled tasks, e-mails, registrations and sessions |
| Schemas.Cast | api/schemas/DatabaseBackup.js:4-74 | a loose resource keeps its data as given; otherwise the saved document holds exactly the declared paths that the data gives, that have a default, or that default to `Date.now`, with the data's value first, then the default, then the time of the save |
| Schemas.CastConforming | api/schemas/EventRegistration.js:4-40 | data holding only declared paths and every defaulted one is saved as it is |
| Schemas.CastIdempotent | api/schemas/AuthSession.js:3-20 | a cast document conforms, so casting it again at any later time changes nothing |
| Schemas.CastPatch | api/services/abstracts/BaseEntityService.js:40-57 | an update keeps exactly the declared paths of the data, with their values; a loose resource keeps all of it |
| Schemas.CastPatchDeclared | api/schemas/Email.js:4-93 | an update that sets declared paths only is applied as sent |
| Schemas.PatchKeepsUndeclared | api/schemas/ScheduledTask.js:4-66 | a strict update never adds, removes or changes an undeclared path other than the update time |
| DatabaseBackups.NamedBackupCancellable | api/schemas/DatabaseBackup.js:22-26 | a backup posted with only a name is stored with the default status `pending`, so it is listed as active and can be cancelled |
| EventRegistrations.NewRegistrationConforms | api/schemas/EventRegistration.js:4-40 | the registration the service builds already conforms to its schema, so the schema stores it unchanged |
| Emails.PendingRecordConforms | api/schemas/Email.js:4-93 | the pending e-mail record, with `bodyType` and `isActive: true`, conforms to the Email schema and is stored unchanged |
| AuthSessions.TokenOnlyCast | api/schemas/AuthSession.js:13-16 | a session saved with a token only gets `lastLogin` set to the time of the save |
| Strings.JsLength | frontend/src/inc/helpers.js:60-61 | `text.length` counts UTF-16 code units: at least one and at most two per character |
| Strings.JsLengthAppend | frontend/src/inc/helpers.js:60-64 | the code units of a concatenation are the sum of the parts' code units |
| Strings.JsLengthBmp | frontend/src/Pages/SetPassword.jsx:20-26 | the length in code units equals the number of characters exactly when no character lies outside the Basic Multilingual Plane |
| Strings.JsPrefix | frontend/src/inc/helpers.js:60-64 | `substring(0, n)` keeps the longest whole-character prefix of at most `n` code units, and the whole text exactly when it fits |
| PasswordForms.ServerPasswordUnits | api/inc/helpers.js:47-51 | a password the server admits has only Basic Multilingual Plane characters, so the page and the server count its length alike |
| PasswordForms.EmojiPasswordExample | frontend/src/Pages/SetPassword.jsx:20-42 | three emoji and `Ab1!` pass the page's length rule: seven characters but ten code units |
| AdminNotifications.EmojiTermSearched | api/services/adminNotification.js:104-110 | a single emoji is two code units long, so it is searched for rather than refused |

## Left out

- **Cryptography.** PBKDF2-HMAC-SHA512, SHA-256 and `randomBytes` are not modelled. The key-derivation and hash functions are function-typed parameters, and the model assumes only that they are deterministic. Random tokens, salts and UUIDs are passed in by the caller.
- **Real time.** Clocks are not modelled: `Date.now()` and `new Date()` are an integer `now` parameter.
- **Concurrency.** Asynchrony and concurrency are not modelled. Lifecycle announcements are an appended sequence that the audit listener consumes in order. The un-awaited `apiKey.save()` of the API-key check is an ordinary write. Races between logins, session creation and updates are not represented.
- **Failures of the database and the mail transport.** Only the failures the services handle are modelled. Failures the services do not handle (network errors, timeouts) are not.
- **Mongoose casting and setters.**
  - Type casting (a number given where a string is declared) and the `trim`/`lowercase` setters are not modelled.
  - Enum validation is modelled only for the nine registration field types of an event (`Events.ValidField`). The enums of the other schemas, such as user roles and the statuses of backups, migrations, tasks, e-mails and registrations, are not checked.
  - Where the service itself lower-cases or trims, that is modelled.
  - A value of the wrong type where the JavaScript code would throw a `TypeError` ends in an `Err` with a stand-in message.
- **Other MongoDB mechanics.** `populate`, aggregation pipelines and the `__v` version key are not modelled. Unique indexes appear only where they decide an outcome: event keys and slugs, templates per (type, event), one read mark per (note, user).
- **Regular expressions.**
  - A search is a case-insensitive substring match. The source passes the user's term to `$regex`, so a term containing pattern characters behaves differently there.
  - The e-mail and password patterns are written out as character predicates.
  - `substituteVariables` is modelled as literal replacement. The source builds a pattern from the unescaped key, and `$` sequences in a value are live.
- **Character set.** Letter case and white space cover ASCII only. JavaScript's `\s`, `trim()` and `toLowerCase()` also act on Unicode spaces and letters.
- **Numbers.** Numbers are integers. Floating point and `NaN` are not modelled.
- **RequestParams.IsNumeric:** only optionally signed decimal digit strings count as numeric text. Text such as `1.5`, ` 7` or `1e2` passes the source's `isNaN` test but is treated as not numeric by the model.
- **Values.Value:** an object keeps every occurrence of a repeated key, and a lookup takes the last one. `JSON.parse` keeps one entry per key, so `==` on values with repeated keys is stricter than comparing their serialisations.
- **ApiKeysPage.ScopesFrom:** a stored key that names an inherited property of a plain object (`toString`, `constructor`) is ignored. In the page such a key passes the `scopes[key]` test and adds a row.
- **ApiKeysPage.SubmitBody:** the expiry is `now` plus whole days of 86 400 000 ms. The page uses `setDate`, which follows local daylight-saving changes.
- **EmailTemplates.SubstituteUnchanged:** the source promises that the placeholders of keys not supplied stay in place. The model states this only for a template that holds none of the supplied placeholders. It says nothing of the text that substituted values bring in.
- **QR codes.** Generating the QR image files and deleting them are not modelled. The service's decision to do so, and the paths it records, are.
- **SMTP and the HTML e-mail layouts.** These are not modelled: the transport's answer and the built-in layout texts are parameters.
- **Uploads.** Multer and file-system handling in the upload routes are not modelled.
- **Reads kept outside the model.** Some operations named in the source are only reads or thin delegations, so the model leaves them out:
  - `getUsers`, `getAdminUsers`, `updateUserRole`, `deactivateUser`, `reactivateUser` of the user service;
  - the `getUserByID`/`getUserByKey` model helpers;
  - the admin-notification insert, by-id/by-key lookups, per-user and per-type lists, undismissed list and delete;
  - `getTaskLogs` and `createTaskLog` of the scheduled-task service.
- **Not part of this model:**
  - route wiring and server bootstrap (`api/routes/api/*.js` other than the abstract routes, `api/loaders`, `api/config`, `api/server.js`, the seed script);
  - the analytics service (database date aggregation only);
  - the note, site-option, change-log and API-key services, which only delegate;
  - the cache, whose `CACHE_ENABLED = false` makes every method a no-op.
- **Frontend.** These parts of the front end are not modelled:
  - the network client `frontend/src/inc/api.js`;
  - the auth, theme and toast contexts;
  - polling and timers;
  - rendering: the Modal, Nav, Header and Toast components and the pages whose logic is rendering only;
  - date formatting through `toLocaleDateString`;
  - `stripHtml`, which needs a DOM parser.
- **AdminListings.ListQuery:** the paged listings build their filter string by pushing parts one by one. The model states the resulting query as a function and leaves that step-by-step building out.
- **RegistrationFields.MoveShape, RegistrationFields.SaveShape:** the swap and the push act in place on a copied array in the source. The model states them on sequences.
- **Events.InsertPlan:** the service saves new events through the intended slug hook `PreSave`, which stores no empty slug (see Findings). The hook as written is `InsertPlanAsWritten`; with it a second event whose name has no letter or digit is refused, and the service methods do not reproduce that refusal.
- **DocOrdering.SortDocs:** the sort is stable, so records that tie on every sort key keep their stored order. MongoDB's `$sort` promises no order among ties, so the model fixes one that the database may not follow.
- **ChangeAudit.IdText:** an entity without `_id` gets the id text `undefined`. The listener calls `entity._id.toString()`, which would throw there instead. Every announced entity in the model is a stored record with an `_id`, so the case does not arise in its flows.
- **Emails.PendingRecord:** the stored e-mail record has no `key`. The Email schema fills it with a random `generateUUID()`, and randomness is not modelled.
- **EntityServices.EntityService.InsertEntity:** the random `key` that most schemas default to `generateUUID()` is not filled in. A service that sets a key itself, as registrations do, stores that key.
- **Schemas.Cast:** six resources are cast by their schemas: backups, migrations, scheduled tasks, e-mails, registrations and sessions. For them, strict mode, declared defaults and `Date.now` defaults are modelled. Type casting, the `required`, `enum` and `min` validators, nested paths and the dropping of empty objects are not. Three resources are checked against their own schemas in their own modules instead:
  - users: `Users.Strict`, `Users.WithDefaults` and the required password of `Users.Validate`;
  - events: `Events.Strict`, `Events.DefaultsFilled` and the required, enum and minimum validators of `Events.EventIssues`;
  - e-mail templates: `EmailTemplates.SaveError`, which checks the required fields, the type, the event reference and the modifier.
  The remaining resources (admin notifications, notes and their read marks, API keys, site options) keep the record their service builds, unchecked. No update ever writes `_id` or `createdAt` (`Store.Patched`).
- **DocOrdering.CompareValues:** two objects compare as equal, and so do two arrays. MongoDB orders objects field by field, and sorts by an array's least element when ascending and its greatest when descending; the model keeps such records in their stored order instead.
- **EntityRoutes.PathMatches:** Express also matches paths case-insensitively, tolerates one trailing slash and decodes percent-escapes in parameters; the model compares segments exactly.
- **Store.MatchesField:** a filter value is compared as a literal. The source hands `?filters[status][$ne]=pending` on to MongoDB as the operator document `{ status: { $ne: 'pending' } }` (api/inc/helpers.js:173-178); the model matches records whose `status` equals that object instead, so query operators inside filters are not modelled.
- **FrontendHelpers.TruncateText:** when `maxLength` falls between the two halves of a surrogate pair, `substring` keeps a lone high surrogate. The model's strings hold whole characters only, so it drops that character.
- **AuthSessions.SessionService.LoginUserWithToken:** for a known token the reply is the session as it was before the write, because `findOneAndUpdate` returns the earlier document unless asked for the new one. The reply is therefore not promised to be the stored record, whose update time has moved on.

## Findings

| source | as written | input that shows it | evidently intended | confidence | as-written member | corrected member |
|---|---|---|---|---|---|---|
| api/services/user.js:65-75 | An account created by a signed-in requester (`isAdminCreated`) gets an invitation token, and may have no password. The User schema declares `password` as required and declares neither `invitationToken` nor `invitationTokenExpires`. Under Mongoose's default strict mode, a save without a password is refused, and a save with one drops the token. | a signed-in administrator registering `{email, firstName, lastName}` with no password | the account is saved without a password and its invitation token resolves for 48 hours | medium, not executed; assumes the schema's default strict mode | UserServices.AdminInviteNeedsPassword | UserServices.AdminInviteWithoutPassword |
| api/schemas/Event.js:121-126 | The pre-save hook stores `slugify(eventName)` even when that is the empty string. A second event whose name has no letter or digit then collides with the first on the sparse unique index of `eventSlug`. | two new events named `!!!` | an empty derived slug is not stored, so such events are saved without a slug | high, not executed | Events.EmptySlugsCollide | Events.SluglessNamesCoexist |
