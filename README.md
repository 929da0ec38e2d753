# Blog server core, modelled in Dafny

This project models the request-handling core of a small Express blog server:

- the in-memory post store (`DUMMY_POSTS`) and its five handlers, in the TypeScript
  version and in the older JavaScript version;
- the authorization-header gate (`authMiddleware`);
- the user controllers (`getUsers`, `signup`, `login`, `refreshAccessToken`) in both versions;
- the application's unknown-route handler and final error handler.

Modules, one per source file or shared concept:

| file | module | models |
|---|---|---|
| `maybe.dfy` | `Maybe` | `Option`, standing for a present value or `undefined` |
| `http.dfy` | `Http` | `HttpError(message, code)`; `Handled<B>`, which is either a response sent with a status and body, or an error handed to the error handler |
| `jwt.dfy` | `Jwt` | claims, payloads and verifier verdicts; `Token(kind, id, email)` in place of a signed token |
| `post_list.dfy` | `PostList` | `Post`, plus `find`, `findIndex` and `filter` by id over the post list |
| `posts.dfy` | `Posts` | `src/controllers/posts-controllers.ts` as the class `PostsController` over `posts: seq<Post>` |
| `legacy_posts.dfy` | `LegacyPosts` | `controllers/posts-controllers.js` as the class `LegacyPostsController` |
| `auth_gate.dfy` | `AuthGate` | `src/middlewares/auth-middleware.ts`, including the `split(" ")` of the header |
| `accounts.dfy` | `Accounts` | the user table (the class `UserTable` over `users: seq<User>`), lookups by email and id, token constructors, messages |
| `users.dfy` | `Users` | `src/controllers/users-controllers.ts` |
| `legacy_users.dfy` | `LegacyUsers` | `controllers/users-controllers.js` |
| `app.dfy` | `App` | the last two middlewares of `src/app.ts` |

## Modelling choices

- **Handlers and state.** The post handlers change a module-level list, so each is a method of a
  class holding that list. Each method's postcondition gives the new list in terms of the old one.
- **Signup.** `signup` is a method that changes a `UserTable`. It is proved equal to the pure
  function `SignupOutcome`, and the lemmas about which failure wins are stated on that function.
- **Read-only handlers.** `login`, `refreshAccessToken` and `getUsers` only read the table, so they
  are functions over the table's rows.
- **User table.** The table is a sequence of rows, not a map. `getUsers` returns a list, and the
  refresh flow looks rows up by id as well as by email. The object invariant `Valid()` keeps email
  and id unique, and a successful signup preserves it.
- **bcrypt.**
  - `hash: string -> string` is the salted digest produced by this call.
  - `matches: (string, string) -> bool` is what the password comparison answers.
  - Fault flags say which library or store call throws.
  - `compare(pw, hash(pw))` is never taken as a fact of the code. Only `Users.LoginAfterSignup`
    uses it, as an explicit hypothesis.
- **Token verifiers.** A verifier is a function parameter `string -> Verdict`. A verdict is either
  `Verified(payload)`, `Expired` or `Rejected`. Because the verifier is a parameter, "the verifier is
  never consulted" can be stated as "the result is the same for any two verifiers".
- **Claim values.** A claim is `Absent`, a string or a number, so that the middleware's truthiness
  tests (`!response.email`, `!response.id`) are exact. A verified payload that is a plain string has
  neither claim.
- **Status codes and messages** are exactly as in the source, including the 404 for a missing
  header and the 500 for an invalid access token.
- **Refresh with a bad id claim.** `refreshAccessToken` passes `payload.id` to `findUnique`. If that
  claim is absent or not a string, the store rejects the query. The model reports that as the same
  500 as any other lookup fault.
- **Truthy copy in `updatePost`.** The TypeScript handler's 404 branch tests the spread copy, and a
  copy is always a truthy object. So the branch can never fire, and `UpdatePost` is proved always
  to answer 200. For an unknown id, the copy of `undefined` holds only the assigned fields
  (`Edited.Fragment`).
- **Index -1.** An unknown id makes `findIndex` return -1. Assigning to index -1 adds no element to
  the array, so the list of posts is unchanged.
- **One call to `next`.** The middleware calls `next` exactly once on every path. In the model that
  call is the single result of `AuthGate.Gate`: `Proceed(userId)` or `Deny(error)`.

## Model

| member | source | states |
|---|---|---|
| `PostList.FindIndex` | src/controllers/posts-controllers.ts:77 | `findIndex` result is -1 iff no post has the id; otherwise it is the first index holding the id |
| `PostList.FindAtFindIndex` | src/controllers/posts-controllers.ts:76-77 | `find` returns exactly the element at the index `findIndex` reports, or `undefined` when that index is -1 |
| `PostList.Without` | src/controllers/posts-controllers.ts:95 | the filtered list holds exactly the posts of the input whose id differs, and is no longer |
| `PostList.WithoutAbsent` | src/controllers/posts-controllers.ts:95 | filtering a list with no post of that id returns the list unchanged |
| `PostList.WithoutIdempotent` | src/controllers/posts-controllers.ts:95 | deleting an id twice leaves the same list as deleting it once |
| `PostList.WithoutAppend` | src/controllers/posts-controllers.ts:95 | filtering distributes over concatenation, so survivors keep their relative order |
| `PostList.WithoutSingleton` | src/controllers/posts-controllers.ts:95 | a single post survives the filter iff its id differs |
| `PostList.FindIndexAfterWithout` | src/controllers/posts-controllers.ts:93-96 | after a delete, no post with that id is found |
| `PostList.FindIndexAfterAppend` | src/controllers/posts-controllers.ts:66 | a post appended with an unused id is found at the end of the list |
| `PostList.FindIndexAfterReplace` | src/controllers/posts-controllers.ts:87 | replacing the first match by a post with the same id keeps it first; a later lookup finds the replacement |
| `Posts.PostsController.constructor` | src/controllers/posts-controllers.ts:18-28 | the list starts as the single seed post `p1` |
| `Posts.PostsController.GetPosts` | src/controllers/posts-controllers.ts:31-33 | answers 200 with the whole list; nothing changes |
| `Posts.PostsController.GetPostById` | src/controllers/posts-controllers.ts:36-45 | succeeds iff some post has the id, with 200 and the first such post; otherwise 404 "게시글을 찾을 수 없습니다."; nothing changes |
| `Posts.PostsController.CreatePosts` | src/controllers/posts-controllers.ts:48-69 | invalid input gives 422 and an unchanged list; otherwise exactly one post is appended, built from the body fields and the new id with no `updated_date`, and the answer is 201 with it |
| `Posts.PostsController.UpdatePost` | src/controllers/posts-controllers.ts:72-90 | always 200, never 404; a known id replaces only the first match, with title, content and tags from the body and everything else kept; an unknown id leaves the list unchanged and answers with an object holding only title, content and tags |
| `Posts.PostsController.DeletePost` | src/controllers/posts-controllers.ts:93-97 | the list becomes the old list filtered by the id; always 200 with the deletion message |
| `Posts.DeleteTwice` | src/controllers/posts-controllers.ts:95 | two deletes of one id leave the list of a single delete |
| `Posts.CreateFindDelete` | src/controllers/posts-controllers.ts:36-96 | a post created with an unused id is then found by id with 200; after deleting that id, the lookup answers 404 "게시글을 찾을 수 없습니다." and the list is the extended list filtered by the id |
| `LegacyPosts.LegacyPostsController.constructor` | controllers/posts-controllers.js:4-14 | the list starts as the single seed post `p1` |
| `LegacyPosts.LegacyPostsController.GetPosts` | controllers/posts-controllers.js:16-18 | answers 200 with the whole list; nothing changes |
| `LegacyPosts.LegacyPostsController.GetPostById` | controllers/posts-controllers.js:20-31 | succeeds iff some post has the id, with the first such post; otherwise 404 |
| `LegacyPosts.LegacyPostsController.CreatePosts` | controllers/posts-controllers.js:33-48 | no validation: every call appends exactly one post built from the body, and the answer is 201 with it |
| `LegacyPosts.LegacyPostsController.UpdatePost` | controllers/posts-controllers.js:50-62 | always 200; a known id replaces the first match with title and content from the body, keeping tags and all other fields; an unknown id leaves the list unchanged and answers with an object holding only title and content |
| `LegacyPosts.LegacyPostsController.DeletePost` | controllers/posts-controllers.js:64-68 | the list becomes the old list filtered by the id; always 200 |
| `LegacyPosts.UpdateTwice` | controllers/posts-controllers.js:54-59 | a second update of the same id lands on the same index, and the second edit wins |
| `AuthGate.Split` | src/middlewares/auth-middleware.ts:13 | `split(" ")` returns at least one field, and no field contains a space |
| `AuthGate.JoinSplit` | src/middlewares/auth-middleware.ts:13 | joining the split fields with spaces gives the header back |
| `AuthGate.SplitJoin` | src/middlewares/auth-middleware.ts:13 | splitting space-free fields joined with spaces gives the fields back |
| `AuthGate.SplitWord` | src/middlewares/auth-middleware.ts:13 | a word without a space is one field |
| `AuthGate.SplitAfterWord` | src/middlewares/auth-middleware.ts:13 | a first word followed by a space is the first field, and the rest splits on its own |
| `AuthGate.TokenIsSecondField` | src/middlewares/auth-middleware.ts:12-13 | the token is the second field, whatever the first word is, and anything after a further space is ignored |
| `AuthGate.NoSpaceDenied` | src/middlewares/auth-middleware.ts:13-17 | a non-empty header with no space is denied with 404 "인증 헤더가 없습니다." |
| `AuthGate.DoubleSpaceDenied` | src/middlewares/auth-middleware.ts:13-17 | two spaces after the first word give an empty token, which is denied with 404 |
| `AuthGate.Gate` | src/middlewares/auth-middleware.ts:6-41 | the full ladder: no usable token gives 404; an expired token gives 401; a payload lacking a truthy email or id gives 404; any other verifier error gives 500; it proceeds iff the token verifies with both claims truthy, and `userId` is then the token's `id` claim |
| `AuthGate.NoTokenNoVerification` | src/middlewares/auth-middleware.ts:15-19 | without a usable token the decision does not depend on the verifier |
| `AuthGate.IssuedTokenProceeds` | src/middlewares/auth-middleware.ts:19-26 | a token carrying the `{id, email}` claims of a user proceeds with that user's id |
| `AuthGate.LegacyTokenDenied` | src/middlewares/auth-middleware.ts:21-23 | a token with the older `{userId, email}` claims has no `id` claim and is denied with 404 "유저 정보가 없습니다." |
| `Accounts.FindBy` | src/controllers/users-controllers.ts:41-43 | a `findUnique` query on a key finds a stored row with that key value, and finds none iff no row has it; `FindByEmail` and `FindById` are its two uses |
| `Accounts.FindByEmailKeyed` | src/controllers/users-controllers.ts:103-105 | with unique emails, the lookup of a stored user's email finds that user |
| `Accounts.FindByIdKeyed` | src/controllers/users-controllers.ts:162-164 | with unique ids, the lookup of a stored user's id finds that user |
| `Accounts.KeyedAppend` | src/controllers/users-controllers.ts:54-82 | adding a row with an unused email and id keeps both keys unique |
| `Users.GetUsers` | src/controllers/users-controllers.ts:14-23 | every row with 200, or 500 iff the store throws |
| `Users.SignupOutcome` | src/controllers/users-controllers.ts:25-96 | succeeds iff validation passes, the lookup works, the email is free, and hashing and creating work; success is 201 with an access and a refresh token for the new id and email; each failure rung answers with its own code and message: invalid input 422, lookup fault 500 (winning over a taken email), taken email 422, hash fault 500, create fault 500 |
| `Users.Signup` | src/controllers/users-controllers.ts:25-96 | answers as `SignupOutcome`; on success exactly one row is appended, holding the form's fields, the new id and the digest of the password; on any failure the table is unchanged; uniqueness of email and id is kept |
| `Users.SignupValidationFirst` | src/controllers/users-controllers.ts:26-29 | failed validation gives 422 whatever the store and the hashing would do |
| `Users.SignupDuplicateBeforeHashing` | src/controllers/users-controllers.ts:39-70 | a taken email gives 422, independent of the hash function and of hash or create faults |
| `Users.Login` | src/controllers/users-controllers.ts:98-140 | lookup fault 500; unknown email 401; compare fault 500; rejected password 401; otherwise 200 with access and refresh tokens for the found user |
| `Users.LoginSuccess` | src/controllers/users-controllers.ts:133-139 | a successful login answers with tokens for a stored user with that email whose digest the comparison accepted |
| `Users.LoginAfterSignup` | src/controllers/users-controllers.ts:74-139 | after a successful signup, a login with the stored (normalised) email and the same password returns tokens for the new user, provided the comparison accepts a password against its own digest |
| `Users.RefreshAccessToken` | src/controllers/users-controllers.ts:142-178 | a missing or empty token gives 403; any verifier failure, expiry included, gives 403; a lookup fault gives 500; an id with no row gives 404; otherwise 200 with only a new access token for the stored user |
| `Users.RefreshSuccess` | src/controllers/users-controllers.ts:160-177 | a successful refresh issues an access token carrying the stored user's id and email, whose id the token's id claim names |
| `Users.RefreshAfterLogin` | src/controllers/users-controllers.ts:133-177 | sending back the refresh token from a login yields the same access token the login issued |
| `LegacyUsers.GetUsers` | controllers/users-controllers.js:8-17 | every row with 200, or 500 iff the store throws |
| `LegacyUsers.SignupOutcome` | controllers/users-controllers.js:19-80 | validation 422 comes before everything; then lookup fault 500, taken email 422, hash fault 500, create fault 500, each with its own message; succeeds iff every step works; success is 201 with the created record: the new id and the body's username, email, github_id and avatar, with the digest in place of the password |
| `LegacyUsers.Signup` | controllers/users-controllers.js:19-80 | answers as `SignupOutcome`; on success the answered record, the full created row, is appended; on failure the table is unchanged; keys stay unique |
| `LegacyUsers.Login` | controllers/users-controllers.js:82-126 | lookup fault 500; unknown email 401; compare fault 500; rejected password 401; otherwise 200 with the stored record, digest included, and no tokens |
| `LegacyUsers.LoginAnswersStoredRecord` | controllers/users-controllers.js:125 | a successful login answers with a stored row for that email whose digest the comparison accepted |
| `LegacyUsers.LoginAnswersTheRow` | controllers/users-controllers.js:98-125 | with unique emails, the right password returns exactly the stored row |
| `App.HandleError` | src/app.ts:23-29 | passes the error on iff headers were sent; otherwise status is the code, or 500 when it is 0, and the message is the error's own, or "An unknown error occurred!" when it is empty; the status and message are never empty |
| `App.UnknownRoute` | src/app.ts:18-21 | a request no router answered ends as 404 "Could not find this route." |
| `App.Verbatim` | src/app.ts:27-28 | an error with a code and a message reaches the client unchanged |
| `App.GateDenialReachesClient` | src/middlewares/auth-middleware.ts:27-39 | every gate denial is 401, 404 or 500 and reaches the client with its own status and message |
| `App.RefreshFailureReachesClient` | src/controllers/users-controllers.ts:149-171 | every refresh failure is 403, 404 or 500 and reaches the client with its own status and message |

## Left out

- Signing, secrets, expiry and duration strings of the token helpers (`src/utils/jwt.ts`,
  `src/utils/jwt.js`) are library code. Tokens are `Token(kind, id, email)` values and verification
  is an oracle, so cross-secret rejection is not stated.
- Salting, cost factor and the actual digest of bcrypt are library behaviour. They are replaced by
  the `hash` and `matches` parameters.
- Prisma persistence is replaced by an in-memory table with fault flags.
  - The check-then-create race of signup needs concurrency, which is not modelled.
  - The new row's id is a parameter, assumed unused, as the store guarantees.
- Request validation (express-validator rules in the route files) is a boolean input. The rules
  themselves are library code.
- Users.LoginAfterSignup: `form.email` stands for the signup address after the signup route's
  `normalizeEmail()` sanitizer has rewritten it (lowercasing, and dropping dots and `+` suffixes of
  gmail addresses). The login route does not normalise, so the lemma holds only for a login that
  sends the stored, normalised address. A login with the raw, un-normalised address can find no row
  and answer 401. The sanitizer is library code and is not modelled.
- Route wiring is not modelled. `authMiddleware` is not mounted on any route, so no route is gated
  in the model either.
- Every request-body field is taken as present, a string or a list of strings as sent. An absent
  field is not modelled; for example, a PATCH without `tags` stores `undefined` at
  src/controllers/posts-controllers.ts:85. The one exception is `refreshToken`, whose absence is
  `None` in `Users.RefreshAccessToken`.
- A posts list with more than its elements is not modelled. Assigning to index -1 leaves a
  non-element `-1` property on the JavaScript array. No handler, `filter` or JSON output ever reads
  it, so only the elements are modelled.
- The uuid generator is replaced by a post id given as a parameter; its uniqueness is not claimed.
- `console.error` logging in `HttpError`, `dotenv`, `bodyParser` and `app.listen` are not modelled.
  Neither is the third constructor argument that some calls pass to `HttpError`, which the
  constructor ignores.
- `async`/`await` is not modelled: every handler runs as one sequential step.
- Claim values are strings, integers or absent. Floating-point numbers and other JSON values are
  not modelled.
- The error handler's input is an `HttpError`. Any other thrown value is represented with code 0
  (no `code` property).
- App.HandleError: does not model Express rejecting a status code outside the valid HTTP range.
