/** The TypeScript user controllers: `getUsers`, `signup`, `login` and
    `refreshAccessToken`. Each is a fixed ladder of checks; only a successful
    signup changes the user table. The store's and the hashing library's
    exceptions are boolean fault inputs, the salted hash of this call is the
    function `hash`, and `matches` is what the password comparison answers. */
module Users {
  import opened Maybe
  import opened Http
  import opened Jwt
  import opened Accounts

  /** The body `{ accessToken, refreshToken }`. */
  datatype TokenPair = TokenPair(accessToken: Token, refreshToken: Token)

  /** The body `{ accessToken }` of a refresh: no new refresh token. */
  datatype AccessOnly = AccessOnly(accessToken: Token)

  /** `getUsers`: every row of the table, or 500 when the store throws. */
  function GetUsers(users: seq<User>, fault: bool): (r: Handled<seq<User>>)
    ensures r.Sent? <==> !fault
    ensures r.Sent? ==> r.status == 200 && r.body == users
    ensures r.Failed? ==> r.error == HttpError(LoadFailedMessage, 500)
  {
    if fault then Fail(LoadFailedMessage, 500) else Sent(200, users)
  }

  /** The response `signup` gives for a table holding `users`. */
  function SignupOutcome(users: seq<User>, valid: bool, form: SignupForm, hash: string -> string,
                         newId: string, faults: SignupFaults): (r: Handled<TokenPair>)
    ensures r.Sent? <==>
      valid && !faults.lookup && FindByEmail(users, form.email).None? && !faults.hash && !faults.create
    ensures r.Sent? ==>
      && r.status == 201
      && r.body.accessToken == Token(Access, newId, form.email)
      && r.body.refreshToken == Token(Refresh, newId, form.email)
    ensures r.Failed? ==> r.error.code == 422 || r.error.code == 500
    ensures !valid ==> r == Fail(InvalidInputMessage, 422)
    ensures valid && faults.lookup ==> r == Fail(SignupLookupFailedMessage, 500)
    ensures valid && !faults.lookup && FindByEmail(users, form.email).Some? ==> r == Fail(DuplicateEmailMessage, 422)
    ensures valid && !faults.lookup && FindByEmail(users, form.email).None? && faults.hash ==>
      r == Fail(HashFailedMessage, 500)
    ensures valid && !faults.lookup && FindByEmail(users, form.email).None? && !faults.hash && faults.create ==>
      r == Fail(CreateFailedMessage, 500)
  {
    if !valid then Fail(InvalidInputMessage, 422)
    else if faults.lookup then Fail(SignupLookupFailedMessage, 500)
    else if FindByEmail(users, form.email).Some? then Fail(DuplicateEmailMessage, 422)
    else if faults.hash then Fail(HashFailedMessage, 500)
    else if faults.create then Fail(CreateFailedMessage, 500)
    else
      var user := Created(form, hash(form.password), newId);
      Sent(201, TokenPair(AccessTokenFor(user), RefreshTokenFor(user)))
  }

  /** `signup`. The store hands out `newId`, an id no row has yet. */
  method Signup(table: UserTable, valid: bool, form: SignupForm, hash: string -> string,
                newId: string, faults: SignupFaults) returns (r: Handled<TokenPair>)
    requires table.Valid()
    requires FindById(table.users, newId).None?
    modifies table
    ensures table.Valid()
    ensures r == SignupOutcome(old(table.users), valid, form, hash, newId, faults)
    ensures r.Sent? ==> table.users == old(table.users) + [Created(form, hash(form.password), newId)]
    ensures r.Failed? ==> table.users == old(table.users)
  {
    if !valid {
      return Fail(InvalidInputMessage, 422);
    }
    if faults.lookup {
      return Fail(SignupLookupFailedMessage, 500);
    }
    var existing := FindByEmail(table.users, form.email);
    if existing.Some? {
      return Fail(DuplicateEmailMessage, 422);
    }
    if faults.hash {
      return Fail(HashFailedMessage, 500);
    }
    var digest := hash(form.password);
    if faults.create {
      return Fail(CreateFailedMessage, 500);
    }
    var created := Created(form, digest, newId);
    KeyedAppend(table.users, created);
    table.users := table.users + [created];
    r := Sent(201, TokenPair(AccessTokenFor(created), RefreshTokenFor(created)));
  }

  /** Failed validation answers 422 before the store is touched, whatever
      the store or the hashing would have done. */
  lemma SignupValidationFirst(users: seq<User>, form: SignupForm, hash: string -> string,
                              newId: string, faults: SignupFaults)
    ensures SignupOutcome(users, false, form, hash, newId, faults) == Fail(InvalidInputMessage, 422)
  {
  }

  /** A taken email answers 422 before any hashing: the outcome does not
      depend on the hash function or on whether hashing or creation would fail. */
  lemma SignupDuplicateBeforeHashing(users: seq<User>, form: SignupForm, hash1: string -> string,
                                     hash2: string -> string, newId: string, faults: SignupFaults)
    requires !faults.lookup && FindByEmail(users, form.email).Some?
    ensures SignupOutcome(users, true, form, hash1, newId, faults) == Fail(DuplicateEmailMessage, 422)
    ensures SignupOutcome(users, true, form, hash1, newId, faults)
         == SignupOutcome(users, true, form, hash2, newId, SignupFaults(false, !faults.hash, !faults.create))
  {
  }

  /** `login` for a table holding `users`. */
  function Login(users: seq<User>, email: string, password: string, matches: (string, string) -> bool,
                 lookupFault: bool, compareFault: bool): (r: Handled<TokenPair>)
    ensures lookupFault ==> r == Fail(LoginLookupFailedMessage, 500)
    ensures !lookupFault && FindByEmail(users, email).None? ==> r == Fail(EmailNotFoundMessage, 401)
    ensures !lookupFault && FindByEmail(users, email).Some? ==>
      var u := FindByEmail(users, email).value;
      && (compareFault ==> r == Fail(CompareFailedMessage, 500))
      && (!compareFault && !matches(password, u.password) ==> r == Fail(PasswordMismatchMessage, 401))
      && (!compareFault && matches(password, u.password) ==>
            r == Sent(200, TokenPair(AccessTokenFor(u), RefreshTokenFor(u))))
  {
    if lookupFault then Fail(LoginLookupFailedMessage, 500)
    else
      var existing := FindByEmail(users, email);
      if existing.None? then Fail(EmailNotFoundMessage, 401)
      else if compareFault then Fail(CompareFailedMessage, 500)
      else if !matches(password, existing.value.password) then Fail(PasswordMismatchMessage, 401)
      else Sent(200, TokenPair(AccessTokenFor(existing.value), RefreshTokenFor(existing.value)))
  }

  /** A successful login issues both tokens for a stored user with that email
      whose digest the comparison accepted. */
  lemma LoginSuccess(users: seq<User>, email: string, password: string, matches: (string, string) -> bool,
                     lookupFault: bool, compareFault: bool)
    requires Login(users, email, password, matches, lookupFault, compareFault).Sent?
    ensures exists u ::
              && u in users && u.email == email && matches(password, u.password)
              && Login(users, email, password, matches, lookupFault, compareFault)
                 == Sent(200, TokenPair(Token(Access, u.id, email), Token(Refresh, u.id, email)))
  {
    var u := FindByEmail(users, email).value;
    assert u in users && u.email == email && matches(password, u.password);
  }

  /** After a successful signup, logging in with the same email and password
      succeeds for the new user, provided the comparison accepts a password
      against its own digest (a property of the hashing library, assumed here). */
  lemma LoginAfterSignup(users: seq<User>, form: SignupForm, hash: string -> string, newId: string,
                         matches: (string, string) -> bool)
    requires Keyed(users) && FindById(users, newId).None?
    requires SignupOutcome(users, true, form, hash, newId, SignupFaults(false, false, false)).Sent?
    requires matches(form.password, hash(form.password))
    ensures
      var u := Created(form, hash(form.password), newId);
      Login(users + [u], form.email, form.password, matches, false, false)
        == Sent(200, TokenPair(Token(Access, newId, form.email), Token(Refresh, newId, form.email)))
  {
    var u := Created(form, hash(form.password), newId);
    KeyedAppend(users, u);
    FindByEmailKeyed(users + [u], u);
  }

  /** `refreshAccessToken` for a table holding `users`, with `refreshToken`
      the request body's field and `verify` what the refresh-token verifier
      does. Looking up an id claim that is absent or not a string is rejected
      by the store, which the handler reports like any other lookup fault. */
  function RefreshAccessToken(users: seq<User>, refreshToken: Option<string>, verify: string -> Verdict,
                              lookupFault: bool): (r: Handled<AccessOnly>)
    ensures refreshToken.None? || refreshToken.value == "" ==> r == Fail(NoRefreshTokenMessage, 403)
    ensures refreshToken.Some? && refreshToken.value != "" ==>
      var v := verify(refreshToken.value);
      && (!v.Verified? ==> r == Fail(BadRefreshTokenMessage, 403))
      && (v.Verified? && (lookupFault || !IdClaim(v.payload).Text?) ==> r == Fail(UserNotFoundMessage, 500))
      && (v.Verified? && !lookupFault && IdClaim(v.payload).Text? ==>
            var found := FindById(users, IdClaim(v.payload).text);
            && (found.None? ==> r == Fail(UserNotFoundMessage, 404))
            && (found.Some? ==> r == Sent(200, AccessOnly(AccessTokenFor(found.value)))))
  {
    if refreshToken.None? || refreshToken.value == "" then Fail(NoRefreshTokenMessage, 403)
    else
      match verify(refreshToken.value)
      case Expired => Fail(BadRefreshTokenMessage, 403)
      case Rejected => Fail(BadRefreshTokenMessage, 403)
      case Verified(payload) =>
        if lookupFault || !IdClaim(payload).Text? then Fail(UserNotFoundMessage, 500)
        else
          var existing := FindById(users, IdClaim(payload).text);
          if existing.None? then Fail(UserNotFoundMessage, 404)
          else Sent(200, AccessOnly(AccessTokenFor(existing.value)))
  }

  /** A refresh succeeds exactly when the token verifies and its id claim
      names a stored user; the new access token carries that user's stored
      id and email, not the email claim of the presented token. */
  lemma RefreshSuccess(users: seq<User>, refreshToken: Option<string>, verify: string -> Verdict,
                       lookupFault: bool)
    requires RefreshAccessToken(users, refreshToken, verify, lookupFault).Sent?
    ensures exists u ::
              && u in users
              && RefreshAccessToken(users, refreshToken, verify, lookupFault) == Sent(200, AccessOnly(Token(Access, u.id, u.email)))
              && verify(refreshToken.value).Verified? && IdClaim(verify(refreshToken.value).payload) == Text(u.id)
  {
    var u := FindById(users, IdClaim(verify(refreshToken.value).payload).text).value;
    assert u in users;
  }

  /** Sending back the refresh token that a login issued gives a new access
      token for the same user, as long as the user is still stored. */
  lemma RefreshAfterLogin(users: seq<User>, email: string, password: string, matches: (string, string) -> bool,
                          presented: string, verify: string -> Verdict)
    requires Keyed(users)
    requires Login(users, email, password, matches, false, false).Sent?
    requires presented != ""
    requires verify(presented) == Verified(Claims(Login(users, email, password, matches, false, false).body.refreshToken))
    ensures RefreshAccessToken(users, Some(presented), verify, false)
         == Sent(200, AccessOnly(Login(users, email, password, matches, false, false).body.accessToken))
  {
    var u := FindByEmail(users, email).value;
    FindByIdKeyed(users, u);
  }
}
