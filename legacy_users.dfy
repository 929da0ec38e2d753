/** The older JavaScript user controllers: `getUsers`, `signup` and `login`.
    They run the same ladders as the TypeScript ones but answer with the
    user record itself (password digest included) and issue no tokens. */
module LegacyUsers {
  import opened Http
  import opened Accounts

  /** `getUsers`: every row of the table, or 500 when the store throws. */
  function GetUsers(users: seq<User>, fault: bool): (r: Handled<seq<User>>)
    ensures r.Sent? <==> !fault
    ensures r.Sent? ==> r.status == 200 && r.body == users
    ensures r.Failed? ==> r.error == HttpError(LoadFailedMessage, 500)
  {
    if fault then Fail(LoadFailedMessage, 500) else Sent(200, users)
  }

  /** The response `signup` gives for a table holding `users`. */
  function SignupOutcome(users: seq<User>, valid: bool, form: SignupForm, hash: string -> string,
                         newId: string, faults: SignupFaults): (r: Handled<User>)
    ensures r.Sent? <==>
      valid && !faults.lookup && FindByEmail(users, form.email).None? && !faults.hash && !faults.create
    ensures r.Sent? ==>
      && r.status == 201
      && r.body == Created(form, hash(form.password), newId)
    ensures !valid ==> r == Fail(InvalidInputMessage, 422)
    ensures valid && !faults.lookup && FindByEmail(users, form.email).Some? ==> r == Fail(DuplicateEmailMessage, 422)
    ensures r.Failed? ==> r.error.code == 422 || r.error.code == 500
    ensures valid && faults.lookup ==> r == Fail(SignupLookupFailedMessage, 500)
    ensures valid && !faults.lookup && FindByEmail(users, form.email).None? && faults.hash ==>
      r == Fail(HashFailedMessage, 500)
    ensures valid && !faults.lookup && FindByEmail(users, form.email).None? && !faults.hash && faults.create ==>
      r == Fail(CreateFailedMessage, 500)
  {
    if !valid then Fail(InvalidInputMessage, 422)
    else if faults.lookup then Fail(SignupLookupFailedMessage, 500)
    else if FindByEmail(users, form.email).Some? then Fail(DuplicateEmailMessage, 422)
    else if faults.hash then Fail(HashFailedMessage, 500)
    else if faults.create then Fail(CreateFailedMessage, 500)
    else Sent(201, Created(form, hash(form.password), newId))
  }

  /** `signup`. The store hands out `newId`, an id no row has yet. */
  method Signup(table: UserTable, valid: bool, form: SignupForm, hash: string -> string,
                newId: string, faults: SignupFaults) returns (r: Handled<User>)
    requires table.Valid()
    requires FindById(table.users, newId).None?
    modifies table
    ensures table.Valid()
    ensures r == SignupOutcome(old(table.users), valid, form, hash, newId, faults)
    ensures r.Sent? ==> table.users == old(table.users) + [r.body]
    ensures r.Failed? ==> table.users == old(table.users)
  {
    if !valid {
      return Fail(InvalidInputMessage, 422);
    }
    if faults.lookup {
      return Fail(SignupLookupFailedMessage, 500);
    }
    var existing := FindByEmail(table.users, form.email);
    if existing.Some? {
      return Fail(DuplicateEmailMessage, 422);
    }
    if faults.hash {
      return Fail(HashFailedMessage, 500);
    }
    var digest := hash(form.password);
    if faults.create {
      return Fail(CreateFailedMessage, 500);
    }
    var created := Created(form, digest, newId);
    KeyedAppend(table.users, created);
    table.users := table.users + [created];
    r := Sent(201, created);
  }

  /** `login` for a table holding `users`: the stored record on success. */
  function Login(users: seq<User>, email: string, password: string, matches: (string, string) -> bool,
                 lookupFault: bool, compareFault: bool): (r: Handled<User>)
    ensures lookupFault ==> r == Fail(LoginLookupFailedMessage, 500)
    ensures !lookupFault && FindByEmail(users, email).None? ==> r == Fail(EmailNotFoundMessage, 401)
    ensures !lookupFault && FindByEmail(users, email).Some? ==>
      var u := FindByEmail(users, email).value;
      && (compareFault ==> r == Fail(CompareFailedMessage, 500))
      && (!compareFault && !matches(password, u.password) ==> r == Fail(PasswordMismatchMessage, 401))
      && (!compareFault && matches(password, u.password) ==> r == Sent(200, u))
  {
    if lookupFault then Fail(LoginLookupFailedMessage, 500)
    else
      var existing := FindByEmail(users, email);
      if existing.None? then Fail(EmailNotFoundMessage, 401)
      else if compareFault then Fail(CompareFailedMessage, 500)
      else if !matches(password, existing.value.password) then Fail(PasswordMismatchMessage, 401)
      else Sent(200, existing.value)
  }

  /** A successful login answers with a stored row for that email, digest
      and all, whose digest the comparison accepted. */
  lemma LoginAnswersStoredRecord(users: seq<User>, email: string, password: string,
                                 matches: (string, string) -> bool, lookupFault: bool, compareFault: bool)
    requires Login(users, email, password, matches, lookupFault, compareFault).Sent?
    ensures
      var r := Login(users, email, password, matches, lookupFault, compareFault);
      r.body in users && r.body.email == email && matches(password, r.body.password)
  {
  }

  /** In a keyed table a successful login answers with the one row holding that email. */
  lemma LoginAnswersTheRow(users: seq<User>, u: User, password: string, matches: (string, string) -> bool)
    requires Keyed(users) && u in users && matches(password, u.password)
    ensures Login(users, u.email, password, matches, false, false) == Sent(200, u)
  {
    FindByEmailKeyed(users, u);
  }
}
