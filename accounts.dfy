/** The user table the session flows work on (the `user` model of the
    persistence layer), the lookups they make on it, the tokens they issue
    and the messages both controller versions answer with. */
module Accounts {
  import opened Maybe
  import opened Jwt

  /** A stored user; `password` holds the digest, never the raw password. */
  datatype User = User(id: string, username: string, email: string, password: string,
                       githubId: Option<string>, avatar: Option<string>)

  /** The first row whose `key` field equals `value`: a `findUnique` query. */
  function FindBy(users: seq<User>, key: User -> string, value: string): (r: Option<User>)
    ensures r.Some? ==> r.value in users && key(r.value) == value
    ensures r.None? <==> forall u :: u in users ==> key(u) != value
    decreases |users|
  {
    if |users| == 0 then None
    else if key(users[0]) == value then Some(users[0])
    else FindBy(users[1..], key, value)
  }

  /** `findUnique({ where: { email } })`. */
  function FindByEmail(users: seq<User>, email: string): Option<User>
  {
    FindBy(users, (u: User) => u.email, email)
  }

  /** `findUnique({ where: { id } })`. */
  function FindById(users: seq<User>, id: string): Option<User>
  {
    FindBy(users, (u: User) => u.id, id)
  }

  /** Email and id are unique keys of the table. */
  ghost predicate Keyed(users: seq<User>)
  {
    forall i, j :: 0 <= i < j < |users| ==> users[i].email != users[j].email && users[i].id != users[j].id
  }

  /** In a keyed table, looking a stored user up by email finds exactly that user. */
  lemma FindByEmailKeyed(users: seq<User>, u: User)
    requires Keyed(users) && u in users
    ensures FindByEmail(users, u.email) == Some(u)
  {
    var v := FindByEmail(users, u.email).value;
    var i :| 0 <= i < |users| && users[i] == u;
    var j :| 0 <= j < |users| && users[j] == v;
  }

  /** In a keyed table, looking a stored user up by id finds exactly that user. */
  lemma FindByIdKeyed(users: seq<User>, u: User)
    requires Keyed(users) && u in users
    ensures FindById(users, u.id) == Some(u)
  {
    var v := FindById(users, u.id).value;
    var i :| 0 <= i < |users| && users[i] == u;
    var j :| 0 <= j < |users| && users[j] == v;
  }

  /** Adding a user whose email and id are both unused keeps the table keyed. */
  lemma KeyedAppend(users: seq<User>, u: User)
    requires Keyed(users)
    requires FindByEmail(users, u.email).None? && FindById(users, u.id).None?
    ensures Keyed(users + [u])
  {
    var s := users + [u];
    forall i, j | 0 <= i < j < |s|
      ensures s[i].email != s[j].email && s[i].id != s[j].id
    {
      if j == |users| {
        assert s[i] in users;
      }
    }
  }

  /** The user table (the persistence layer's `user` rows, in insertion order). */
  class UserTable {
    var users: seq<User>

    ghost predicate Valid()
      reads this
    {
      Keyed(users)
    }

    constructor ()
      ensures Valid() && users == []
    {
      users := [];
    }
  }

  /** `generateAccessToken(user)`: the access token for a stored user. */
  function AccessTokenFor(u: User): Token
  {
    Token(Access, u.id, u.email)
  }

  /** `generateRefreshToken(user)`: the refresh token for a stored user. */
  function RefreshTokenFor(u: User): Token
  {
    Token(Refresh, u.id, u.email)
  }

  // Messages shared by both versions of the user controllers.
  const LoadFailedMessage: string := "유저를 불러오는데 실패했습니다."
  const InvalidInputMessage: string := "유효하지 않은 입력입니다."
  const SignupLookupFailedMessage: string := "회원가입 중 오류가 발생했습니다. 잠시 후 다시 시도해주세요."
  const DuplicateEmailMessage: string := "이미 존재하는 이메일입니다. 다른 이메일을 사용해주세요."
  const HashFailedMessage: string := "사용자를 생성할 수 없습니다. 다시 시도해주세요."
  const CreateFailedMessage: string := "회원가입 중 오류가 발생했습니다. 다시 시도해주세요."
  const LoginLookupFailedMessage: string := "로그인 중 오류가 발생했습니다. 다시 시도해주세요."
  const EmailNotFoundMessage: string := "이메일을 찾을 수 없습니다. 다시 확인해주세요."
  const CompareFailedMessage: string := "로그인에 실패했습니다. 다시 시도해주세요."
  const PasswordMismatchMessage: string := "비밀번호가 일치하지 않습니다. 다시 확인해주세요."
  const NoRefreshTokenMessage: string := "리프레시 토큰이 제공되지 않았습니다."
  const BadRefreshTokenMessage: string := "유효하지 않은 리프레시 토큰입니다."
  const UserNotFoundMessage: string := "유저를 찾을 수 없습니다."

  /** The fields of a signup request body. */
  datatype SignupForm = SignupForm(username: string, email: string, password: string,
                                   githubId: Option<string>, avatar: Option<string>)

  /** Which store or hashing call throws during one signup. */
  datatype SignupFaults = SignupFaults(lookup: bool, hash: bool, create: bool)

  /** The row `prisma.user.create` stores: the form's fields, the digest in
      place of the password, and the id the store assigns. */
  function Created(form: SignupForm, digest: string, newId: string): User
  {
    User(newId, form.username, form.email, digest, form.githubId, form.avatar)
  }
}
