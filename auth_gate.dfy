/** The authorization-header gate (`authMiddleware`): it takes the token out
    of the `Authorization` header, has it verified, checks the claims and
    either lets the request proceed with the caller's id or passes on an
    `HttpError`. Express calls the middleware's `next` exactly once on every
    path; here that single call is the single result of `Gate`. */
module AuthGate {
  import opened Maybe
  import opened Http
  import opened Jwt

  const NoHeaderMessage: string := "인증 헤더가 없습니다."
  const ExpiredMessage: string := "엑세스 토큰이 만료되었습니다."
  const NoUserMessage: string := "유저 정보가 없습니다."
  const AuthErrorMessage: string := "인증 에러가 발생했습니다."

  /** JavaScript's `s.split(" ")`: the fields between single spaces, so two
      consecutive spaces give an empty field. */
  function Split(s: string): (fields: seq<string>)
    ensures |fields| >= 1
    ensures forall k :: 0 <= k < |fields| ==> ' ' !in fields[k]
    decreases |s|
  {
    if |s| == 0 then [""]
    else
      var rest := Split(s[1..]);
      if s[0] == ' ' then [""] + rest
      else [[s[0]] + rest[0]] + rest[1..]
  }

  /** `fields.join(" ")`, the inverse of `Split`. */
  function Join(fields: seq<string>): string
    requires |fields| >= 1
    decreases |fields|
  {
    if |fields| == 1 then fields[0] else fields[0] + " " + Join(fields[1..])
  }

  /** Joining the fields of a header gives the header back. */
  lemma {:induction false} JoinSplit(s: string)
    ensures Join(Split(s)) == s
    decreases |s|
  {
    if |s| > 0 {
      var rest := Split(s[1..]);
      JoinSplit(s[1..]);
      if s[0] == ' ' {
        assert Split(s) == [""] + rest;
        assert Join([""] + rest) == "" + " " + Join(rest);
        assert s == [s[0]] + s[1..];
      } else {
        var fields := [[s[0]] + rest[0]] + rest[1..];
        if |rest| == 1 {
          assert Join(fields) == [s[0]] + rest[0];
        } else {
          assert fields[1..] == rest[1..];
          assert Join(fields) == [s[0]] + rest[0] + " " + Join(rest[1..]);
          assert Join(rest) == rest[0] + " " + Join(rest[1..]);
        }
        assert s == [s[0]] + s[1..];
      }
    }
  }

  /** A word with no space in it followed by a space splits into that word and the split of the rest. */
  lemma {:induction false} SplitAfterWord(w: string, rest: string)
    requires ' ' !in w
    ensures Split(w + " " + rest) == [w] + Split(rest)
    decreases |w|
  {
    if |w| == 0 {
      assert w + " " + rest == [' '] + rest;
      assert (w + " " + rest)[1..] == rest;
    } else {
      SplitAfterWord(w[1..], rest);
      assert (w + " " + rest)[1..] == w[1..] + " " + rest;
      assert [w[0]] + w[1..] == w;
    }
  }

  /** A word with no space in it is a single field. */
  lemma {:induction false} SplitWord(w: string)
    requires ' ' !in w
    ensures Split(w) == [w]
    decreases |w|
  {
    if |w| > 0 {
      SplitWord(w[1..]);
      assert [w[0]] + w[1..] == w;
    }
  }

  /** Splitting joined space-free fields gives the fields back. */
  lemma {:induction false} SplitJoin(fields: seq<string>)
    requires |fields| >= 1
    requires forall k :: 0 <= k < |fields| ==> ' ' !in fields[k]
    ensures Split(Join(fields)) == fields
    decreases |fields|
  {
    if |fields| == 1 {
      SplitWord(fields[0]);
    } else {
      SplitJoin(fields[1..]);
      SplitAfterWord(fields[0], Join(fields[1..]));
      assert [fields[0]] + fields[1..] == fields;
    }
  }

  /** The value of `token` in the middleware: `authHeader && authHeader.split(" ")[1]`.
      `None` stands for `undefined`. An absent or empty header is falsy and is
      the value itself. */
  function HeaderToken(header: Option<string>): Option<string>
  {
    match header
    case None => None
    case Some(h) =>
      if h == "" then Some(h)
      else
        var fields := Split(h);
        if |fields| < 2 then None else Some(fields[1])
  }

  /** Whether the middleware gets past its header check (`!token || !token?.length`). */
  predicate HasToken(header: Option<string>)
  {
    var t := HeaderToken(header);
    t.Some? && t.value != ""
  }

  /** What the `try` block throws. */
  datatype Thrown = ThrownExpired | ThrownHttp(error: HttpError) | ThrownOther

  /** The `try` block: either it reaches `next()` with the caller's id, or it throws. */
  datatype Attempt = Reached(userId: ClaimValue) | Threw(thrown: Thrown)

  function Try(header: Option<string>, verify: string -> Verdict): Attempt
  {
    var token := HeaderToken(header);
    if token.None? || token.value == "" then Threw(ThrownHttp(HttpError(NoHeaderMessage, 404)))
    else
      match verify(token.value)
      case Expired => Threw(ThrownExpired)
      case Rejected => Threw(ThrownOther)
      case Verified(p) =>
        if !Truthy(EmailClaim(p)) || !Truthy(IdClaim(p)) then Threw(ThrownHttp(HttpError(NoUserMessage, 404)))
        else Reached(IdClaim(p))
  }

  /** The `catch` block. An `HttpError` keeps its message and code: the `??`
      defaults apply only to `null` or `undefined`, which an `HttpError`
      raised in the `try` block never has. */
  function Catch(thrown: Thrown): HttpError
  {
    match thrown
    case ThrownExpired => HttpError(ExpiredMessage, 401)
    case ThrownHttp(e) => HttpError(e.message, e.code)
    case ThrownOther => HttpError(AuthErrorMessage, 500)
  }

  /** The single call to `next`: with no argument (and `req.userData.userId`
      set), or with an error. */
  datatype GateResult = Proceed(userId: ClaimValue) | Deny(error: HttpError)

  /** The middleware's decision for a request with this `Authorization`
      header, when `verify` is what the access-token verifier does. */
  function Gate(header: Option<string>, verify: string -> Verdict): (r: GateResult)
    ensures !HasToken(header) ==> r == Deny(HttpError(NoHeaderMessage, 404))
    ensures HasToken(header) ==>
      var v := verify(HeaderToken(header).value);
      && (v.Expired? ==> r == Deny(HttpError(ExpiredMessage, 401)))
      && (v.Rejected? ==> r == Deny(HttpError(AuthErrorMessage, 500)))
      && (v.Verified? && !(Truthy(EmailClaim(v.payload)) && Truthy(IdClaim(v.payload))) ==>
            r == Deny(HttpError(NoUserMessage, 404)))
    ensures r.Proceed? <==>
      && HasToken(header)
      && var v := verify(HeaderToken(header).value);
      && v.Verified? && Truthy(EmailClaim(v.payload)) && Truthy(IdClaim(v.payload))
    ensures r.Proceed? ==> r.userId == IdClaim(verify(HeaderToken(header).value).payload) && Truthy(r.userId)
  {
    match Try(header, verify)
    case Reached(id) => Proceed(id)
    case Threw(t) => Deny(Catch(t))
  }

  /** The token is the second space-separated field: the first word is never
      compared with `Bearer`, and whatever follows a further space is ignored. */
  lemma TokenIsSecondField(scheme: string, token: string, tail: string)
    requires ' ' !in scheme && ' ' !in token
    ensures HeaderToken(Some(scheme + " " + token)) == Some(token)
    ensures HeaderToken(Some(scheme + " " + token + " " + tail)) == Some(token)
  {
    SplitWord(token);
    SplitAfterWord(scheme, token);
    SplitAfterWord(token, tail);
    SplitAfterWord(scheme, token + " " + tail);
    assert scheme + " " + token + " " + tail == scheme + " " + (token + " " + tail);
  }

  /** A non-empty header without a space has no second field, so the gate denies it. */
  lemma NoSpaceDenied(h: string, verify: string -> Verdict)
    requires h != "" && ' ' !in h
    ensures Gate(Some(h), verify) == Deny(HttpError(NoHeaderMessage, 404))
  {
    SplitWord(h);
  }

  /** Two consecutive spaces after the first word make the second field empty,
      so the gate denies the request. */
  lemma DoubleSpaceDenied(scheme: string, tail: string, verify: string -> Verdict)
    requires ' ' !in scheme
    ensures Gate(Some(scheme + "  " + tail), verify) == Deny(HttpError(NoHeaderMessage, 404))
  {
    var h := scheme + "  " + tail;
    assert h == scheme + " " + (" " + tail);
    assert "" + " " + tail == " " + tail;
    SplitAfterWord(scheme, " " + tail);
    SplitAfterWord("", tail);
    assert Split(h) == [scheme, ""] + Split(tail);
    assert Split(h)[1] == "";
  }

  /** Without a usable token the verifier is never consulted: the decision
      is the same whatever the verifier would have said. */
  lemma NoTokenNoVerification(header: Option<string>, verify1: string -> Verdict, verify2: string -> Verdict)
    requires !HasToken(header)
    ensures Gate(header, verify1) == Gate(header, verify2)
  {
  }

  /** A token issued by the TypeScript helpers lets its holder through as the
      user it names. */
  lemma IssuedTokenProceeds(header: Option<string>, verify: string -> Verdict, t: Token)
    requires HasToken(header) && verify(HeaderToken(header).value) == Verified(Claims(t))
    requires t.id != "" && t.email != ""
    ensures Gate(header, verify) == Proceed(Text(t.id))
  {
  }

  /** A token carrying the older `{userId, email}` payload has no `id` claim,
      so the gate turns it away with "no user data". */
  lemma LegacyTokenDenied(header: Option<string>, verify: string -> Verdict, t: Token)
    requires HasToken(header) && verify(HeaderToken(header).value) == Verified(LegacyClaims(t))
    ensures Gate(header, verify) == Deny(HttpError(NoUserMessage, 404))
  {
  }
}
