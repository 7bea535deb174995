/**
 * The session token service (`AuthService`): issuing a token for an email,
 * verifying it, and the `token_required` guard in front of protected handlers.
 *
 * The signed JWT is abstracted to the claim it carries. `Signed(email, exp)`
 * stands for a token carrying a valid signature under the server's secret
 * key; `Unsigned(text)` is any other string a client may send in the `token`
 * query parameter (garbage, a wrong signature, or the empty string). The
 * model trusts any `Signed` value a request carries: nothing here records
 * which tokens login actually issued.
 * Time is in whole seconds since the epoch, as the `exp` claim is.
 */
module Tokens {
  import opened Wrappers

  const SecondsPerDay: int := 86400
  /** `generate_token`'s default validity: one day. */
  const DefaultExpDays: int := 1

  const MsgTokenMissing: string := "Token is missing"
  const MsgTokenInvalid: string := "Token is invalid or expired"

  datatype Token = Signed(email: string, exp: int) | Unsigned(text: string)

  /**
   * `verify_token`: the email claim of a server-signed token that has not
   * expired, `None` otherwise. The JWT library rejects a token as expired
   * once the current time has reached `exp`.
   */
  function VerifyToken(token: Token, now: int): (r: Option<string>)
    ensures r.Some? <==> token.Signed? && now < token.exp
    ensures r.Some? ==> r.value == token.email
  {
    match token
    case Signed(email, exp) => if now < exp then Some(email) else None
    case Unsigned(_) => None
  }

  /**
   * `generate_token`: a token that verifies to `email` at every time before
   * `now + expDays` days and to nothing from then on.
   */
  function GenerateToken(email: string, now: int, expDays: int := DefaultExpDays): (token: Token)
    ensures forall at :: VerifyToken(token, at) == if at < now + expDays * SecondsPerDay then Some(email) else None
  {
    Signed(email, now + expDays * SecondsPerDay)
  }

  /** Python's truthiness of `request.args.get('token')`: absent or the empty string is falsy. */
  predicate Absent(token: Option<Token>) {
    token.None? || token.value == Unsigned("")
  }

  /** What the guard hands on: the caller's email (`g.user`), or the rejection message sent with 401. */
  datatype Guarded = Authenticated(user: string) | Unauthorized(message: string)

  /** `token_required`: the decision taken before a protected handler runs. */
  function TokenRequired(token: Option<Token>, now: int): (r: Guarded)
    ensures r == Unauthorized(MsgTokenMissing) <==> Absent(token)
    ensures r == Unauthorized(MsgTokenInvalid) <==>
      !Absent(token) && (VerifyToken(token.value, now).None? || VerifyToken(token.value, now) == Some(""))
    ensures r.Authenticated? <==>
      !Absent(token) && VerifyToken(token.value, now).Some? && VerifyToken(token.value, now).value != ""
    ensures r.Authenticated? ==> Some(r.user) == VerifyToken(token.value, now)
  {
    if Absent(token) then Unauthorized(MsgTokenMissing)
    else
      var user := VerifyToken(token.value, now);
      if user.None? || user.value == "" then Unauthorized(MsgTokenInvalid)
      else Authenticated(user.value)
  }

  /**
   * A token issued at `issued` passes the guard, with `g.user` set to its
   * email, exactly while the verification time is before the end of the
   * validity window and the email is not empty; otherwise it is rejected as
   * invalid or expired.
   */
  lemma GuardOnIssuedToken(email: string, issued: int, at: int, expDays: int)
    ensures TokenRequired(Some(GenerateToken(email, issued, expDays)), at) ==
      if at < issued + expDays * SecondsPerDay && email != "" then Authenticated(email)
      else Unauthorized(MsgTokenInvalid)
  {
  }
}
