/**
 * backend/src/middlewares/auth.middleware.js: the `protectRoute` guard chain and
 * the token lifetime constants of the login handler in the same file.
 * `jwt.verify` and `User.findById(...).select("-password")` are oracles; an
 * exception is represented by the error's `name`.
 */
module AuthMiddleware {
  import opened Wrappers
  import opened JsText
  import opened Users
  import opened Http

  /** What `jwt.verify(token, secret)` does: return the payload's `userId`, or throw. */
  datatype VerifyResult = Decoded(userId: Option<string>) | VerifyThrew(name: string)

  /** What the user lookup does: find the user, find nothing, or throw. */
  datatype FindResult = FoundUser(user: PublicUser) | NoSuchUser | FindThrew(name: string)

  /** The middleware's verdict: attach the user and call `next`, or answer the request itself. */
  datatype Gate = Next(user: PublicUser) | Reject(res: Response)

  const NoToken: string := "Unauthorized - No Token Provided"
  const InvalidPayload: string := "Unauthorized - Invalid token payload"
  const NoSuchUserText: string := "Unauthorized - User not found"
  const InvalidToken: string := "Unauthorized - Invalid token"
  const InternalError: string := "Internal server error"

  /** The catch block as written: only an error named `JsonWebTokenError` is a 401. */
  function CatchAsWritten(name: string): (res: Response)
    ensures res.status == 401 <==> name == "JsonWebTokenError"
    ensures res.status != 401 ==> res == Reply(500, MessageBody(InternalError))
  {
    if name == "JsonWebTokenError" then Reply(401, MessageBody(InvalidToken))
    else Reply(500, MessageBody(InternalError))
  }

  /**
   * The names `jwt.verify` gives the errors it throws for a bad token: a bad
   * signature or malformed token, an expired token, and a token not yet valid.
   */
  predicate IsTokenError(name: string)
  {
    name == "JsonWebTokenError" || name == "TokenExpiredError" || name == "NotBeforeError"
  }

  /** The catch block as intended: every token error of `jwt.verify` is a 401. */
  function CatchIntended(name: string): (res: Response)
    ensures res.status == 401 <==> IsTokenError(name)
    ensures res.status != 401 ==> res == Reply(500, MessageBody(InternalError))
    ensures IsTokenError(name) ==> res == Reply(401, MessageBody(InvalidToken))
  {
    if IsTokenError(name) then Reply(401, MessageBody(InvalidToken))
    else Reply(500, MessageBody(InternalError))
  }

  /** The catch block as written (`intended` false) or as intended (`intended` true). */
  function Catch(name: string, intended: bool): Response
  {
    if intended then CatchIntended(name) else CatchAsWritten(name)
  }

  /**
   * protectRoute's decision, parameterised by its catch block: no cookie, then
   * verification, then the payload check, then the lookup.
   */
  function DecideWith(token: Option<string>, verify: string -> VerifyResult, find: string -> FindResult,
                      intended: bool): Gate
  {
    if !Truthy(token) then Reject(Reply(401, MessageBody(NoToken)))
    else
      match verify(token.value)
      case VerifyThrew(name) => Reject(Catch(name, intended))
      case Decoded(userId) =>
        if !Truthy(userId) then Reject(Reply(401, ErrorBody(InvalidPayload)))
        else
          match find(userId.value)
          case FindThrew(name) => Reject(Catch(name, intended))
          case NoSuchUser => Reject(Reply(401, ErrorBody(NoSuchUserText)))
          case FoundUser(u) => Next(u)
  }

  /** protectRoute exactly as written. */
  function Decide(token: Option<string>, verify: string -> VerifyResult, find: string -> FindResult): Gate
  {
    DecideWith(token, verify, find, false)
  }

  /** protectRoute with every token error answered 401. */
  function DecideIntended(token: Option<string>, verify: string -> VerifyResult, find: string -> FindResult): Gate
  {
    DecideWith(token, verify, find, true)
  }

  /**
   * Without a `jwt` cookie the answer is 401 "No Token Provided" and it does not
   * depend on the verifier or the lookup, which are therefore never consulted.
   */
  lemma NoTokenIsDecidedFirst(token: Option<string>, verify1: string -> VerifyResult, verify2: string -> VerifyResult,
                              find1: string -> FindResult, find2: string -> FindResult, intended: bool)
    requires !Truthy(token)
    ensures DecideWith(token, verify1, find1, intended) == DecideWith(token, verify2, find2, intended)
                                                         == Reject(Reply(401, MessageBody(NoToken)))
  {
  }

  /**
   * The request goes on (and `req.user` is set) exactly when a token is present,
   * verifies to a truthy `userId`, and that id names a user; the user attached is
   * the one found.
   */
  lemma NextOnlyOnSuccess(token: Option<string>, verify: string -> VerifyResult, find: string -> FindResult, intended: bool)
    ensures var g := DecideWith(token, verify, find, intended);
            && (g.Next? <==> (Truthy(token) && verify(token.value).Decoded? && Truthy(verify(token.value).userId)
                              && find(verify(token.value).userId.value).FoundUser?))
            && (g.Next? ==> g.user == find(verify(token.value).userId.value).user)
  {
  }

  /**
   * The rejections: a falsy payload `userId` and an unknown user are 401 with an
   * `error` body, and every rejection is a 401 or a 500 without cookie writes.
   */
  lemma RejectionsAreUnauthorizedOrServerError(token: Option<string>, verify: string -> VerifyResult,
                                                find: string -> FindResult, intended: bool)
    ensures var g := DecideWith(token, verify, find, intended);
            && (g.Reject? ==> (g.res.status == 401 || g.res.status == 500) && g.res.cookies == [])
            && (Truthy(token) && verify(token.value) == Decoded(None) ==> g == Reject(Reply(401, ErrorBody(InvalidPayload))))
            && ((Truthy(token) && verify(token.value).Decoded? && Truthy(verify(token.value).userId)
                 && find(verify(token.value).userId.value).NoSuchUser?) ==> g == Reject(Reply(401, ErrorBody(NoSuchUserText))))
  {
  }

  /**
   * As written, a verifier error is a 401 only when it is named
   * `JsonWebTokenError`; any other thrown error is a 500.
   */
  lemma ThrownErrorsAsWritten(token: string, verify: string -> VerifyResult, find: string -> FindResult, name: string)
    requires token != "" && verify(token) == VerifyThrew(name)
    ensures Decide(Some(token), verify, find).res.status == 401 <==> name == "JsonWebTokenError"
    ensures name != "JsonWebTokenError" ==> Decide(Some(token), verify, find) == Reject(Reply(500, MessageBody(InternalError)))
  {
  }

  /** An expired token: the written middleware answers 500 "Internal server error". */
  lemma ExpiredTokenIsServerErrorAsWritten(token: string, verify: string -> VerifyResult, find: string -> FindResult)
    requires token != "" && verify(token) == VerifyThrew("TokenExpiredError")
    ensures Decide(Some(token), verify, find) == Reject(Reply(500, MessageBody(InternalError)))
  {
  }

  /**
   * The intended middleware answers 401 "Invalid token" to every token error of
   * the verifier; where the two differ, the written one answers 500 instead.
   */
  lemma IntendedDiffersOnlyOnTokenErrors(token: Option<string>, verify: string -> VerifyResult, find: string -> FindResult)
    ensures (Truthy(token) && verify(token.value).VerifyThrew? && IsTokenError(verify(token.value).name))
            ==> DecideIntended(token, verify, find) == Reject(Reply(401, MessageBody(InvalidToken)))
    ensures Decide(token, verify, find) != DecideIntended(token, verify, find) ==>
            && Decide(token, verify, find) == Reject(Reply(500, MessageBody(InternalError)))
            && DecideIntended(token, verify, find) == Reject(Reply(401, MessageBody(InvalidToken)))
  {
  }

  /** One request passing through the middleware: what it sets on `req` and `res`, and how often it calls `next`. */
  class Exchange {
    var user: Option<PublicUser>
    var response: Option<Response>
    var nextCalls: nat

    constructor()
      ensures user.None? && response.None? && nextCalls == 0
    {
      user := None;
      response := None;
      nextCalls := 0;
    }

    /**
     * protectRoute on a fresh request: either `req.user` is set and `next` is
     * called once, or a response is sent and `next` is not called. With
     * `intended` false the catch block is the one written, so the exchange
     * follows `Decide`; with `intended` true it follows `DecideIntended`.
     */
    method ProtectRoute(token: Option<string>, verify: string -> VerifyResult, find: string -> FindResult, intended: bool)
      requires user.None? && response.None? && nextCalls == 0
      modifies this
      ensures var g := DecideWith(token, verify, find, intended);
              && (g.Next? ==> user == Some(g.user) && response.None? && nextCalls == 1)
              && (g.Reject? ==> user.None? && response == Some(g.res) && nextCalls == 0)
    {
      if !Truthy(token) {
        response := Some(Reply(401, MessageBody(NoToken)));
        return;
      }
      var decoded := verify(token.value);
      if decoded.VerifyThrew? {
        response := Some(Catch(decoded.name, intended));
        return;
      }
      if !Truthy(decoded.userId) {
        response := Some(Reply(401, ErrorBody(InvalidPayload)));
        return;
      }
      var found := find(decoded.userId.value);
      if found.FindThrew? {
        response := Some(Catch(found.name, intended));
        return;
      }
      if found.NoSuchUser? {
        response := Some(Reply(401, ErrorBody(NoSuchUserText)));
        return;
      }
      user := Some(found.user);
      nextCalls := nextCalls + 1;
    }
  }

  /** The `jwt` cookie's `maxAge` in the login handler: 15 days in milliseconds. */
  const CookieMaxAgeMs: int := 15 * 24 * 60 * 60 * 1000

  /** The token's `expiresIn: "15d"`, in seconds as `jsonwebtoken` reads the string. */
  const TokenLifetimeSeconds: int := 15 * 86400

  /** The cookie and the token it carries expire together. */
  lemma CookieAndTokenLifetimesAgree()
    ensures CookieMaxAgeMs == 1296000000
    ensures CookieMaxAgeMs == TokenLifetimeSeconds * 1000
  {
  }
}
