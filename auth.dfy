/** The backend's authentication middleware: `authenticateJWT` attaches the
    verified token payload to the request when there is one, and
    `ensureLoggedIn` lets the request through only when a user is attached. */
module AuthMiddleware {
  import opened Wrappers
  import opened ExpressErrors

  /** A verified token's payload. Its consumers read only the user's `id`
      (`req.user.id` in the product routes, `{ id }` where the frontend
      decodes the token), so that is the one claim modelled. */
  datatype Payload = Payload(id: int)

  /** How a middleware hands control on: `next()` or `next(error)`. */
  datatype NextCall = Next | NextError(error: ExpressError)

  /** The parts of an Express request the middleware touches. */
  class Request {
    /** `req.body._token`; `None` when the body carries no token. */
    const bodyToken: Option<string>
    /** `req.user`; `None` while nothing is attached. */
    var user: Option<Payload>

    constructor (token: Option<string>, user: Option<Payload>)
      ensures bodyToken == token && this.user == user
    {
      bodyToken := token;
      this.user := user;
    }
  }

  /** Verification of the token in the request body: the signature check
      itself is the parameter `verify`, which answers `None` where the JWT
      library throws (malformed token, bad signature, expired). A missing
      token throws too. */
  function VerifyToken(token: Option<string>, verify: string -> Option<Payload>): (payload: Option<Payload>)
    ensures payload.Some? ==> token.Some? && payload == verify(token.value)
    ensures token.Some? ==> payload == verify(token.value)
    ensures token.None? ==> payload.None?
  {
    match token
    case None => None
    case Some(t) => verify(t)
  }

  /** `req.user` after `authenticateJWT`: the verified payload, or whatever was
      there before when verification threw. A user is never removed. */
  function UserAfterAuthenticate(prior: Option<Payload>, token: Option<string>, verify: string -> Option<Payload>): (user: Option<Payload>)
    ensures user == prior || user == VerifyToken(token, verify)
    ensures VerifyToken(token, verify).Some? ==> user == VerifyToken(token, verify)
    ensures prior.Some? ==> user.Some?
  {
    if VerifyToken(token, verify).Some? then VerifyToken(token, verify) else prior
  }

  /** `authenticateJWT(req, res, next)`. */
  method AuthenticateJWT(req: Request, verify: string -> Option<Payload>) returns (next: NextCall)
    modifies req`user
    ensures next == Next
    ensures req.user == UserAfterAuthenticate(old(req.user), req.bodyToken, verify)
    ensures VerifyToken(req.bodyToken, verify).Some? ==> req.user == VerifyToken(req.bodyToken, verify)
    ensures VerifyToken(req.bodyToken, verify).None? ==> req.user == old(req.user)
  {
    var payload := VerifyToken(req.bodyToken, verify);
    if payload.Some? {
      req.user := Some(payload.value);
    }
    next := Next;
  }

  /** `ensureLoggedIn(req, res, next)`, given `req.user`; a payload object is
      always truthy, so only an absent user is rejected. */
  function EnsureLoggedIn(user: Option<Payload>): (next: NextCall)
    ensures next.NextError? <==> user.None?
    ensures next.NextError? ==> next.error == Unauthorized
  {
    if user.None? then NextError(Unauthorized) else Next
  }

  /** A protected route as the middleware's documentation intends it:
      `authenticateJWT` installed with `app.use`, then `ensureLoggedIn` on
      the route. `ensureLoggedIn` only reads the request. */
  method AuthenticateThenEnsureLoggedIn(req: Request, verify: string -> Option<Payload>) returns (next: NextCall)
    modifies req`user
    ensures req.user == UserAfterAuthenticate(old(req.user), req.bodyToken, verify)
    ensures next == EnsureLoggedIn(req.user)
    ensures old(req.user).None? ==> (next.NextError? <==> VerifyToken(req.bodyToken, verify).None?)
  {
    var first := AuthenticateJWT(req, verify);
    assert first == Next;
    next := EnsureLoggedIn(req.user);
  }

  /** On a request with no user yet, the two steps reject with 401 exactly
      when verification of the body token failed, and otherwise attach
      exactly the verified payload. */
  lemma GateRejectsIffVerificationFails(token: Option<string>, verify: string -> Option<Payload>)
    ensures EnsureLoggedIn(UserAfterAuthenticate(None, token, verify)) == NextError(Unauthorized)
            <==> VerifyToken(token, verify).None?
    ensures VerifyToken(token, verify).Some? ==>
              EnsureLoggedIn(UserAfterAuthenticate(None, token, verify)) == Next
              && UserAfterAuthenticate(None, token, verify) == VerifyToken(token, verify)
  {
  }

  /** A body token that the verifier accepts with payload `p` logs the
      request in with exactly `p` attached. */
  lemma AcceptedTokenLogsIn(t: string, p: Payload, verify: string -> Option<Payload>)
    requires verify(t) == Some(p)
    ensures UserAfterAuthenticate(None, Some(t), verify) == Some(p)
    ensures EnsureLoggedIn(UserAfterAuthenticate(None, Some(t), verify)) == Next
  {
  }

  /** A token that fails verification leaves the request exactly as a
      request without a token. */
  lemma BadTokenSameAsNoToken(prior: Option<Payload>, token: string, verify: string -> Option<Payload>)
    requires verify(token).None?
    ensures UserAfterAuthenticate(prior, Some(token), verify) == UserAfterAuthenticate(prior, None, verify) == prior
  {
  }

  /** A user attached before `authenticateJWT` runs is never removed by it, so
      such a request always passes `ensureLoggedIn`. */
  lemma AttachedUserStaysLoggedIn(prior: Payload, token: Option<string>, verify: string -> Option<Payload>)
    ensures EnsureLoggedIn(UserAfterAuthenticate(Some(prior), token, verify)) == Next
  {
  }
}
