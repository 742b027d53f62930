/**
  `GET /api/spotify/token`: a client-credentials token cached in a module-level variable
  and reused while it has more than five seconds to live. The route reads the clock twice
  (before deciding, and again after the upstream answered); both readings are parameters.
*/
module SpotifyToken {
  import opened Wrappers
  import opened Text

  const SafetyMarginMs: int := 5000
  const MissingEnvMessage: string := "Missing Spotify env"

  datatype CachedToken = CachedToken(token: string, exp: int)

  /** What the token endpoint of the accounts service gave. */
  datatype Upstream =
    | Granted(status: int, accessToken: string, expiresIn: int)   // status and parsed body
    | Unreachable(message: string)                               // the request threw

  /** The route's reply: `{ access_token, expires_in }`, `{ error }` with 500, or an unhandled throw. */
  datatype Reply =
    | Token(accessToken: string, expiresIn: int)
    | Failure(message: string)
    | Crashed(message: string)

  /** A cached token that may be handed out at time `now`. */
  predicate Reusable(cached: Option<CachedToken>, now: int) {
    cached.Some? && cached.value.exp - SafetyMarginMs > now
  }

  /**
    One request: the reply and the cached token afterwards. `now` is the reading before
    the decision and `later` the reading taken once the upstream has answered.
  */
  function Step(cached: Option<CachedToken>, clientId: Option<string>, clientSecret: Option<string>,
                now: int, upstream: Upstream, later: int): (out: (Reply, Option<CachedToken>))
    ensures !Truthy(clientId) || !Truthy(clientSecret) ==> out == (Failure(MissingEnvMessage), cached)
    ensures Truthy(clientId) && Truthy(clientSecret) && Reusable(cached, now) ==>
      out.1 == cached
      && out.0 == Token(cached.value.token, (cached.value.exp - now) / 1000)
      && out.0.expiresIn >= 5
    ensures (Truthy(clientId) && Truthy(clientSecret) && !Reusable(cached, now) && upstream.Granted?
             && !(200 <= upstream.status <= 299)) ==>
      out == (Failure("Spotify token failed: " + IntToString(upstream.status)), cached)
    ensures (Truthy(clientId) && Truthy(clientSecret) && !Reusable(cached, now) && upstream.Granted?
             && 200 <= upstream.status <= 299) ==>
      out == (Token(upstream.accessToken, upstream.expiresIn),
              Some(CachedToken(upstream.accessToken, later + upstream.expiresIn * 1000)))
    ensures (Truthy(clientId) && Truthy(clientSecret) && !Reusable(cached, now) && upstream.Unreachable?) ==>
      out == (Crashed(upstream.message), cached)
    ensures out.1 != cached ==> upstream.Granted? && 200 <= upstream.status <= 299
  {
    if !Truthy(clientId) || !Truthy(clientSecret) then (Failure(MissingEnvMessage), cached)
    else if Reusable(cached, now) then
      (Token(cached.value.token, (cached.value.exp - now) / 1000), cached)
    else match upstream
      case Unreachable(m) => (Crashed(m), cached)
      case Granted(status, token, expiresIn) =>
        if !(200 <= status <= 299) then (Failure("Spotify token failed: " + IntToString(status)), cached)
        else (Token(token, expiresIn), Some(CachedToken(token, later + expiresIn * 1000)))
  }

  /**
    A freshly fetched token is handed out again, without asking the upstream, by every
    request made while it still has more than five seconds to live.
  */
  lemma RefreshedTokenIsReused(cached: Option<CachedToken>, id: string, secret: string, now: int,
                               token: string, expiresIn: int, later: int,
                               t: int, upstream2: Upstream, later2: int)
    requires id != [] && secret != []
    requires !Reusable(cached, now)
    requires t < later + expiresIn * 1000 - SafetyMarginMs
    ensures
      var first := Step(cached, Some(id), Some(secret), now, Granted(200, token, expiresIn), later);
      first.0 == Token(token, expiresIn)
      && Step(first.1, Some(id), Some(secret), t, upstream2, later2)
         == (Token(token, (later + expiresIn * 1000 - t) / 1000), first.1)
  {
  }

  /** The route's module-level state. */
  class TokenRoute {
    var cached: Option<CachedToken>

    constructor ()
      ensures cached.None?
    {
      cached := None;
    }

    /** `GET()` */
    method Get(clientId: Option<string>, clientSecret: Option<string>, now: int, upstream: Upstream, later: int)
      returns (reply: Reply)
      modifies this
      ensures (reply, cached) == Step(old(cached), clientId, clientSecret, now, upstream, later)
    {
      if !Truthy(clientId) || !Truthy(clientSecret) {
        return Failure(MissingEnvMessage);
      }
      if cached.Some? && cached.value.exp - SafetyMarginMs > now {
        return Token(cached.value.token, (cached.value.exp - now) / 1000);
      }
      match upstream {
        case Unreachable(m) =>
          return Crashed(m);
        case Granted(status, token, expiresIn) =>
          if !(200 <= status <= 299) {
            return Failure("Spotify token failed: " + IntToString(status));
          }
          cached := Some(CachedToken(token, later + expiresIn * 1000));
          return Token(token, expiresIn);
      }
    }
  }
}
