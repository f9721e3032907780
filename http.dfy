/** What the route handlers and pages exchange with the outside: the result of a `fetch`
    (given to the model as an input), request headers, `Set-Cookie` entries, responses, the
    response cookie jar that handlers fill with `cookies.set`, and what a browser keeps from a
    response's cookies. */
module Http {
  import opened Common

  /** How a `fetch` (followed by `res.json()`) turned out: a parsed body with an OK status, a
      parsed body with an error status, or a throw (network failure, timeout, a body that is
      not JSON) carrying the thrown error's message. */
  datatype Outcome<B> = Ok(body: B) | NotOk(body: B) | Threw(message: string)

  /** The headers `getOrigin` reads; an absent header is `None`. */
  datatype Headers = Headers(forwardedHost: Option<string>, host: Option<string>, forwardedProto: Option<string>)

  datatype SameSite = Lax | Unspecified

  /** `maxAge: n`, or `expires: new Date(0)`. */
  datatype Lifetime = MaxAge(seconds: int) | ExpiredAtEpoch

  datatype SetCookie = SetCookie(value: string, lifetime: Lifetime, httpOnly: bool, secure: bool,
                                 sameSite: SameSite, path: string)

  /** A `Set-Cookie` entry that tells the browser to drop the cookie. */
  predicate Expires(c: SetCookie) {
    c.lifetime.ExpiredAtEpoch? || c.lifetime.seconds <= 0
  }

  /** A raw redirect (status and `Location`) with the cookies it sets, a JSON error, or
      `NextResponse.next()` (let the request through). */
  datatype Response =
    | Redirect(status: int, location: string, cookies: map<string, SetCookie>)
    | JsonError(status: int, error: string)
    | Next

  /** The cookies a browser sends on its next request, after it received `sent` while it
      held `jar`: a live entry stores its value, an expiring one removes the cookie. */
  function StoreCookies(jar: map<string, string>, sent: map<string, SetCookie>): (r: map<string, string>)
    ensures forall n :: n in sent && !Expires(sent[n]) ==> n in r && r[n] == sent[n].value
    ensures forall n :: n in sent && Expires(sent[n]) ==> n !in r
    ensures forall n :: n !in sent ==> (n in r <==> n in jar)
    ensures forall n :: n !in sent && n in jar ==> r[n] == jar[n]
  {
    map n | n in jar.Keys + sent.Keys && !(n in sent && Expires(sent[n])) ::
      if n in sent then sent[n].value else jar[n]
  }

  /** The cookie store of a `NextResponse` (`response.cookies`): setting a name replaces
      any earlier entry under that name. */
  class ResponseCookies {
    var entries: map<string, SetCookie>

    constructor ()
      ensures entries == map[]
    {
      entries := map[];
    }

    method Set(name: string, cookie: SetCookie)
      modifies this
      ensures entries == old(entries)[name := cookie]
    {
      entries := entries[name := cookie];
    }
  }
}

/** The subscription tiers. The source repeats these literal lists in each file that checks a
    tier; they are written once here. */
module Tiers {

  /** The tiers a checkout can be started for. */
  const PaidTiers: seq<string> := ["bench", "rookie", "mvp"]

  /** Every tier a subscription can have. */
  const AllTiers: seq<string> := ["free", "bench", "rookie", "mvp"]

  predicate IsPaidTier(t: string) { t in PaidTiers }

  predicate IsTier(t: string) { t in AllTiers }

  lemma PaidTierIsTier(t: string)
    requires IsPaidTier(t)
    ensures IsTier(t) && t != "free"
  {
  }
}

/** The public origins the application redirects to; a `Host` or `X-Forwarded-Host` header
    yields an origin only when it is one of these. */
module Origins {

  const ProductionOrigin: string := "https://owlsinsight.com"

  const AllowedOrigins: set<string> :=
    {"https://owlsinsight.com", "https://www.owlsinsight.com", "http://localhost:3000"}

  /** No allowed origin carries a query, so a path appended to one starts the URL's path. */
  lemma AllowedOriginsHaveNoQuery(o: string)
    requires o in AllowedOrigins
    ensures '?' !in o
  {
  }
}
