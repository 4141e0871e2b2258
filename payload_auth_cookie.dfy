/**
 * `setPayloadAuthCookie`: derives the cookie options from a collection's auth
 * configuration and writes the host-generated auth cookie into the
 * request's cookie store when it has a value.
 */
module PayloadAuthCookie {
  import opened Wrappers
  import opened Payload
  import Login

  // ---------------------------------------------------------------------------
  // Option derivation
  // ---------------------------------------------------------------------------

  /**
   * The expiry handed to `generatePayloadCookie`: `tokenExpiration` added to the
   * clock as it is, with no seconds-to-milliseconds scaling; none when the
   * lifetime is 0 (falsy).
   */
  function CookieExpiration(tokenExpiration: int, now: int): (e: Option<int>)
    ensures e.None? <==> tokenExpiration == 0
    ensures e.Some? ==> e.value - now == tokenExpiration
  {
    if tokenExpiration != 0 then Some(now + tokenExpiration) else None
  }

  /**
   * The two cookie paths read the same `tokenExpiration` in different units:
   * the session cookie of `loginHandler` lies 1000 times as far past the clock
   * as the expiry handed to `generatePayloadCookie` here.
   */
  lemma ExpiryUnitsDiffer(auth: AuthConfig, now: int)
    requires auth.tokenExpiration != 0
    ensures Login.LoginCookieOptions(auth, now).expires - now ==
            1000 * (CookieExpiration(auth.tokenExpiration, now).value - now)
  {
  }

  predicate IsUpper(c: char)
  {
    'A' <= c <= 'Z'
  }

  /** ASCII case folding of one character. */
  function LowerChar(c: char): char
  {
    if IsUpper(c) then (c as int + 32) as char else c
  }

  predicate NoUpperCase(s: string)
  {
    forall i :: 0 <= i < |s| ==> !IsUpper(s[i])
  }

  /** `s.toLowerCase()`, on the ASCII letters. */
  function ToLowerCase(s: string): (r: string)
    ensures |r| == |s| && NoUpperCase(r)
    ensures forall i :: 0 <= i < |s| && !IsUpper(s[i]) ==> r[i] == s[i]
    ensures forall i :: 0 <= i < |s| && IsUpper(s[i]) ==> r[i] as int == s[i] as int + 32
  {
    seq(|s|, i requires 0 <= i < |s| => LowerChar(s[i]))
  }

  /** A string-valued policy, lower-cased; any other value (a boolean, nothing) gives "lax". */
  function SameSite(policy: Value): (r: string)
    ensures policy.Str? ==> r == ToLowerCase(policy.s)
    ensures !policy.Str? ==> r == "lax"
    ensures NoUpperCase(r)
  {
    if policy.Str? then ToLowerCase(policy.s) else "lax"
  }

  /** The spellings the host's configuration uses come out as the cookie attribute values. */
  lemma SameSiteSpellings()
    ensures SameSite(Str("Lax")) == "lax"
    ensures SameSite(Str("Strict")) == "strict"
    ensures SameSite(Str("None")) == "none"
    ensures SameSite(Bool(true)) == "lax"
  {
  }

  /** `secure || false`: secure only when configured so. */
  function Secure(secure: Option<bool>): (r: bool)
    ensures r <==> secure == Some(true)
  {
    if secure.Some? then secure.value else false
  }

  // ---------------------------------------------------------------------------
  // The generated cookie and the write
  // ---------------------------------------------------------------------------

  /** The arguments passed to `generatePayloadCookie`. */
  datatype GenerateArgs = GenerateArgs(
    collectionAuthConfig: AuthConfig,
    cookiePrefix: string,
    expires: Option<int>,
    returnCookieAsObject: bool,
    token: string)

  /** The cookie object `generatePayloadCookie` returns; `expires` is its date text. */
  datatype CookieObject = CookieObject(name: string, value: Option<string>, expires: Option<string>)

  /** `generatePayloadCookie`, kept abstract. */
  type CookieGenerator = GenerateArgs -> CookieObject

  /** The options passed to `cookies.set`; a `Date` built from a date text is kept as that text. */
  datatype CookieOptions = CookieOptions(
    domain: Option<string>,
    expires: Option<string>,
    httpOnly: bool,
    sameSite: string,
    secure: bool)

  /** One entry of the cookie store. */
  datatype StoredCookie = StoredCookie(value: string, options: CookieOptions)

  /** The arguments `setPayloadAuthCookie` builds for `generatePayloadCookie`. */
  function GenerateArgsFor(authConfig: AuthConfig, cookiePrefix: string, token: string, now: int): (a: GenerateArgs)
    ensures a.collectionAuthConfig == authConfig && a.cookiePrefix == cookiePrefix && a.token == token
    ensures a.returnCookieAsObject
    ensures a.expires == CookieExpiration(authConfig.tokenExpiration, now)
  {
    GenerateArgs(authConfig, cookiePrefix, CookieExpiration(authConfig.tokenExpiration, now), true, token)
  }

  /**
   * What `setPayloadAuthCookie` writes for the generated cookie `pc`: nothing
   * when it has no value; otherwise one cookie under the generated name and
   * value, always `httpOnly`, with the domain passed through, an expiry exactly
   * when the generated cookie has one, and the derived `sameSite` and `secure`.
   */
  function CookieToSet(authConfig: AuthConfig, pc: CookieObject): (w: Option<(string, StoredCookie)>)
    ensures w.None? <==> !Filled(pc.value)
    ensures w.Some? ==> w.value.0 == pc.name && w.value.1.value == pc.value.value
    ensures w.Some? ==> w.value.1.options.httpOnly
    ensures w.Some? ==> w.value.1.options.domain == authConfig.cookies.domain
    ensures w.Some? ==> (w.value.1.options.expires.Some? <==> Filled(pc.expires))
    ensures w.Some? && w.value.1.options.expires.Some? ==> w.value.1.options.expires == pc.expires
    ensures w.Some? ==> w.value.1.options.sameSite == SameSite(authConfig.cookies.sameSite)
    ensures w.Some? ==> (w.value.1.options.secure <==> authConfig.cookies.secure == Some(true))
  {
    if Filled(pc.value) then
      Some((pc.name, StoredCookie(pc.value.value, CookieOptions(
        authConfig.cookies.domain,
        if Filled(pc.expires) then pc.expires else None,
        true,
        SameSite(authConfig.cookies.sameSite),
        Secure(authConfig.cookies.secure)))))
    else
      None
  }

  /** The cookie store of the current request (`cookies()` of the host framework). */
  class CookieStore {
    var jar: map<string, StoredCookie>

    constructor ()
      ensures jar == map[]
    {
      jar := map[];
    }

    /** `cookies.set(name, value, options)`: one entry, replacing any of the same name. */
    method Set(name: string, value: string, options: CookieOptions)
      modifies this
      ensures jar == old(jar)[name := StoredCookie(value, options)]
    {
      jar := jar[name := StoredCookie(value, options)];
    }
  }

  /**
   * `setPayloadAuthCookie({ authConfig, cookiePrefix, token })` at clock time
   * `now`: the store gains exactly the entry `CookieToSet` describes for the
   * generated cookie, and is left as it was when that cookie has no value.
   */
  method SetPayloadAuthCookie(
    cookies: CookieStore,
    authConfig: AuthConfig,
    cookiePrefix: string,
    token: string,
    now: int,
    generatePayloadCookie: CookieGenerator)
    modifies cookies
    ensures
      var pc := generatePayloadCookie(GenerateArgsFor(authConfig, cookiePrefix, token, now));
      match CookieToSet(authConfig, pc)
      case None => cookies.jar == old(cookies.jar)
      case Some((name, entry)) => cookies.jar == old(cookies.jar)[name := entry]
  {
    var cookieExpiration := CookieExpiration(authConfig.tokenExpiration, now);
    var payloadCookie := generatePayloadCookie(GenerateArgs(authConfig, cookiePrefix, cookieExpiration, true, token));
    if Filled(payloadCookie.value) {
      cookies.Set(payloadCookie.name, payloadCookie.value.value, CookieOptions(
        authConfig.cookies.domain,
        if Filled(payloadCookie.expires) then payloadCookie.expires else None,
        true,
        SameSite(authConfig.cookies.sameSite),
        Secure(authConfig.cookies.secure)));
    }
  }
}
