# payload-plugin-oidc: session establishment after an OIDC login

This project models, in Dafny, the deterministic part of the plugin's OpenID
Connect login that runs once the OAuth2 library has produced a user record:

- **claim projection** (`getFieldsToSign`): the record signed into the session
  token, folded over the user collection's field list. It is seeded with
  `email`, `id` and `collection`. Each field first copies its flagged direct
  subfields, then itself if flagged. Every value is read from the top level of
  the user record.
- **the session cookie of `loginHandler`**: named `<cookiePrefix>-token`, path
  `/`, `httpOnly`, `secure` copied from the collection's cookie policy, an empty
  domain dropped, an expiry `tokenExpiration` seconds after the clock, and a
  redirect to the post-login path. This cookie carries no `sameSite` attribute:
  that option is commented out at src/lib/login.ts:36.
- **`setPayloadAuthCookie`**: the expiry handed to the host's cookie generator,
  the `sameSite`, `secure` and `httpOnly` options, and the write into the
  request's cookie store, which happens only when the generated cookie has a
  value.
- **helpers**: the callback-path precedence, and the two field-descriptor tests.

Modules follow the source files: `Helpers` (src/lib/helpers.ts), `Login`
(src/lib/login.ts) and `PayloadAuthCookie` (src/lib/setPayloadAuthCookie.ts).
`Payload` holds the host framework's data (JavaScript values, records, field
descriptors, auth and cookie configuration). `Wrappers` holds `Option` and
`Completion`; a `Completion` is either a returned value or a thrown error.

The claim projection is written twice. `SignSubs`, `SignField` and `SignAll`
are the `forEach` and the `reduce` as recursive functions, and
`GetFieldsToSign` is the same computation as two nested loops over a map
accumulator. `Overlay(Seed, FlaggedKeys)` is an independent closed form: the
seed, with every flagged key mapped to the user's top-level value. Lemmas prove
that the fold and the loop both equal the closed form, and the key-set,
value, order and depth properties are derived from it.

JavaScript semantics are stated outright where they matter:

- reading a missing property yields `undefined`;
- a field with no name writes the property key `"undefined"`;
- truthiness decides the `||` chains and the `if (payloadCookie.value)` guard.

The collaborators are parameters:

- the clock `now`, in milliseconds;
- `jwt.sign` (`Login.Signer`), which may throw;
- `generatePayloadCookie` (`PayloadAuthCookie.CookieGenerator`);
- the URL parser (`pathname` in `Helpers.GetCallbackPath`);
- the host globals `payload.collections`, `payload.secret` and
  `payload.config.cookiePrefix` (`Login.PayloadInstance`).

The Express response and the request's cookie store are small classes whose
methods record one cookie per call.

The two cookie paths read the same `tokenExpiration` in different units.
`loginHandler` multiplies it by 1000. `setPayloadAuthCookie` adds it to
`Date.now()` unscaled. The model keeps both as written.
`PayloadAuthCookie.ExpiryUnitsDiffer` states the factor of 1000 between them.
Whether this changes the cookie that is finally set depends on how
`generatePayloadCookie` uses its `expires` argument, and that function is not
part of this model.

## Model

| member | source | states |
|---|---|---|
| `Helpers.GetCallbackPath` | src/lib/helpers.ts:3-9 | A non-empty `callbackPath` wins whatever `callbackURL` is. Otherwise a non-empty `callbackURL` gives its pathname, or throws when that URL does not parse. An empty pathname, or no URL, falls back to `/api/oidc/callback`. The path returned is never empty, and it throws only in the unparsable-URL case. |
| `Helpers.FieldAffectsData` | src/lib/helpers.ts:14-18 | False for a missing field. Otherwise true iff the name is a string and the type is none of `ui`, `row`, `tabs`. |
| `Helpers.FieldHasSubFields` | src/lib/helpers.ts:23-25 | True iff the field is present and its `fields` property is an array. |
| `Login.SignSubsOverlays` | src/lib/login.ts:54-60 | The `forEach` over subfields sets exactly the names of the present, flagged entries, each to the user's top-level value, and keeps the rest of the accumulator. |
| `Login.SignFieldOverlays` | src/lib/login.ts:50-66 | One `reduce` step sets exactly the field's flagged direct subfields and the field itself if flagged, each to the user's top-level value. |
| `Login.SignAllOverlays` | src/lib/login.ts:50-67 | The whole `reduce` equals the accumulator overlaid with the flagged keys of all fields. |
| `Login.FieldsToSignClosedForm` | src/lib/login.ts:46-72 | The signed record is the seed `{email, id, collection}` overlaid with every flagged key, mapped to the user's top-level value. |
| `Login.FlaggedKeysAre` | src/lib/login.ts:50-66 | A key is flagged iff it names a flagged top-level field or a present, flagged direct subfield of some field. |
| `Login.ClaimKeys` | src/lib/login.ts:50-71 | The result's keys are exactly `email`, `id`, `collection` and the flagged keys. Unflagged fields and sub-subfields add nothing. |
| `Login.ClaimSeeds` | src/lib/login.ts:62-71 | `email`, `id` and `collection` are always present. `email` and `id` are the user's values. `collection` is the slug unless a flagged field or subfield named `collection` overwrites it with the user's value. |
| `Login.ClaimValues` | src/lib/login.ts:57-69 | Every key other than an untouched `collection` seed maps to the user's top-level value under that key. This holds for subfields as well as fields. |
| `Login.FlaggedFieldIsSigned` | src/lib/login.ts:62-64 | A flagged field's key is always signed with the user's value, whatever its type. No "stores data" test is applied. |
| `Login.FieldOrderIrrelevant` | src/lib/login.ts:50-66 | Two field lists with the same members (any order, any repetition) yield the same record. |
| `Login.SubfieldOrderIrrelevant` | src/lib/login.ts:54-64 | Reordering or repeating a field's subfields does not change that step's result. |
| `Login.ShallowFlaggedKeys` | src/lib/login.ts:54-59 | Dropping every sub-subfield leaves the set of flagged keys unchanged. |
| `Login.OneLevelDeep` | src/lib/login.ts:54-59 | Dropping every sub-subfield changes nothing: the projection looks only one level deep. |
| `Login.ProfileBioExample` | src/lib/login.ts:46-72 | Schema `[email, profile{bio flagged}]` with user `{email:"a@b.com", id:"1", bio:"hi", profile:{bio:"nested"}}` yields `{email, id, collection: slug, bio:"hi"}`. The value comes from the top level, not from the nested object. |
| `Login.GetFieldsToSign` | src/lib/login.ts:46-72 | The nested loops compute the fold, and so the closed form. |
| `Login.GetCookieExpiration` | src/lib/login.ts:10-14 | The expiry lies `seconds * 1000` milliseconds after the clock, so it is later than the clock for a positive lifetime. |
| `Login.LoginCookieOptions` | src/lib/login.ts:31-38 | Path `/` and `httpOnly` always. The expiry is the clock plus `tokenExpiration * 1000`. `secure` is the configured value as is. The domain is dropped iff it is empty or absent, and is the configured one otherwise. |
| `Login.SessionCookie` | src/lib/login.ts:25-38 | There is no cookie iff signing the projected claims throws. Otherwise the cookie is named `<cookiePrefix>-token`, its value is the token signed over the projected claims with `expiresIn = tokenExpiration`, and its expiry comes from that same `tokenExpiration`. |
| `Login.Response.Cookie` | src/lib/login.ts:31 | `res.cookie` appends exactly one cookie and leaves the redirect alone. |
| `Login.Response.Redirect` | src/lib/login.ts:40 | `res.redirect` sets the redirect target and leaves the cookies alone. |
| `Login.LoginHandler` | src/lib/login.ts:19-41 | An unknown collection slug throws, with nothing set. A signer that throws (for instance on a flagged field named `exp`) also throws, before any cookie or redirect. Otherwise exactly one cookie, the session cookie, is appended and the response redirects to `redirectPathAfterLogin`. |
| `PayloadAuthCookie.CookieExpiration` | src/lib/setPayloadAuthCookie.ts:19-21 | There is no expiry iff `tokenExpiration` is 0. Otherwise the expiry is the clock plus `tokenExpiration`, unscaled. |
| `PayloadAuthCookie.ExpiryUnitsDiffer` | src/lib/setPayloadAuthCookie.ts:19-21 | For a non-zero lifetime, the `loginHandler` cookie lies 1000 times as far past the clock as this expiry. |
| `PayloadAuthCookie.ToLowerCase` | src/lib/setPayloadAuthCookie.ts:40 | The result has the same length and no upper-case letter. Each upper-case letter becomes the character 32 code points higher, and everything else is kept. |
| `PayloadAuthCookie.SameSite` | src/lib/setPayloadAuthCookie.ts:39-41 | A string policy becomes its lower-cased form, and any other value becomes `lax`. The result never has an upper-case letter. |
| `PayloadAuthCookie.SameSiteSpellings` | src/lib/setPayloadAuthCookie.ts:39-41 | `Lax`, `Strict` and `None` become `lax`, `strict` and `none`, and a boolean policy becomes `lax`. |
| `PayloadAuthCookie.Secure` | src/lib/setPayloadAuthCookie.ts:42 | `secure` is true iff it is configured true, and is false when absent. |
| `PayloadAuthCookie.GenerateArgsFor` | src/lib/setPayloadAuthCookie.ts:23-29 | The generator gets the auth config, the prefix and the token passed in, `returnCookieAsObject = true`, and the derived expiry. |
| `PayloadAuthCookie.CookieToSet` | src/lib/setPayloadAuthCookie.ts:33-43 | Nothing is written iff the generated value is empty or absent. Otherwise one cookie is written under the generated name and value, always `httpOnly`, with the domain passed through unchanged. It has an expiry iff the generated cookie has one, plus the derived `sameSite` and `secure`. |
| `PayloadAuthCookie.CookieStore.Set` | src/lib/setPayloadAuthCookie.ts:35 | `cookies.set` stores one entry under the name, replacing any earlier entry of that name. |
| `PayloadAuthCookie.SetPayloadAuthCookie` | src/lib/setPayloadAuthCookie.ts:12-45 | The store gains exactly the entry `CookieToSet` describes for the generated cookie. It is left unchanged when that cookie has no value. |

## Left out

- The passport / express-session / memory-store wiring, endpoint registration,
  `deserializeUser` and admin component merging (src/plugin.ts): these are
  asynchronous framework glue. The Vite alias stubbing (src/lib/webpack.ts) is
  bundler configuration.
- The state-token check, the authorization redirect, the token exchange and
  the user find-or-create: the plugin delegates them to passport and to files
  that are not part of this model.
- `jwt.sign`, `generatePayloadCookie`, `new URL(...).pathname`, `cookies()` of
  `next/headers` and the host globals are foreign code: they are parameters.
  The clock is the parameter `now`.
- `JSON.parse(JSON.stringify(req.user))`: the deep clone of the user is not
  modelled. The handler receives the user record directly, and `req.user` is
  taken to be present, as passport guarantees after a successful
  authentication.
- `console.log` calls, the `async`/`await` sequencing, and the value returned
  by `res.redirect` are not modelled.
- Numbers are integers: floating point, `NaN` and the range limits of `Date`
  are not modelled. `tokenExpiration` is always a number in the host's
  sanitized configuration, so its only falsy value here is 0.
- `PayloadAuthCookie.ToLowerCase`: only ASCII letters are folded, because
  JavaScript's full Unicode case mapping is not modelled.
- `PayloadAuthCookie.CookieToSet`: `new Date(payloadCookie.expires)` keeps the
  generated date text; parsing dates is not modelled.
- Records are own properties only. Names inherited from `Object.prototype`
  (`constructor`, `toString`, `__proto__`, ...) are not modelled: in JavaScript
  reading them does not give `undefined`, and assigning to `__proto__` sets the
  prototype instead of creating a key.
- `jwt.sign` is abstract and may throw. Which claim sets it rejects (reserved
  claims such as `exp`, `iat` and `nbf` with unexpected values, or `exp` next
  to `expiresIn`) is jsonwebtoken's behaviour and is not modelled.
- Field names are strings or absent. Other non-string names (numbers,
  symbols) are not modelled. A top-level `null` field makes the source throw,
  and it cannot be represented here.
