/**
 * The session-establishment step that runs once the OAuth2 library has
 * produced a user: the claims signed into the session token, the session
 * cookie and the redirect after login.
 */
module Login {
  import opened Wrappers
  import opened Payload

  // ---------------------------------------------------------------------------
  // Claim projection: the `reduce` over the collection's fields, with the
  // `forEach` over each field's direct subfields.
  // ---------------------------------------------------------------------------

  /** The property key a field name turns into; a missing name is coerced to "undefined". */
  function Key(name: Option<string>): string
  {
    if name.Some? then name.value else "undefined"
  }

  /** The keys every claim set starts with. */
  const SeedKeys: set<string> := {"email", "id", "collection"}

  /** The accumulator the fold starts from. */
  function Seed(user: Record, slug: string): Record
  {
    map["email" := Get(user, "email"), "id" := Get(user, "id"), "collection" := Str(slug)]
  }

  /** The direct subfields of a field: none unless its `fields` property is an array. */
  function SubFieldsOf(f: Field): seq<Option<Field>>
  {
    if f.fields.Some? then f.fields.value else []
  }

  /** Copies the user's top-level property `k` into the accumulator. */
  function Copy(acc: Record, k: string, user: Record): Record
  {
    acc[k := Get(user, k)]
  }

  /** The `forEach` over the subfields, visiting them from first to last. */
  function SignSubs(acc: Record, subs: seq<Option<Field>>, user: Record): Record
    decreases |subs|
  {
    if subs == [] then acc
    else
      var before := SignSubs(acc, subs[..|subs| - 1], user);
      var sub := subs[|subs| - 1];
      if sub.Some? && sub.value.saveToJWT then Copy(before, Key(sub.value.name), user) else before
  }

  /** One step of the `reduce`: the flagged subfields first, then the field itself. */
  function SignField(acc: Record, field: Field, user: Record): Record
  {
    var result := if field.fields.Some? then SignSubs(acc, field.fields.value, user) else acc;
    if field.saveToJWT then Copy(result, Key(field.name), user) else result
  }

  /** The `reduce` over the fields, visiting them from first to last. */
  function SignAll(acc: Record, fields: seq<Field>, user: Record): Record
    decreases |fields|
  {
    if fields == [] then acc
    else SignField(SignAll(acc, fields[..|fields| - 1], user), fields[|fields| - 1], user)
  }

  /** The record signed into the session token. */
  function FieldsToSign(config: CollectionConfig, user: Record): Record
  {
    SignAll(Seed(user, config.slug), config.fields, user)
  }

  // Reference definition of the projection: which keys are flagged, and the
  // map that sends each of them to the user's top-level value.

  /** The keys of the flagged entries among some subfields. */
  function SubKeys(subs: seq<Option<Field>>): set<string>
  {
    set s | s in subs && s.Some? && s.value.saveToJWT :: Key(s.value.name)
  }

  /** The keys one field contributes: its flagged direct subfields and itself if flagged. */
  function FieldKeys(f: Field): set<string>
  {
    SubKeys(SubFieldsOf(f)) + (if f.saveToJWT then {Key(f.name)} else {})
  }

  /** The keys all fields contribute. */
  function FlaggedKeys(fields: seq<Field>): set<string>
  {
    set f, k | f in fields && k in FieldKeys(f) :: k
  }

  /** `acc` with every key of `keys` set to the user's top-level value. */
  function Overlay(acc: Record, keys: set<string>, user: Record): Record
  {
    map k | k in acc.Keys + keys :: if k in keys then Get(user, k) else acc[k]
  }

  lemma OverlayCopy(acc: Record, keys: set<string>, k: string, user: Record)
    ensures Copy(Overlay(acc, keys, user), k, user) == Overlay(acc, keys + {k}, user)
  {
  }

  lemma OverlayTwice(acc: Record, a: set<string>, b: set<string>, user: Record)
    ensures Overlay(Overlay(acc, a, user), b, user) == Overlay(acc, a + b, user)
  {
  }

  /** The `forEach` over subfields overlays exactly the keys of the flagged ones. */
  lemma {:induction false} SignSubsOverlays(acc: Record, subs: seq<Option<Field>>, user: Record)
    ensures SignSubs(acc, subs, user) == Overlay(acc, SubKeys(subs), user)
    decreases |subs|
  {
    if subs == [] {
      assert SubKeys(subs) == {};
    } else {
      var n := |subs| - 1;
      var sub := subs[n];
      SignSubsOverlays(acc, subs[..n], user);
      assert subs == subs[..n] + [sub];
      if sub.Some? && sub.value.saveToJWT {
        assert SubKeys(subs) == SubKeys(subs[..n]) + {Key(sub.value.name)};
        OverlayCopy(acc, SubKeys(subs[..n]), Key(sub.value.name), user);
      } else {
        assert SubKeys(subs) == SubKeys(subs[..n]);
      }
    }
  }

  /** One step of the `reduce` overlays exactly the keys the field contributes. */
  lemma SignFieldOverlays(acc: Record, f: Field, user: Record)
    ensures SignField(acc, f, user) == Overlay(acc, FieldKeys(f), user)
  {
    SignSubsOverlays(acc, SubFieldsOf(f), user);
    if f.fields.None? {
      assert SubKeys([]) == {};
    }
    assert f.fields.Some? ==> SignSubs(acc, f.fields.value, user) == Overlay(acc, SubKeys(SubFieldsOf(f)), user);
    if f.saveToJWT {
      OverlayCopy(acc, SubKeys(SubFieldsOf(f)), Key(f.name), user);
    }
  }

  /** The whole `reduce` overlays exactly the flagged keys of all fields. */
  lemma {:induction false} SignAllOverlays(acc: Record, fields: seq<Field>, user: Record)
    ensures SignAll(acc, fields, user) == Overlay(acc, FlaggedKeys(fields), user)
    decreases |fields|
  {
    if fields == [] {
      assert FlaggedKeys(fields) == {};
    } else {
      var n := |fields| - 1;
      SignAllOverlays(acc, fields[..n], user);
      SignFieldOverlays(Overlay(acc, FlaggedKeys(fields[..n]), user), fields[n], user);
      OverlayTwice(acc, FlaggedKeys(fields[..n]), FieldKeys(fields[n]), user);
      assert fields == fields[..n] + [fields[n]];
      assert FlaggedKeys(fields) == FlaggedKeys(fields[..n]) + FieldKeys(fields[n]);
    }
  }

  /** The claim set in closed form: the seed overlaid with every flagged key. */
  lemma FieldsToSignClosedForm(config: CollectionConfig, user: Record)
    ensures FieldsToSign(config, user) == Overlay(Seed(user, config.slug), FlaggedKeys(config.fields), user)
  {
    SignAllOverlays(Seed(user, config.slug), config.fields, user);
  }

  /**
   * The flagged keys are the names of the flagged top-level fields and of the
   * flagged direct subfields; nothing deeper.
   */
  lemma FlaggedKeysAre(fields: seq<Field>, k: string)
    ensures k in FlaggedKeys(fields) <==>
      exists i :: 0 <= i < |fields| &&
        ((fields[i].saveToJWT && Key(fields[i].name) == k) ||
         (fields[i].fields.Some? &&
          exists j :: 0 <= j < |fields[i].fields.value| && SavesAs(fields[i].fields.value[j], k)))
  {
    if k in FlaggedKeys(fields) {
      var f :| f in fields && k in FieldKeys(f);
      var i :| 0 <= i < |fields| && fields[i] == f;
      if !(f.saveToJWT && Key(f.name) == k) {
        var s :| s in SubFieldsOf(f) && s.Some? && s.value.saveToJWT && Key(s.value.name) == k;
        var j :| 0 <= j < |SubFieldsOf(f)| && SubFieldsOf(f)[j] == s;
        assert SavesAs(f.fields.value[j], k);
      }
    }
    if exists i :: 0 <= i < |fields| &&
        ((fields[i].saveToJWT && Key(fields[i].name) == k) ||
         (fields[i].fields.Some? &&
          exists j :: 0 <= j < |fields[i].fields.value| && SavesAs(fields[i].fields.value[j], k)))
    {
      var i :| 0 <= i < |fields| &&
        ((fields[i].saveToJWT && Key(fields[i].name) == k) ||
         (fields[i].fields.Some? &&
          exists j :: 0 <= j < |fields[i].fields.value| && SavesAs(fields[i].fields.value[j], k)));
      var f := fields[i];
      if !(f.saveToJWT && Key(f.name) == k) {
        var j :| 0 <= j < |f.fields.value| && SavesAs(f.fields.value[j], k);
        assert f.fields.value[j] in SubFieldsOf(f);
      }
      assert k in FieldKeys(f);
    }
  }

  /** A subfield entry that is present, flagged, and named `k`. */
  predicate SavesAs(sub: Option<Field>, k: string)
  {
    sub.Some? && sub.value.saveToJWT && Key(sub.value.name) == k
  }

  /** The result's keys are the three seeds and the flagged keys, and nothing else. */
  lemma ClaimKeys(config: CollectionConfig, user: Record)
    ensures FieldsToSign(config, user).Keys == SeedKeys + FlaggedKeys(config.fields)
  {
    FieldsToSignClosedForm(config, user);
  }

  /**
   * `email` and `id` always hold the user's values; `collection` holds the slug
   * unless a flagged field or subfield named `collection` overwrites it.
   */
  lemma ClaimSeeds(config: CollectionConfig, user: Record)
    ensures SeedKeys <= FieldsToSign(config, user).Keys
    ensures FieldsToSign(config, user)["email"] == Get(user, "email")
    ensures FieldsToSign(config, user)["id"] == Get(user, "id")
    ensures FieldsToSign(config, user)["collection"] ==
      if "collection" in FlaggedKeys(config.fields) then Get(user, "collection") else Str(config.slug)
  {
    FieldsToSignClosedForm(config, user);
  }

  /**
   * Every claim other than an untouched `collection` seed is the user's
   * top-level value under the same key, for subfields as for fields.
   */
  lemma ClaimValues(config: CollectionConfig, user: Record, k: string)
    requires k in FieldsToSign(config, user)
    requires k != "collection" || "collection" in FlaggedKeys(config.fields)
    ensures FieldsToSign(config, user)[k] == Get(user, k)
  {
    FieldsToSignClosedForm(config, user);
  }

  /**
   * A flagged field is signed whatever its kind: the projection applies no
   * "stores data" test, so presentational and nameless fields count too.
   */
  lemma FlaggedFieldIsSigned(config: CollectionConfig, user: Record, i: nat)
    requires i < |config.fields| && config.fields[i].saveToJWT
    ensures Key(config.fields[i].name) in FieldsToSign(config, user)
    ensures FieldsToSign(config, user)[Key(config.fields[i].name)] == Get(user, Key(config.fields[i].name))
  {
    FieldsToSignClosedForm(config, user);
    assert Key(config.fields[i].name) in FieldKeys(config.fields[i]);
  }

  /** The order in which the fields are listed, and repetitions, do not change the claims. */
  lemma FieldOrderIrrelevant(config: CollectionConfig, other: CollectionConfig, user: Record)
    requires other.slug == config.slug
    requires forall f :: f in config.fields <==> f in other.fields
    ensures FieldsToSign(config, user) == FieldsToSign(other, user)
  {
    FieldsToSignClosedForm(config, user);
    FieldsToSignClosedForm(other, user);
    assert FlaggedKeys(config.fields) == FlaggedKeys(other.fields);
  }

  /** Within a field, the order of the subfields does not change the claims either. */
  lemma SubfieldOrderIrrelevant(acc: Record, f: Field, g: Field, user: Record)
    requires f.name == g.name && f.saveToJWT == g.saveToJWT
    requires forall s :: s in SubFieldsOf(f) <==> s in SubFieldsOf(g)
    ensures SignField(acc, f, user) == SignField(acc, g, user)
  {
    SignFieldOverlays(acc, f, user);
    SignFieldOverlays(acc, g, user);
    assert SubKeys(SubFieldsOf(f)) == SubKeys(SubFieldsOf(g));
  }

  /** A subfield entry with its own subfields dropped. */
  function StripEntry(s: Option<Field>): Option<Field>
  {
    if s.Some? then Some(s.value.(fields := None)) else None
  }

  /** A field with everything below its direct subfields dropped. */
  function Shallow(f: Field): Field
  {
    if f.fields.Some? then
      f.(fields := Some(seq(|f.fields.value|, j requires 0 <= j < |f.fields.value| => StripEntry(f.fields.value[j]))))
    else f
  }

  lemma ShallowKeys(f: Field)
    ensures FieldKeys(Shallow(f)) == FieldKeys(f)
  {
    var subs, stripped := SubFieldsOf(f), SubFieldsOf(Shallow(f));
    assert |stripped| == |subs|;
    forall k | k in SubKeys(subs) ensures k in SubKeys(stripped) {
      var s :| s in subs && s.Some? && s.value.saveToJWT && Key(s.value.name) == k;
      var j :| 0 <= j < |subs| && subs[j] == s;
      assert stripped[j] == StripEntry(s);
    }
    forall k | k in SubKeys(stripped) ensures k in SubKeys(subs) {
      var s :| s in stripped && s.Some? && s.value.saveToJWT && Key(s.value.name) == k;
      var j :| 0 <= j < |stripped| && stripped[j] == s;
      assert subs[j] in subs;
    }
    assert SubKeys(stripped) == SubKeys(subs);
  }

  /** Every field with everything below its direct subfields dropped. */
  function ShallowAll(fields: seq<Field>): seq<Field>
  {
    seq(|fields|, i requires 0 <= i < |fields| => Shallow(fields[i]))
  }

  lemma ShallowFlaggedKeys(fields: seq<Field>)
    ensures FlaggedKeys(ShallowAll(fields)) == FlaggedKeys(fields)
  {
    var shallow := ShallowAll(fields);
    forall k | k in FlaggedKeys(fields) ensures k in FlaggedKeys(shallow) {
      var f :| f in fields && k in FieldKeys(f);
      var i :| 0 <= i < |fields| && fields[i] == f;
      ShallowKeys(f);
      assert shallow[i] == Shallow(f);
    }
    forall k | k in FlaggedKeys(shallow) ensures k in FlaggedKeys(fields) {
      var f :| f in shallow && k in FieldKeys(f);
      var i :| 0 <= i < |shallow| && shallow[i] == f;
      ShallowKeys(fields[i]);
      assert fields[i] in fields;
    }
  }

  /** The projection looks one level deep: sub-subfields contribute nothing. */
  lemma OneLevelDeep(config: CollectionConfig, user: Record)
    ensures FieldsToSign(config.(fields := ShallowAll(config.fields)), user) == FieldsToSign(config, user)
  {
    FieldsToSignClosedForm(config, user);
    FieldsToSignClosedForm(config.(fields := ShallowAll(config.fields)), user);
    ShallowFlaggedKeys(config.fields);
  }

  /**
   * The end-to-end example: a flagged `bio` nested in a `profile` group is read
   * from the top level of the user, not from the user's `profile` object.
   */
  lemma ProfileBioExample(slug: string)
    ensures
      var bio := Field(Some("bio"), Some("text"), true, None);
      var config := CollectionConfig(
        slug,
        [Field(Some("email"), Some("email"), false, None), Field(Some("profile"), Some("group"), false, Some([Some(bio)]))],
        AuthConfig(7200, CookiePolicy(None, Undefined, None)));
      var user := map["email" := Str("a@b.com"), "id" := Str("1"), "bio" := Str("hi"),
                       "profile" := Obj(map["bio" := Str("nested")])];
      FieldsToSign(config, user) == map["email" := Str("a@b.com"), "id" := Str("1"), "collection" := Str(slug), "bio" := Str("hi")]
  {
    var bio := Field(Some("bio"), Some("text"), true, None);
    var email := Field(Some("email"), Some("email"), false, None);
    var profile := Field(Some("profile"), Some("group"), false, Some([Some(bio)]));
    var config := CollectionConfig(slug, [email, profile], AuthConfig(7200, CookiePolicy(None, Undefined, None)));
    var user := map["email" := Str("a@b.com"), "id" := Str("1"), "bio" := Str("hi"),
                    "profile" := Obj(map["bio" := Str("nested")])];
    assert SubKeys([]) == {};
    assert FieldKeys(email) == {};
    assert SubKeys([Some(bio)]) == {"bio"};
    assert FieldKeys(profile) == {"bio"};
    assert FlaggedKeys(config.fields) == {"bio"};
    FieldsToSignClosedForm(config, user);
  }

  /** `getFieldsToSign`: the `reduce` and the nested `forEach`, as loops over a map. */
  method GetFieldsToSign(config: CollectionConfig, user: Record) returns (signed: Record)
    ensures signed == FieldsToSign(config, user)
    ensures signed == Overlay(Seed(user, config.slug), FlaggedKeys(config.fields), user)
  {
    var fields := config.fields;
    signed := Seed(user, config.slug);
    var i := 0;
    while i < |fields|
      invariant 0 <= i <= |fields|
      invariant signed == SignAll(Seed(user, config.slug), fields[..i], user)
    {
      var field := fields[i];
      var result := signed;
      if field.fields.Some? {
        var subs := field.fields.value;
        var j := 0;
        while j < |subs|
          invariant 0 <= j <= |subs|
          invariant result == SignSubs(signed, subs[..j], user)
        {
          var sub := subs[j];
          if sub.Some? && sub.value.saveToJWT {
            result := result[Key(sub.value.name) := Get(user, Key(sub.value.name))];
          }
          assert subs[..j + 1][..j] == subs[..j];
          j := j + 1;
        }
        assert subs[..j] == subs;
      }
      if field.saveToJWT {
        result := result[Key(field.name) := Get(user, Key(field.name))];
      }
      assert fields[..i + 1][..i] == fields[..i];
      signed := result;
      i := i + 1;
    }
    assert fields[..i] == fields;
    FieldsToSignClosedForm(config, user);
  }

  // ---------------------------------------------------------------------------
  // The session cookie and the redirect of `loginHandler`.
  // ---------------------------------------------------------------------------

  /** The cookie expiry: `seconds` after `now`, in milliseconds since the epoch. */
  function GetCookieExpiration(now: int, seconds: int): (exp: int)
    ensures exp - now == seconds * 1000
    ensures seconds > 0 ==> exp > now
  {
    now + seconds * 1000
  }

  /** The options `loginHandler` passes to `res.cookie`. */
  datatype ExpressCookieOptions = ExpressCookieOptions(
    path: string,
    httpOnly: bool,
    expires: int,
    secure: Option<bool>,
    domain: Option<string>)

  /** One `Set-Cookie` recorded on an Express response. */
  datatype ExpressCookie = ExpressCookie(name: string, value: string, options: ExpressCookieOptions)

  /** The host globals the handler reads: the collections, the signing secret and the cookie prefix. */
  datatype PayloadInstance = PayloadInstance(
    collections: map<string, CollectionConfig>,
    secret: string,
    cookiePrefix: string)

  /**
   * `jwt.sign(claims, secret, { expiresIn })`, kept abstract. It runs
   * synchronously and may throw, for instance on a claim set that holds a
   * reserved claim such as `exp` next to `expiresIn`.
   */
  type Signer = (Record, string, int) -> Completion<string>

  /**
   * Fixed path and `httpOnly`, the expiry from the token lifetime, `secure`
   * copied as configured, and an empty or absent domain left out.
   */
  function LoginCookieOptions(auth: AuthConfig, now: int): (o: ExpressCookieOptions)
    ensures o.path == "/" && o.httpOnly
    ensures o.expires == now + auth.tokenExpiration * 1000
    ensures o.secure == auth.cookies.secure
    ensures o.domain.None? <==> !Filled(auth.cookies.domain)
    ensures o.domain.Some? ==> o.domain == auth.cookies.domain
  {
    ExpressCookieOptions(
      "/",
      true,
      GetCookieExpiration(now, auth.tokenExpiration),
      auth.cookies.secure,
      if Filled(auth.cookies.domain) then auth.cookies.domain else None)
  }

  /**
   * The session cookie: named after the cookie prefix, holding the token signed
   * over the projected claims, whose lifetime is the same `tokenExpiration`
   * the cookie's expiry is computed from; no cookie when signing throws.
   */
  function SessionCookie(host: PayloadInstance, config: CollectionConfig, user: Record, now: int, sign: Signer): (c: Completion<ExpressCookie>)
    ensures c.Throw? <==> sign(FieldsToSign(config, user), host.secret, config.auth.tokenExpiration).Throw?
    ensures c.Normal? ==> c.value.name == host.cookiePrefix + "-token"
    ensures c.Normal? ==> Normal(c.value.value) == sign(FieldsToSign(config, user), host.secret, config.auth.tokenExpiration)
    ensures c.Normal? ==> c.value.options.expires == GetCookieExpiration(now, config.auth.tokenExpiration)
    ensures c.Normal? ==> c.value.options == LoginCookieOptions(config.auth, now)
  {
    match sign(FieldsToSign(config, user), host.secret, config.auth.tokenExpiration)
    case Throw(e) => Throw(e)
    case Normal(token) => Normal(ExpressCookie(host.cookiePrefix + "-token", token, LoginCookieOptions(config.auth, now)))
  }

  /** The Express response: the cookies set on it, in order, and the redirect target. */
  class Response {
    var cookies: seq<ExpressCookie>
    var location: Option<string>

    constructor ()
      ensures cookies == [] && location == None
    {
      cookies := [];
      location := None;
    }

    /** `res.cookie(name, value, options)` adds one `Set-Cookie`. */
    method Cookie(name: string, value: string, options: ExpressCookieOptions)
      modifies this
      ensures cookies == old(cookies) + [ExpressCookie(name, value, options)]
      ensures location == old(location)
    {
      cookies := cookies + [ExpressCookie(name, value, options)];
    }

    /** `res.redirect(path)` answers with a redirect to `path`. */
    method Redirect(path: string)
      modifies this
      ensures location == Some(path)
      ensures cookies == old(cookies)
    {
      location := Some(path);
    }
  }

  /**
   * `loginHandler(userCollectionSlug, redirectPathAfterLogin)` applied to a
   * request whose user is `user`: an unknown collection slug throws before
   * anything is sent, and so does a signer that throws; otherwise exactly one
   * session cookie is added and the response redirects to
   * `redirectPathAfterLogin`.
   */
  method LoginHandler(
    userCollectionSlug: string,
    redirectPathAfterLogin: string,
    host: PayloadInstance,
    user: Record,
    now: int,
    sign: Signer,
    res: Response)
    returns (done: Completion<()>)
    modifies res
    ensures userCollectionSlug !in host.collections ==>
      done.Throw? && res.cookies == old(res.cookies) && res.location == old(res.location)
    ensures userCollectionSlug in host.collections ==>
      match SessionCookie(host, host.collections[userCollectionSlug], user, now, sign)
      case Throw(_) =>
        done.Throw? && res.cookies == old(res.cookies) && res.location == old(res.location)
      case Normal(cookie) =>
        done == Normal(()) &&
        res.cookies == old(res.cookies) + [cookie] &&
        res.location == Some(redirectPathAfterLogin)
  {
    if userCollectionSlug !in host.collections {
      return Throw("TypeError: collection not found");
    }
    var collectionConfig := host.collections[userCollectionSlug];
    var fieldsToSign := GetFieldsToSign(collectionConfig, user);
    var signed := sign(fieldsToSign, host.secret, collectionConfig.auth.tokenExpiration);
    if signed.Throw? {
      return Throw(signed.error);
    }
    var token := signed.value;
    res.Cookie(host.cookiePrefix + "-token", token, LoginCookieOptions(collectionConfig.auth, now));
    res.Redirect(redirectPathAfterLogin);
    done := Normal(());
  }
}
