/**
 * The host CMS's data, as the plugin sees it: loosely typed JavaScript records,
 * field descriptors of a collection schema, and the auth / cookie policy of a
 * user collection.
 */
module Payload {
  import opened Wrappers

  /** A JavaScript value as it can appear in a user record. Numbers are integral here. */
  datatype Value =
    | Undefined
    | Null
    | Bool(b: bool)
    | Num(n: int)
    | Str(s: string)
    | Obj(entries: map<string, Value>)

  /** A plain JavaScript object indexed by property name. */
  type Record = map<string, Value>

  /** `r[k]`: reading a property that is not there yields `undefined`. */
  function Get(r: Record, k: string): Value
  {
    if k in r then r[k] else Undefined
  }

  /** JavaScript truthiness (`NaN` is outside this model's numbers). */
  predicate Truthy(v: Value)
  {
    match v
    case Undefined => false
    case Null => false
    case Bool(b) => b
    case Num(n) => n != 0
    case Str(s) => s != ""
    case Obj(_) => true
  }

  /** Truthiness of an optional string: present and not empty. */
  predicate Filled(o: Option<string>)
  {
    o.Some? && o.value != ""
  }

  /**
   * A field descriptor of a collection schema. `name` and `kind` (the `type`
   * property) may be absent; `saveToJWT` is the truthiness of that property;
   * `fields` is `Some` exactly when the descriptor's `fields` property is an
   * array, whose entries may themselves be `null` or `undefined` (`None`).
   */
  datatype Field = Field(
    name: Option<string>,
    kind: Option<string>,
    saveToJWT: bool,
    fields: Option<seq<Option<Field>>>)

  /** The `cookies` part of a collection's auth configuration. */
  datatype CookiePolicy = CookiePolicy(secure: Option<bool>, sameSite: Value, domain: Option<string>)

  /** A collection's auth configuration; `tokenExpiration` is a number of seconds. */
  datatype AuthConfig = AuthConfig(tokenExpiration: int, cookies: CookiePolicy)

  /** The sanitized configuration of a collection. */
  datatype CollectionConfig = CollectionConfig(slug: string, fields: seq<Field>, auth: AuthConfig)
}
