/** The plugin's small helpers: the callback path and two field-descriptor tests. */
module Helpers {
  import opened Wrappers
  import opened Payload

  /** The plugin options that decide the callback path. */
  datatype PluginOptions = PluginOptions(callbackPath: Option<string>, callbackURL: Option<string>)

  const DefaultCallbackPath := "/api/oidc/callback"

  /**
   * `new URL(u).pathname` is a library parser kept abstract: `pathname(u)` is
   * `None` when the URL constructor throws, and the parsed path otherwise.
   * The result is the first truthy of the configured path, the configured
   * URL's path and the default.
   */
  function GetCallbackPath(opts: PluginOptions, pathname: string -> Option<string>): (r: Completion<string>)
    ensures Filled(opts.callbackPath) ==> r == Normal(opts.callbackPath.value)
    ensures !Filled(opts.callbackPath) && Filled(opts.callbackURL) ==>
      match pathname(opts.callbackURL.value)
      case None => r.Throw?
      case Some(p) => r == Normal(if p != "" then p else DefaultCallbackPath)
    ensures !Filled(opts.callbackPath) && !Filled(opts.callbackURL) ==> r == Normal(DefaultCallbackPath)
    ensures r.Throw? <==> !Filled(opts.callbackPath) && Filled(opts.callbackURL) && pathname(opts.callbackURL.value).None?
    ensures r.Normal? ==> r.value != ""
  {
    if Filled(opts.callbackPath) then
      Normal(opts.callbackPath.value)
    else if Filled(opts.callbackURL) then
      match pathname(opts.callbackURL.value)
      case None => Throw("TypeError: Invalid URL")
      case Some(p) => Normal(if p != "" then p else DefaultCallbackPath)
    else
      Normal(DefaultCallbackPath)
  }

  /** The kinds of field that only lay out or present other fields. */
  predicate Presentational(kind: Option<string>)
  {
    kind == Some("ui") || kind == Some("row") || kind == Some("tabs")
  }

  /** A field directly stores data: it is there, has a string name and is not presentational. */
  function FieldAffectsData(field: Option<Field>): (r: bool)
    ensures field.None? ==> !r
    ensures field.Some? ==> (r <==> field.value.name.Some? && !Presentational(field.value.kind))
  {
    match field
    case None => false
    case Some(f) => f.name.Some? && f.kind != Some("ui") && f.kind != Some("row") && f.kind != Some("tabs")
  }

  /** A field has subfields exactly when its `fields` property is an array. */
  function FieldHasSubFields(field: Option<Field>): (r: bool)
    ensures r <==> field.Some? && field.value.fields.Some?
  {
    match field
    case None => false
    case Some(f) => f.fields.Some?
  }
}
