/** The parsing and derived properties of the application settings in
    app/core/config.py: the comma-separated `ALLOWED_ORIGINS` and
    `ALLOWED_IMAGE_FORMATS` values, `is_production` and `cors_origins`. Loading
    the values from the environment and the `.env` file is not modelled: a
    settings record holds what was loaded. */
module Config {
  import opened Text

  /** `ALLOWED_ORIGINS` as the settings object holds it: still the raw string,
      or the list its validator produced. */
  datatype OriginsValue = Raw(raw: string) | Parsed(origins: seq<string>)

  /** The fields of `Settings` these members read. */
  datatype Settings = Settings(env: string, environment: string, allowedOrigins: OriginsValue)

  /** `parse_allowed_origins`: one stripped piece per comma plus one, in
      order. */
  function ParseAllowedOrigins(v: string): (origins: seq<string>)
    ensures |origins| == CountChar(v, ',') + 1
    ensures forall i :: 0 <= i < |origins| ==> origins[i] == Strip(Split(v, ',')[i])
  {
    ParseCommaList(v)
  }

  /** `parse_image_formats`: the same split-and-strip rule. */
  function ParseImageFormats(v: string): (formats: seq<string>)
    ensures |formats| == CountChar(v, ',') + 1
    ensures forall i :: 0 <= i < |formats| ==> formats[i] == Strip(Split(v, ',')[i])
  {
    ParseCommaList(v)
  }

  /** `is_production` */
  predicate IsProduction(s: Settings) {
    s.env == "production"
  }

  /** `cors_origins`: a string value is parsed like `parse_allowed_origins`,
      a list is returned as it is. */
  function CorsOrigins(s: Settings): (origins: seq<string>)
    ensures s.allowedOrigins.Parsed? ==> origins == s.allowedOrigins.origins
    ensures s.allowedOrigins.Raw? ==>
      && |origins| == CountChar(s.allowedOrigins.raw, ',') + 1
      && forall i :: 0 <= i < |origins| ==> origins[i] == Strip(Split(s.allowedOrigins.raw, ',')[i])
  {
    match s.allowedOrigins
    case Raw(v) => ParseCommaList(v)
    case Parsed(origins) => origins
  }

  /** `is_production` reads `ENV` only: `ENVIRONMENT`, documented as its
      alias, has no effect on it. */
  lemma IsProductionIgnoresEnvironment(s: Settings, environment: string)
    ensures IsProduction(s.(environment := environment)) == IsProduction(s)
    ensures IsProduction(s) <==> s.env == "production"
  {
  }

  /** The validator does not change the answer of `cors_origins`: the parsed
      list and the raw string give the same origins. */
  lemma CorsOriginsAgreeWithValidator(s: Settings, raw: string)
    ensures CorsOrigins(s.(allowedOrigins := Raw(raw))) == CorsOrigins(s.(allowedOrigins := Parsed(ParseAllowedOrigins(raw))))
  {
  }
}
