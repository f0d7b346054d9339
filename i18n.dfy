/** Request-locale resolution (i18n.ts): the site is served in Spanish and
    English, and anything else falls back to Spanish. */
module I18n {
  import opened Types

  /** The supported locales, in the order the source lists them. */
  const Locales: seq<string> := ["es", "en"]

  /** The locale used when the request names none or an unsupported one. */
  const DefaultLocale: string := "es"

  predicate Supported(locale: string) {
    locale in Locales
  }

  /** The locale a request is served in: the requested one when it is present,
      non-empty and supported, otherwise the default. */
  function ResolveLocale(requested: Option<string>): (r: string)
    ensures Supported(r)
    ensures requested.Some? && Supported(requested.value) ==> r == requested.value
    ensures requested.None? || !Supported(requested.value) ==> r == DefaultLocale
  {
    if requested.None? || requested.value == "" || requested.value !in Locales then
      DefaultLocale
    else
      requested.value
  }

  /** A missing or empty request is served in Spanish. */
  lemma MissingLocaleFallsBack(requested: Option<string>)
    requires requested.None? || requested.value == ""
    ensures ResolveLocale(requested) == "es"
  {
  }

  /** Resolving an already resolved locale returns it unchanged. */
  lemma ResolveIdempotent(requested: Option<string>)
    ensures ResolveLocale(Some(ResolveLocale(requested))) == ResolveLocale(requested)
  {
  }
}
