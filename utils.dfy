/**
  * Where the CMS lives and how media URLs are made absolute. The two
  * environment variables are inputs; an unset variable is "".
  */
module Utils {
  import opened Wrappers
  import opened Text

  const DefaultStrapiURL := "http://localhost:1337"

  /** `process.env.NEXT_PUBLIC_STRAPI_BASE_URL` and `process.env.STRAPI_BASE_URL`; "" when unset. */
  datatype Env = Env(nextPublicStrapiBaseUrl: string, strapiBaseUrl: string)

  predicate HasScheme(url: string) {
    StartsWith(url, "http://") || StartsWith(url, "https://")
  }

  /** The base URL as configured: the public variable, else the server one, else the local default. */
  function ConfiguredURL(env: Env): (url: string)
    ensures env.nextPublicStrapiBaseUrl != "" ==> url == env.nextPublicStrapiBaseUrl
    ensures env.nextPublicStrapiBaseUrl == "" && env.strapiBaseUrl != "" ==> url == env.strapiBaseUrl
    ensures env.nextPublicStrapiBaseUrl == "" && env.strapiBaseUrl == "" ==> url == DefaultStrapiURL
  {
    OrChain([env.nextPublicStrapiBaseUrl, env.strapiBaseUrl], DefaultStrapiURL);
    FirstNonEmpty([env.nextPublicStrapiBaseUrl, env.strapiBaseUrl], DefaultStrapiURL)
  }

  /** A URL with an `http://` or `https://` scheme is kept; any other gets `https://` in front. */
  function WithScheme(url: string): (r: string)
    ensures HasScheme(url) ==> r == url
    ensures !HasScheme(url) ==> r == "https://" + url
    ensures HasScheme(r)
  {
    if HasScheme(url) then url
    else
      assert ("https://" + url)[..8] == "https://";
      "https://" + url
  }

  /** Applying the scheme rule twice is applying it once. */
  lemma WithSchemeIdempotent(url: string)
    ensures WithScheme(WithScheme(url)) == WithScheme(url)
  {
  }

  /** `getStrapiURL()`. */
  function GetStrapiURL(env: Env): (url: string)
    ensures HasScheme(url)
    ensures url == WithScheme(ConfiguredURL(env))
  {
    WithScheme(ConfiguredURL(env))
  }

  /** A scheme-qualified base URL is left alone by the scheme rule. */
  lemma GetStrapiURLIsFixed(env: Env)
    ensures WithScheme(GetStrapiURL(env)) == GetStrapiURL(env)
  {
    WithSchemeIdempotent(ConfiguredURL(env));
  }

  /** A media URL that is already usable as it is: inline data, absolute, or protocol-relative. */
  predicate IsAbsoluteMedia(url: string) {
    StartsWith(url, "data:") || StartsWith(url, "http") || StartsWith(url, "//")
  }

  /** `getStrapiMedia(url)`: null stays null, absolute URLs stay as they are, the rest are prefixed with the base URL. */
  function GetStrapiMedia(url: Option<string>, env: Env): (r: Option<string>)
    ensures url.None? <==> r.None?
    ensures url.Some? && IsAbsoluteMedia(url.value) ==> r == url
    ensures url.Some? && !IsAbsoluteMedia(url.value) ==> r == Some(GetStrapiURL(env) + url.value)
  {
    match url
    case None => None
    case Some(u) => if IsAbsoluteMedia(u) then Some(u) else Some(GetStrapiURL(env) + u)
  }

  /** Every URL the media rule produces is absolute, so resolving it again changes nothing. */
  lemma {:induction false} GetStrapiMediaIdempotent(url: Option<string>, env: Env)
    ensures GetStrapiMedia(GetStrapiMedia(url, env), env) == GetStrapiMedia(url, env)
  {
    if url.Some? && !IsAbsoluteMedia(url.value) {
      var base := GetStrapiURL(env);
      var full := base + url.value;
      assert full[..4] == base[..4];
      assert base[..4] == "http" by {
        if StartsWith(base, "http://") {
          assert base[..4] == base[..7][..4];
        } else {
          assert base[..4] == base[..8][..4];
        }
      }
      assert StartsWith(full, "http");
    }
  }
}
