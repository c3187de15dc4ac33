/** Application configuration: the API base address, taken from the build environment with a
    fixed fallback, and the helper that joins it with an endpoint path. */
module EnvConfig {
  import opened Optional

  /** The address used when `VITE_API_BASE_URL` is not set. */
  const DefaultApiBaseUrl: string := "https://app-delivery-api-dev-eastus2.azurewebsites.net"

  /** `VITE_API_BASE_URL || default`: an unset or empty environment value falls back to the
      default address; any other value is used as it is. */
  function ApiBaseUrl(viteApiBaseUrl: Option<string>): (r: string)
    ensures r != ""
    ensures viteApiBaseUrl.Some? && viteApiBaseUrl.value != "" ==> r == viteApiBaseUrl.value
    ensures viteApiBaseUrl.None? || viteApiBaseUrl.value == "" ==> r == DefaultApiBaseUrl
  {
    if viteApiBaseUrl.Some? && viteApiBaseUrl.value != "" then viteApiBaseUrl.value
    else DefaultApiBaseUrl
  }

  predicate EndsWithSlash(s: string) {
    |s| > 0 && s[|s| - 1] == '/'
  }

  predicate StartsWithSlash(s: string) {
    |s| > 0 && s[0] == '/'
  }

  /** `replace(/\/$/, '')`: at most one slash is taken off the end. */
  function DropTrailingSlash(s: string): (r: string)
    ensures EndsWithSlash(s) ==> s == r + "/"
    ensures !EndsWithSlash(s) ==> r == s
  {
    if EndsWithSlash(s) then s[..|s| - 1] else s
  }

  /** `replace(/^\//, '')`: at most one slash is taken off the front. */
  function DropLeadingSlash(s: string): (r: string)
    ensures StartsWithSlash(s) ==> s == "/" + r
    ensures !StartsWithSlash(s) ==> r == s
  {
    if StartsWithSlash(s) then s[1..] else s
  }

  /** `buildApiUrl` over a given base address: the base without one trailing slash, a slash,
      and the endpoint without one leading slash. */
  function JoinUrl(base: string, endpoint: string): (r: string)
    ensures var b := DropTrailingSlash(base);
            |r| > |b| && r[..|b|] == b && r[|b|] == '/' && r[|b| + 1..] == DropLeadingSlash(endpoint)
  {
    var b := DropTrailingSlash(base);
    var r := b + "/" + DropLeadingSlash(endpoint);
    assert r[..|b|] == b;
    assert r[|b| + 1..] == DropLeadingSlash(endpoint);
    r
  }

  /** `buildApiUrl(endpoint)` with the configured base address. */
  function BuildApiUrl(viteApiBaseUrl: Option<string>, endpoint: string): (r: string)
    ensures r == JoinUrl(ApiBaseUrl(viteApiBaseUrl), endpoint)
    ensures !EndsWithSlash(ApiBaseUrl(viteApiBaseUrl)) && !StartsWithSlash(endpoint) ==>
              r == ApiBaseUrl(viteApiBaseUrl) + "/" + endpoint
  {
    JoinUrl(ApiBaseUrl(viteApiBaseUrl), endpoint)
  }

  /** A single slash at the end of the base, or at the front of the endpoint, makes no difference. */
  lemma JoinIgnoresOneSlash(base: string, endpoint: string)
    requires !EndsWithSlash(base) && !StartsWithSlash(endpoint)
    ensures JoinUrl(base + "/", endpoint) == JoinUrl(base, endpoint)
    ensures JoinUrl(base, "/" + endpoint) == JoinUrl(base, endpoint)
    ensures JoinUrl(base + "/", "/" + endpoint) == JoinUrl(base, endpoint)
  {
    assert (base + "/")[..|base|] == base;
    assert ("/" + endpoint)[1..] == endpoint;
  }

  /** Only one slash is removed on each side: doubled slashes leave a doubled slash in the result. */
  lemma JoinKeepsExtraSlashes(base: string, endpoint: string)
    requires !EndsWithSlash(base) && !StartsWithSlash(endpoint)
    ensures JoinUrl(base + "//", endpoint) == base + "//" + endpoint
    ensures JoinUrl(base, "//" + endpoint) == base + "//" + endpoint
  {
    DoubledTrailing(base);
    DoubledLeading(endpoint);
    assert base + "/" + "/" + endpoint == base + "//" + endpoint;
    assert base + "/" + ("/" + endpoint) == base + "//" + endpoint;
  }

  lemma DoubledTrailing(base: string)
    ensures DropTrailingSlash(base + "//") == base + "/"
  {
    assert (base + "//")[..|base| + 1] == base + "/";
  }

  lemma DoubledLeading(endpoint: string)
    ensures DropLeadingSlash("//" + endpoint) == "/" + endpoint
  {
    assert ("//" + endpoint)[1..] == "/" + endpoint;
  }

  /** The endpoint can be read back from the joined address: two endpoints give the same address
      exactly when they agree after removing one leading slash. */
  lemma JoinDeterminesEndpoint(base: string, e1: string, e2: string)
    ensures JoinUrl(base, e1) == JoinUrl(base, e2) <==> DropLeadingSlash(e1) == DropLeadingSlash(e2)
  {
    var b := DropTrailingSlash(base);
    if JoinUrl(base, e1) == JoinUrl(base, e2) {
      assert JoinUrl(base, e1)[|b| + 1..] == JoinUrl(base, e2)[|b| + 1..];
    }
  }

  /** With no environment value every address starts with the default host followed by one slash. */
  lemma DefaultAddress(endpoint: string)
    requires !StartsWithSlash(endpoint)
    ensures BuildApiUrl(None, endpoint) == DefaultApiBaseUrl + "/" + endpoint
  {
    assert !EndsWithSlash(DefaultApiBaseUrl) by {
      assert DefaultApiBaseUrl[|DefaultApiBaseUrl| - 1] == 't';
    }
  }
}
