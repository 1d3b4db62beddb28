/** URL normalisation: asset paths (`src/config.js`) and the two rules the
    pages use to give an outside link a scheme. */
module Links {
  import opened Common

  /** The asset host used when no environment override is set. */
  const DefaultAssetBase := "http://localhost:5000"

  /** `getAssetUrl(path)` against an asset base. */
  function AssetUrl(base: string, path: Option<string>): (r: string)
    ensures !Truthy(path) ==> r == ""
    ensures Truthy(path) && StartsWith(path.value, "http") ==> r == path.value
    ensures Truthy(path) && !StartsWith(path.value, "http") && StartsWith(path.value, "/") ==> r == base + path.value
    ensures Truthy(path) && !StartsWith(path.value, "http") && !StartsWith(path.value, "/") ==> r == base + "/" + path.value
  {
    if !Truthy(path) then ""
    else if StartsWith(path.value, "http") then path.value
    else base + (if StartsWith(path.value, "/") then path.value else "/" + path.value)
  }

  /** A relative path always lands under the base, separated by one slash. */
  lemma AssetUrlUnderBase(base: string, path: string)
    requires path != "" && !StartsWith(path, "http")
    ensures StartsWith(AssetUrl(base, Some(path)), base + "/")
  {
    var r := AssetUrl(base, Some(path));
    if StartsWith(path, "/") {
      assert path == "/" + path[1..];
      assert r == (base + "/") + path[1..];
    } else {
      assert r == (base + "/") + path;
    }
    StartsWithConcat(base + "/", r[|base| + 1..]);
  }

  /** Because the base itself starts with "http", normalising twice is the
      same as normalising once. */
  lemma AssetUrlIdempotent(base: string, path: Option<string>)
    requires StartsWith(base, "http")
    ensures AssetUrl(base, Some(AssetUrl(base, path))) == AssetUrl(base, path)
  {
    var r := AssetUrl(base, path);
    if Truthy(path) && !StartsWith(path.value, "http") {
      StartsWithExtend(base, "http", r[|base|..]);
      assert base + r[|base|..] == r;
    }
  }

  /** The default base meets that requirement. */
  lemma DefaultAssetBaseIsHttp()
    ensures StartsWith(DefaultAssetBase, "http")
  {
  }

  /** With a base that does not start with "http" the rule is not idempotent. */
  lemma AssetUrlNeedsHttpBase()
    ensures AssetUrl("cdn", Some(AssetUrl("cdn", Some("a")))) != AssetUrl("cdn", Some("a"))
  {
    assert !StartsWith("a", "http");
    assert !StartsWith("a", "/") by { assert "a"[..1][0] != "/"[0]; }
    assert AssetUrl("cdn", Some("a")) == "cdn/a";
    assert !StartsWith("cdn/a", "http") by { assert "cdn/a"[..4][0] != "http"[0]; }
    assert !StartsWith("cdn/a", "/") by { assert "cdn/a"[..1][0] != "/"[0]; }
    assert AssetUrl("cdn", Some("cdn/a")) == "cdn/cdn/a";
    assert |"cdn/cdn/a"| != |"cdn/a"|;
  }

  /** `url.startsWith('http') ? url : \`https://${url}\`` (checkout page and
      restaurant card). */
  function SafeUrl(url: string): (r: string)
    ensures StartsWith(r, "http")
    ensures StartsWith(url, "http") ==> r == url
    ensures !StartsWith(url, "http") ==> r == "https://" + url
  {
    if StartsWith(url, "http") then url else StartsWithConcat("https://", url); "https://" + url
  }

  lemma SafeUrlIdempotent(url: string)
    ensures SafeUrl(SafeUrl(url)) == SafeUrl(url)
  {
  }

  /** `ensureProtocol` of the search detail panel: empty stays empty, an
      `http://` or `https://` URL is kept, anything else gets `https://`. */
  function EnsureProtocol(url: Option<string>): (r: string)
    ensures !Truthy(url) ==> r == ""
    ensures Truthy(url) && (StartsWith(url.value, "http://") || StartsWith(url.value, "https://")) ==> r == url.value
    ensures Truthy(url) && !(StartsWith(url.value, "http://") || StartsWith(url.value, "https://")) ==> r == "https://" + url.value
  {
    if !Truthy(url) then ""
    else if StartsWith(url.value, "http://") || StartsWith(url.value, "https://") then url.value
    else "https://" + url.value
  }

  lemma EnsureProtocolIdempotent(url: Option<string>)
    ensures EnsureProtocol(Some(EnsureProtocol(url))) == EnsureProtocol(url)
  {
    if Truthy(url) && !(StartsWith(url.value, "http://") || StartsWith(url.value, "https://")) {
      StartsWithConcat("https://", url.value);
    }
  }

  /** A non-empty result of `ensureProtocol` always carries a scheme. */
  lemma EnsureProtocolHasScheme(url: Option<string>)
    requires Truthy(url)
    ensures StartsWith(EnsureProtocol(url), "http://") || StartsWith(EnsureProtocol(url), "https://")
  {
    if !(StartsWith(url.value, "http://") || StartsWith(url.value, "https://")) {
      StartsWithConcat("https://", url.value);
    }
  }

  /** The two rules agree on URLs that carry a scheme and on those that do
      not start with "http" at all; they differ on a host name that merely
      begins with "http", which only `ensureProtocol` prefixes. */
  lemma SchemeRulesCompared(url: string)
    requires url != ""
    ensures StartsWith(url, "http://") || StartsWith(url, "https://") || !StartsWith(url, "http") ==>
      SafeUrl(url) == EnsureProtocol(Some(url))
    ensures SafeUrl("httpbin.org") == "httpbin.org" && EnsureProtocol(Some("httpbin.org")) == "https://httpbin.org"
  {
    if StartsWith(url, "http://") {
      assert url[..4] == url[..7][..4];
    } else if StartsWith(url, "https://") {
      assert url[..4] == url[..8][..4];
    }
    assert StartsWith("httpbin.org", "http");
    assert !StartsWith("httpbin.org", "http://") by { assert "httpbin.org"[4] != "http://"[4]; }
    assert !StartsWith("httpbin.org", "https://") by { assert "httpbin.org"[4] != "https://"[4]; }
  }
}
