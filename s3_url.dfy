/** S3UrlService: the public URL under which a stored object (photo, event or
    block image) is served, built from the storage settings and the object key. */
module S3Url {
  import opened Common

  /** The injected settings `storage.s3.friendly-url-base`, `storage.s3.bucket-name`
      and `storage.s3.endpoint`. */
  datatype S3Settings = S3Settings(friendlyUrlBase: Option<string>, bucketName: string, endpoint: Option<string>)

  /** A setting is in use when it is non-null and not empty after Java's trim. */
  predicate IsConfigured(setting: Option<string>)
  {
    setting.Some? && Trim(setting.value) != []
  }

  /** The object key with at most one leading '/' removed. */
  function CleanKey(key: string): string
  {
    if StartsWith(key, "/") then key[1..] else key
  }

  function WithTrailingSlash(base: string): string
  {
    if EndsWith(base, "/") then base else base + "/"
  }

  /** `replaceFirst("^https?://", "")` on an endpoint starting with either scheme. */
  function StripScheme(endpoint: string): string
  {
    if StartsWith(endpoint, "http://") then endpoint[7..]
    else if StartsWith(endpoint, "https://") then endpoint[8..]
    else endpoint
  }

  lemma EndsWithConcat(a: string, b: string)
    ensures EndsWith(a + b, b)
  {
    assert (a + b)[|a|..] == b;
  }

  /** The part of the URL that precedes the cleaned key, when a base is in use. */
  function UrlPrefix(settings: S3Settings): (p: Option<string>)
    ensures p.Some? <==> IsConfigured(settings.friendlyUrlBase) || IsConfigured(settings.endpoint)
    ensures p.Some? ==> EndsWith(p.value, "/" + settings.bucketName + "/")
  {
    if IsConfigured(settings.friendlyUrlBase) then
      var base := WithTrailingSlash(Trim(settings.friendlyUrlBase.value));
      assert base == base[..|base| - 1] + "/";
      assert base + settings.bucketName + "/" == base[..|base| - 1] + ("/" + settings.bucketName + "/");
      EndsWithConcat(base[..|base| - 1], "/" + settings.bucketName + "/");
      Some(base + settings.bucketName + "/")
    else if IsConfigured(settings.endpoint) then
      var host := "https://" + StripScheme(Trim(settings.endpoint.value));
      assert host + "/" + settings.bucketName + "/" == host + ("/" + settings.bucketName + "/");
      EndsWithConcat(host, "/" + settings.bucketName + "/");
      Some(host + "/" + settings.bucketName + "/")
    else
      None
  }

  /** S3UrlService.getPublicUrl. */
  function PublicUrl(settings: S3Settings, objectKey: Option<string>): (r: Option<string>)
    ensures r.None? <==>
      || objectKey.None? || objectKey.value == []
      || (!IsConfigured(settings.friendlyUrlBase) && !IsConfigured(settings.endpoint))
    ensures r.Some? ==> EndsWith(r.value, "/" + settings.bucketName + "/" + CleanKey(objectKey.value))
  {
    if objectKey.None? || objectKey.value == [] then None
    else
      match UrlPrefix(settings)
      case None => None
      case Some(prefix) =>
        var key := CleanKey(objectKey.value);
        var tail := "/" + settings.bucketName + "/";
        assert prefix[|prefix| - |tail|..] + key == (prefix + key)[|prefix + key| - |tail + key|..];
        Some(prefix + key)
  }

  /** With a usable friendly base the URL is the trimmed base, a '/' if it lacked one,
      the bucket, a '/', and the key without its leading '/'. */
  lemma FriendlyBaseUrl(settings: S3Settings, key: string)
    requires key != [] && IsConfigured(settings.friendlyUrlBase)
    ensures
      var base := Trim(settings.friendlyUrlBase.value);
      && EndsWith(WithTrailingSlash(base), "/")
      && PublicUrl(settings, Some(key)) == Some(WithTrailingSlash(base) + settings.bucketName + "/" + CleanKey(key))
  {
    var base := Trim(settings.friendlyUrlBase.value);
    assert WithTrailingSlash(base)[|WithTrailingSlash(base)| - 1] == '/';
  }

  /** A usable friendly base wins: the endpoint setting then has no influence. */
  lemma FriendlyBaseTakesPrecedence(settings: S3Settings, otherEndpoint: Option<string>, key: Option<string>)
    requires IsConfigured(settings.friendlyUrlBase)
    ensures PublicUrl(settings, key) == PublicUrl(settings.(endpoint := otherEndpoint), key)
  {
  }

  /** Without a usable friendly base the URL is "https://", the trimmed endpoint without its
      scheme, then "/" + bucket + "/" + the cleaned key. */
  lemma EndpointFallbackUrl(settings: S3Settings, key: string)
    requires key != [] && !IsConfigured(settings.friendlyUrlBase) && IsConfigured(settings.endpoint)
    ensures
      var endpoint := Trim(settings.endpoint.value);
      PublicUrl(settings, Some(key)) ==
        Some("https://" + StripScheme(endpoint) + "/" + settings.bucketName + "/" + CleanKey(key))
  {
  }

  /** Only one scheme prefix is removed from the endpoint, and nothing else. */
  lemma StripSchemeRemovesOnePrefix(endpoint: string)
    ensures
      var r := StripScheme(endpoint);
      || (StartsWith(endpoint, "http://") && endpoint == "http://" + r)
      || (StartsWith(endpoint, "https://") && endpoint == "https://" + r)
      || (!StartsWith(endpoint, "http://") && !StartsWith(endpoint, "https://") && r == endpoint)
  {
    var r := StripScheme(endpoint);
    if StartsWith(endpoint, "http://") {
      assert endpoint == endpoint[..7] + endpoint[7..];
    } else if StartsWith(endpoint, "https://") {
      assert endpoint == endpoint[..8] + endpoint[8..];
    }
  }

  /** A key and the same key behind one '/' name the same object. */
  lemma LeadingSlashIgnored(settings: S3Settings, key: string)
    requires key != [] && !StartsWith(key, "/")
    ensures PublicUrl(settings, Some("/" + key)) == PublicUrl(settings, Some(key))
  {
    assert ("/" + key)[1..] == key;
  }

  /** Only one leading '/' is dropped: a key behind two slashes keeps one. */
  lemma SecondLeadingSlashKept(settings: S3Settings, key: string)
    requires UrlPrefix(settings).Some?
    ensures PublicUrl(settings, Some("//" + key)) == Some(UrlPrefix(settings).value + "/" + key)
  {
    var k := "//" + key;
    var prefix := UrlPrefix(settings).value;
    assert k[..1] == "/" && k[1..] == "/" + key;
    assert CleanKey(k) == "/" + key;
    assert prefix + CleanKey(k) == prefix + "/" + key;
  }

  /** Two keys give the same URL only if they agree once a leading '/' is dropped:
      distinct objects are served under distinct URLs. */
  lemma {:induction false} DistinctKeysDistinctUrls(settings: S3Settings, key1: string, key2: string)
    requires PublicUrl(settings, Some(key1)).Some?
    requires PublicUrl(settings, Some(key1)) == PublicUrl(settings, Some(key2))
    ensures CleanKey(key1) == CleanKey(key2)
  {
    var prefix := UrlPrefix(settings).value;
    var url := prefix + CleanKey(key1);
    assert url == prefix + CleanKey(key2);
    assert CleanKey(key1) == url[|prefix|..];
    assert CleanKey(key2) == url[|prefix|..];
  }

  /** Unit-test case: neither a friendly base nor an endpoint gives no URL. */
  lemma NothingConfiguredExample()
    ensures PublicUrl(S3Settings(Some(""), "test-bucket", Some("")), Some("photo.jpg")) == None
  {
  }
}
