/**
 * Where a payload's image lives under the storage root, and the public URL
 * under which it is served.
 *
 * Paths are relative to the storage root and use `/` as separator: an
 * activation-code payload is stored under its code (content-addressed),
 * every other payload under the time of the request (time-addressed). The
 * clock reading `now` (milliseconds, `Date.now()`) is a parameter.
 */
module StoragePaths {
  import opened Common
  import opened JsStrings
  import opened Activation

  predicate StartsWith(s: string, prefix: string) {
    |prefix| <= |s| && s[..|prefix|] == prefix
  }

  /** `getStoragePath(data)`, relative to the storage root. */
  function GetStoragePath(d: Payload, now: nat): (path: string)
  {
    if IsLPAData(d) then
      var code := ExtractActivationCode(d);
      if Truthy(code) then "activation_code/" + code.value + ".png"
      else "activation_code/LPA_" + NatToString(now) + ".png"
    else
      "general/qr_" + NatToString(now) + ".png"
  }

  /** An LPA payload with a non-empty code has one path, whatever the clock
      says: `activation_code/<code>.png`. */
  lemma ContentAddressed(d: Payload, t1: nat, t2: nat)
    requires Truthy(ExtractActivationCode(d))
    ensures GetStoragePath(d, t1) == GetStoragePath(d, t2)
    ensures GetStoragePath(d, t1) == "activation_code/" + ExtractActivationCode(d).value + ".png"
  {
  }

  /** Every other payload is stored under the clock reading, so requests at
      distinct instants get distinct paths. */
  lemma TimeAddressed(d: Payload, t1: nat, t2: nat)
    requires !Truthy(ExtractActivationCode(d))
    requires t1 != t2
    ensures GetStoragePath(d, t1) != GetStoragePath(d, t2)
  {
    var dir := if IsLPAData(d) then "activation_code/LPA_" else "general/qr_";
    var n1, n2 := NatToString(t1), NatToString(t2);
    var p1, p2 := dir + n1 + ".png", dir + n2 + ".png";
    assert GetStoragePath(d, t1) == p1 && GetStoragePath(d, t2) == p2;
    assert n1 == p1[|dir|..|p1| - 4];
    assert n2 == p2[|dir|..|p2| - 4];
    NatToStringValue(t1);
    NatToStringValue(t2);
  }

  /** A payload without a code is stored under the clock reading itself:
      the characters between the directory prefix and `.png` are the
      decimal digits of `now`. */
  lemma ClockInPath(d: Payload, now: nat)
    requires !Truthy(ExtractActivationCode(d))
    ensures var dir := if IsLPAData(d) then "activation_code/LPA_" else "general/qr_";
      var p := GetStoragePath(d, now);
      && |dir| + 4 <= |p|
      && p[..|dir|] == dir
      && p[|p| - 4..] == ".png"
      && DecimalValue(p[|dir|..|p| - 4]) == now
  {
    var dir := if IsLPAData(d) then "activation_code/LPA_" else "general/qr_";
    var n := NatToString(now);
    var p := dir + n + ".png";
    assert GetStoragePath(d, now) == p;
    assert p[|dir|..|p| - 4] == n;
    assert p[..|dir|] == dir;
    NatToStringValue(now);
  }

  lemma StartsWithConcat(a: string, b: string, c: string)
    ensures StartsWith(a + b + c, a)
  {
    assert (a + b + c)[..|a|] == a;
  }

  /** Prefixes that differ in their first character exclude each other. */
  lemma PrefixExcludes(p: string, a: string, b: string)
    requires StartsWith(p, a) && a != [] && b != [] && a[0] != b[0]
    ensures !StartsWith(p, b)
  {
    assert p[0] == a[0];
  }

  lemma LPADirectory(d: Payload, now: nat)
    requires IsLPAData(d)
    ensures StartsWith(GetStoragePath(d, now), "activation_code/")
    ensures !StartsWith(GetStoragePath(d, now), "general/")
  {
    var code := ExtractActivationCode(d);
    var name := if Truthy(code) then code.value else "LPA_" + NatToString(now);
    var p := "activation_code/" + name + ".png";
    assert GetStoragePath(d, now) == p;
    StartsWithConcat("activation_code/", name, ".png");
    PrefixExcludes(p, "activation_code/", "general/");
  }

  lemma GeneralDirectory(d: Payload, now: nat)
    requires !IsLPAData(d)
    ensures StartsWith(GetStoragePath(d, now), "general/")
    ensures !StartsWith(GetStoragePath(d, now), "activation_code/")
  {
    var p := "general/qr_" + NatToString(now) + ".png";
    assert GetStoragePath(d, now) == p;
    StartsWithConcat("general/", "qr_" + NatToString(now), ".png");
    assert "general/" + ("qr_" + NatToString(now)) + ".png" == p;
    PrefixExcludes(p, "general/", "activation_code/");
  }

  /** The directory tells the classification: `activation_code/` exactly for
      LPA data, `general/` for everything else. */
  lemma DirectoryMatchesClass(d: Payload, now: nat)
    ensures StartsWith(GetStoragePath(d, now), "activation_code/") <==> IsLPAData(d)
    ensures StartsWith(GetStoragePath(d, now), "general/") <==> !IsLPAData(d)
  {
    if IsLPAData(d) { LPADirectory(d, now); } else { GeneralDirectory(d, now); }
  }

  /** `url.replace(/\/$/, "")`: removes one trailing `/`, if any. */
  function StripTrailingSlash(url: string): (r: string)
    ensures StartsWith(url, r)
    ensures |url| - |r| == if url != [] && url[|url| - 1] == '/' then 1 else 0
  {
    if url != [] && url[|url| - 1] == '/' then url[..|url| - 1] else url
  }

  /** `getPublicUrl(filePath, baseUrl)` with `process.env.BASE_URL` as
      `envBaseUrl`; `relative` is the file's path relative to the storage
      root. */
  function GetPublicUrl(relative: string, baseUrl: Option<string>, envBaseUrl: Option<string>): (url: string)
  {
    var storagePath := "/storage/" + ReplaceAll(relative, '\\', '/');
    if Truthy(baseUrl) then StripTrailingSlash(baseUrl.value) + storagePath
    else if Truthy(envBaseUrl) then StripTrailingSlash(envBaseUrl.value) + storagePath
    else storagePath
  }

  /** Every public URL is a base without its trailing `/`, or no base,
      followed by the same bare `/storage/...` URL, whose path part holds no
      backslash. The explicit base wins over the configured one, and an
      absent or empty explicit base defers to it. */
  lemma PublicUrlShape(relative: string, baseUrl: Option<string>, envBaseUrl: Option<string>)
    ensures var bare := GetPublicUrl(relative, None, None);
      && StartsWith(bare, "/storage/")
      && |bare| == 9 + |relative|
      && (forall k :: 9 <= k < |bare| ==> bare[k] != '\\')
    ensures var url, bare := GetPublicUrl(relative, baseUrl, envBaseUrl), GetPublicUrl(relative, None, None);
      && (Truthy(baseUrl) ==> url == StripTrailingSlash(baseUrl.value) + bare)
      && (!Truthy(baseUrl) && Truthy(envBaseUrl) ==> url == StripTrailingSlash(envBaseUrl.value) + bare)
      && (!Truthy(baseUrl) && !Truthy(envBaseUrl) ==> url == bare)
    ensures Truthy(baseUrl) ==> forall e :: GetPublicUrl(relative, baseUrl, e) == GetPublicUrl(relative, baseUrl, envBaseUrl)
    ensures !Truthy(baseUrl) ==> GetPublicUrl(relative, baseUrl, envBaseUrl) == GetPublicUrl(relative, None, envBaseUrl)
  {
    var bare := GetPublicUrl(relative, None, None);
    var r := ReplaceAll(relative, '\\', '/');
    assert bare == "/storage/" + r;
    forall k | 9 <= k < |bare| ensures bare[k] != '\\' {
      assert bare[k] == r[k - 9];
    }
  }

  /** For a path without backslashes the bare URL is `/storage/` followed by
      the path itself, which can be read back from it. */
  lemma BareUrlRoundTrip(relative: string)
    requires '\\' !in relative
    ensures GetPublicUrl(relative, None, None)[9..] == relative
  {
    var r := ReplaceAll(relative, '\\', '/');
    assert r == relative;
  }
}
