/** `imageUtils`: turning stored image paths into absolute URLs under `<base>/storage/`. */
module ImageUtils {
  import opened Text

  const DefaultImageBase := "https://" + "brihub.progesio.my.id"
  const StorageDir := "storage/"

  /** `getBaseUrl`: NEXT_PUBLIC_API_BASE_URL, or the production host when unset or empty. */
  function ImageBaseUrl(env: string): (base: string)
    ensures base != ""
    ensures env != "" ==> base == env
    ensures env == "" ==> base == DefaultImageBase
  {
    if env == "" then DefaultImageBase else env
  }

  predicate IsAbsolute(path: string) {
    StartsWith(path, "http://") || StartsWith(path, "https://")
  }

  /**
   * `formatImageUrl(path)`: "" for "", absolute URLs unchanged, and otherwise the
   * base URL, "/storage/", and the path with at most one leading '/' and at most one
   * leading "storage/" taken off.
   */
  function FormatImageUrl(env: string, path: string): (url: string)
    ensures path == "" ==> url == ""
    ensures IsAbsolute(path) ==> url == path
    ensures path != "" && !IsAbsolute(path) ==> StartsWith(url, ImageBaseUrl(env) + "/" + StorageDir)
    ensures path != "" && !IsAbsolute(path) && !StartsWith(path, "/") && !StartsWith(path, StorageDir) ==>
      url == ImageBaseUrl(env) + "/" + StorageDir + path
    ensures path != "" && !IsAbsolute(path) && StartsWith(path, "/") && !StartsWith(path[1..], StorageDir) ==>
      url == ImageBaseUrl(env) + "/" + StorageDir + path[1..]
    ensures path != "" && !IsAbsolute(path) && StartsWith(path, StorageDir) ==>
      url == ImageBaseUrl(env) + "/" + path
    ensures path != "" && !IsAbsolute(path) && StartsWith(path, "/") && StartsWith(path[1..], StorageDir) ==>
      url == ImageBaseUrl(env) + "/" + path[1..]
  {
    if path == "" then ""
    else if IsAbsolute(path) then path
    else
      var baseUrl := ImageBaseUrl(env);
      var cleanPath := if StartsWith(path, "/") then path[1..] else path;
      var storagePath := if StartsWith(cleanPath, StorageDir) then cleanPath else StorageDir + cleanPath;
      assert StartsWith(storagePath, StorageDir);
      StartsWithAppend(baseUrl + "/", storagePath, baseUrl + "/");
      assert baseUrl + "/" + storagePath == (baseUrl + "/") + storagePath;
      assert (baseUrl + "/" + storagePath)[..|baseUrl + "/" + StorageDir|] == baseUrl + "/" + StorageDir;
      baseUrl + "/" + storagePath
  }

  lemma DefaultBaseIsAbsolute()
    ensures IsAbsolute(ImageBaseUrl(""))
  {
    StartsWithAppend("https://", "brihub.progesio.my.id", "https://");
  }

  /** Formatting an already formatted URL changes nothing, given an absolute base URL. */
  lemma FormatImageUrlIdempotent(env: string, path: string)
    requires IsAbsolute(ImageBaseUrl(env))
    ensures FormatImageUrl(env, FormatImageUrl(env, path)) == FormatImageUrl(env, path)
  {
    var url := FormatImageUrl(env, path);
    if path != "" && !IsAbsolute(path) {
      var prefix := ImageBaseUrl(env) + "/" + StorageDir;
      var base := ImageBaseUrl(env);
      assert prefix == base + ("/" + StorageDir);
      if StartsWith(base, "http://") {
        StartsWithAppend(base, "/" + StorageDir, "http://");
        StartsWithShorter(url, prefix, "http://");
      } else {
        StartsWithAppend(base, "/" + StorageDir, "https://");
        StartsWithShorter(url, prefix, "https://");
      }
    }
  }

  /** The leading '/' is optional: a relative path gives the same URL with or without it. */
  lemma FormatImageUrlSlashOptional(env: string, path: string)
    requires path != "" && !IsAbsolute(path) && !StartsWith(path, "/")
    ensures FormatImageUrl(env, "/" + path) == FormatImageUrl(env, path)
  {
    var p := "/" + path;
    assert p[1..] == path;
    assert StartsWith(p, "/");
    assert !StartsWith(p, "http://") && !StartsWith(p, "https://");
  }

  /** The "storage/" prefix is optional too. */
  lemma FormatImageUrlStorageOptional(env: string, path: string)
    requires path != "" && !IsAbsolute(path) && !StartsWith(path, "/") && !StartsWith(path, StorageDir)
    ensures FormatImageUrl(env, StorageDir + path) == FormatImageUrl(env, path)
  {
    var p := StorageDir + path;
    assert p[..|StorageDir|] == StorageDir;
    assert p[0] == 's';
    assert !StartsWith(p, "http://") && !StartsWith(p, "https://") && !StartsWith(p, "/");
    assert ImageBaseUrl(env) + "/" + p == ImageBaseUrl(env) + "/" + StorageDir + path;
  }

  /** `formatImageUrls(paths)`: `paths.map(formatImageUrl)`. */
  function FormatImageUrls(env: string, paths: seq<string>): (urls: seq<string>)
    ensures |urls| == |paths|
    ensures forall i :: 0 <= i < |paths| ==> urls[i] == FormatImageUrl(env, paths[i])
    decreases |paths|
  {
    if paths == [] then [] else [FormatImageUrl(env, paths[0])] + FormatImageUrls(env, paths[1..])
  }

  /** What `JSON.parse` makes of the stored image list. */
  datatype ParsedJson = NotJson | JsonArray(items: seq<string>) | OtherJson

  /** `parseAndFormatImageList(json)`: the formatted list for a JSON array, [] for anything else. */
  function ParseAndFormatImageList(env: string, parsed: ParsedJson): (urls: seq<string>)
    ensures !parsed.JsonArray? ==> urls == []
    ensures parsed.JsonArray? ==> |urls| == |parsed.items|
    ensures parsed.JsonArray? ==> forall i :: 0 <= i < |urls| ==> urls[i] == FormatImageUrl(env, parsed.items[i])
  {
    match parsed
    case JsonArray(items) => FormatImageUrls(env, items)
    case _ => []
  }
}
