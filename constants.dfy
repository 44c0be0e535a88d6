/**
 * src/config/constants.ts: resolving a model path against the deployment's
 * base URL (`import.meta.env.BASE_URL`, fixed at build time and therefore a
 * parameter here).
 */
module Constants {
  import opened Strings

  /**
   * `modelAssetUrl(path)`: the base URL followed by the path, with exactly one
   * leading `/` of the path dropped so that the two do not double up.
   */
  function ModelAssetUrl(base: string, path: string): (r: string)
    ensures StartsWith(r, base)
    ensures |r| == |base| + |path| - (if StartsWith(path, "/") then 1 else 0)
    ensures StartsWith(path, "/") ==> r == base + path[1..]
    ensures !StartsWith(path, "/") ==> r == base + path
  {
    base + (if StartsWith(path, "/") then path[1..] else path)
  }

  /** A relative path and the same path written absolute give the same URL. */
  lemma AbsoluteAndRelativeAgree(base: string, p: string)
    requires !StartsWith(p, "/")
    ensures ModelAssetUrl(base, "/" + p) == ModelAssetUrl(base, p)
  {
    assert ("/" + p)[1..] == p;
  }

  /** Only one slash is dropped: `//x` keeps its second slash. */
  lemma OnlyOneSlashDropped(base: string, x: string)
    ensures ModelAssetUrl(base, "//" + x) == base + "/" + x
  {
    assert ("//" + x)[1..] == "/" + x;
  }

  /** The URL ends with whatever the path ends with, whatever the base. */
  lemma ModelAssetUrlEndsWith(base: string, path: string, suffix: string)
    requires EndsWith(path, suffix) && !StartsWith(suffix, "/") && |suffix| > 0
    ensures EndsWith(ModelAssetUrl(base, path), suffix)
  {
    if StartsWith(path, "/") {
      assert path[1..][|path[1..]| - |suffix|..] == path[|path| - |suffix|..];
      EndsWithAppend(base, path[1..], suffix);
    } else {
      EndsWithAppend(base, path, suffix);
    }
  }
}
