/**
 * The memoised lookup of the application icon that both
 * MacNotificationHandler and Client perform before building a script.
 */
module IconCache {
  import opened Wrappers

  /**
   * What looking up the class-path resource "app.icns" yields on one call:
   * no resource, a file: URL (its local path), any other URL whose stream was
   * copied to a temporary file (that file's path), or an exception while
   * converting the URL or copying it.
   */
  datatype IconLookup = Missing | FileUrl(path: string) | JarUrl(tempPath: string) | Fails

  /** The lookups that produce a usable icon file. */
  predicate IsSuccess(lookup: IconLookup) {
    lookup.FileUrl? || lookup.JarUrl?
  }

  /** The icon file a successful lookup produces. */
  function PathOf(lookup: IconLookup): string
    requires IsSuccess(lookup)
  {
    if lookup.FileUrl? then lookup.path else lookup.tempPath
  }

  /** One call of resolveAppIconPath: what it returns, the cache afterwards, and whether it looked the resource up. */
  datatype Resolution = Resolution(result: Option<string>, cache: Option<string>, consulted: bool)

  /**
   * resolveAppIconPath with the cache `cache`, where `lookup` is what the
   * class path would yield if it were consulted.
   */
  function Resolve(cache: Option<string>, lookup: IconLookup): (r: Resolution)
    // the value returned is always the value cached afterwards
    ensures r.result == r.cache
    // the class path is consulted exactly when nothing is cached
    ensures r.consulted <==> cache.None?
    // a cached value is returned unchanged and stays cached
    ensures cache.Some? ==> r.cache == cache
    // on a miss, the cache is filled exactly when the lookup succeeds, with its path
    ensures cache.None? ==> (r.cache.Some? <==> IsSuccess(lookup))
    ensures cache.None? && IsSuccess(lookup) ==> r.cache == Some(PathOf(lookup))
  {
    if cache.Some? then Resolution(cache, cache, false)
    else
      match lookup
      case Missing => Resolution(None, None, true)
      case FileUrl(path) => Resolution(Some(path), Some(path), true)
      case JarUrl(tempPath) => Resolution(Some(tempPath), Some(tempPath), true)
      case Fails => Resolution(None, None, true)
  }

  /**
   * The values a run of calls returns, starting from `cache`, when the i-th
   * call would see `lookups[i]` if it consulted the class path.
   */
  function ResolveEach(cache: Option<string>, lookups: seq<IconLookup>): (results: seq<Option<string>>)
    ensures |results| == |lookups|
    decreases |lookups|
  {
    if lookups == [] then []
    else
      var r := Resolve(cache, lookups[0]);
      [r.result] + ResolveEach(r.cache, lookups[1..])
  }

  /** How many calls of such a run consult the class path. */
  function Consultations(cache: Option<string>, lookups: seq<IconLookup>): nat
    decreases |lookups|
  {
    if lookups == [] then 0
    else
      var r := Resolve(cache, lookups[0]);
      (if r.consulted then 1 else 0) + Consultations(r.cache, lookups[1..])
  }

  /** Once a path is cached, every later call returns it and none consults the class path. */
  lemma {:induction false} CachedPathIsStable(path: string, lookups: seq<IconLookup>)
    ensures forall i :: 0 <= i < |lookups| ==> ResolveEach(Some(path), lookups)[i] == Some(path)
    ensures Consultations(Some(path), lookups) == 0
  {
    if lookups != [] {
      CachedPathIsStable(path, lookups[1..]);
    }
  }

  /**
   * Starting empty, the calls before the first successful lookup all return
   * None (missing resources and failures are not cached and are retried),
   * and from that call on every call returns the path it produced; the
   * class path is consulted exactly up to and including that call.
   */
  lemma {:induction false} FirstSuccessIsMemoised(lookups: seq<IconLookup>, k: nat)
    requires k < |lookups| && IsSuccess(lookups[k])
    requires forall j :: 0 <= j < k ==> !IsSuccess(lookups[j])
    ensures forall j :: 0 <= j < k ==> ResolveEach(None, lookups)[j] == None
    ensures forall j :: k <= j < |lookups| ==> ResolveEach(None, lookups)[j] == Some(PathOf(lookups[k]))
    ensures Consultations(None, lookups) == k + 1
  {
    if k == 0 {
      CachedPathIsStable(PathOf(lookups[0]), lookups[1..]);
    } else {
      FirstSuccessIsMemoised(lookups[1..], k - 1);
    }
  }

  /** Starting empty, if no lookup succeeds then every call returns None and every call consults the class path. */
  lemma {:induction false} NoSuccessNeverCaches(lookups: seq<IconLookup>)
    requires forall j :: 0 <= j < |lookups| ==> !IsSuccess(lookups[j])
    ensures forall j :: 0 <= j < |lookups| ==> ResolveEach(None, lookups)[j] == None
    ensures Consultations(None, lookups) == |lookups|
  {
    if lookups != [] {
      NoSuccessNeverCaches(lookups[1..]);
    }
  }
}
