/**
 * The `cf` record attached to the outbound request: the per-request hints to
 * the Cloudflare edge about caching and content optimisation.
 */
module Policy {
  import opened Wrappers
  import opened Classifier

  datatype Minify = Minify(javascript: bool, css: bool, html: bool)

  datatype CfConfig = CfConfig(
    cacheEverything: bool,
    cacheTtl: nat,
    cacheTtlByStatus: Option<map<string, int>>,
    polish: string,
    minify: Minify,
    mirage: bool,
    scrapeShield: bool,
    apps: bool)

  /** One year, in seconds: the edge lifetime of a static asset. */
  const YearSeconds: nat := 31536000

  /** The micro-cache of API answers: ten seconds for any 2xx status. */
  const MicroCache: map<string, int> := map["200-299" := 10]

  /** Every hint that enables a cache lifetime also enables caching, and the optimisations go together. */
  predicate Coherent(cf: CfConfig)
  {
    && (cf.cacheTtl > 0 || cf.cacheTtlByStatus.Some? ==> cf.cacheEverything)
    && (cf.polish == "lossy" <==> cf.minify == Minify(true, true, true))
    && (cf.polish == "lossy" || cf.polish == "off")
    && !cf.mirage && !cf.scrapeShield && !cf.apps
  }

  /** The record a request with these tags ends up with, the API override applied. */
  function Hints(tags: Tags): CfConfig
  {
    CfConfig(
      cacheEverything := tags.isStatic || tags.isApiCacheable,
      cacheTtl := if tags.isStatic then YearSeconds else 0,
      cacheTtlByStatus := if tags.isApiCacheable then Some(MicroCache) else None,
      polish := if tags.isStatic then "lossy" else "off",
      minify := Minify(tags.isStatic, tags.isStatic, tags.isStatic),
      mirage := false,
      scrapeShield := false,
      apps := false)
  }

  /**
   * Builds the record from the tags: the literal first, then the override that
   * turns on `cacheEverything` for the micro-cached API paths.
   */
  method BuildPolicy(tags: Tags) returns (cf: CfConfig)
    ensures cf.cacheEverything <==> tags.isStatic || tags.isApiCacheable
    ensures cf.cacheTtl == if tags.isStatic then YearSeconds else 0
    ensures cf.cacheTtlByStatus == if tags.isApiCacheable then Some(MicroCache) else None
    ensures cf.polish == (if tags.isStatic then "lossy" else "off")
    ensures cf.minify == Minify(tags.isStatic, tags.isStatic, tags.isStatic)
    ensures !cf.mirage && !cf.scrapeShield && !cf.apps
    ensures Coherent(cf)
    ensures cf == Hints(tags)
  {
    cf := CfConfig(
      cacheEverything := tags.isStatic,
      cacheTtl := if tags.isStatic then YearSeconds else 0,
      cacheTtlByStatus := if tags.isApiCacheable then Some(MicroCache) else None,
      polish := if tags.isStatic then "lossy" else "off",
      minify := Minify(tags.isStatic, tags.isStatic, tags.isStatic),
      mirage := false,
      scrapeShield := false,
      apps := false);
    if tags.isApiCacheable {
      cf := cf.(cacheEverything := true);
    }
  }
}
