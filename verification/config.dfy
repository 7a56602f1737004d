/**
 * The process-wide `CONFIG` object: the upstream origin, the three
 * classification patterns and the timeout of the first attempt. Nothing in it
 * changes after start-up, so every request handler reads the same constants.
 */
module Config {
  import opened Wrappers
  import opened Text
  import opened Urls
  import opened Patterns

  /** `CONFIG.UPSTREAM_URL` as written. */
  const UpstreamSource := "https://your-emby-server.com"

  const UpstreamHost := "your-emby-server.com"

  /** The upstream origin as the URL parser reads `UpstreamSource`. */
  const UpstreamUrl := Url("https", UpstreamHost, None, "/", "")

  lemma UpstreamHostValid()
    ensures ValidHost(UpstreamHost) && IsFolded(UpstreamHost)
  {
  }

  /** `UpstreamUrl` is what `new URL(CONFIG.UPSTREAM_URL)` yields, whatever the base. */
  lemma UpstreamParses(base: Url)
    ensures Resolve(UpstreamSource, base) == Some(UpstreamUrl)
  {
    UpstreamHostValid();
    ResolveOrigin(UpstreamSource, "https", UpstreamHost, base);
  }

  /** `CONFIG.API_TIMEOUT`, in milliseconds. */
  const ApiTimeout: nat := 2500

  const StaticExtensions := ["jpg", "jpeg", "png", "gif", "css", "js", "ico", "svg", "webp", "woff", "woff2"]

  const ImageRoutes := ["Primary", "Backdrop", "Logo", "Thumb", "Banner", "Art"]

  /** `CONFIG.STATIC_REGEX`: `/(\.(jpg|...|woff2)|(\/Images\/(Primary|...|Art)))/i`. */
  const StaticRegex := Alt(Cat(Lit("."), Choice(StaticExtensions)), Cat(Lit("/Images/"), Choice(ImageRoutes)))

  /** `CONFIG.VIDEO_REGEX`: `/(\/Videos\/|\/Items\/.*\/Download|\/Items\/.*\/Stream)/i`. */
  const VideoRegex := Alt(Lit("/Videos/"),
                          Alt(Cat(Lit("/Items/"), Cat(AnyRun, Lit("/Download"))),
                              Cat(Lit("/Items/"), Cat(AnyRun, Lit("/Stream")))))

  /** `CONFIG.API_CACHE_REGEX`: `/(\/Items\/Resume|\/Users\/.*\/Items\/)/i`. */
  const ApiCacheRegex := Alt(Lit("/Items/Resume"), Cat(Lit("/Users/"), Cat(AnyRun, Lit("/Items/"))))
}
