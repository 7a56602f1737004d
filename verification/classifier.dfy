/**
 * Request classification: four independent tags, three from testing the URL
 * path against the configured patterns and one from the `Upgrade` header.
 * Every tag is computed on its own; none implies or excludes another.
 */
module Classifier {
  import opened Wrappers
  import opened Text
  import opened HeaderMaps
  import opened Patterns
  import opened Config

  datatype Tags = Tags(isStatic: bool, isVideo: bool, isApiCacheable: bool, isWebSocket: bool)

  /** The tags of a request with path `pathname` and headers `headers`. */
  function Classify(pathname: string, headers: Fields): (t: Tags)
    ensures t.isStatic <==> Test(StaticRegex, pathname)
    ensures t.isVideo <==> Test(VideoRegex, pathname)
    ensures t.isApiCacheable <==> Test(ApiCacheRegex, pathname)
    ensures t.isWebSocket <==> Lookup(headers, "Upgrade") == Some("websocket")
  {
    SearchCorrect(StaticRegex, pathname);
    SearchCorrect(VideoRegex, pathname);
    SearchCorrect(ApiCacheRegex, pathname);
    Tags(Search(StaticRegex, pathname), Search(VideoRegex, pathname), Search(ApiCacheRegex, pathname),
         Lookup(headers, "Upgrade") == Some("websocket"))
  }

  /** The patterns are unanchored: ".js" also matches inside "/foo.json". */
  lemma JsonPathIsStatic(headers: Fields)
    ensures Classify("/foo.json", headers).isStatic
  {
    var s := "/foo.json";
    assert s[4..5] == "." && s[5..7] == "js";
    assert Span(Lit("."), s, 4, 5);
    assert StaticExtensions[5] == "js";
    assert Span(Lit("js"), s, 5, 7);
    SpanChoice(StaticExtensions, 5, s, 5, 7);
    assert Span(Cat(Lit("."), Choice(StaticExtensions)), s, 4, 7);
    assert Span(StaticRegex, s, 4, 7);
  }

  /** One path may carry several tags: a download below a user's items is video and API-cacheable. */
  lemma UserItemDownloadTags(headers: Fields)
    ensures var t := Classify(UserItemDownload, headers);
            t.isVideo && t.isApiCacheable && !t.isStatic
  {
    UserItemDownloadIsVideo();
    UserItemDownloadIsApiCacheable();
    UserItemDownloadIsNotStatic();
  }

  /** A download below a user's items: it holds both a video and an API-cacheable pattern. */
  const UserItemDownload := "/Users/u/Items/x/Download"

  // "/Users/" at 0, "/Items/" at 8, "/Download" at 16; "u" and "x" hold no line terminator
  lemma UserItemDownloadPieces()
    ensures Span(Lit("/Users/"), UserItemDownload, 0, 7)
    ensures Span(Lit("/Items/"), UserItemDownload, 8, 15)
    ensures Span(Lit("/Download"), UserItemDownload, 16, 25)
    ensures Span(AnyRun, UserItemDownload, 7, 8) && Span(AnyRun, UserItemDownload, 15, 16)
  {
    var s := UserItemDownload;
    assert s[0..7] == "/Users/" && s[8..15] == "/Items/" && s[16..25] == "/Download";
  }

  // video: "/Items/" at 8, ".*" over "x", "/Download" at 16
  lemma UserItemDownloadIsVideo()
    ensures Test(VideoRegex, UserItemDownload)
  {
    var s := UserItemDownload;
    UserItemDownloadPieces();
    assert Span(Cat(AnyRun, Lit("/Download")), s, 15, 25);
    assert Span(Cat(Lit("/Items/"), Cat(AnyRun, Lit("/Download"))), s, 8, 25);
    assert Span(VideoRegex, s, 8, 25);
  }

  // API-cacheable: "/Users/" at 0, ".*" over "u", "/Items/" at 8
  lemma UserItemDownloadIsApiCacheable()
    ensures Test(ApiCacheRegex, UserItemDownload)
  {
    var s := UserItemDownload;
    UserItemDownloadPieces();
    assert Span(Cat(AnyRun, Lit("/Items/")), s, 7, 15);
    assert Span(Cat(Lit("/Users/"), Cat(AnyRun, Lit("/Items/"))), s, 0, 15);
    assert Span(ApiCacheRegex, s, 0, 15);
  }

  // not static: the path has no '.' and no 'g' (which "/Images/" needs)
  lemma UserItemDownloadIsNotStatic()
    ensures !Test(StaticRegex, UserItemDownload)
  {
    var s := UserItemDownload;
    LitAbsent(".", 0, s);
    LitAbsent("/Images/", 4, s);
    NotStatic(s);
  }

  /** The static pattern fails when neither its '.' branch nor its "/Images/" branch can start. */
  lemma NotStatic(s: string)
    requires !Test(Lit("."), s) && !Test(Lit("/Images/"), s)
    ensures !Test(StaticRegex, s)
  {
    TestAlt(Cat(Lit("."), Choice(StaticExtensions)), Cat(Lit("/Images/"), Choice(ImageRoutes)), s);
    if Test(Cat(Lit("."), Choice(StaticExtensions)), s) {
      TestCat(Lit("."), Choice(StaticExtensions), s);
    }
    if Test(Cat(Lit("/Images/"), Choice(ImageRoutes)), s) {
      TestCat(Lit("/Images/"), Choice(ImageRoutes), s);
    }
  }

  /** A path matching no pattern gets no path tag. */
  lemma PlainPathTags(headers: Fields)
    ensures var t := Classify("/Sessions/Playing", headers);
            !t.isStatic && !t.isVideo && !t.isApiCacheable
  {
    PlainPathNotStatic();
    PlainPathNotVideo();
    PlainPathNotApiCacheable();
  }

  // "/Sessions/Playing" has no '.', no 'm' (in "/Images/" and "/Items/"), no 'v' (in "/Videos/")
  // and no 'u' (in "/Users/")

  lemma PlainPathNotStatic()
    ensures !Test(StaticRegex, "/Sessions/Playing")
  {
    LitAbsent(".", 0, "/Sessions/Playing");
    LitAbsent("/Images/", 2, "/Sessions/Playing");
    NotStatic("/Sessions/Playing");
  }

  lemma PlainPathNotVideo()
    ensures !Test(VideoRegex, "/Sessions/Playing")
  {
    LitAbsent("/Videos/", 1, "/Sessions/Playing");
    LitAbsent("/Items/", 4, "/Sessions/Playing");
    NotVideo("/Sessions/Playing");
  }

  lemma PlainPathNotApiCacheable()
    ensures !Test(ApiCacheRegex, "/Sessions/Playing")
  {
    LitAbsent("/Items/Resume", 4, "/Sessions/Playing");
    LitAbsent("/Users/", 1, "/Sessions/Playing");
    NotApiCacheable("/Sessions/Playing");
  }

  /** The video pattern fails when none of its three branches can start. */
  lemma NotVideo(s: string)
    requires !Test(Lit("/Videos/"), s) && !Test(Lit("/Items/"), s)
    ensures !Test(VideoRegex, s)
  {
    var download := Cat(Lit("/Items/"), Cat(AnyRun, Lit("/Download")));
    var stream := Cat(Lit("/Items/"), Cat(AnyRun, Lit("/Stream")));
    TestAlt(Lit("/Videos/"), Alt(download, stream), s);
    TestAlt(download, stream, s);
    if Test(download, s) {
      TestCat(Lit("/Items/"), Cat(AnyRun, Lit("/Download")), s);
    }
    if Test(stream, s) {
      TestCat(Lit("/Items/"), Cat(AnyRun, Lit("/Stream")), s);
    }
  }

  /** The API-cacheable pattern fails when neither of its branches can start. */
  lemma NotApiCacheable(s: string)
    requires !Test(Lit("/Items/Resume"), s) && !Test(Lit("/Users/"), s)
    ensures !Test(ApiCacheRegex, s)
  {
    var users := Cat(Lit("/Users/"), Cat(AnyRun, Lit("/Items/")));
    TestAlt(Lit("/Items/Resume"), users, s);
    if Test(users, s) {
      TestCat(Lit("/Users/"), Cat(AnyRun, Lit("/Items/")), s);
    }
  }

  /**
   * The static pattern read as substrings of the lower-cased path: a '.' followed
   * by one of the extensions, or "/images/" followed by one of the image routes.
   */
  lemma StaticBySubstrings(pathname: string, headers: Fields)
    ensures Classify(pathname, headers).isStatic <==>
            OccursOneOf(pathname, ".", StaticExtensions) || OccursOneOf(pathname, "/Images/", ImageRoutes)
  {
    TestAlt(Cat(Lit("."), Choice(StaticExtensions)), Cat(Lit("/Images/"), Choice(ImageRoutes)), pathname);
    LitChoiceCorrect(".", StaticExtensions, pathname);
    LitChoiceCorrect("/Images/", ImageRoutes, pathname);
  }

  /** The video pattern read as substrings of the lower-cased path (what `VIDEO_REGEX` means). */
  lemma VideoBySubstrings(pathname: string, headers: Fields)
    ensures Classify(pathname, headers).isVideo <==>
            || Contains(Fold(pathname), "/videos/")
            || GapOccurs(pathname, "/Items/", "/Download")
            || GapOccurs(pathname, "/Items/", "/Stream")
  {
    var download := Cat(Lit("/Items/"), Cat(AnyRun, Lit("/Download")));
    var stream := Cat(Lit("/Items/"), Cat(AnyRun, Lit("/Stream")));
    TestAlt(Lit("/Videos/"), Alt(download, stream), pathname);
    TestAlt(download, stream, pathname);
    TestLitContains("/Videos/", pathname);
    assert Fold("/Videos/") == "/videos/";
    GapCorrect("/Items/", "/Download", pathname);
    GapCorrect("/Items/", "/Stream", pathname);
  }

  /** The API-cacheable pattern read as substrings of the lower-cased path. */
  lemma ApiCacheableBySubstrings(pathname: string, headers: Fields)
    ensures Classify(pathname, headers).isApiCacheable <==>
            Contains(Fold(pathname), "/items/resume") || GapOccurs(pathname, "/Users/", "/Items/")
  {
    TestAlt(Lit("/Items/Resume"), Cat(Lit("/Users/"), Cat(AnyRun, Lit("/Items/"))), pathname);
    TestLitContains("/Items/Resume", pathname);
    assert Fold("/Items/Resume") == "/items/resume";
    GapCorrect("/Users/", "/Items/", pathname);
  }
}
