/**
 * The tags the plugin writes into every page head: webmaster verification
 * tags, one analytics snippet, the meta/Open Graph/Twitter tags of a
 * singular page, of the front page or of an archive, and the Facebook App
 * ID; and the filter that rewrites the parts of the document title.
 *
 * The head is the ordered list of items echoed. Escaping (`esc_attr`,
 * `esc_url`, `esc_js`) is left to the host: items carry the raw values they
 * are built from.
 */
module Head {
  import opened Text
  import opened Host

  // ---------------------------------------------------------------------------
  // Head items

  /** How a head item is keyed: `<meta name=...>`, `<meta property=...>` or `<link rel=...>`. */
  datatype Attr = Name | Property | Rel

  /** Every tag the plugin can emit into the head. */
  datatype Key =
    | GoogleVerification | BingVerification | YandexVerification | PinterestVerification
    | Description | Canonical | Robots | Keywords
    | OgTitle | OgDescription | OgUrl | OgType | OgSiteName
    | OgImage | OgImageWidth | OgImageHeight | OgImageAlt
    | TwitterCard | TwitterTitle | TwitterDescription | TwitterImage | TwitterImageAlt | TwitterSite
    | Author | PublishedTime | ModifiedTime | ArticleAuthor
    | FacebookAppId

  /** The attribute a tag is keyed by. */
  function AttrOf(k: Key): Attr {
    match k
    case Canonical => Rel
    case OgTitle | OgDescription | OgUrl | OgType | OgSiteName | OgImage | OgImageWidth | OgImageHeight | OgImageAlt | FacebookAppId => Property
    case _ => Name
  }

  /** The value of the keying attribute, as written into the HTML. */
  function KeyName(k: Key): string {
    match k
    case GoogleVerification => "google-site-verification"
    case BingVerification => "msvalidate.01"
    case YandexVerification => "yandex-verification"
    case PinterestVerification => "p:domain_verify"
    case Description => "description"
    case Canonical => "canonical"
    case Robots => "robots"
    case Keywords => "keywords"
    case OgTitle => "og:title"
    case OgDescription => "og:description"
    case OgUrl => "og:url"
    case OgType => "og:type"
    case OgSiteName => "og:site_name"
    case OgImage => "og:image"
    case OgImageWidth => "og:image:width"
    case OgImageHeight => "og:image:height"
    case OgImageAlt => "og:image:alt"
    case TwitterCard => "twitter:card"
    case TwitterTitle => "twitter:title"
    case TwitterDescription => "twitter:description"
    case TwitterImage => "twitter:image"
    case TwitterImageAlt => "twitter:image:alt"
    case TwitterSite => "twitter:site"
    case Author => "author"
    case PublishedTime => "article:published_time"
    case ModifiedTime => "article:modified_time"
    case ArticleAuthor => "article:author"
    case FacebookAppId => "fb:app_id"
  }

  /** The analytics snippets, each carrying the id it is configured with. */
  datatype Snippet = TagManager(containerId: string) | GlobalSiteTag(measurementId: string) | UniversalAnalytics(trackingId: string)

  /** One emitted head item: a keyed tag, an analytics script, or an HTML comment. */
  datatype Item = Tag(key: Key, content: string) | Script(snippet: Snippet) | Comment(text: string)

  const Banner := "This site is optimized with the SEOPlugin"

  /** The head has a `k` tag, and every `k` tag in it carries `v`. */
  ghost predicate Shows(items: seq<Item>, k: Key, v: string) {
    && Tag(k, v) in items
    && forall x :: x in items && x.Tag? && x.key == k ==> x.content == v
  }

  /** The head has no `k` tag. */
  ghost predicate Omits(items: seq<Item>, k: Key) {
    forall x :: x in items ==> !(x.Tag? && x.key == k)
  }

  /** The head shows `k` with the content `c` names, or omits `k` when `c` is `None`. */
  ghost predicate ShowsAs(items: seq<Item>, k: Key, c: Option<string>) {
    match c
    case Some(v) => Shows(items, k, v)
    case None => Omits(items, k)
  }

  /** The head has no analytics script. */
  ghost predicate NoScripts(items: seq<Item>) {
    forall x :: x in items ==> !x.Script?
  }

  /** `items` when `c` holds, nothing otherwise. */
  function When(c: bool, items: seq<Item>): seq<Item> {
    if c then items else []
  }

  // ---------------------------------------------------------------------------
  // Options, site data and page data the head reads

  /**
   * The stored options. An option stored without a default in the source
   * reads as "" when it does not exist; the two read with a default are
   * `Option`s; the three noindex switches are their truthiness.
   */
  datatype SiteOptions = SiteOptions(
    googleVerification: string,
    bingVerification: string,
    yandexVerification: string,
    pinterestVerification: string,
    googleAnalytics: string,
    googleTagManager: string,
    homepageTitle: Option<string>,
    homepageDescription: Option<string>,
    defaultOgImage: string,
    twitterUsername: string,
    facebookAppId: string,
    noindexCategories: bool,
    noindexTags: bool,
    noindexArchives: bool,
    separator: Option<string>)

  /** Site data from the host: `get_bloginfo('name')`, its tagline, `home_url('/')`, and the URL of the default image attachment. */
  datatype Site = Site(name: string, tagline: string, homeUrl: string, defaultOgImageUrl: string)

  /**
   * A singular post as the head sees it: its stored SEO meta ("" when
   * absent), the host's title, stripped excerpt, permalink and dates, and
   * what the host reports about the Open Graph image id (whether it is
   * numeric, the URL of that attachment, "" when there is none, and the
   * width and height of its metadata).
   */
  datatype PostView = PostView(
    metaTitle: string,
    metaDescription: string,
    ogImageId: string,
    robots: string,
    canonical: string,
    keywords: string,
    title: string,
    excerpt: string,
    permalink: string,
    ogImageNumeric: bool,
    attachmentUrl: string,
    imageWidth: string,
    imageHeight: string,
    authorName: string,
    publishedDate: string,
    modifiedDate: string)

  /** The term descriptions of a category or tag archive, as the host returns them. */
  datatype ArchiveView = ArchiveView(categoryDescription: string, tagDescription: string)

  // ---------------------------------------------------------------------------
  // Verification tags and analytics

  function VerificationTags(o: SiteOptions): seq<Item> {
    When(Truthy(o.googleVerification), [Tag(GoogleVerification, o.googleVerification)])
      + When(Truthy(o.bingVerification), [Tag(BingVerification, o.bingVerification)])
      + When(Truthy(o.yandexVerification), [Tag(YandexVerification, o.yandexVerification)])
      + When(Truthy(o.pinterestVerification), [Tag(PinterestVerification, o.pinterestVerification)])
  }

  /**
   * At most one analytics snippet: a Tag Manager container wins; otherwise a
   * Google Analytics id gets the GA4 snippet when it starts with `G-`, the
   * Universal Analytics snippet when it does not.
   */
  function AnalyticsSnippet(ga: string, gtm: string): (r: Option<Snippet>)
    ensures r.Some? <==> Truthy(gtm) || Truthy(ga)
    ensures r.Some? && r.value.TagManager? <==> Truthy(gtm)
    ensures r.Some? && r.value.GlobalSiteTag? <==> !Truthy(gtm) && Truthy(ga) && StartsWith(ga, "G-")
    ensures r.Some? && r.value.UniversalAnalytics? <==> !Truthy(gtm) && Truthy(ga) && !StartsWith(ga, "G-")
    ensures r.Some? && r.value.TagManager? ==> r.value.containerId == gtm
    ensures r.Some? && !r.value.TagManager? ==> (r.value.GlobalSiteTag? && r.value.measurementId == ga) || (r.value.UniversalAnalytics? && r.value.trackingId == ga)
  {
    if Truthy(gtm) then Some(TagManager(gtm))
    else if Truthy(ga) then
      if StartsWith(ga, "G-") then Some(GlobalSiteTag(ga)) else Some(UniversalAnalytics(ga))
    else None
  }

  /** With a Tag Manager container configured, the Google Analytics id does not matter. */
  lemma TagManagerPriority(ga1: string, ga2: string, gtm: string)
    requires Truthy(gtm)
    ensures AnalyticsSnippet(ga1, gtm) == AnalyticsSnippet(ga2, gtm)
  {
  }

  function AnalyticsItems(o: SiteOptions): seq<Item> {
    match AnalyticsSnippet(o.googleAnalytics, o.googleTagManager)
    case Some(s) => [Script(s)]
    case None => []
  }

  // ---------------------------------------------------------------------------
  // Singular pages

  /** The title: the stored SEO title, or the post title. */
  function SingularTitle(p: PostView): string {
    Elvis(p.metaTitle, p.title)
  }

  /** The description: the stored one, else the post title, else the stripped excerpt. */
  function SingularDescription(p: PostView): string {
    var d := Elvis(p.metaDescription, p.title);
    if Truthy(d) then d else p.excerpt
  }

  /** The canonical URL: the stored one, or the permalink. */
  function SingularCanonical(p: PostView): string {
    Elvis(p.canonical, p.permalink)
  }

  /** A numeric image id is looked up as an attachment; anything else is taken as a URL. */
  function OgImageUrl(p: PostView): string {
    if p.ogImageNumeric then p.attachmentUrl else p.ogImageId
  }

  /** The tags of a singular page, echo group by echo group, in the order they are echoed. */
  function SingularSegments(p: PostView, siteName: string): seq<seq<Item>> {
    var title := SingularTitle(p);
    var description := SingularDescription(p);
    var image := OgImageUrl(p);
    [[Comment(Banner), Tag(Description, description), Tag(Canonical, SingularCanonical(p))],
     When(Truthy(p.robots), [Tag(Robots, p.robots)]),
     When(Truthy(p.keywords), [Tag(Keywords, p.keywords)]),
     [Tag(OgTitle, title), Tag(OgDescription, description), Tag(OgUrl, p.permalink),
      Tag(OgType, "article"), Tag(OgSiteName, siteName)],
     When(Truthy(image), [Tag(OgImage, image), Tag(OgImageWidth, p.imageWidth),
                          Tag(OgImageHeight, p.imageHeight), Tag(OgImageAlt, title)]),
     [Tag(TwitterCard, "summary_large_image"), Tag(TwitterTitle, title), Tag(TwitterDescription, description)],
     When(Truthy(image), [Tag(TwitterImage, image), Tag(TwitterImageAlt, title)]),
     [Tag(Author, p.authorName), Tag(PublishedTime, p.publishedDate),
      Tag(ModifiedTime, p.modifiedDate), Tag(ArticleAuthor, p.authorName)]]
  }

  function SingularTags(p: PostView, siteName: string): seq<Item> {
    var g := SingularSegments(p, siteName);
    g[0] + g[1] + g[2] + g[3] + g[4] + g[5] + g[6] + g[7]
  }

  /**
   * Which tag a singular page shows with which content, key by key: the
   * reference the emitted list is checked against.
   */
  function SingularContent(p: PostView, siteName: string, k: Key): Option<string> {
    var image := OgImageUrl(p);
    match k
    case Description => Some(SingularDescription(p))
    case Canonical => Some(SingularCanonical(p))
    case Robots => if Truthy(p.robots) then Some(p.robots) else None
    case Keywords => if Truthy(p.keywords) then Some(p.keywords) else None
    case OgTitle => Some(SingularTitle(p))
    case OgDescription => Some(SingularDescription(p))
    case OgUrl => Some(p.permalink)
    case OgType => Some("article")
    case OgSiteName => Some(siteName)
    case OgImage => if Truthy(image) then Some(image) else None
    case OgImageWidth => if Truthy(image) then Some(p.imageWidth) else None
    case OgImageHeight => if Truthy(image) then Some(p.imageHeight) else None
    case OgImageAlt => if Truthy(image) then Some(SingularTitle(p)) else None
    case TwitterCard => Some("summary_large_image")
    case TwitterTitle => Some(SingularTitle(p))
    case TwitterDescription => Some(SingularDescription(p))
    case TwitterImage => if Truthy(image) then Some(image) else None
    case TwitterImageAlt => if Truthy(image) then Some(SingularTitle(p)) else None
    case Author => Some(p.authorName)
    case PublishedTime => Some(p.publishedDate)
    case ModifiedTime => Some(p.modifiedDate)
    case ArticleAuthor => Some(p.authorName)
    case _ => None
  }

  /** `x` is an item a page may emit: the banner comment, or a tag with the content `table` gives its key. */
  ghost predicate Expected(x: Item, table: Key -> Option<string>) {
    match x
    case Tag(k, c) => table(k) == Some(c)
    case Script(_) => false
    case Comment(t) => t == Banner
  }

  lemma SingularSegmentExpected(p: PostView, siteName: string, i: nat)
    requires i < |SingularSegments(p, siteName)|
    ensures forall x :: x in SingularSegments(p, siteName)[i] ==> Expected(x, k => SingularContent(p, siteName, k))
  {
    var g := SingularSegments(p, siteName);
    var t := k => SingularContent(p, siteName, k);
    var s := g[i];
    forall j | 0 <= j < |s| ensures Expected(s[j], t) {
      if i == 0 {} else if i == 1 {} else if i == 2 {} else if i == 3 {}
      else if i == 4 {} else if i == 5 {} else if i == 6 {} else {}
    }
  }

  /** A singular page emits exactly the tags of its table: each with the table's content, every one the table names. */
  lemma SingularTagsMatchTable(p: PostView, siteName: string)
    ensures forall x :: x in SingularTags(p, siteName) ==> Expected(x, k => SingularContent(p, siteName, k))
    ensures forall k :: SingularContent(p, siteName, k).Some? ==> Tag(k, SingularContent(p, siteName, k).value) in SingularTags(p, siteName)
  {
    var g := SingularSegments(p, siteName);
    forall i | 0 <= i < |g| {
      SingularSegmentExpected(p, siteName, i);
    }
    forall x | x in SingularTags(p, siteName)
      ensures x in g[0] || x in g[1] || x in g[2] || x in g[3] || x in g[4] || x in g[5] || x in g[6] || x in g[7]
    {
    }
    forall k | SingularContent(p, siteName, k).Some?
      ensures Tag(k, SingularContent(p, siteName, k).value) in SingularTags(p, siteName)
    {
      assert SingularTags(p, siteName) == g[0] + g[1] + g[2] + g[3] + g[4] + g[5] + g[6] + g[7];
    }
  }

  // ---------------------------------------------------------------------------
  // The front page

  function FrontTitle(o: SiteOptions, site: Site): string {
    GetOption(o.homepageTitle, site.name)
  }

  function FrontDescription(o: SiteOptions, site: Site): string {
    GetOption(o.homepageDescription, site.tagline)
  }

  /** The tags of the front page, echo group by echo group. */
  function FrontSegments(o: SiteOptions, site: Site): seq<seq<Item>> {
    var title := FrontTitle(o, site);
    var description := FrontDescription(o, site);
    [[Comment(Banner), Tag(Description, description), Tag(OgTitle, title), Tag(OgDescription, description),
      Tag(OgUrl, site.homeUrl), Tag(OgType, "website"), Tag(OgSiteName, site.name)],
     When(Truthy(o.defaultOgImage) && Truthy(site.defaultOgImageUrl), [Tag(OgImage, site.defaultOgImageUrl)]),
     [Tag(TwitterCard, "summary_large_image"), Tag(TwitterTitle, title), Tag(TwitterDescription, description)],
     When(Truthy(o.twitterUsername), [Tag(TwitterSite, o.twitterUsername)])]
  }

  function FrontTags(o: SiteOptions, site: Site): seq<Item> {
    var g := FrontSegments(o, site);
    g[0] + g[1] + g[2] + g[3]
  }

  /** Which tag the front page shows with which content, key by key. */
  function FrontContent(o: SiteOptions, site: Site, k: Key): Option<string> {
    match k
    case Description => Some(FrontDescription(o, site))
    case OgTitle => Some(FrontTitle(o, site))
    case OgDescription => Some(FrontDescription(o, site))
    case OgUrl => Some(site.homeUrl)
    case OgType => Some("website")
    case OgSiteName => Some(site.name)
    case OgImage => if Truthy(o.defaultOgImage) && Truthy(site.defaultOgImageUrl) then Some(site.defaultOgImageUrl) else None
    case TwitterCard => Some("summary_large_image")
    case TwitterTitle => Some(FrontTitle(o, site))
    case TwitterDescription => Some(FrontDescription(o, site))
    case TwitterSite => if Truthy(o.twitterUsername) then Some(o.twitterUsername) else None
    case _ => None
  }

  lemma FrontSegmentExpected(o: SiteOptions, site: Site, i: nat)
    requires i < |FrontSegments(o, site)|
    ensures forall x :: x in FrontSegments(o, site)[i] ==> Expected(x, k => FrontContent(o, site, k))
  {
    var t := k => FrontContent(o, site, k);
    var s := FrontSegments(o, site)[i];
    forall j | 0 <= j < |s| ensures Expected(s[j], t) {
      if i == 0 {} else if i == 1 {} else if i == 2 {} else {}
    }
  }

  /** The front page emits exactly the tags of its table. */
  lemma FrontTagsMatchTable(o: SiteOptions, site: Site)
    ensures forall x :: x in FrontTags(o, site) ==> Expected(x, k => FrontContent(o, site, k))
    ensures forall k :: FrontContent(o, site, k).Some? ==> Tag(k, FrontContent(o, site, k).value) in FrontTags(o, site)
  {
    var g := FrontSegments(o, site);
    forall i | 0 <= i < |g| {
      FrontSegmentExpected(o, site, i);
    }
    forall x | x in FrontTags(o, site)
      ensures x in g[0] || x in g[1] || x in g[2] || x in g[3]
    {
    }
    forall k | FrontContent(o, site, k).Some?
      ensures Tag(k, FrontContent(o, site, k).value) in FrontTags(o, site)
    {
      assert FrontTags(o, site) == g[0] + g[1] + g[2] + g[3];
    }
  }

  // ---------------------------------------------------------------------------
  // Archives

  /** An archive is marked noindex when its kind is switched off: categories, tags, or date and author archives. */
  predicate ArchiveNoindex(page: Page, o: SiteOptions) {
    (page.category && o.noindexCategories) || (page.tag && o.noindexTags) || ((page.date || page.author) && o.noindexArchives)
  }

  /** The flag as the archive renderer computes it, one branch after the other. */
  method DecideArchiveNoindex(page: Page, o: SiteOptions) returns (shouldNoindex: bool)
    ensures shouldNoindex <==> ArchiveNoindex(page, o)
  {
    shouldNoindex := false;
    if page.category && o.noindexCategories {
      shouldNoindex := true;
    } else if page.tag && o.noindexTags {
      shouldNoindex := true;
    } else if (page.date || page.author) && o.noindexArchives {
      shouldNoindex := true;
    }
  }

  /** The archive description: the category's on a category archive, else the tag's on a tag archive, tags stripped. */
  function ArchiveDescription(page: Page, a: ArchiveView, stripTags: string -> string): Option<string> {
    if page.category then (if Truthy(a.categoryDescription) then Some(stripTags(a.categoryDescription)) else None)
    else if page.tag then (if Truthy(a.tagDescription) then Some(stripTags(a.tagDescription)) else None)
    else None
  }

  function ArchiveTags(page: Page, o: SiteOptions, a: ArchiveView, stripTags: string -> string): seq<Item> {
    When(ArchiveNoindex(page, o), [Tag(Robots, "noindex,follow")])
      + (match ArchiveDescription(page, a, stripTags)
         case Some(d) => [Tag(Description, d)]
         case None => [])
  }

  function ArchiveContent(page: Page, o: SiteOptions, a: ArchiveView, stripTags: string -> string, k: Key): Option<string> {
    match k
    case Robots => if ArchiveNoindex(page, o) then Some("noindex,follow") else None
    case Description => ArchiveDescription(page, a, stripTags)
    case _ => None
  }

  /** An archive emits exactly the tags of its table. */
  lemma ArchiveTagsMatchTable(page: Page, o: SiteOptions, a: ArchiveView, stripTags: string -> string)
    ensures forall x :: x in ArchiveTags(page, o, a, stripTags) ==> Expected(x, k => ArchiveContent(page, o, a, stripTags, k))
    ensures forall k :: ArchiveContent(page, o, a, stripTags, k).Some? ==> Tag(k, ArchiveContent(page, o, a, stripTags, k).value) in ArchiveTags(page, o, a, stripTags)
  {
  }

  // ---------------------------------------------------------------------------
  // The whole head

  /** What one request puts before the head: the page kind, the options, site data, the queried post and archive. */
  datatype Request = Request(page: Page, options: SiteOptions, site: Site, post: PostView, archive: ArchiveView)

  /** The page-specific tags: singular pages first, then the front page, then archives of any kind. */
  function PageTags(r: Request, stripTags: string -> string): seq<Item> {
    if r.page.singular then SingularTags(r.post, r.site.name)
    else if r.page.frontPage then FrontTags(r.options, r.site)
    else if r.page.category || r.page.tag || r.page.archive then ArchiveTags(r.page, r.options, r.archive, stripTags)
    else []
  }

  function PageContent(r: Request, stripTags: string -> string, k: Key): Option<string> {
    if r.page.singular then SingularContent(r.post, r.site.name, k)
    else if r.page.frontPage then FrontContent(r.options, r.site, k)
    else if r.page.category || r.page.tag || r.page.archive then ArchiveContent(r.page, r.options, r.archive, stripTags, k)
    else None
  }

  function AppIdTags(o: SiteOptions): seq<Item> {
    When(Truthy(o.facebookAppId), [Tag(FacebookAppId, o.facebookAppId)])
  }

  /** `add_meta_tags`: verification tags, the analytics snippet, the page's tags, then the Facebook App ID. */
  function AddMetaTags(r: Request, stripTags: string -> string): seq<Item> {
    VerificationTags(r.options) + AnalyticsItems(r.options) + PageTags(r, stripTags) + AppIdTags(r.options)
  }

  /** An option-driven tag: its value when that is truthy. */
  function IfTruthy(v: string): Option<string> {
    if Truthy(v) then Some(v) else None
  }

  /** Which tag the head shows with which content, key by key. */
  function HeadContent(r: Request, stripTags: string -> string, k: Key): Option<string> {
    match k
    case GoogleVerification => IfTruthy(r.options.googleVerification)
    case BingVerification => IfTruthy(r.options.bingVerification)
    case YandexVerification => IfTruthy(r.options.yandexVerification)
    case PinterestVerification => IfTruthy(r.options.pinterestVerification)
    case FacebookAppId => IfTruthy(r.options.facebookAppId)
    case _ => PageContent(r, stripTags, k)
  }

  /** `x` is an item the head may hold: a tag with the content of the head's table, the configured analytics snippet, or the banner. */
  ghost predicate HeadItem(r: Request, stripTags: string -> string, x: Item) {
    match x
    case Tag(k, c) => HeadContent(r, stripTags, k) == Some(c)
    case Script(s) => AnalyticsSnippet(r.options.googleAnalytics, r.options.googleTagManager) == Some(s)
    case Comment(t) => t == Banner
  }

  lemma PageTagsMatchTable(r: Request, stripTags: string -> string)
    ensures forall x :: x in PageTags(r, stripTags) ==> Expected(x, k => PageContent(r, stripTags, k))
    ensures forall k :: PageContent(r, stripTags, k).Some? ==> Tag(k, PageContent(r, stripTags, k).value) in PageTags(r, stripTags)
  {
    if r.page.singular {
      SingularTagsMatchTable(r.post, r.site.name);
    } else if r.page.frontPage {
      FrontTagsMatchTable(r.options, r.site);
    } else if r.page.category || r.page.tag || r.page.archive {
      ArchiveTagsMatchTable(r.page, r.options, r.archive, stripTags);
    }
  }

  /**
   * The head holds only items drawn from its table and the analytics choice,
   * and it holds every tag the table names and the chosen snippet.
   */
  lemma HeadMatchesTable(r: Request, stripTags: string -> string)
    ensures forall x :: x in AddMetaTags(r, stripTags) ==> HeadItem(r, stripTags, x)
    ensures forall k :: HeadContent(r, stripTags, k).Some? ==> Tag(k, HeadContent(r, stripTags, k).value) in AddMetaTags(r, stripTags)
    ensures forall s :: AnalyticsSnippet(r.options.googleAnalytics, r.options.googleTagManager) == Some(s) ==> Script(s) in AddMetaTags(r, stripTags)
  {
    HeadItemsFromTable(r, stripTags);
    HeadHoldsTable(r, stripTags);
  }

  lemma HeadItemsFromTable(r: Request, stripTags: string -> string)
    ensures forall x :: x in AddMetaTags(r, stripTags) ==> HeadItem(r, stripTags, x)
  {
    var o := r.options;
    var v, a, p, f := VerificationTags(o), AnalyticsItems(o), PageTags(r, stripTags), AppIdTags(o);
    SiteWideItemsFromTable(r, stripTags);
    PageItemsFromTable(r, stripTags);
    forall x | x in AddMetaTags(r, stripTags) ensures HeadItem(r, stripTags, x) {
      InOneOfFour(v, a, p, f, x);
    }
  }

  /** The verification tags, the analytics snippet and the App ID tag are items of the head's table. */
  lemma SiteWideItemsFromTable(r: Request, stripTags: string -> string)
    ensures forall x :: x in VerificationTags(r.options) ==> HeadItem(r, stripTags, x)
    ensures forall x :: x in AnalyticsItems(r.options) ==> HeadItem(r, stripTags, x)
    ensures forall x :: x in AppIdTags(r.options) ==> HeadItem(r, stripTags, x)
  {
  }

  /** A member of four concatenated sequences is a member of one of them. */
  lemma InOneOfFour<T>(v: seq<T>, a: seq<T>, p: seq<T>, f: seq<T>, x: T)
    requires x in v + a + p + f
    ensures x in v || x in a || x in p || x in f
  {
  }

  lemma PageItemsFromTable(r: Request, stripTags: string -> string)
    ensures forall x :: x in PageTags(r, stripTags) ==> HeadItem(r, stripTags, x)
  {
    PageTagsMatchTable(r, stripTags);
    forall x | x in PageTags(r, stripTags)
      ensures HeadItem(r, stripTags, x)
    {
      assert Expected(x, k => PageContent(r, stripTags, k));
      if x.Tag? {
        PageContentNotSiteWide(r, stripTags, x.key);
        assert !SiteWide(x.key);
      }
    }
  }

  /** The keys the head fills from the options on every page, whatever the page kind. */
  predicate SiteWide(k: Key) {
    k.GoogleVerification? || k.BingVerification? || k.YandexVerification? || k.PinterestVerification? || k.FacebookAppId?
  }

  /** No page kind's table names a site-wide key. */
  lemma PageContentNotSiteWide(r: Request, stripTags: string -> string, k: Key)
    ensures SiteWide(k) ==> PageContent(r, stripTags, k) == None
    ensures !SiteWide(k) ==> HeadContent(r, stripTags, k) == PageContent(r, stripTags, k)
  {
  }

  lemma HeadHoldsTable(r: Request, stripTags: string -> string)
    ensures forall k :: HeadContent(r, stripTags, k).Some? ==> Tag(k, HeadContent(r, stripTags, k).value) in AddMetaTags(r, stripTags)
    ensures forall s :: AnalyticsSnippet(r.options.googleAnalytics, r.options.googleTagManager) == Some(s) ==> Script(s) in AddMetaTags(r, stripTags)
  {
    var o := r.options;
    var v, a, p, f := VerificationTags(o), AnalyticsItems(o), PageTags(r, stripTags), AppIdTags(o);
    assert AddMetaTags(r, stripTags) == v + a + p + f;
    PageTagsMatchTable(r, stripTags);
  }

  /** The head shows every key as its table says, and omits the keys the table leaves out. */
  lemma HeadShows(r: Request, stripTags: string -> string, k: Key)
    ensures ShowsAs(AddMetaTags(r, stripTags), k, HeadContent(r, stripTags, k))
  {
    HeadMatchesTable(r, stripTags);
  }

  // ---------------------------------------------------------------------------
  // What the head promises, page kind by page kind (read with `HeadShows`)

  /**
   * A singular page: the description falls back from the stored one to
   * the post title to the stripped excerpt; the canonical URL to the
   * permalink; the titles to the post title.
   */
  lemma SingularHead(r: Request, stripTags: string -> string)
    requires r.page.singular
    ensures var p := r.post;
      && HeadContent(r, stripTags, Description) == Some(if Truthy(p.metaDescription) then p.metaDescription else if Truthy(p.title) then p.title else p.excerpt)
      && HeadContent(r, stripTags, Canonical) == Some(if Truthy(p.canonical) then p.canonical else p.permalink)
      && HeadContent(r, stripTags, OgTitle) == Some(if Truthy(p.metaTitle) then p.metaTitle else p.title)
      && HeadContent(r, stripTags, TwitterTitle) == HeadContent(r, stripTags, OgTitle)
      && HeadContent(r, stripTags, OgUrl) == Some(p.permalink)
      && HeadContent(r, stripTags, OgType) == Some("article")
  {
  }

  /**
   * A singular page: robots and keywords tags appear only for truthy stored
   * values, the image tags only for a truthy image URL (the attachment's
   * for a numeric id, the stored value itself otherwise).
   */
  lemma SingularHeadOptional(r: Request, stripTags: string -> string)
    requires r.page.singular
    ensures var p := r.post;
      && HeadContent(r, stripTags, Robots) == IfTruthy(p.robots)
      && HeadContent(r, stripTags, Keywords) == IfTruthy(p.keywords)
      && HeadContent(r, stripTags, OgImage) == IfTruthy(if p.ogImageNumeric then p.attachmentUrl else p.ogImageId)
      && HeadContent(r, stripTags, TwitterImage) == HeadContent(r, stripTags, OgImage)
      && HeadContent(r, stripTags, TwitterSite) == None
  {
  }

  /**
   * The front page (when it is not also singular): title and description
   * come from the homepage options, falling back to the site name and
   * tagline only when those options do not exist.
   */
  lemma FrontPageHead(r: Request, stripTags: string -> string)
    requires !r.page.singular && r.page.frontPage
    ensures var o, site := r.options, r.site;
      && HeadContent(r, stripTags, Description) == Some(GetOption(o.homepageDescription, site.tagline))
      && HeadContent(r, stripTags, OgTitle) == Some(GetOption(o.homepageTitle, site.name))
      && HeadContent(r, stripTags, TwitterTitle) == HeadContent(r, stripTags, OgTitle)
      && HeadContent(r, stripTags, OgUrl) == Some(site.homeUrl)
      && HeadContent(r, stripTags, OgType) == Some("website")
  {
  }

  /**
   * The front page (when it is not also singular): the default image needs
   * both the option and its attachment URL, the X handle a truthy option;
   * no canonical, robots or Twitter image tag.
   */
  lemma FrontPageHeadOptional(r: Request, stripTags: string -> string)
    requires !r.page.singular && r.page.frontPage
    ensures var o, site := r.options, r.site;
      && HeadContent(r, stripTags, OgImage) == (if Truthy(o.defaultOgImage) then IfTruthy(site.defaultOgImageUrl) else None)
      && HeadContent(r, stripTags, TwitterSite) == IfTruthy(o.twitterUsername)
      && HeadContent(r, stripTags, Canonical) == None
      && HeadContent(r, stripTags, Robots) == None
      && HeadContent(r, stripTags, TwitterImage) == None
  {
  }

  /**
   * Any archive: a `noindex,follow` robots tag exactly when the archive's
   * kind is switched off; a description only from a truthy category or tag
   * description, tags stripped; no Open Graph or canonical tags.
   */
  lemma ArchiveHead(r: Request, stripTags: string -> string)
    requires !r.page.singular && !r.page.frontPage && (r.page.category || r.page.tag || r.page.archive)
    ensures var page, a := r.page, r.archive;
      && (HeadContent(r, stripTags, Robots).Some? <==>
            (page.category && r.options.noindexCategories) || (page.tag && r.options.noindexTags)
            || ((page.date || page.author) && r.options.noindexArchives))
      && (HeadContent(r, stripTags, Robots).Some? ==> HeadContent(r, stripTags, Robots).value == "noindex,follow")
      && (page.category ==> HeadContent(r, stripTags, Description) == (if Truthy(a.categoryDescription) then Some(stripTags(a.categoryDescription)) else None))
      && (!page.category && page.tag ==> HeadContent(r, stripTags, Description) == (if Truthy(a.tagDescription) then Some(stripTags(a.tagDescription)) else None))
      && (!page.category && !page.tag ==> HeadContent(r, stripTags, Description) == None)
      && HeadContent(r, stripTags, OgTitle) == None
      && HeadContent(r, stripTags, Canonical) == None
  {
  }

  /** Any other page gets no page-specific tags: only the site-wide ones remain. */
  lemma OtherPageHead(r: Request, stripTags: string -> string, k: Key)
    requires !r.page.singular && !r.page.frontPage && !r.page.category && !r.page.tag && !r.page.archive
    requires !SiteWide(k)
    ensures HeadContent(r, stripTags, k) == None
  {
  }

  /** On every page: the verification tags and the Facebook App ID appear exactly for truthy options. */
  lemma SiteWideTags(r: Request, stripTags: string -> string)
    ensures var o := r.options;
      && HeadContent(r, stripTags, GoogleVerification) == IfTruthy(o.googleVerification)
      && HeadContent(r, stripTags, BingVerification) == IfTruthy(o.bingVerification)
      && HeadContent(r, stripTags, YandexVerification) == IfTruthy(o.yandexVerification)
      && HeadContent(r, stripTags, PinterestVerification) == IfTruthy(o.pinterestVerification)
      && HeadContent(r, stripTags, FacebookAppId) == IfTruthy(o.facebookAppId)
  {
  }

  /** The head holds exactly the analytics snippet the options select, and at most one. */
  lemma HeadAnalytics(r: Request, stripTags: string -> string)
    ensures var h, choice := AddMetaTags(r, stripTags), AnalyticsSnippet(r.options.googleAnalytics, r.options.googleTagManager);
      && (forall x :: x in h && x.Script? ==> choice == Some(x.snippet))
      && (choice.Some? ==> Script(choice.value) in h)
      && (forall x, y :: x in h && y in h && x.Script? && y.Script? ==> x == y)
  {
    HeadMatchesTable(r, stripTags);
  }

  // ---------------------------------------------------------------------------
  // The document title parts

  /**
   * The title the filter puts in place: a truthy stored SEO title on a
   * singular page, else a truthy homepage title option on the front page.
   */
  function TitleOverride(page: Page, customTitle: string, homepageTitle: Option<string>): (r: Option<string>)
    ensures r.Some? ==> Truthy(r.value)
    ensures r.Some? ==> page.singular || page.frontPage
    ensures page.singular ==> (r.Some? <==> Truthy(customTitle)) && (r.Some? ==> r.value == customTitle)
    ensures !page.singular && page.frontPage ==>
      (r.Some? <==> homepageTitle.Some? && Truthy(homepageTitle.value))
      && (r.Some? ==> r.value == homepageTitle.value)
    ensures !page.singular && !page.frontPage ==> r.None?
  {
    if page.singular then IfTruthy(customTitle)
    else if page.frontPage then IfTruthy(GetOption(homepageTitle, ""))
    else None
  }

  /**
   * `override_title`: rewrites the `title` part as `TitleOverride` says,
   * then sets `sep` to the separator option (`|` when it does not exist)
   * when both `title` and `site` are present. No other part changes.
   */
  method OverrideTitle(parts: map<string, string>, page: Page, customTitle: string, o: SiteOptions)
    returns (title: map<string, string>)
    ensures forall k :: k != "title" && k != "sep" ==> (k in title <==> k in parts)
    ensures forall k :: k != "title" && k != "sep" && k in parts ==> title[k] == parts[k]
    ensures var t := TitleOverride(page, customTitle, o.homepageTitle);
      && ("title" in title <==> "title" in parts || t.Some?)
      && (t.Some? ==> title["title"] == t.value)
      && (t.None? && "title" in parts ==> title["title"] == parts["title"])
    ensures "title" in title && "site" in parts ==> "sep" in title && title["sep"] == GetOption(o.separator, "|")
    ensures !("title" in title && "site" in parts) ==>
      ("sep" in title <==> "sep" in parts) && ("sep" in parts ==> title["sep"] == parts["sep"])
  {
    title := parts;
    if page.singular {
      if Truthy(customTitle) {
        title := title["title" := customTitle];
      }
    } else if page.frontPage {
      var homepageTitle := GetOption(o.homepageTitle, "");
      if Truthy(homepageTitle) {
        title := title["title" := homepageTitle];
      }
    }
    var separator := GetOption(o.separator, "|");
    if "title" in title && "site" in title {
      title := title["sep" := separator];
    }
  }
}
