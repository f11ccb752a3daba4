/**
 * The JSON-LD block of a singular page: a `@graph` of five nodes (the page
 * itself, its primary image, its breadcrumb list, the website and the
 * organization with an embedded logo) that refer to each other by `@id`.
 *
 * The nodes are records; the JSON encoding is left to the host. A node that
 * the graph points at is written as the `@id` string it carries.
 */
module Schema {
  import opened Text
  import opened Host

  const Context := "https://schema.org"

  /** The fragments the graph's `@id`s add, after a `#`, to the page URL and to the site URL. */
  const PrimaryImage := "primaryimage"
  const Breadcrumb := "breadcrumb"
  const Website := "website"
  const OrganizationFragment := "organization"
  const Logo := "/schema/logo/image/"

  /** `base#fragment`. */
  function Anchor(base: string, fragment: string): string {
    base + "#" + fragment
  }

  /** The pixel size of the organization logo. */
  const LogoSize: nat := 512

  /** One position of the breadcrumb list. */
  datatype ListItem = ListItem(position: nat, name: string, item: string)

  /**
   * A node of the graph. Fields named like `isPartOf` hold the `@id` of the
   * node they refer to; `width` and `height` are `None` where the source
   * writes an empty string.
   */
  datatype Node =
    | WebPage(schemaType: string, id: string, url: string, name: string,
              isPartOf: string, about: string, primaryImageOfPage: string, image: string,
              thumbnailUrl: string, datePublished: string, dateModified: string,
              description: string, breadcrumb: string, inLanguage: string, readTarget: string)
    | ImageObject(inLanguage: string, id: string, url: string, contentUrl: string,
                  width: Option<nat>, height: Option<nat>, caption: string)
    | BreadcrumbList(id: string, items: seq<ListItem>)
    | WebSite(id: string, url: string, name: string, description: string, publisher: string,
              urlTemplate: string, inLanguage: string)
    | Organization(id: string, name: string, url: string, logo: Node, image: string)

  /** The top-level JSON object: `@context` and `@graph`. */
  datatype Document = Document(context: string, graph: seq<Node>)

  /**
   * What the block is built from: the post's stored SEO title, description,
   * OG image id (and whether the host's `is_numeric` accepts it) and schema
   * type, the post's own title, permalink and dates in ISO 8601, the
   * attachment's URL, excerpt and stored size (each absent when the host has
   * none), and the site's name, tagline, home URL, language and icon URL.
   */
  datatype PageData = PageData(
    metaTitle: string, postTitle: string, metaDescription: string,
    ogImageId: string, ogImageNumeric: bool, schemaTypeMeta: string,
    permalink: string, published: string, modified: string,
    attachmentUrl: string, attachmentExcerpt: Option<string>,
    attachmentWidth: Option<nat>, attachmentHeight: Option<nat>,
    siteName: string, tagline: string, siteUrl: string, language: string, siteIcon: string)

  /** PHP's `$a ?? $b` on an optional value. */
  function Coalesce<T>(a: Option<T>, b: T): (r: T)
    ensures a.Some? ==> r == a.value
    ensures a.None? ==> r == b
  {
    if a.Some? then a.value else b
  }

  /** The image fields are filled only for a truthy, numeric OG image id. */
  predicate HasImage(d: PageData) {
    Truthy(d.ogImageId) && d.ogImageNumeric
  }

  function Title(d: PageData): string { Elvis(d.metaTitle, d.postTitle) }
  function Description(d: PageData): string { Elvis(d.metaDescription, d.tagline) }
  function SchemaType(d: PageData): string { Elvis(d.schemaTypeMeta, "Article") }
  function Language(d: PageData): string { Elvis(d.language, "en-US") }

  function ImageUrl(d: PageData): string { if HasImage(d) then d.attachmentUrl else "" }
  function ImageCaption(d: PageData): string { if HasImage(d) then Coalesce(d.attachmentExcerpt, "") else "" }
  function ImageWidth(d: PageData): Option<nat> { if HasImage(d) then d.attachmentWidth else None }
  function ImageHeight(d: PageData): Option<nat> { if HasImage(d) then d.attachmentHeight else None }

  function PageNode(d: PageData): Node {
    var url, site := d.permalink, d.siteUrl;
    WebPage(SchemaType(d), url, url, Title(d),
            Anchor(site, Website), Anchor(site, OrganizationFragment), Anchor(url, PrimaryImage), Anchor(url, PrimaryImage),
            ImageUrl(d), d.published, d.modified,
            Description(d), Anchor(url, Breadcrumb), Language(d), url)
  }

  function PrimaryImageNode(d: PageData): Node {
    var image := ImageUrl(d);
    ImageObject(Language(d), Anchor(d.permalink, PrimaryImage), image, image, ImageWidth(d), ImageHeight(d), ImageCaption(d))
  }

  function BreadcrumbNode(d: PageData): Node {
    BreadcrumbList(Anchor(d.permalink, Breadcrumb), [ListItem(1, "Home", d.siteUrl), ListItem(2, Title(d), d.permalink)])
  }

  function WebSiteNode(d: PageData): Node {
    var site := d.siteUrl;
    WebSite(Anchor(site, Website), site, d.siteName, Description(d), Anchor(site, OrganizationFragment),
            site + "?s={search_term_string}", Language(d))
  }

  function LogoNode(d: PageData): Node {
    ImageObject(Language(d), Anchor(d.siteUrl, Logo), d.siteIcon, d.siteIcon, Some(LogoSize), Some(LogoSize), d.siteName)
  }

  function OrganizationNode(d: PageData): Node {
    var site := d.siteUrl;
    Organization(Anchor(site, OrganizationFragment), d.siteName, site, LogoNode(d), Anchor(site, Logo))
  }

  /** The `@graph`, in the order the source lists it. */
  function Graph(d: PageData): seq<Node> {
    [PageNode(d), PrimaryImageNode(d), BreadcrumbNode(d), WebSiteNode(d), OrganizationNode(d)]
  }

  /** `add_jsonld_snippet`: the document on singular pages, nothing elsewhere. */
  function JsonLd(singular: bool, d: PageData): (r: Option<Document>)
    ensures r.Some? <==> singular
    ensures r.Some? ==> r.value.context == Context && r.value.graph == Graph(d)
  {
    if singular then Some(Document(Context, Graph(d))) else None
  }

  // ---------------------------------------------------------------------------
  // Cross references

  /** The nodes that carry an `@id`: the graph's own nodes and the logos they embed. */
  function Targets(g: seq<Node>): seq<Node>
    decreases |g|
  {
    if |g| == 0 then []
    else
      var n := g[0];
      (if n.Organization? then [n, n.logo] else [n]) + Targets(g[1..])
  }

  /** The `@id` references a node makes. */
  function References(n: Node): seq<string> {
    match n
    case WebPage(_, _, _, _, isPartOf, about, primary, image, _, _, _, _, breadcrumb, _, _) => [isPartOf, about, primary, image, breadcrumb]
    case WebSite(_, _, _, _, publisher, _, _) => [publisher]
    case Organization(_, _, _, _, image) => [image]
    case _ => []
  }

  /** `ref` names exactly one node among `ts`, and that node is `n`. */
  ghost predicate ResolvesTo(ts: seq<Node>, ref: string, n: Node) {
    && n in ts && n.id == ref
    && forall m :: m in ts && m.id == ref ==> m == n
  }

  /** Two anchors on bases without `#` are equal only when both their bases and their fragments are. */
  lemma Anchored(a: string, x: string, b: string, y: string)
    requires '#' !in a && '#' !in b
    ensures Anchor(a, x) == Anchor(b, y) ==> a == b && x == y
  {
    if Anchor(a, x) == Anchor(b, y) {
      SplitAtFirst(a, '#', x);
      SplitAtFirst(b, '#', y);
      assert [a] + Split(x, '#') == [b] + Split(y, '#');
      assert a == ([a] + Split(x, '#'))[0];
      assert (a + "#" + x)[|a| + 1..] == x;
      assert (b + "#" + y)[|b| + 1..] == y;
    }
  }

  /** A string without `#` is no anchor. */
  lemma NotAnchored(a: string, b: string, y: string)
    requires '#' !in a
    ensures a != Anchor(b, y)
  {
    assert Anchor(b, y)[|b|] == '#';
  }

  /** The `@id`s of the graph's targets, in order. */
  function Ids(d: PageData): seq<string> {
    var url, site := d.permalink, d.siteUrl;
    [url, Anchor(url, PrimaryImage), Anchor(url, Breadcrumb), Anchor(site, Website), Anchor(site, OrganizationFragment), Anchor(site, Logo)]
  }

  /** The targets of the graph: its five nodes, with the logo right after the organization. */
  lemma TargetsOfGraph(d: PageData)
    ensures Targets(Graph(d)) == [PageNode(d), PrimaryImageNode(d), BreadcrumbNode(d), WebSiteNode(d), OrganizationNode(d), LogoNode(d)]
  {
    var p, i, b, s, o := PageNode(d), PrimaryImageNode(d), BreadcrumbNode(d), WebSiteNode(d), OrganizationNode(d);
    TargetsCons(o, []);
    TargetsCons(s, [o]);
    TargetsCons(b, [s, o]);
    TargetsCons(i, [b, s, o]);
    TargetsCons(p, [i, b, s, o]);
  }

  lemma TargetsCons(n: Node, rest: seq<Node>)
    ensures Targets([n] + rest) == (if n.Organization? then [n, n.logo] else [n]) + Targets(rest)
  {
    assert ([n] + rest)[1..] == rest;
  }

  lemma TargetIds(d: PageData)
    ensures var ts := Targets(Graph(d));
      |ts| == 6 && forall k :: 0 <= k < 6 ==> ts[k].id == Ids(d)[k]
  {
    TargetsOfGraph(d);
  }

  lemma IdPair(d: PageData, i: nat, j: nat)
    requires '#' !in d.permalink && '#' !in d.siteUrl
    requires i < j < 6
    ensures Ids(d)[i] != Ids(d)[j]
  {
    var url, site := d.permalink, d.siteUrl;
    var fragments := ["", PrimaryImage, Breadcrumb, Website, OrganizationFragment, Logo];
    var bases := [url, url, url, site, site, site];
    if i == 0 {
      NotAnchored(url, bases[j], fragments[j]);
    } else {
      Anchored(bases[i], fragments[i], bases[j], fragments[j]);
      assert fragments[i] != fragments[j] by {
        assert PrimaryImage[0] == 'p' && OrganizationFragment[0] == 'o';
      }
    }
  }

  /** The six `@id`s of the graph are pairwise distinct when neither URL contains `#`. */
  lemma IdsDistinct(d: PageData)
    requires '#' !in d.permalink && '#' !in d.siteUrl
    ensures forall i, j :: 0 <= i < j < |Ids(d)| ==> Ids(d)[i] != Ids(d)[j]
  {
    forall i, j | 0 <= i < j < |Ids(d)| ensures Ids(d)[i] != Ids(d)[j] {
      IdPair(d, i, j);
    }
  }

  /** Each target is the only one carrying its `@id`. */
  lemma TargetsResolve(d: PageData, k: nat)
    requires '#' !in d.permalink && '#' !in d.siteUrl
    requires k < 6
    ensures var ts := Targets(Graph(d)); |ts| == 6 && ResolvesTo(ts, Ids(d)[k], ts[k])
  {
    var ts := Targets(Graph(d));
    TargetIds(d);
    IdsDistinct(d);
    forall m | m in ts && m.id == Ids(d)[k] ensures m == ts[k] {
      var j :| 0 <= j < 6 && ts[j] == m;
      assert j == k;
    }
  }

  /**
   * Every `@id` reference of the graph resolves to exactly one node, and to
   * the node the source intends: the page is part of the website and about
   * the organization, its images are the primary image, its breadcrumb is the
   * breadcrumb list, the website is published by the organization, and the
   * organization's image is its logo.
   */
  lemma ReferencesResolve(d: PageData)
    requires '#' !in d.permalink && '#' !in d.siteUrl
    ensures var ts, p, s, o := Targets(Graph(d)), PageNode(d), WebSiteNode(d), OrganizationNode(d);
      && ResolvesTo(ts, p.isPartOf, s)
      && ResolvesTo(ts, p.about, o)
      && ResolvesTo(ts, p.primaryImageOfPage, PrimaryImageNode(d))
      && ResolvesTo(ts, p.image, PrimaryImageNode(d))
      && ResolvesTo(ts, p.breadcrumb, BreadcrumbNode(d))
      && ResolvesTo(ts, s.publisher, o)
      && ResolvesTo(ts, o.image, o.logo)
  {
    TargetsOfGraph(d);
    TargetsResolve(d, 1);
    TargetsResolve(d, 2);
    TargetsResolve(d, 3);
    TargetsResolve(d, 4);
    TargetsResolve(d, 5);
  }

  /** The `@id` of each node, in order. */
  function IdsOf(ts: seq<Node>): (r: seq<string>)
    ensures |r| == |ts| && forall k :: 0 <= k < |ts| ==> r[k] == ts[k].id
  {
    seq(|ts|, k requires 0 <= k < |ts| => ts[k].id)
  }

  /** Every reference made anywhere in the graph, embedded logo included, names a node of it. */
  lemma NoDanglingReferences(d: PageData)
    ensures var ts := Targets(Graph(d));
      forall n, ref :: n in ts && ref in References(n) ==> ref in IdsOf(ts)
  {
    var ts := Targets(Graph(d));
    TargetsOfGraph(d);
    var ids := IdsOf(ts);
    assert ids == Ids(d);
    var p, s, o := PageNode(d), WebSiteNode(d), OrganizationNode(d);
    assert References(p) == [ids[3], ids[4], ids[1], ids[1], ids[2]];
    assert References(s) == [ids[4]];
    assert References(o) == [ids[5]];
    forall n, ref | n in ts && ref in References(n) ensures ref in ids {
      assert n in [p, s, o] || References(n) == [];
    }
  }

  // ---------------------------------------------------------------------------
  // Field values

  /**
   * The page node: its type defaults to `Article`, its name falls back to the
   * post title, its description to the site tagline (not to the excerpt, as
   * the meta description does), its language to `en-US`; the breadcrumb list
   * runs from Home at the site URL to the page's title at its permalink.
   */
  lemma PageFields(d: PageData)
    ensures var p := PageNode(d);
      && p.schemaType == (if Truthy(d.schemaTypeMeta) then d.schemaTypeMeta else "Article")
      && p.id == d.permalink && p.url == d.permalink && p.readTarget == d.permalink
      && p.name == (if Truthy(d.metaTitle) then d.metaTitle else d.postTitle)
      && p.description == (if Truthy(d.metaDescription) then d.metaDescription else d.tagline)
      && p.inLanguage == (if Truthy(d.language) then d.language else "en-US")
      && BreadcrumbNode(d).items == [ListItem(1, "Home", d.siteUrl), ListItem(2, p.name, d.permalink)]
      && WebSiteNode(d).description == p.description
  {
  }

  /**
   * The primary image carries the attachment's URL, size and caption only
   * for a truthy, numeric OG image id; otherwise every field is empty, and
   * the page's thumbnail URL with it.
   */
  lemma ImageFields(d: PageData)
    ensures var i := PrimaryImageNode(d);
      && (HasImage(d) ==>
            && i.url == d.attachmentUrl && i.contentUrl == d.attachmentUrl
            && i.width == d.attachmentWidth && i.height == d.attachmentHeight
            && i.caption == (if d.attachmentExcerpt.Some? then d.attachmentExcerpt.value else ""))
      && (!HasImage(d) ==> i.url == "" && i.contentUrl == "" && i.width.None? && i.height.None? && i.caption == "")
      && PageNode(d).thumbnailUrl == i.url
  {
  }
}
