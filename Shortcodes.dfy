/**
 * The two shortcodes of the public side: the site's domain written with a
 * `www.` prefix, and the breadcrumb trail.
 *
 * Escaping (`esc_html`, `esc_url`) is left to the host: the trail carries the
 * raw titles and links it is built from.
 */
module Shortcodes {
  import opened Text
  import opened Host

  // ---------------------------------------------------------------------------
  // Site domain

  /** Removes a leading `http://` or `https://`, as `preg_replace('#^https?://#', '', $s)`. */
  function StripProtocol(s: string): (r: string)
    ensures StartsWith(s, "https://") ==> r == s[8..]
    ensures StartsWith(s, "http://") ==> r == s[7..]
    ensures !StartsWith(s, "https://") && !StartsWith(s, "http://") ==> r == s
  {
    if StartsWith(s, "https://") then
      assert s[..7][4] == s[..8][4];
      s[8..]
    else if StartsWith(s, "http://") then s[7..]
    else s
  }

  /** Removes one leading `www.`, as `preg_replace('/^www\./', '', $s)`. */
  function StripWww(s: string): (r: string)
    ensures StartsWith(s, "www.") ==> r == s[4..]
    ensures !StartsWith(s, "www.") ==> r == s
  {
    if StartsWith(s, "www.") then s[4..] else s
  }

  /** `site_domain_url_shortcode`: the site URL without its protocol and with exactly the one `www.` it adds. */
  function DomainUrl(siteUrl: string): string {
    "www." + StripWww(StripProtocol(siteUrl))
  }

  /** The result always starts with `www.` and so never with a protocol. */
  lemma DomainUrlShape(siteUrl: string)
    ensures StartsWith(DomainUrl(siteUrl), "www.")
    ensures !StartsWith(DomainUrl(siteUrl), "http://") && !StartsWith(DomainUrl(siteUrl), "https://")
  {
    var r := DomainUrl(siteUrl);
    assert r[..4] == "www.";
    assert r[0] == 'w';
  }

  /**
   * A host name behind either protocol, with or without one `www.`, comes
   * out as `www.` and the bare host: the prefix is not doubled.
   */
  lemma DomainUrlOfHost(scheme: string, host: string)
    requires scheme == "http://" || scheme == "https://"
    requires !StartsWith(host, "www.")
    ensures DomainUrl(scheme + host) == "www." + host
    ensures DomainUrl(scheme + "www." + host) == "www." + host
  {
    var n := |scheme|;
    var s1, s2 := scheme + host, scheme + "www." + host;
    assert s1[..n] == scheme && s1[n..] == host;
    assert s2[..n] == scheme && s2[n..] == "www." + host;
    if scheme == "http://" {
      assert !StartsWith(s1, "https://") by {
        if |s1| >= 8 { assert s1[..8][4] == s1[..n][4]; }
      }
      assert !StartsWith(s2, "https://") by {
        assert s2[..8][4] == s2[..n][4];
      }
    }
    assert ("www." + host)[..4] == "www." && ("www." + host)[4..] == host;
  }

  /** Applying the transformation to its own output changes nothing. */
  lemma DomainUrlIdempotent(siteUrl: string)
    ensures DomainUrl(DomainUrl(siteUrl)) == DomainUrl(siteUrl)
  {
    var r := DomainUrl(siteUrl);
    DomainUrlShape(siteUrl);
    assert StripProtocol(r) == r;
    assert r[4..] == StripWww(StripProtocol(siteUrl));
  }

  // ---------------------------------------------------------------------------
  // Breadcrumbs

  /** One crumb: a link to an ancestor (or Home), or the current page's title. */
  datatype Crumb = Link(url: string, text: string) | Current(text: string)

  /** A category or ancestor page as the trail shows it. */
  datatype Place = Place(link: string, title: string)

  /**
   * What the shortcode reads from the host: the stored enabled flag (absent
   * means enabled), the shortcode attributes given, the page conditionals,
   * the home URL, the current post's title and categories, the current
   * page's ancestors as `get_post_ancestors` returns them (nearest first),
   * and the category, tag and archive titles.
   */
  datatype Context = Context(
    enabled: Option<string>, atts: map<string, string>, page: Page, homeUrl: string,
    title: string, categories: seq<Place>, ancestors: seq<Place>,
    categoryTitle: string, tagTitle: string, archiveTitle: string)

  /** `shortcode_atts`: the given attribute, or its default. */
  function Att(atts: map<string, string>, name: string, default: string): (r: string)
    ensures name in atts ==> r == atts[name]
    ensures name !in atts ==> r == default
  {
    if name in atts then atts[name] else default
  }

  function Separator(c: Context): string { Att(c.atts, "separator", " > ") }
  function HomeText(c: Context): string { Att(c.atts, "home_text", "Home") }
  predicate ShowCurrent(c: Context) { Att(c.atts, "show_current", "true") == "true" }

  /** The trail is produced unless the option turns it off or the page is the front page. */
  predicate Produced(c: Context) {
    Truthy(GetOption(c.enabled, "1")) && !c.page.frontPage
  }

  /** The elements of `s` in reverse order, as `array_reverse`. */
  function Reversed<T>(s: seq<T>): (r: seq<T>)
    ensures |r| == |s|
    ensures forall k :: 0 <= k < |s| ==> r[k] == s[|s| - 1 - k]
  {
    seq(|s|, k requires 0 <= k < |s| => s[|s| - 1 - k])
  }

  function Links(ps: seq<Place>): (r: seq<Crumb>)
    ensures |r| == |ps| && forall k :: 0 <= k < |ps| ==> r[k] == Link(ps[k].link, ps[k].title)
  {
    seq(|ps|, k requires 0 <= k < |ps| => Link(ps[k].link, ps[k].title))
  }

  /** The crumbs after Home, by page kind, in the order the source tests the conditionals. */
  function Tail(c: Context): seq<Crumb> {
    var current := if ShowCurrent(c) then [Current(c.title)] else [];
    if c.page.category || c.page.single then
      if c.page.single then
        (if |c.categories| > 0 then [Link(c.categories[0].link, c.categories[0].title)] else []) + current
      else [Current(c.categoryTitle)]
    else if c.page.page then Links(Reversed(c.ancestors)) + current
    else if c.page.tag then [Current(c.tagTitle)]
    else if c.page.archive then [Current(c.archiveTitle)]
    else []
  }

  /** The whole trail: Home, then the tail. */
  function Trail(c: Context): seq<Crumb> {
    [Link(c.homeUrl, HomeText(c))] + Tail(c)
  }

  function RenderCrumb(c: Crumb): string {
    match c
    case Link(url, text) => "<a href=\"" + url + "\">" + text + "</a>"
    case Current(text) => "<span class=\"current\">" + text + "</span>"
  }

  function RenderAll(cs: seq<Crumb>): (r: seq<string>)
    ensures |r| == |cs| && forall k :: 0 <= k < |cs| ==> r[k] == RenderCrumb(cs[k])
  {
    seq(|cs|, k requires 0 <= k < |cs| => RenderCrumb(cs[k]))
  }

  const NavOpen := "<nav class=\"seoplugin-breadcrumbs\" aria-label=\"Breadcrumb\">"
  const NavClose := "</nav>"

  /** The markup of a trail: its crumbs joined by the separator inside the navigation element. */
  function TrailHtml(separator: string, cs: seq<Crumb>): string {
    NavOpen + Implode(separator, RenderAll(cs)) + NavClose
  }

  /** `breadcrumbs_shortcode` as a value: nothing when not produced, otherwise the rendered trail. */
  function BreadcrumbsHtml(c: Context): string {
    if Produced(c) then TrailHtml(Separator(c), Trail(c)) else ""
  }

  /**
   * `breadcrumbs_shortcode`: appends the crumbs one by one, the page's
   * ancestors root first, and joins them.
   */
  method Breadcrumbs(c: Context) returns (html: string)
    ensures html == BreadcrumbsHtml(c)
  {
    if !Truthy(GetOption(c.enabled, "1")) {
      return "";
    }
    var separator, homeText, showCurrent := Separator(c), HomeText(c), ShowCurrent(c);
    if c.page.frontPage {
      return "";
    }
    var crumbs := [Link(c.homeUrl, homeText)];
    if c.page.category || c.page.single {
      if c.page.single {
        if |c.categories| > 0 {
          crumbs := crumbs + [Link(c.categories[0].link, c.categories[0].title)];
        }
        if showCurrent {
          crumbs := crumbs + [Current(c.title)];
        }
      } else {
        crumbs := crumbs + [Current(c.categoryTitle)];
      }
    } else if c.page.page {
      var ancestors := Reversed(c.ancestors);
      for i := 0 to |ancestors|
        invariant crumbs == [Link(c.homeUrl, homeText)] + Links(ancestors[..i])
      {
        assert ancestors[..i + 1] == ancestors[..i] + [ancestors[i]];
        assert Links(ancestors[..i + 1]) == Links(ancestors[..i]) + [Link(ancestors[i].link, ancestors[i].title)];
        crumbs := crumbs + [Link(ancestors[i].link, ancestors[i].title)];
      }
      assert ancestors[..|ancestors|] == ancestors;
      if showCurrent {
        crumbs := crumbs + [Current(c.title)];
      }
    } else if c.page.tag {
      crumbs := crumbs + [Current(c.tagTitle)];
    } else if c.page.archive {
      crumbs := crumbs + [Current(c.archiveTitle)];
    }
    assert crumbs == Trail(c);
    html := NavOpen + Implode(separator, RenderAll(crumbs)) + NavClose;
  }

  // ---------------------------------------------------------------------------
  // What the trail promises

  /** Nothing is rendered when the option turns the trail off or on the front page; otherwise the trail is wrapped in the navigation element. */
  lemma EmptyUnlessProduced(c: Context)
    ensures BreadcrumbsHtml(c) == "" <==> !Produced(c)
  {
    if Produced(c) {
      assert |TrailHtml(Separator(c), Trail(c))| >= |NavOpen|;
    }
  }

  /** Home comes first, with the given or default home text. */
  lemma HomeFirst(c: Context)
    ensures |Trail(c)| >= 1 && Trail(c)[0] == Link(c.homeUrl, HomeText(c))
  {
  }

  /**
   * On a page, the ancestors follow Home root first (the reverse of the
   * nearest-first order the host gives), and the current title ends the
   * trail exactly when `show_current` is `"true"`.
   */
  lemma PageTrail(c: Context)
    requires c.page.page && !c.page.category && !c.page.single
    ensures var t, n := Trail(c), |c.ancestors|;
      && |t| == 1 + n + (if ShowCurrent(c) then 1 else 0)
      && t[1..1 + n] == Links(Reversed(c.ancestors))
      && (ShowCurrent(c) <==> t[|t| - 1] == Current(c.title))
  {
    var t, n := Trail(c), |c.ancestors|;
    var links := Links(Reversed(c.ancestors));
    var current := if ShowCurrent(c) then [Current(c.title)] else [];
    assert t == [Link(c.homeUrl, HomeText(c))] + links + current;
    assert t[1..1 + n] == links;
    if !ShowCurrent(c) {
      if n == 0 {
        assert t[|t| - 1].Link?;
      } else {
        assert t[|t| - 1] == links[n - 1];
      }
    }
  }

  /**
   * On a single post, the first category (when there is one) follows Home,
   * and the current title ends the trail exactly when `show_current` is
   * `"true"`.
   */
  lemma SingleTrail(c: Context)
    requires c.page.single
    ensures var t, k := Trail(c), if |c.categories| > 0 then 1 else 0;
      && |t| == 1 + k + (if ShowCurrent(c) then 1 else 0)
      && (|c.categories| > 0 ==> t[1] == Link(c.categories[0].link, c.categories[0].title))
      && (ShowCurrent(c) <==> t[|t| - 1] == Current(c.title))
  {
  }

  /** Category, tag and other archive pages always end with their title, whatever `show_current` says. */
  lemma ArchiveTrail(c: Context)
    requires !c.page.single && (c.page.category || (!c.page.page && (c.page.tag || c.page.archive)))
    ensures var t := Trail(c);
      && |t| == 2
      && t[1] == Current(if c.page.category then c.categoryTitle else if c.page.tag then c.tagTitle else c.archiveTitle)
  {
  }

  /** Any other page gets Home alone. */
  lemma HomeOnlyTrail(c: Context)
    requires !c.page.category && !c.page.single && !c.page.page && !c.page.tag && !c.page.archive
    ensures Trail(c) == [Link(c.homeUrl, HomeText(c))]
  {
  }

  /** Joining: one more crumb adds the separator and that crumb's markup. */
  lemma TrailJoin(separator: string, cs: seq<Crumb>, x: Crumb)
    requires |cs| > 0
    ensures Implode(separator, RenderAll(cs + [x])) == Implode(separator, RenderAll(cs)) + separator + RenderCrumb(x)
  {
    assert RenderAll(cs + [x]) == RenderAll(cs) + [RenderCrumb(x)];
    ImplodeSnoc(separator, RenderAll(cs), RenderCrumb(x));
  }
}
