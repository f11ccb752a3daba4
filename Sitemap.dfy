/**
 * The XML sitemap: one `<url>` entry per published post of every public
 * post type (skipping posts whose robots meta asks for `noindex`), then one
 * per non-empty category, then one per non-empty tag, with fixed change
 * frequencies and priorities, and an image block for posts with a
 * featured image.
 *
 * The host's query results are inputs: the published posts of each public
 * post type, the non-empty categories and tags, and the current time as
 * `date('c')` formats it. The XML text itself (escaping, the `<urlset>`
 * envelope) is left out: entries are records.
 */
module Sitemap {
  import opened Text
  import opened Host

  /** The `<changefreq>` values the Sitemaps protocol 0.9 defines. */
  datatype ChangeFreq = Always | Hourly | Daily | Weekly | Monthly | Yearly | Never

  /** A `<priority>` in tenths: the protocol allows 0.0 to 1.0. */
  type Priority = p: nat | p <= 10

  /** The decimal text of a priority, as the protocol writes it. */
  function PriorityText(p: Priority): (r: string)
    ensures |r| == 3 && r[1] == '.'
    ensures p < 10 ==> r[0] == '0' && r[2] as int - '0' as int == p
    ensures p == 10 ==> r == "1.0"
  {
    if p == 10 then "1.0" else ['0', '.', (p + '0' as int) as char]
  }

  datatype Image = Image(loc: string, title: string)

  /** One `<url>` entry. */
  datatype Entry = Entry(loc: string, lastmod: string, changefreq: ChangeFreq, priority: Priority, image: Option<Image>)

  /**
   * A published post as the sitemap reads it: its permalink, modified date,
   * stored robots meta ("" when absent), featured-image id (0 when it has
   * none), the URL of that image ("" when there is none) and its title.
   */
  datatype Post = Post(permalink: string, modified: string, robots: string, thumbnailId: nat, thumbnailUrl: string, title: string)

  /** A category or tag, by its archive link. */
  datatype Term = Term(link: string)

  /** A post is listed unless its robots meta is truthy and contains `noindex`. */
  predicate Indexable(p: Post) {
    !(Truthy(p.robots) && Contains(p.robots, "noindex"))
  }

  const PostFreq: ChangeFreq := Weekly
  const PostPriority: Priority := 8
  const CategoryFreq: ChangeFreq := Weekly
  const CategoryPriority: Priority := 6
  const TagFreq: ChangeFreq := Monthly
  const TagPriority: Priority := 4

  /** A post's entry; the image block needs both a (non-zero) thumbnail id and a truthy image URL. */
  function PostEntry(p: Post): (e: Entry)
    ensures e.loc == p.permalink && e.lastmod == p.modified
    ensures e.changefreq == Weekly && e.priority == 8
    ensures e.image.Some? <==> p.thumbnailId != 0 && Truthy(p.thumbnailUrl)
    ensures e.image.Some? ==> e.image.value == Image(p.thumbnailUrl, p.title)
  {
    var image := if p.thumbnailId != 0 && Truthy(p.thumbnailUrl) then Some(Image(p.thumbnailUrl, p.title)) else None;
    Entry(p.permalink, p.modified, PostFreq, PostPriority, image)
  }

  function CategoryEntry(t: Term, now: string): Entry {
    Entry(t.link, now, CategoryFreq, CategoryPriority, None)
  }

  function TagEntry(t: Term, now: string): Entry {
    Entry(t.link, now, TagFreq, TagPriority, None)
  }

  /** The indexable posts, in their order. */
  function Indexed(posts: seq<Post>): (r: seq<Post>)
    ensures |r| <= |posts|
    ensures forall p :: p in r <==> p in posts && Indexable(p)
    decreases |posts|
  {
    if |posts| == 0 then []
    else
      var init, last := posts[..|posts| - 1], posts[|posts| - 1];
      assert posts == init + [last];
      Indexed(init) + (if Indexable(last) then [last] else [])
  }

  /** The entries of a list of posts, one per post, in order. */
  function PostEntries(posts: seq<Post>): (r: seq<Entry>)
    ensures |r| == |posts|
    ensures forall i :: 0 <= i < |posts| ==> r[i] == PostEntry(posts[i])
    decreases |posts|
  {
    if |posts| == 0 then []
    else PostEntries(posts[..|posts| - 1]) + [PostEntry(posts[|posts| - 1])]
  }

  /** The entries of every public post type, type by type. */
  function TypeEntries(types: seq<seq<Post>>): seq<Entry>
    decreases |types|
  {
    if |types| == 0 then []
    else TypeEntries(types[..|types| - 1]) + PostEntries(Indexed(types[|types| - 1]))
  }

  function CategoryEntries(cats: seq<Term>, now: string): (r: seq<Entry>)
    ensures |r| == |cats|
    ensures forall i :: 0 <= i < |cats| ==> r[i] == CategoryEntry(cats[i], now)
    decreases |cats|
  {
    if |cats| == 0 then []
    else CategoryEntries(cats[..|cats| - 1], now) + [CategoryEntry(cats[|cats| - 1], now)]
  }

  function TagEntries(tags: seq<Term>, now: string): (r: seq<Entry>)
    ensures |r| == |tags|
    ensures forall i :: 0 <= i < |tags| ==> r[i] == TagEntry(tags[i], now)
    decreases |tags|
  {
    if |tags| == 0 then []
    else TagEntries(tags[..|tags| - 1], now) + [TagEntry(tags[|tags| - 1], now)]
  }

  /** The posts the sitemap lists: the indexable posts of every public post type, type by type. */
  function ListedPosts(types: seq<seq<Post>>): seq<Post>
    decreases |types|
  {
    if |types| == 0 then []
    else ListedPosts(types[..|types| - 1]) + Indexed(types[|types| - 1])
  }

  /** The whole sitemap: post entries, then categories, then tags. */
  function SitemapEntries(types: seq<seq<Post>>, cats: seq<Term>, tags: seq<Term>, now: string): seq<Entry> {
    TypeEntries(types) + CategoryEntries(cats, now) + TagEntries(tags, now)
  }

  /** The inner loop of `render_sitemap`: the entries of one post type, skipping noindex posts. */
  method ListPosts(posts: seq<Post>) returns (entries: seq<Entry>)
    ensures entries == PostEntries(Indexed(posts))
  {
    entries := [];
    for j := 0 to |posts|
      invariant entries == PostEntries(Indexed(posts[..j]))
    {
      var p := posts[j];
      assert posts[..j + 1] == posts[..j] + [p];
      if Truthy(p.robots) && Contains(p.robots, "noindex") {
        IndexedSkip(posts[..j], p);
        continue;
      }
      IndexedSnoc(posts[..j], p);
      PostEntriesSnoc(Indexed(posts[..j]), p);
      entries := entries + [PostEntry(p)];
    }
    assert posts[..|posts|] == posts;
  }

  /** The outer loop of `render_sitemap` over the public post types. */
  method ListTypes(types: seq<seq<Post>>) returns (entries: seq<Entry>)
    ensures entries == TypeEntries(types)
  {
    entries := [];
    for i := 0 to |types|
      invariant entries == TypeEntries(types[..i])
    {
      var listed := ListPosts(types[i]);
      assert types[..i + 1][..i] == types[..i];
      entries := entries + listed;
    }
    assert types[..|types|] == types;
  }

  /** The category loop of `render_sitemap`. */
  method ListCategories(cats: seq<Term>, now: string) returns (entries: seq<Entry>)
    ensures entries == CategoryEntries(cats, now)
  {
    entries := [];
    for i := 0 to |cats|
      invariant entries == CategoryEntries(cats[..i], now)
    {
      assert cats[..i + 1][..i] == cats[..i];
      entries := entries + [CategoryEntry(cats[i], now)];
    }
    assert cats[..|cats|] == cats;
  }

  /** The tag loop of `render_sitemap`. */
  method ListTags(tags: seq<Term>, now: string) returns (entries: seq<Entry>)
    ensures entries == TagEntries(tags, now)
  {
    entries := [];
    for i := 0 to |tags|
      invariant entries == TagEntries(tags[..i], now)
    {
      assert tags[..i + 1][..i] == tags[..i];
      entries := entries + [TagEntry(tags[i], now)];
    }
    assert tags[..|tags|] == tags;
  }

  /**
   * `render_sitemap`: nothing unless the sitemap query variable is set;
   * otherwise the post entries type by type, then categories, then tags.
   */
  method RenderSitemap(requested: bool, types: seq<seq<Post>>, cats: seq<Term>, tags: seq<Term>, now: string)
    returns (served: bool, entries: seq<Entry>)
    ensures served == requested
    ensures entries == if requested then SitemapEntries(types, cats, tags, now) else []
  {
    served := requested;
    entries := [];
    if !requested {
      return;
    }
    var posts := ListTypes(types);
    var categories := ListCategories(cats, now);
    var terms := ListTags(tags, now);
    entries := posts + categories + terms;
  }

  lemma IndexedSkip(posts: seq<Post>, p: Post)
    requires !Indexable(p)
    ensures Indexed(posts + [p]) == Indexed(posts)
  {
    assert (posts + [p])[..|posts|] == posts;
  }

  lemma IndexedSnoc(posts: seq<Post>, p: Post)
    requires Indexable(p)
    ensures Indexed(posts + [p]) == Indexed(posts) + [p]
  {
    assert (posts + [p])[..|posts|] == posts;
  }

  lemma PostEntriesSnoc(posts: seq<Post>, p: Post)
    ensures PostEntries(posts + [p]) == PostEntries(posts) + [PostEntry(p)]
  {
    assert (posts + [p])[..|posts|] == posts;
  }

  // ---------------------------------------------------------------------------
  // What the sitemap promises

  /** Every post entry is weekly with priority 0.8, and it is the entry of an indexable post of one of the types. */
  lemma {:induction false} TypeEntriesArePosts(types: seq<seq<Post>>)
    ensures forall e :: e in TypeEntries(types) ==>
      e.changefreq == Weekly && e.priority == 8 &&
      exists t, p :: t in types && p in t && Indexable(p) && e == PostEntry(p)
    decreases |types|
  {
    if |types| > 0 {
      var init, last := types[..|types| - 1], types[|types| - 1];
      TypeEntriesArePosts(init);
      forall e | e in TypeEntries(types)
        ensures e.changefreq == Weekly && e.priority == 8
        ensures exists t, p :: t in types && p in t && Indexable(p) && e == PostEntry(p)
      {
        if e in TypeEntries(init) {
          var t, p :| t in init && p in t && Indexable(p) && e == PostEntry(p);
          assert t in types;
        } else {
          var es := PostEntries(Indexed(last));
          assert e in es;
          var i :| 0 <= i < |es| && es[i] == e;
          var p := Indexed(last)[i];
          assert p in Indexed(last);
          assert last in types;
        }
      }
    }
  }

  /** An indexable post of any listed type has its entry among the post entries. */
  lemma {:induction false} IndexableEntryListed(types: seq<seq<Post>>, t: seq<Post>, p: Post)
    requires t in types && p in t
    ensures Indexable(p) ==> PostEntry(p) in TypeEntries(types)
    decreases |types|
  {
    if Indexable(p) {
      var init, last := types[..|types| - 1], types[|types| - 1];
      if t == last {
        assert p in Indexed(last);
        var i :| 0 <= i < |Indexed(last)| && Indexed(last)[i] == p;
        assert PostEntries(Indexed(last))[i] == PostEntry(p);
      } else {
        assert types == init + [last];
        assert t in init;
        IndexableEntryListed(init, t, p);
      }
    }
  }

  lemma PostEntriesAppend(a: seq<Post>, b: seq<Post>)
    ensures PostEntries(a + b) == PostEntries(a) + PostEntries(b)
  {
    var l, r := PostEntries(a + b), PostEntries(a) + PostEntries(b);
    forall i | 0 <= i < |l| ensures l[i] == r[i] {
      if i < |a| {
        assert (a + b)[i] == a[i];
      } else {
        assert (a + b)[i] == b[i - |a|];
      }
    }
  }

  /** The post entries of the sitemap are the entries of the listed posts, one each, in order. */
  lemma {:induction false} ListedPostsEntries(types: seq<seq<Post>>)
    ensures PostEntries(ListedPosts(types)) == TypeEntries(types)
    decreases |types|
  {
    if |types| > 0 {
      var init, last := types[..|types| - 1], types[|types| - 1];
      ListedPostsEntries(init);
      PostEntriesAppend(ListedPosts(init), Indexed(last));
    }
  }

  /** A post is listed exactly when it is indexable and belongs to one of the post types. */
  lemma {:induction false} ListedIffIndexable(types: seq<seq<Post>>, p: Post)
    ensures p in ListedPosts(types) <==> Indexable(p) && exists i :: 0 <= i < |types| && p in types[i]
    decreases |types|
  {
    if |types| > 0 {
      var init, last := types[..|types| - 1], types[|types| - 1];
      ListedIffIndexable(init, p);
      assert p in ListedPosts(types) <==> p in ListedPosts(init) || p in Indexed(last);
      if p in ListedPosts(init) {
        var i :| 0 <= i < |init| && p in init[i];
        assert types[i] == init[i];
      }
      if p in Indexed(last) {
        assert p in types[|types| - 1];
      }
      if Indexable(p) && exists i :: 0 <= i < |types| && p in types[i] {
        var i :| 0 <= i < |types| && p in types[i];
        if i < |types| - 1 {
          assert init[i] == types[i];
        }
      }
    }
  }

  /**
   * A noindex post is not listed, so an entry equal to its own can only be
   * that of another listed post (one with the same permalink, date and image).
   */
  lemma NoindexNotListed(types: seq<seq<Post>>, p: Post)
    requires !Indexable(p)
    ensures p !in ListedPosts(types)
    ensures PostEntry(p) in TypeEntries(types) ==>
      exists q :: q in ListedPosts(types) && q != p && PostEntry(q) == PostEntry(p)
  {
    ListedIffIndexable(types, p);
    ListedPostsEntries(types);
    if PostEntry(p) in TypeEntries(types) {
      var es := PostEntries(ListedPosts(types));
      var i :| 0 <= i < |es| && es[i] == PostEntry(p);
      assert ListedPosts(types)[i] in ListedPosts(types);
    }
  }

  /** The sitemap lists the post entries first, then one entry per category, then one per tag. */
  lemma SitemapLayout(types: seq<seq<Post>>, cats: seq<Term>, tags: seq<Term>, now: string)
    ensures var s := SitemapEntries(types, cats, tags, now);
      && |s| == |TypeEntries(types)| + |cats| + |tags|
      && s[..|TypeEntries(types)|] == TypeEntries(types)
  {
    ThreeParts(TypeEntries(types), CategoryEntries(cats, now), TagEntries(tags, now));
  }

  /** Every post entry of the sitemap is weekly with priority 0.8. */
  lemma SitemapPostEntries(types: seq<seq<Post>>, cats: seq<Term>, tags: seq<Term>, now: string)
    ensures var s, n := SitemapEntries(types, cats, tags, now), |TypeEntries(types)|;
      n <= |s| && forall i :: 0 <= i < n ==> s[i].changefreq == Weekly && s[i].priority == 8
  {
    var ps := TypeEntries(types);
    ThreeParts(ps, CategoryEntries(cats, now), TagEntries(tags, now));
    TypeEntriesArePosts(types);
    forall i | 0 <= i < |ps| ensures ps[i].changefreq == Weekly && ps[i].priority == 8 {
      assert ps[i] in ps;
    }
  }

  /** After the post entries comes one entry per category, in order: its link, weekly, 0.6, stamped now, no image. */
  lemma SitemapCategoryEntries(types: seq<seq<Post>>, cats: seq<Term>, tags: seq<Term>, now: string)
    ensures forall i :: 0 <= i < |cats| ==>
      SitemapEntries(types, cats, tags, now)[|TypeEntries(types)| + i] == Entry(cats[i].link, now, Weekly, 6, None)
  {
    CategoriesAfter(TypeEntries(types), cats, TagEntries(tags, now), now);
  }

  lemma CategoriesAfter(ps: seq<Entry>, cats: seq<Term>, ts: seq<Entry>, now: string)
    ensures forall i :: 0 <= i < |cats| ==> (ps + CategoryEntries(cats, now) + ts)[|ps| + i] == Entry(cats[i].link, now, Weekly, 6, None)
  {
    ThreeParts(ps, CategoryEntries(cats, now), ts);
  }

  /** The sitemap ends with one entry per tag, in order: its link, monthly, 0.4, stamped now, no image. */
  lemma SitemapTagEntries(types: seq<seq<Post>>, cats: seq<Term>, tags: seq<Term>, now: string)
    ensures forall i :: 0 <= i < |tags| ==>
      SitemapEntries(types, cats, tags, now)[|TypeEntries(types)| + |cats| + i] == Entry(tags[i].link, now, Monthly, 4, None)
  {
    TagsLast(TypeEntries(types), CategoryEntries(cats, now), tags, now);
  }

  lemma TagsLast(ps: seq<Entry>, cs: seq<Entry>, tags: seq<Term>, now: string)
    ensures forall i :: 0 <= i < |tags| ==> (ps + cs + TagEntries(tags, now))[|ps| + |cs| + i] == Entry(tags[i].link, now, Monthly, 4, None)
  {
    ThreeParts(ps, cs, TagEntries(tags, now));
  }

  /** Indexing into a concatenation of three sequences. */
  lemma ThreeParts(a: seq<Entry>, b: seq<Entry>, c: seq<Entry>)
    ensures |a + b + c| == |a| + |b| + |c|
    ensures (a + b + c)[..|a|] == a
    ensures forall i :: 0 <= i < |a| ==> (a + b + c)[i] == a[i]
    ensures forall i :: 0 <= i < |b| ==> (a + b + c)[|a| + i] == b[i]
    ensures forall i :: 0 <= i < |c| ==> (a + b + c)[|a| + |b| + i] == c[i]
  {
    assert (a + b + c)[..|a|] == a;
  }

  /** Within one post type, the entries list the indexable posts in their order, with their images. */
  lemma PostTypeEntries(posts: seq<Post>)
    ensures var es, kept := PostEntries(Indexed(posts)), Indexed(posts);
      && |es| == |kept|
      && (forall i :: 0 <= i < |es| ==> es[i].loc == kept[i].permalink && es[i].lastmod == kept[i].modified)
      && (forall i :: 0 <= i < |es| ==> (es[i].image.Some? <==> kept[i].thumbnailId != 0 && Truthy(kept[i].thumbnailUrl)))
  {
  }

  /** The priorities of posts, categories and tags print as the `<priority>` texts the sitemap writes for them. */
  lemma PrioritiesAsPrinted()
    ensures PriorityText(PostPriority) == "0.8"
    ensures PriorityText(CategoryPriority) == "0.6"
    ensures PriorityText(TagPriority) == "0.4"
  {
  }

  /** Examples of the noindex test: robots meta that contains `noindex` hides the post, values without it do not. */
  lemma IndexableExamples(p: Post)
    ensures p.robots == "noindex,follow" ==> !Indexable(p)
    ensures p.robots == "" || p.robots == "nofollow" ==> Indexable(p)
  {
    if p.robots == "noindex,follow" {
      ContainsPrefix(p.robots, "noindex");
    }
    if p.robots == "nofollow" {
      MissingChar(p.robots, "noindex", 'd');
    }
  }
}
