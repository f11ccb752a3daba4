# SEOPlugin decision rules, modelled in Dafny

SEOPlugin is a WordPress plugin. It writes meta tags, JSON-LD structured data, an XML sitemap, breadcrumbs and a document title for the public pages. In the post editor it scores the SEO fields live and shows suggestions from the Google Gemini API. It saves SEO fields for posts and taxonomy terms.

This project models the deterministic rules inside those features. WordPress's host calls become inputs: post meta, options, the `is_*()` page conditionals, permalinks, attachment data, sanitizers, `wp_strip_all_tags` and `wp_trim_words`. The HTTP round trip to the API is an input too.

| file | module | models |
|---|---|---|
| `Host.dfy` | `Host` | what the host hands the plugin: `Option`, `get_option` with a default, the page conditionals |
| `Text.dfy` | `Text` | string helpers: ASCII whitespace and `trim()`, `split`/`join`/`implode`, `includes`/`strpos`, ASCII lower-casing, PHP truthiness (`""` and `"0"` are false) and `?:` |
| `Editor.dfy` | `Editor` | the editor script: the score factors, the score and grade, the score panel (a class), the character counter (a class), the focus-keyword highlight, and parsing of AI suggestions and keywords |
| `Head.dfy` | `Head` | `add_meta_tags` with its helpers (verification tags, analytics snippet, archive tags) and `override_title` |
| `Sitemap.dfy` | `Sitemap` | `render_sitemap` (one method per loop) and what the entry list promises |
| `Schema.dfy` | `Schema` | the JSON-LD `@graph` of `add_jsonld_snippet`, and the consistency of its `@id` cross-references |
| `Shortcodes.dfy` | `Shortcodes` | `site_domain_url_shortcode` and `breadcrumbs_shortcode` (a method whose loop adds the ancestors) |
| `Admin.dfy` | `Admin` | `save_post_meta` and `save_term_seo_fields` on a `MetaStore` class, the AI handlers' guards, the Gemini reply extraction, and the settings-page tab dispatch |

The code that works step by step is imperative Dafny. That covers the score accumulation, the counter, the sitemap loops, the breadcrumb ancestor loop, the title-parts update, the archive flag and the meta-saving loop. Each such method is proved against a specification function, and the lemmas state what the source promises about that function. Expression-only code is modelled with functions and lemmas: the JSON-LD literal, the domain shortcode, the guards, the extraction and the tab switch.

Where the plugin echoes markup, the model produces a list of records such as `Item`, `Entry`, `Crumb` and `Node`. Escaping is not modelled.

## Model

| member | source | states |
|---|---|---|
| Editor.LengthFactor | assets/js/seoplugin.js:111-137 | A length band gives 25 inside [lo, hi], 15 for a non-empty length below lo, 10 above hi and 0 when empty. Each value occurs exactly in its band. |
| Editor.ImageFactor | assets/js/seoplugin.js:141-145 | The image factor is 25 exactly when the OG image id is non-empty, and 0 otherwise. |
| Editor.KeywordFactor | assets/js/seoplugin.js:149-164 | The factor is 0 iff there is no keyword. It is 25 iff the keyword is found, ignoring case, in both title and description, 15 iff in exactly one, and 10 iff in neither. |
| Editor.ScoreRange | assets/js/seoplugin.js:107-168 | Each factor takes one of its listed values, so the score is a multiple of 5 from 0 to 100. |
| Editor.PerfectScore | assets/js/seoplugin.js:107-168 | The score is 100 exactly when every factor is at its best. |
| Editor.GradeFor | assets/js/seoplugin.js:174-182 | The grade is excellent iff score ≥ 80, good iff it is in [60, 80), fair iff in [40, 60), poor iff below 40. |
| Editor.Analyse | assets/js/seoplugin.js:101-168 | The score accumulated branch by branch equals the sum of the four factors and lies in [0, 100]. Each mark is a tick for full points, a cross for none and a warning otherwise. |
| Editor.ScorePanel.UpdateAnalysis | assets/js/seoplugin.js:101-183 | After an update the panel shows the score, and each of the four marks is the status of its factor. The four grade classes are removed and exactly the class of the score's grade is added; other classes stay. |
| Editor.Truncate | assets/js/seoplugin.js:78-81 | The truncated text is a prefix of the input, of length min(length, max). |
| Editor.TruncateIdempotent | assets/js/seoplugin.js:78-81 | Truncating twice to the same bound equals truncating once. |
| Editor.CountedTextNotTooLong | assets/js/seoplugin.js:49-50 | A title cut at the title box's maximum of 65 and a description cut at the description box's maximum of 160 never score the too-long 10 points. |
| Editor.CountedBox.OnInput | assets/js/seoplugin.js:74-83 | After input the box holds a prefix of the typed text, of length min(length, maxLength), and the counter shows that length. |
| Editor.KeywordHighlights | assets/js/seoplugin.js:224-247 | With no keyword neither field is highlighted. Otherwise each field is highlighted iff it contains the keyword, ignoring case. |
| Editor.HighlightsMatchKeywordFactor | assets/js/seoplugin.js:149-164 | For a non-empty keyword, the two highlights decide the keyword factor: both give 25, one gives 15, none gives 10. |
| Editor.KeywordCaseInsensitive | assets/js/seoplugin.js:151-152 | Containment ignoring case is unchanged when either text is lower-cased first. |
| Editor.DigitRun | assets/js/seoplugin.js:371 | The run is the longest prefix made of digits. |
| Editor.StripNumbering | assets/js/seoplugin.js:371 | A line not starting with `\d+\.` is left unchanged. A numbered line keeps its suffix after the digits, the dot and all the whitespace that follows, which is the leftmost-longest match of `^\d+\.\s*`. |
| Editor.CleanSuggestion | assets/js/seoplugin.js:371 | A cleaned suggestion has no surrounding whitespace. It is a slice of the line with only whitespace after it. Before it come the numbering and whitespace on a numbered line, and only whitespace otherwise. |
| Editor.ParseSuggestions | assets/js/seoplugin.js:368-372 | There are no more suggestions than lines, and each is non-empty and trimmed. |
| Editor.KeepSuggestions | assets/js/seoplugin.js:368-372 | Filtering blank lines and empty cleaned lines keeps at most one suggestion per line, each non-empty and trimmed. |
| Editor.CleanLineKept | assets/js/seoplugin.js:368-372 | A line that is non-empty, trimmed and not numbered passes the filter unchanged. |
| Editor.NumberingRemoved | assets/js/seoplugin.js:371 | `"<digits>. <text>"` cleans to `<text>`. |
| Editor.ParseSuggestionsOfCleanLines | assets/js/seoplugin.js:368-372 | Joining clean lines with newlines and then parsing returns exactly those lines, in order. |
| Editor.KeepCleanLines | assets/js/seoplugin.js:368-372 | The filter keeps a list of clean lines as it is. |
| Editor.KeepSuggestionsAppend | assets/js/seoplugin.js:368-372 | The filter works line by line: the suggestions of two blocks of lines are those of the first block followed by those of the second. |
| Editor.KeepSuggestionsOne | assets/js/seoplugin.js:368-372 | A single line gives its cleaned form when that is non-empty, and nothing otherwise. With the append lemma this fixes the result for every list of lines. |
| Editor.KeptSuggestion | assets/js/seoplugin.js:368-372 | A string is among the suggestions iff it is non-empty and the cleaned form of some line. |
| Editor.BlankLineCleansToNothing | assets/js/seoplugin.js:368 | A blank line cleans to the empty string, so the `line.trim()` filter never drops a line that cleaning would keep. |
| Editor.BlankLineDropped | assets/js/seoplugin.js:368 | A blank line between blocks of lines contributes nothing. |
| Editor.ParseSuggestionsOfNumberedLines | assets/js/seoplugin.js:368-372 | A reply of lines `"<digits>. <text>"` joined by newlines parses to the texts, in order. |
| Editor.NumberedReplyExample | assets/js/seoplugin.js:368-372 | `"1. A\n\n2. B"` parses to `["A", "B"]`. |
| Editor.ParseKeywords | assets/js/seoplugin.js:383 | There are no more keywords than comma-separated pieces, and each is non-empty, trimmed and comma-free. |
| Editor.KeepKeywords | assets/js/seoplugin.js:383 | Trimming and filtering the pieces keeps at most one keyword per piece, each non-empty, trimmed and comma-free. |
| Editor.ParseKeywordsOfList | assets/js/seoplugin.js:383 | Parsing a comma-joined list returns the trimmed pieces in order. |
| Editor.KeepKeywordsAppend | assets/js/seoplugin.js:383 | The filter works piece by piece: the keywords of two runs of pieces are those of the first run followed by those of the second. |
| Editor.KeptKeyword | assets/js/seoplugin.js:383 | A string is among the keywords iff it is non-empty and the trimmed form of some piece. |
| Editor.EmptyPieceDropped | assets/js/seoplugin.js:383 | A piece that trims to nothing, such as the one after a trailing comma, contributes nothing. |
| Editor.TrailingCommaExample | assets/js/seoplugin.js:383 | `"a, b,"` parses to `["a", "b"]`. |
| Text.Trim | assets/js/seoplugin.js:368 | The result is a slice of the input with only whitespace before and after it, and it has no whitespace at either end. Together these fix the result, and a trimmed input is returned unchanged. |
| Text.TrimEmptyIff | assets/js/seoplugin.js:368 | A line trims to nothing exactly when every character is whitespace. |
| Text.ContainsIff | assets/js/seoplugin.js:151-152 | The left-to-right search finds p exactly when p occurs at some offset. |
| Text.SplitJoin | assets/js/seoplugin.js:383 | Splitting a join of separator-free pieces gives back the pieces. |
| Text.JoinSplit | assets/js/seoplugin.js:383 | Joining the pieces of a split gives back the string. |
| Text.Elvis | Public/seoplugin-public.php:50-51 | `a ?: b` is a when a is truthy, and b otherwise. |
| Host.GetOption | Public/seoplugin-public.php:123-124 | `get_option` returns the stored value when the option exists, and the default only when it does not. |
| Head.AnalyticsSnippet | Public/seoplugin-public.php:190-232 | A snippet appears iff GTM or GA is truthy. GTM wins. Otherwise GA4 is chosen iff the id starts with `G-`, and Universal Analytics otherwise. The chosen snippet carries its id. |
| Head.TagManagerPriority | Public/seoplugin-public.php:194-204 | When a container id is set, the GA id does not affect the choice. |
| Head.HeadAnalytics | Public/seoplugin-public.php:41-46 | The head holds exactly the selected snippet, and at most one. |
| Head.SingularTagsMatchTable | Public/seoplugin-public.php:48-120 | A singular page emits only tags whose content matches its key table, and every tag the table names. |
| Head.FrontTagsMatchTable | Public/seoplugin-public.php:121-152 | The front page emits exactly the tags of its table. |
| Head.ArchiveTagsMatchTable | Public/seoplugin-public.php:235-266 | An archive emits exactly the tags of its table. |
| Head.PageTagsMatchTable | Public/seoplugin-public.php:48-156 | The tags specific to a page kind match that kind's table: singular first, then front page, then any archive. |
| Head.HeadMatchesTable | Public/seoplugin-public.php:41-163 | Every item of the whole head comes from the head's table or the analytics choice. Every tag the table names is present, and so is the chosen snippet. |
| Head.HeadShows | Public/seoplugin-public.php:41-163 | For every key, the head shows exactly the content its table gives, or omits the key. |
| Head.SingularHead | Public/seoplugin-public.php:48-95 | On a singular page: the description falls back from the stored value to the post title to the excerpt; the canonical URL falls back to the permalink; the titles fall back to the post title; og:url is the permalink and og:type is `article`. |
| Head.SingularHeadOptional | Public/seoplugin-public.php:52-114 | On a singular page, robots and keywords tags appear only for truthy values. Image tags appear only for a truthy image URL: the attachment's URL for a numeric id, the raw value otherwise. There is never a twitter:site tag. |
| Head.FrontPageHead | Public/seoplugin-public.php:121-136 | On the front page, title and description come from the homepage options. They fall back to the site name and tagline only when the option does not exist. |
| Head.FrontPageHeadOptional | Public/seoplugin-public.php:137-152 | On the front page, og:image needs both the option and its attachment URL, and twitter:site needs a truthy handle. There is no canonical, robots or twitter:image tag. |
| Head.ArchiveHead | Public/seoplugin-public.php:235-266 | An archive's robots tag appears iff its kind is set to noindex, and it reads `noindex,follow`. The description is the stripped category or tag description when that is truthy. There are no OG or canonical tags. |
| Head.OtherPageHead | Public/seoplugin-public.php:48-156 | Other page kinds get no page-specific tags. |
| Head.SiteWideTags | Public/seoplugin-public.php:166-187 | On every page, each verification tag and the App ID tag appear exactly when their option is truthy. |
| Head.DecideArchiveNoindex | Public/seoplugin-public.php:240-248 | The flag set branch by branch is true iff (category ∧ noindex categories) ∨ (tag ∧ noindex tags) ∨ ((date ∨ author) ∧ noindex archives). |
| Head.TitleOverride | Public/seoplugin-public.php:375-385 | On a singular page the override is the stored SEO title, present iff that title is truthy. On the front page (when not singular) it is the homepage title option, present iff that option exists and is truthy. On any other page there is none. |
| Head.OverrideTitle | Public/seoplugin-public.php:375-395 | `title` becomes the override: the truthy SEO title on a singular page, the truthy homepage title on the front page. Without an override it keeps its value. `sep` becomes the separator option (default `|`) exactly when `title` and `site` are both present. No other key changes. |
| Sitemap.PriorityText | Public/seoplugin-public.php:315 | A priority of p tenths prints as `0.p`, and 10 prints as `1.0`. |
| Sitemap.PrioritiesAsPrinted | Public/seoplugin-public.php:315-350 | The post, category and tag priorities print as `0.8`, `0.6` and `0.4`, the texts the sitemap writes. |
| Sitemap.PostEntry | Public/seoplugin-public.php:311-327 | A post's entry has its permalink and modified date, weekly/0.8, and an image block iff the thumbnail id and its URL are both truthy. |
| Sitemap.Indexed | Public/seoplugin-public.php:304-309 | The kept posts are exactly the indexable ones. |
| Sitemap.ListPosts | Public/seoplugin-public.php:304-329 | The post loop lists the entries of the indexable posts, in order. |
| Sitemap.ListTypes | Public/seoplugin-public.php:297-330 | The post-type loop lists each type's entries, type by type. |
| Sitemap.ListCategories | Public/seoplugin-public.php:335-342 | The category loop gives one weekly/0.6 entry per category. |
| Sitemap.ListTags | Public/seoplugin-public.php:345-352 | The tag loop gives one monthly/0.4 entry per tag. |
| Sitemap.RenderSitemap | Public/seoplugin-public.php:288-357 | Nothing is served unless requested. Otherwise the output is posts, then categories, then tags. |
| Sitemap.TypeEntriesArePosts | Public/seoplugin-public.php:297-330 | Every post entry is weekly/0.8 and belongs to an indexable post of one of the types. |
| Sitemap.IndexableEntryListed | Public/seoplugin-public.php:304-329 | The entry of every indexable post of a listed type is in the sitemap. |
| Sitemap.ListedPostsEntries | Public/seoplugin-public.php:297-330 | The post entries of the sitemap are the entries of the listed posts, one each, in order. |
| Sitemap.ListedIffIndexable | Public/seoplugin-public.php:304-309 | A post is listed iff it is indexable and belongs to one of the post types. |
| Sitemap.NoindexNotListed | Public/seoplugin-public.php:306-309 | A post whose robots meta is truthy and contains `noindex` is not listed. An entry equal to its own can belong only to a different listed post with the same permalink, date and image. |
| Sitemap.SitemapLayout | Public/seoplugin-public.php:297-352 | The sitemap's length is the sum of its three parts, and it begins with the post entries. |
| Sitemap.SitemapPostEntries | Public/seoplugin-public.php:297-330 | The first part of the sitemap is all weekly/0.8. |
| Sitemap.SitemapCategoryEntries | Public/seoplugin-public.php:335-342 | After the posts, entry i is category i's link, weekly/0.6, with no image. |
| Sitemap.SitemapTagEntries | Public/seoplugin-public.php:345-352 | After the categories, entry i is tag i's link, monthly/0.4, with no image. |
| Sitemap.PostTypeEntries | Public/seoplugin-public.php:304-329 | A type's entries are those of its indexable posts, one each, in order. |
| Sitemap.IndexableExamples | Public/seoplugin-public.php:307 | `noindex,follow` is skipped, while an empty robots meta and `nofollow` are listed. |
| Schema.JsonLd | Public/seoplugin-public.php:398-527 | Structured data is emitted iff the page is singular. It has the schema.org context and the five-node graph. |
| Schema.TargetsOfGraph | Public/seoplugin-public.php:427-516 | The identifiable nodes are the page, primary image, breadcrumb list, website, organization and the embedded logo. |
| Schema.IdsDistinct | Public/seoplugin-public.php:430-506 | With no `#` in the permalink or site URL, the six `@id`s are pairwise different. |
| Schema.TargetsResolve | Public/seoplugin-public.php:427-516 | Each node's `@id` names that node and no other. |
| Schema.ReferencesResolve | Public/seoplugin-public.php:433-513 | Each reference resolves to the intended node: isPartOf to the website, about and publisher to the organization, image and primaryImageOfPage to the image object, breadcrumb to the list, and the organization image to its logo. |
| Schema.NoDanglingReferences | Public/seoplugin-public.php:433-513 | Every `@id` reference in the graph names some node of it, for all inputs. |
| Schema.PageFields | Public/seoplugin-public.php:402-474 | The page type defaults to `Article`. The name falls back to the post title, the description to the tagline and the language to `en-US`. The breadcrumb list runs Home → page. |
| Schema.ImageFields | Public/seoplugin-public.php:409-456 | The image URL, size and caption are filled only for a truthy numeric OG id, and are empty otherwise. The thumbnail URL equals the image URL. |
| Shortcodes.StripProtocol | Public/seoplugin-public.php:534 | `https://` or `http://` is removed from the front, and other strings are unchanged. |
| Shortcodes.StripWww | Public/seoplugin-public.php:536 | A leading `www.` is removed, and other strings are unchanged. |
| Shortcodes.DomainUrlShape | Public/seoplugin-public.php:531-538 | The result starts with `www.` and has no protocol prefix. |
| Shortcodes.DomainUrlOfHost | Public/seoplugin-public.php:531-538 | `http(s)://host` and `http(s)://www.host` both give `www.host`, so a single `www.` is never doubled. |
| Shortcodes.DomainUrlIdempotent | Public/seoplugin-public.php:531-538 | Normalising twice equals normalising once. |
| Shortcodes.Att | Public/seoplugin-public.php:547-551 | A shortcode attribute takes the given value, or its default when absent. |
| Shortcodes.Breadcrumbs | Public/seoplugin-public.php:541-597 | The markup built step by step, with the ancestor loop, equals the trail specification. |
| Shortcodes.EmptyUnlessProduced | Public/seoplugin-public.php:543-555 | The output is empty iff the option disables breadcrumbs or the page is the front page. |
| Shortcodes.HomeFirst | Public/seoplugin-public.php:563 | The first crumb is the Home link with the home text. |
| Shortcodes.PageTrail | Public/seoplugin-public.php:578-589 | On a page the ancestors come root first after Home. The current title is last iff `show_current` is `"true"`. |
| Shortcodes.SingleTrail | Public/seoplugin-public.php:566-574 | On a single post the first category follows Home. The current title is last iff `show_current` is `"true"`. |
| Shortcodes.ArchiveTrail | Public/seoplugin-public.php:565-594 | A category, tag or archive page has Home and then its own title, whatever `show_current` says. |
| Shortcodes.HomeOnlyTrail | Public/seoplugin-public.php:565-594 | Any other page gets Home alone. |
| Shortcodes.TrailJoin | Public/seoplugin-public.php:596 | Adding one crumb adds the separator and that crumb's markup. |
| Admin.Decimal | admin/seoplugin-admin.php:713-715 | The stored form of an `absint` value is a non-empty digit string that denotes the number, with no leading zero unless the number is 0. |
| Admin.StoredTruthy | admin/seoplugin-admin.php:713-717 | A value that is not `empty()` is stored as a truthy string, `absint` numbers included. |
| Admin.SavedOthers | admin/seoplugin-admin.php:691-718 | A key outside the field map keeps its value, or stays absent. |
| Admin.SavedField | admin/seoplugin-admin.php:702-718 | With distinct meta keys, a field present in the request is stored sanitized when not empty and deleted when empty. An absent field keeps its old meta. |
| Admin.SavedKeepsTruthy | admin/seoplugin-admin.php:713-717 | If every stored field value is truthy before a save, it is truthy after. |
| Admin.PostFieldsDistinct | admin/seoplugin-admin.php:691-700 | The eight post fields, and so the six term fields, have distinct meta keys. |
| Admin.PostFieldSanitizers | admin/seoplugin-admin.php:704-711 | The description uses the textarea sanitizer, the canonical URL `esc_url_raw`, the image id `absint`, and the rest the text sanitizer. |
| Admin.MetaStore.SaveFields | admin/seoplugin-admin.php:702-718 | The loop leaves the store as the field-by-field specification says. |
| Admin.MetaStore.SavePostMeta | admin/seoplugin-admin.php:677-720 | The save goes ahead iff the nonce is posted and valid, the request is not an autosave and the user may edit. Otherwise the store is unchanged. |
| Admin.MetaStore.SaveTermSeoFields | admin/seoplugin-admin.php:331-364 | Nothing changes without `manage_categories`. Otherwise the six term fields are saved. |
| Admin.ExtractText | admin/seoplugin-admin.php:1368-1379 | A transport error passes through. A body yields the text iff `candidates[0].content.parts[0].text` is set, and otherwise the error `Invalid API response`. |
| Admin.ReplyRoundTrip | admin/seoplugin-admin.php:1372-1379 | The text of a well-formed reply is extracted unchanged. |
| Admin.NoCandidates | admin/seoplugin-admin.php:1372-1375 | A reply without a usable `candidates` member is an invalid response. |
| Admin.AiGuard | admin/seoplugin-admin.php:1216-1234 | The request passes the checks iff the referer verifies, the assistant option is truthy, an API key is set and the post exists. |
| Admin.AiGuardOrder | admin/seoplugin-admin.php:1218-1234 | The checks report, in order: disabled, then missing key, then post not found, each with its message. |
| Admin.GuardedBeforeRequest | admin/seoplugin-admin.php:1216-1239 | When a check fails, the reply does not depend on the API, and it is never a success. |
| Admin.AiReply | admin/seoplugin-admin.php:1236-1243 | After the call: success iff the reply holds the text, which is then sent under the action's key. Otherwise the error's message is sent. |
| Admin.HandleAi | admin/seoplugin-admin.php:1215-1244 | A failed check's reply is sent as is. Otherwise the reply to the prompt built from the stripped, word-trimmed content is sent. |
| Admin.ActiveTab | admin/seoplugin-admin.php:773 | The active tab is the `tab` parameter, or `general` when absent. |
| Admin.NavActive | admin/seoplugin-admin.php:779-793 | A navigation link is marked active iff its tab name equals the active tab. |
| Admin.SectionOfListedTab | admin/seoplugin-admin.php:798-814 | A tab renders a section iff it is one of the five listed names, and then the listed section. |
| Admin.TabRoundTrip | admin/seoplugin-admin.php:779-814 | Each listed tab renders its own section and marks only its own link active. |
| Admin.UnknownTab | admin/seoplugin-admin.php:779-814 | An unknown tab renders no section and marks no link active. |
| Admin.DefaultTab | admin/seoplugin-admin.php:773-814 | Without a `tab` parameter the general section is rendered and the first link is active. |

## Left out

- The HTML, XML and script text around the modelled values: echoes, the score circle's DOM, the social previews, the media frame and the form markup. Escaping (`esc_attr`, `esc_url`, `esc_html`, `esc_js`) is left out too: records carry raw values.
- The host's functions are inputs whose internals are not part of this model. These include `get_post_meta`, `get_option`, permalinks, attachment lookups, `is_numeric`, `strip_tags`, the date formats, `date('c')`, the sanitizers, `wp_strip_all_tags` and `wp_trim_words`.
- The network: `wp_remote_post` and the AJAX transport become a function from key and prompt to a response. `json_decode` is taken as already applied, with `null` for a body that does not decode.
- Hook, settings, menu and rewrite-rule registration; the bootstrap (`seoplugin.php`), the option wrapper (`include/class-seoplugin.php`) and `uninstall.php` are not part of this model.
- The `seoplugin_keywords` content shortcode (`render_shortcode`): it is templating around `shortcode_atts` with one default.
- Head.SingularHeadOptional: for a non-numeric image id the code tests whether `esc_url` of the id is truthy, so an id that `esc_url` rejects emits no og:image or twitter:image tags. Escaping is not modelled, so the model emits them for any truthy raw value.
- Unicode: lengths are sequence lengths, whitespace and lower-casing are ASCII. The script counts UTF-16 units.
- JSON encoding of the graph, and the fixed-literal parts of its nodes (`potentialAction`, `query-input`, `sameAs`). `Schema.IdsDistinct`, `Schema.TargetsResolve` and `Schema.ReferencesResolve` assume that the permalink and the site URL contain no `#`. `Schema.NoDanglingReferences` holds without that assumption.
- The image caption in structured data: `get_post()` of a missing attachment, whose `post_excerpt` would then be read from null, is modelled as an attachment without an excerpt.
- Editor.ParseSuggestions: its own contract gives only the bound and the shape of each suggestion. It does not state that the suggestions contain no newline. The exact result is given by `Editor.KeepSuggestionsAppend` with `Editor.KeepSuggestionsOne`, and membership by `Editor.KeptSuggestion`.
- Editor.KeepSuggestions: writes the `line.trim()` filter as "not all whitespace". `Text.TrimEmptyIff` proves the two tests agree.
- Shortcodes.ArchiveTrail: the category, tag and archive branches always add their title as the current crumb. This follows the code, which ignores `show_current` there.
- Head.FrontPageHeadOptional: follows the public code, which reads the handle from `seoplugin_twitter_username`. The settings form saves `seoplugin_x_username` and only falls back to the old option for display.
- Posted fields: a `$_POST` value could also be an array. Every posted value is modelled as a string. `update_post_meta` storing an integer is modelled as storing its decimal digits.
- Admin.HandleAi: `check_ajax_referer` is a boolean input, and its rejection is one value, `Rejected`. The prompts are modelled word for word, but no lemma is stated about their text.
- Admin.Index: PHP reads of a string offset (`"abc"[0]`) are modelled as missing. On the text path of the Gemini reply a string key always follows, so `isset` is false either way.
