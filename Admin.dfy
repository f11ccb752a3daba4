/**
 * The admin side of the plugin: saving the SEO fields of a post and of a
 * taxonomy term, the guards of the AI assistant's AJAX handlers, the
 * extraction of the generated text from a Gemini reply, and the tab dispatch
 * of the settings page.
 */
module Admin {
  import opened Host
  import opened Text

  // ---------------------------------------------------------------------
  // Saving fields (save_post_meta, save_term_seo_fields)
  // ---------------------------------------------------------------------

  /** One saved field: the meta key it is stored under and the form field it is read from. */
  datatype Field = Field(metaKey: string, postKey: string)

  /** The fields of the post meta box, in the order they are saved. */
  const PostFields: seq<Field> := [
    Field("_seoplugin_meta_title", "seoplugin_meta_title"),
    Field("_seoplugin_meta_description", "seoplugin_meta_description"),
    Field("_seoplugin_focus_keyword", "seoplugin_focus_keyword"),
    Field("_seoplugin_og_image_id", "seoplugin_og_image_id"),
    Field("_seoplugin_robots_meta", "seoplugin_robots_meta"),
    Field("_seoplugin_canonical_url", "seoplugin_canonical_url"),
    Field("_seoplugin_meta_keywords", "seoplugin_meta_keywords"),
    Field("_seoplugin_schema_type", "seoplugin_schema_type")]

  /** The fields of a taxonomy term, in the order they are saved: the first six post fields. */
  const TermFields: seq<Field> := PostFields[..6]

  /** Which WordPress sanitizer cleans a posted field. */
  datatype Sanitizer = TextField | TextareaField | UrlRaw | AbsInt

  /** The sanitizer chosen for a form field: the description, canonical URL and image id are special, every other field is plain text. */
  function SanitizerFor(postKey: string): Sanitizer {
    if postKey == "seoplugin_meta_description" then TextareaField
    else if postKey == "seoplugin_canonical_url" then UrlRaw
    else if postKey == "seoplugin_og_image_id" then AbsInt
    else TextField
  }

  /**
   * The host's sanitizers (`sanitize_text_field`, `sanitize_textarea_field`,
   * `esc_url_raw`, `absint`), whose internals are not part of this model.
   */
  datatype Sanitizers = Sanitizers(
    text: string -> string,
    textarea: string -> string,
    url: string -> string,
    absint: string -> nat)

  /** A sanitized value: a string, or the integer `absint` returns. */
  datatype Value = Text(s: string) | Number(n: nat)

  /** The sanitized value of a raw posted string. */
  function Sanitize(postKey: string, raw: string, san: Sanitizers): Value {
    match SanitizerFor(postKey)
    case TextField => Text(san.text(raw))
    case TextareaField => Text(san.textarea(raw))
    case UrlRaw => Text(san.url(raw))
    case AbsInt => Number(san.absint(raw))
  }

  /** PHP's `empty()` of a sanitized value. */
  predicate Empty(v: Value) {
    match v
    case Text(s) => !Truthy(s)
    case Number(n) => n == 0
  }

  /** The number a string of decimal digits denotes. */
  function DigitsValue(s: string): nat
    requires forall i :: 0 <= i < |s| ==> IsDigit(s[i])
    decreases |s|
  {
    if |s| == 0 then 0
    else
      assert IsDigit(s[|s| - 1]);
      DigitsValue(s[..|s| - 1]) * 10 + (s[|s| - 1] as int - '0' as int)
  }

  /** The decimal digits of a natural number, as the metadata table stores an integer: they denote it, without leading zeros. */
  function Decimal(n: nat): (r: string)
    ensures |r| >= 1
    ensures forall i :: 0 <= i < |r| ==> IsDigit(r[i])
    ensures DigitsValue(r) == n
    ensures n > 0 ==> r[0] != '0'
  {
    var d := ['0' + (n % 10) as char];
    if n < 10 then d
    else
      var r := Decimal(n / 10) + d;
      assert r[..|r| - 1] == Decimal(n / 10);
      r
  }

  /** The string a value is stored as. */
  function Stored(v: Value): string {
    match v
    case Text(s) => s
    case Number(n) => Decimal(n)
  }

  /** A value that is not empty is stored as a truthy string, so readers that test `if ($meta)` see it. */
  lemma StoredTruthy(v: Value)
    requires !Empty(v)
    ensures Truthy(Stored(v))
  {
    if v.Number? {
      var r := Decimal(v.n);
      assert r[0] != '0';
    }
  }

  /** The metadata after one field of the form is handled: a non-empty value is stored, an empty one deletes the key, an absent one changes nothing. */
  function SaveField(m: map<string, string>, f: Field, form: map<string, string>, san: Sanitizers): map<string, string> {
    if f.postKey in form then
      var v := Sanitize(f.postKey, form[f.postKey], san);
      if Empty(v) then m - {f.metaKey} else m[f.metaKey := Stored(v)]
    else m
  }

  /** The metadata after the fields are handled in order. */
  function Saved(m: map<string, string>, fields: seq<Field>, form: map<string, string>, san: Sanitizers): map<string, string>
    decreases |fields|
  {
    if fields == [] then m
    else SaveField(Saved(m, fields[..|fields| - 1], form, san), fields[|fields| - 1], form, san)
  }

  /** No two fields share a meta key. */
  predicate DistinctKeys(fields: seq<Field>) {
    forall i, j :: 0 <= i < j < |fields| ==> fields[i].metaKey != fields[j].metaKey
  }

  /** `k` is the meta key of one of the fields. */
  predicate IsMetaKey(fields: seq<Field>, k: string) {
    exists i :: 0 <= i < |fields| && fields[i].metaKey == k
  }

  /** A key no field writes keeps its value, or stays absent. */
  lemma {:induction false} SavedOthers(m: map<string, string>, fields: seq<Field>, form: map<string, string>, san: Sanitizers, k: string)
    requires !IsMetaKey(fields, k)
    ensures k in Saved(m, fields, form, san) <==> k in m
    ensures k in m ==> Saved(m, fields, form, san)[k] == m[k]
    decreases |fields|
  {
    if fields != [] {
      var init := fields[..|fields| - 1];
      assert !IsMetaKey(init, k) by {
        forall i | 0 <= i < |init| ensures init[i].metaKey != k {
          assert init[i] == fields[i];
        }
      }
      assert fields[|fields| - 1].metaKey != k;
      SavedOthers(m, init, form, san, k);
    }
  }

  /**
   * With distinct meta keys, field `i` ends up as its own handling decides:
   * stored sanitized when posted and not empty, deleted when posted and empty,
   * as before when not posted.
   */
  lemma {:induction false} SavedField(m: map<string, string>, fields: seq<Field>, form: map<string, string>, san: Sanitizers, i: nat)
    requires DistinctKeys(fields) && i < |fields|
    ensures var f, r := fields[i], Saved(m, fields, form, san);
      && (f.postKey in form && !Empty(Sanitize(f.postKey, form[f.postKey], san)) ==>
            f.metaKey in r && r[f.metaKey] == Stored(Sanitize(f.postKey, form[f.postKey], san)))
      && (f.postKey in form && Empty(Sanitize(f.postKey, form[f.postKey], san)) ==> f.metaKey !in r)
      && (f.postKey !in form ==> (f.metaKey in r <==> f.metaKey in m))
      && (f.postKey !in form && f.metaKey in m ==> r[f.metaKey] == m[f.metaKey])
    decreases |fields|
  {
    var init := fields[..|fields| - 1];
    var last := fields[|fields| - 1];
    if i == |fields| - 1 {
      assert !IsMetaKey(init, last.metaKey) by {
        forall j | 0 <= j < |init| ensures init[j].metaKey != last.metaKey {
          assert init[j] == fields[j];
        }
      }
      SavedOthers(m, init, form, san, last.metaKey);
    } else {
      assert DistinctKeys(init) by {
        forall a, b | 0 <= a < b < |init| ensures init[a].metaKey != init[b].metaKey {
          assert init[a] == fields[a] && init[b] == fields[b];
        }
      }
      assert init[i] == fields[i];
      assert last.metaKey != fields[i].metaKey;
      SavedField(m, init, form, san, i);
    }
  }

  /**
   * Every value stored under a field's key is truthy, before and after a save:
   * empty values are deleted, never stored. `keys` is any set holding the
   * fields' meta keys.
   */
  lemma {:induction false} SavedKeepsTruthy(m: map<string, string>, fields: seq<Field>, form: map<string, string>, san: Sanitizers, keys: set<string>)
    requires forall i :: 0 <= i < |fields| ==> fields[i].metaKey in keys
    requires forall k :: k in m && k in keys ==> Truthy(m[k])
    ensures forall k :: k in Saved(m, fields, form, san) && k in keys ==> Truthy(Saved(m, fields, form, san)[k])
    decreases |fields|
  {
    if fields != [] {
      var init := fields[..|fields| - 1];
      var f := fields[|fields| - 1];
      assert forall i :: 0 <= i < |init| ==> init[i] == fields[i];
      SavedKeepsTruthy(m, init, form, san, keys);
      if f.postKey in form && !Empty(Sanitize(f.postKey, form[f.postKey], san)) {
        StoredTruthy(Sanitize(f.postKey, form[f.postKey], san));
      }
    }
  }

  /** The post meta box nonce field. */
  const NonceField := "seoplugin_meta_box_nonce"

  /**
   * `save_post_meta` goes ahead only when the nonce is posted and verifies,
   * the request is not an autosave and the user may edit the post.
   */
  predicate PostSaveAllowed(form: map<string, string>, verifyNonce: string -> bool, autosave: bool, canEditPost: bool) {
    NonceField in form && verifyNonce(form[NonceField]) && !autosave && canEditPost
  }

  /** The SEO metadata of one post or term, as the host's metadata table holds it. */
  class MetaStore {
    var meta: map<string, string>

    constructor(initial: map<string, string>)
      ensures meta == initial
    {
      meta := initial;
    }

    /** Handles the fields one by one, as the `foreach` in both save handlers does. */
    method SaveFields(fields: seq<Field>, form: map<string, string>, san: Sanitizers)
      modifies this
      ensures meta == Saved(old(meta), fields, form, san)
    {
      ghost var start := meta;
      for i := 0 to |fields|
        invariant meta == Saved(start, fields[..i], form, san)
      {
        var f := fields[i];
        assert fields[..i + 1][..i] == fields[..i];
        if f.postKey in form {
          var v := Sanitize(f.postKey, form[f.postKey], san);
          if !Empty(v) {
            meta := meta[f.metaKey := Stored(v)];
          } else {
            meta := meta - {f.metaKey};
          }
        }
      }
      assert fields[..|fields|] == fields;
    }

    /** `save_post_meta`: the guards in order, then the eight post fields. */
    method SavePostMeta(form: map<string, string>, verifyNonce: string -> bool, autosave: bool, canEditPost: bool, san: Sanitizers)
      returns (saved: bool)
      modifies this
      ensures saved == PostSaveAllowed(form, verifyNonce, autosave, canEditPost)
      ensures saved ==> meta == Saved(old(meta), PostFields, form, san)
      ensures !saved ==> meta == old(meta)
    {
      if NonceField !in form || !verifyNonce(form[NonceField]) {
        return false;
      }
      if autosave {
        return false;
      }
      if !canEditPost {
        return false;
      }
      SaveFields(PostFields, form, san);
      return true;
    }

    /** `save_term_seo_fields`: the capability guard, then the six term fields. */
    method SaveTermSeoFields(form: map<string, string>, canManageCategories: bool, san: Sanitizers)
      returns (saved: bool)
      modifies this
      ensures saved == canManageCategories
      ensures saved ==> meta == Saved(old(meta), TermFields, form, san)
      ensures !saved ==> meta == old(meta)
    {
      if !canManageCategories {
        return false;
      }
      SaveFields(TermFields, form, san);
      return true;
    }
  }

  /** No two post fields, and so no two term fields, share a meta key: keys of equal length differ in their twelfth character. */
  lemma PostFieldsDistinct()
    ensures DistinctKeys(PostFields)
    ensures DistinctKeys(TermFields)
  {
    forall i, j | 0 <= i < j < 8 ensures PostFields[i].metaKey != PostFields[j].metaKey {
      assert |PostFields[i].metaKey| != |PostFields[j].metaKey| || PostFields[i].metaKey[11] != PostFields[j].metaKey[11];
    }
    forall i, j | 0 <= i < j < 6 ensures TermFields[i].metaKey != TermFields[j].metaKey {
      assert TermFields[i] == PostFields[i] && TermFields[j] == PostFields[j];
    }
  }

  /** The sanitizer of each post field: textarea for the description, raw URL for the canonical URL, `absint` for the image id, text for the rest. */
  lemma PostFieldSanitizers()
    ensures SanitizerFor(PostFields[0].postKey) == TextField
    ensures SanitizerFor(PostFields[1].postKey) == TextareaField
    ensures SanitizerFor(PostFields[2].postKey) == TextField
    ensures SanitizerFor(PostFields[3].postKey) == AbsInt
    ensures SanitizerFor(PostFields[4].postKey) == TextField
    ensures SanitizerFor(PostFields[5].postKey) == UrlRaw
    ensures SanitizerFor(PostFields[6].postKey) == TextField
    ensures SanitizerFor(PostFields[7].postKey) == TextField
  {
    assert PostFields[2].postKey[10] == 'f' && PostFields[6].postKey[10] == 'm';
    assert PostFields[4].postKey[10] == 'r' && PostFields[7].postKey[10] == 's';
  }

  // ---------------------------------------------------------------------
  // Extracting the generated text (call_gemini_api)
  // ---------------------------------------------------------------------

  /** A decoded JSON document, as `json_decode($body, true)` yields it (`JNull` also for a body that does not decode). */
  datatype Json =
    | JNull
    | JBool(b: bool)
    | JNumber(n: int)
    | JString(s: string)
    | JArray(items: seq<Json>)
    | JObject(members: map<string, Json>)

  /** The outcome of an operation that fails with a message, as a `WP_Error`. */
  datatype Outcome<T> = Ok(value: T) | Err(message: string)

  /** What the HTTP request returned: a transport error, or a body. */
  datatype Response = TransportError(message: string) | Body(data: Json)

  /** One step of a PHP array access: a string key, or the integer index 0. */
  datatype Step = Key(name: string) | First

  /**
   * `$x[step]`, or `None` where `isset` finds nothing. A list answers index 0
   * with its first item and an object with member "0" (PHP turns the key "0"
   * into the integer 0); scalars answer nothing.
   */
  function Index(j: Json, step: Step): (r: Option<Json>)
    ensures r.Some? ==> j.JArray? || j.JObject?
  {
    match step
    case Key(k) => if j.JObject? && k in j.members then Some(j.members[k]) else None
    case First =>
      if j.JArray? && |j.items| > 0 then Some(j.items[0])
      else if j.JObject? && "0" in j.members then Some(j.members["0"])
      else None
  }

  /** `$x[step]` of a value that may itself be missing. */
  function At(o: Option<Json>, step: Step): Option<Json> {
    match o
    case None => None
    case Some(j) => Index(j, step)
  }

  /** `candidates[0].content.parts[0].text` of a decoded reply, or `None` where a step finds nothing. */
  function TextOf(data: Json): Option<Json> {
    var candidate := At(Index(data, Key("candidates")), First);
    var parts := At(At(candidate, Key("content")), Key("parts"));
    At(At(parts, First), Key("text"))
  }

  const InvalidResponse := "Invalid API response"

  /** `isset(...)` of the text: the path exists and the value is not null. */
  predicate HasText(data: Json) {
    TextOf(data).Some? && TextOf(data).value != JNull
  }

  /**
   * The result of `call_gemini_api` once the response is in: a transport
   * error passes through, a reply without the text is an invalid response,
   * otherwise the text.
   */
  function ExtractText(resp: Response): (r: Outcome<Json>)
    ensures resp.TransportError? ==> r == Err(resp.message)
    ensures resp.Body? ==> (r.Ok? <==> HasText(resp.data))
    ensures resp.Body? && r.Ok? ==> r.value == TextOf(resp.data).value && r.value != JNull
    ensures resp.Body? && r.Err? ==> r.message == InvalidResponse
  {
    match resp
    case TransportError(m) => Err(m)
    case Body(data) =>
      if HasText(data) then Ok(TextOf(data).value) else Err(InvalidResponse)
  }

  /** The smallest reply carrying `text` where the extraction looks for it. */
  function GeminiReply(text: Json): Json {
    JObject(map["candidates" := JArray([
      JObject(map["content" := JObject(map["parts" := JArray([
        JObject(map["text" := text])])])])])])
  }

  /** The extraction finds the text of a well-formed reply. */
  lemma ReplyRoundTrip(text: string)
    ensures ExtractText(Body(GeminiReply(JString(text)))) == Ok(JString(text))
  {
  }

  /** A reply whose `candidates` is missing, or is not an array or object, is invalid. */
  lemma NoCandidates(data: Json)
    requires !data.JObject? || "candidates" !in data.members ||
             !(data.members["candidates"].JArray? || data.members["candidates"].JObject?)
    ensures ExtractText(Body(data)) == Err(InvalidResponse)
  {
  }

  // ---------------------------------------------------------------------
  // The AI assistant handlers (ajax_ai_*)
  // ---------------------------------------------------------------------

  /** The four AI assistant requests. */
  datatype AiAction = GenerateTitle | GenerateDescription | SuggestKeywords | AnalyzeContent

  /** How many words of the post content go into the prompt. */
  function WordLimit(a: AiAction): nat {
    match a
    case GenerateTitle => 100
    case GenerateDescription => 150
    case SuggestKeywords => 200
    case AnalyzeContent => 300
  }

  /** The key under which a successful reply is sent. */
  function ReplyKey(a: AiAction): string {
    match a
    case GenerateTitle => "titles"
    case GenerateDescription => "descriptions"
    case SuggestKeywords => "keywords"
    case AnalyzeContent => "analysis"
  }

  /** The prompt sent for an action, given the trimmed content and the post title. */
  function Prompt(a: AiAction, content: string, title: string): string {
    match a
    case GenerateTitle =>
      "Generate 5 SEO-optimized titles for this content. Each title should be 30-65 characters long and engaging:\n\n" + content
    case GenerateDescription =>
      "Generate 3 SEO-optimized meta descriptions for this content. Each description should be 120-160 characters long and compelling:\n\n" + content
    case SuggestKeywords =>
      "Analyze this content and suggest 10 relevant SEO keywords and phrases. Return only the keywords separated by commas:\n\n" + content
    case AnalyzeContent =>
      "Analyze this content for SEO and provide specific recommendations for improvement. Focus on content structure, keyword usage, readability, and SEO best practices:\n\nTitle: " + title + "\n\nContent: " + content
  }

  /** What the handler sends back: the referer check's rejection, an error message, or the generated result under its key. */
  datatype Reply = Rejected | Failure(message: string) | Success(key: string, data: Json)

  const AiDisabled := "AI Assistant is disabled"
  const NoApiKey := "Google Gemini API key not configured"
  const PostNotFound := "Post not found"

  /** The post the handler reads: its content and title. */
  datatype PostRecord = PostRecord(content: string, title: string)

  /**
   * The host's services the handlers use: `wp_strip_all_tags`,
   * `wp_trim_words`, and the HTTP round trip to the API (key and prompt in,
   * response out).
   */
  datatype AiHost = AiHost(
    stripTags: string -> string,
    trimWords: (string, nat) -> string,
    send: (string, string) -> Response)

  /** The checks that stop a handler before any request is sent, in the order it makes them. */
  function AiGuard(refererOk: bool, enabled: Option<string>, apiKey: Option<string>, post: Option<PostRecord>): (r: Option<Reply>)
    ensures !refererOk ==> r == Some(Rejected)
    ensures refererOk && !(enabled.Some? && Truthy(enabled.value)) ==> r == Some(Failure(AiDisabled))
    ensures r.None? <==> refererOk && enabled.Some? && Truthy(enabled.value) && apiKey.Some? && Truthy(apiKey.value) && post.Some?
  {
    if !refererOk then Some(Rejected)
    else if !(enabled.Some? && Truthy(enabled.value)) then Some(Failure(AiDisabled))
    else if !(apiKey.Some? && Truthy(apiKey.value)) then Some(Failure(NoApiKey))
    else if post.None? then Some(Failure(PostNotFound))
    else None
  }

  /** The response to the prompt an action sends for a post: the content stripped of tags and cut to the action's word limit. */
  function AiResponse(a: AiAction, apiKey: string, post: PostRecord, host: AiHost): Response {
    var content := host.trimWords(host.stripTags(post.content), WordLimit(a));
    host.send(apiKey, Prompt(a, content, post.title))
  }

  /**
   * What a handler sends once the API has answered: the error's message when
   * the call failed or the reply lacks the text, otherwise the text under
   * the action's key.
   */
  function AiReply(a: AiAction, resp: Response): (r: Reply)
    ensures r.Success? <==> resp.Body? && HasText(resp.data)
    ensures r.Success? ==> r.key == ReplyKey(a) && r.data == TextOf(resp.data).value
    ensures resp.TransportError? ==> r == Failure(resp.message)
    ensures resp.Body? && !HasText(resp.data) ==> r == Failure(InvalidResponse)
  {
    match ExtractText(resp)
    case Err(m) => Failure(m)
    case Ok(text) => Success(ReplyKey(a), text)
  }

  /** One `ajax_ai_*` handler: the checks, then the request and the reply. */
  function HandleAi(a: AiAction, refererOk: bool, enabled: Option<string>, apiKey: Option<string>,
                    post: Option<PostRecord>, host: AiHost): (r: Reply)
    ensures AiGuard(refererOk, enabled, apiKey, post).Some? ==> r == AiGuard(refererOk, enabled, apiKey, post).value
    ensures AiGuard(refererOk, enabled, apiKey, post).None? ==> r == AiReply(a, AiResponse(a, apiKey.value, post.value, host))
  {
    match AiGuard(refererOk, enabled, apiKey, post)
    case Some(stop) => stop
    case None => AiReply(a, AiResponse(a, apiKey.value, post.value, host))
  }

  /** The checks come in order: a disabled assistant is reported before a missing key, a missing key before a missing post. */
  lemma AiGuardOrder(enabled: Option<string>, apiKey: Option<string>, post: Option<PostRecord>)
    ensures !(enabled.Some? && Truthy(enabled.value)) ==> AiGuard(true, enabled, apiKey, post) == Some(Failure(AiDisabled))
    ensures enabled.Some? && Truthy(enabled.value) && !(apiKey.Some? && Truthy(apiKey.value)) ==>
              AiGuard(true, enabled, apiKey, post) == Some(Failure(NoApiKey))
    ensures enabled.Some? && Truthy(enabled.value) && apiKey.Some? && Truthy(apiKey.value) && post.None? ==>
              AiGuard(true, enabled, apiKey, post) == Some(Failure(PostNotFound))
  {
  }

  /** When a check stops the handler, the API is never consulted: any two hosts give the same reply. */
  lemma GuardedBeforeRequest(a: AiAction, refererOk: bool, enabled: Option<string>, apiKey: Option<string>,
                             post: Option<PostRecord>, h1: AiHost, h2: AiHost)
    requires AiGuard(refererOk, enabled, apiKey, post).Some?
    ensures HandleAi(a, refererOk, enabled, apiKey, post, h1) == HandleAi(a, refererOk, enabled, apiKey, post, h2)
    ensures !HandleAi(a, refererOk, enabled, apiKey, post, h1).Success?
  {
  }

  // ---------------------------------------------------------------------
  // The settings page (render_settings_page)
  // ---------------------------------------------------------------------

  /** The sections of the settings page. */
  datatype Section = General | Social | Ai | Advanced | Webmaster

  /** The tab name of each section, in the order of the navigation bar. */
  const Tabs: seq<(string, Section)> := [
    ("general", General), ("social", Social), ("ai", Ai), ("advanced", Advanced), ("webmaster", Webmaster)]

  /** The `tab` query parameter, or "general" when there is none. */
  function ActiveTab(query: map<string, string>): (t: string)
    ensures "tab" in query ==> t == query["tab"]
    ensures "tab" !in query ==> t == "general"
  {
    if "tab" in query then query["tab"] else "general"
  }

  /** The section the `switch` renders for a tab; an unknown tab renders none. */
  function SectionFor(tab: string): Option<Section> {
    if tab == "general" then Some(General)
    else if tab == "social" then Some(Social)
    else if tab == "ai" then Some(Ai)
    else if tab == "advanced" then Some(Advanced)
    else if tab == "webmaster" then Some(Webmaster)
    else None
  }

  /** For each navigation link, whether it carries the active class. */
  function NavActive(tab: string): (r: seq<bool>)
    ensures |r| == |Tabs|
    ensures forall i :: 0 <= i < |Tabs| ==> (r[i] <==> Tabs[i].0 == tab)
  {
    seq(|Tabs|, i requires 0 <= i < |Tabs| => Tabs[i].0 == tab)
  }

  /** A tab renders a section exactly when it is listed in the navigation bar, and then the listed one. */
  lemma SectionOfListedTab(tab: string, s: Section)
    ensures SectionFor(tab) == Some(s) <==> (tab, s) in Tabs
  {
  }

  /** Each section's tab renders that section and marks only its own link active. */
  lemma TabRoundTrip(i: nat)
    requires i < |Tabs|
    ensures SectionFor(Tabs[i].0) == Some(Tabs[i].1)
    ensures forall j :: 0 <= j < |Tabs| ==> (NavActive(Tabs[i].0)[j] <==> j == i)
  {
  }

  /** An unknown tab renders no section and marks no link active. */
  lemma UnknownTab(tab: string)
    requires SectionFor(tab).None?
    ensures forall j :: 0 <= j < |Tabs| ==> !NavActive(tab)[j]
  {
  }

  /** Without a `tab` parameter the page opens on the general settings, with the first link active. */
  lemma DefaultTab(query: map<string, string>)
    requires "tab" !in query
    ensures SectionFor(ActiveTab(query)) == Some(General)
    ensures NavActive(ActiveTab(query))[0]
  {
  }
}
