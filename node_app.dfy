/**
 * The main route of the Node.js entry point: the upstream request it builds
 * (an allow-list of client headers, identity encoding forced), the response
 * headers it sends back, and its larger set of HTML rules (srcset, media
 * sources, and the removal of subresource-integrity attributes).
 */
module NodeApp {
  import opened Wrappers
  import opened Strings
  import opened UrlRules
  import opened Cookies
  import opened Http
  import opened Interceptor
  import opened Resolver
  import opened Rewriter
  import opened Forwarding

  // ---- the upstream request ------------------------------------------------

  /** The only client headers copied to the upstream request, in the order they are copied. */
  const PreservedHeaders: seq<string> :=
    ["user-agent", "accept", "accept-language", "cookie", "authorization", "content-type"]

  /** The header record's entry for `name`, when it is a non-empty string. */
  function ClientValue(inbound: seq<Header>, name: string): (r: Option<string>)
    ensures r.Some? ==> r.value != "" && GetOf(inbound, name) == r
    ensures r.None? ==> GetOf(inbound, name) == None || GetOf(inbound, name) == Some("")
  {
    match GetOf(inbound, name)
    case Some(v) => if v != "" then Some(v) else None
    case None => None
  }

  /** The headers an empty list holds after `set(n, value)` for each allow-listed name `n` with a value, in order. */
  ghost function Preserved(inbound: seq<Header>, names: seq<string>): seq<Header>
    decreases |names|
  {
    if names == [] then []
    else
      var prev := Preserved(inbound, names[..|names| - 1]);
      var n := names[|names| - 1];
      match ClientValue(inbound, n)
      case Some(v) => WithSet(prev, n, v)
      case None => prev
  }

  /** After the copy, a header has the client's value exactly when its name is allow-listed and that value is non-empty. */
  lemma {:induction false} PreservedValues(inbound: seq<Header>, names: seq<string>, m: string)
    requires forall i :: 0 <= i < |names| ==> IsLowerCase(names[i])
    ensures Values(Preserved(inbound, names), m)
         == if Lower(m) in names && ClientValue(inbound, m).Some? then [ClientValue(inbound, m).value] else []
    decreases |names|
  {
    if names != [] {
      var init := names[..|names| - 1];
      var n := names[|names| - 1];
      PreservedValues(inbound, init, m);
      LowerOfLowerCase(n);
      assert Lower(m) in names <==> Lower(m) in init || Lower(m) == n;
      if Lower(m) == n {
        ValuesSameName(inbound, m, n);
      }
      match ClientValue(inbound, n)
      case Some(v) => ValuesWithSet(Preserved(inbound, init), n, v, m);
      case None =>
    }
  }

  /**
   * The values of header `m` in the upstream request: identity encoding,
   * Referer and Origin naming the target origin, Host the target host, an
   * allow-listed client header with its client value, and nothing else.
   */
  function RequestValues(inbound: seq<Header>, target: Url, m: string): seq<string> {
    if SameName(m, "Accept-Encoding") then ["identity"]
    else if SameName(m, "Origin") || SameName(m, "Referer") then [target.origin]
    else if SameName(m, "Host") then [target.host]
    else if Lower(m) in PreservedHeaders && ClientValue(inbound, m).Some? then [ClientValue(inbound, m).value]
    else []
  }

  /** The header list of the upstream request. */
  ghost function RequestEntries(inbound: seq<Header>, target: Url): seq<Header> {
    WithSet(WithSet(WithSet(WithSet(Preserved(inbound, PreservedHeaders), "Host", target.host),
                            "Referer", target.origin), "Origin", target.origin), "Accept-Encoding", "identity")
  }

  lemma PreservedHeadersAreLowerCase()
    ensures forall i :: 0 <= i < |PreservedHeaders| ==> IsLowerCase(PreservedHeaders[i])
  {
  }

  lemma TargetValues(hs: seq<Header>, target: Url, m: string)
    ensures Values(WithSet(WithSet(WithSet(WithSet(hs, "Host", target.host), "Referer", target.origin),
                                   "Origin", target.origin), "Accept-Encoding", "identity"), m)
         == if SameName(m, "Accept-Encoding") then ["identity"]
            else if SameName(m, "Origin") || SameName(m, "Referer") then [target.origin]
            else if SameName(m, "Host") then [target.host]
            else Values(hs, m)
  {
    var e1 := WithSet(hs, "Host", target.host);
    var e2 := WithSet(e1, "Referer", target.origin);
    var e3 := WithSet(e2, "Origin", target.origin);
    ValuesWithSet(hs, "Host", target.host, m);
    ValuesWithSet(e1, "Referer", target.origin, m);
    ValuesWithSet(e2, "Origin", target.origin, m);
    ValuesWithSet(e3, "Accept-Encoding", "identity", m);
  }

  /** Every header of the upstream request has the values `RequestValues` gives it. */
  lemma RequestEntriesValues(inbound: seq<Header>, target: Url, m: string)
    ensures Values(RequestEntries(inbound, target), m) == RequestValues(inbound, target, m)
  {
    PreservedHeadersAreLowerCase();
    PreservedValues(inbound, PreservedHeaders, m);
    TargetValues(Preserved(inbound, PreservedHeaders), target, m);
  }

  /** The body goes upstream for every method except GET and HEAD. */
  predicate SendsBody(verb: string) {
    verb != "GET" && verb != "HEAD"
  }

  /** Builds the upstream request from the client's header record `inbound`. */
  method BuildRequest(inbound: seq<Header>, verb: string, target: Url) returns (req: UpstreamRequest)
    ensures req.url == target.href && req.verb == verb && req.manualRedirect
    ensures req.sendsBody <==> verb != "GET" && verb != "HEAD"
    ensures forall m :: Values(req.headers, m) == RequestValues(inbound, target, m)
  {
    var h := new Headers([]);
    for i := 0 to |PreservedHeaders|
      invariant h.entries == Preserved(inbound, PreservedHeaders[..i])
    {
      assert PreservedHeaders[..i + 1][..i] == PreservedHeaders[..i];
      var name := PreservedHeaders[i];
      var val := GetOf(inbound, name);
      if val.Some? && val.value != "" {
        h.Set(name, val.value);
      }
    }
    assert PreservedHeaders[..|PreservedHeaders|] == PreservedHeaders;
    h.Set("Host", target.host);
    h.Set("Referer", target.origin);
    h.Set("Origin", target.origin);
    h.Set("Accept-Encoding", "identity");
    assert h.entries == RequestEntries(inbound, target);
    forall m ensures Values(h.entries, m) == RequestValues(inbound, target, m) {
      RequestEntriesValues(inbound, target, m);
    }
    req := UpstreamRequest(target.href, verb, h.entries, SendsBody(verb), true);
  }

  // ---- the response headers ------------------------------------------------

  /** The value of Access-Control-Allow-Methods. */
  const AllowedMethods: string := "GET, POST, PUT, DELETE, OPTIONS, PATCH"

  /** The upstream response headers that are never passed on. */
  predicate StrippedFromResponse(m: string) {
    || SameName(m, "X-SourceMap") || SameName(m, "Source-Map") || SameName(m, "Content-Encoding")
    || SameName(m, "X-Content-Type-Options") || SameName(m, "Referrer-Policy") || SameName(m, "X-Frame-Options")
    || SameName(m, "Content-Security-Policy-Report-Only") || SameName(m, "Content-Security-Policy")
  }

  /** Whether header `m` is one of the three CORS headers the response sets, and its value. */
  function CorsValue(m: string): Option<string> {
    if SameName(m, "Access-Control-Allow-Headers") then Some("*")
    else if SameName(m, "Access-Control-Allow-Methods") then Some(AllowedMethods)
    else if SameName(m, "Access-Control-Allow-Origin") then Some("*")
    else None
  }

  /**
   * The values of header `m` in the response sent back: an HTML response
   * loses its length, cookies and redirects are rewritten, the policies,
   * source maps and the content encoding are gone, three CORS headers allow
   * everything, and everything else is passed on.
   */
  function ResponseValues(upstream: seq<Header>, worker: string, targetOrigin: string, m: string): seq<string> {
    if IsHtml(upstream) && (SameName(m, "Content-Encoding") || SameName(m, "Content-Length")) then []
    else if SameName(m, "Set-Cookie") then StripEach(Values(upstream, "Set-Cookie"))
    else if SameName(m, "Location") then LocationValues(upstream, worker, targetOrigin)
    else if StrippedFromResponse(m) then []
    else if CorsValue(m).Some? then [CorsValue(m).value]
    else Values(upstream, m)
  }

  /** The upstream headers with the CORS headers set, in the order the route sets them. */
  ghost function WithCors(upstream: seq<Header>): seq<Header> {
    WithSet(WithSet(WithSet(Normalized(upstream), "Access-Control-Allow-Origin", "*"),
                    "Access-Control-Allow-Methods", AllowedMethods), "Access-Control-Allow-Headers", "*")
  }

  /** A header list with the stripped headers deleted, in the order the route deletes them. */
  ghost function WithoutStripped(hs: seq<Header>): seq<Header> {
    var policies := Without(Without(Without(Without(hs, "Content-Security-Policy"),
                                            "Content-Security-Policy-Report-Only"), "X-Frame-Options"),
                            "Referrer-Policy");
    Without(Without(Without(Without(policies, "X-Content-Type-Options"), "Content-Encoding"), "Source-Map"),
            "X-SourceMap")
  }

  /** The response headers before the HTML-only deletions. */
  ghost function Sanitized(upstream: seq<Header>, worker: string, targetOrigin: string): seq<Header> {
    var p := WithoutStripped(WithCors(upstream));
    CookiesReplaced(LocationRewritten(p, worker, targetOrigin), Values(upstream, "Set-Cookie"))
  }

  /** The header list of the response sent back. */
  ghost function ResponseEntries(upstream: seq<Header>, worker: string, targetOrigin: string): seq<Header> {
    var s := Sanitized(upstream, worker, targetOrigin);
    if IsHtml(upstream) then Without(Without(s, "Content-Length"), "Content-Encoding") else s
  }

  lemma WithCorsValues(upstream: seq<Header>, m: string)
    ensures Values(WithCors(upstream), m) == if CorsValue(m).Some? then [CorsValue(m).value] else Values(upstream, m)
  {
    var e0 := Normalized(upstream);
    var e1 := WithSet(e0, "Access-Control-Allow-Origin", "*");
    var e2 := WithSet(e1, "Access-Control-Allow-Methods", AllowedMethods);
    ValuesNormalized(upstream, m);
    ValuesWithSet(e0, "Access-Control-Allow-Origin", "*", m);
    ValuesWithSet(e1, "Access-Control-Allow-Methods", AllowedMethods, m);
    ValuesWithSet(e2, "Access-Control-Allow-Headers", "*", m);
  }

  lemma WithoutStrippedValues(hs: seq<Header>, m: string)
    ensures Values(WithoutStripped(hs), m) == if StrippedFromResponse(m) then [] else Values(hs, m)
  {
    var e1 := Without(hs, "Content-Security-Policy");
    var e2 := Without(e1, "Content-Security-Policy-Report-Only");
    var e3 := Without(e2, "X-Frame-Options");
    var e4 := Without(e3, "Referrer-Policy");
    var e5 := Without(e4, "X-Content-Type-Options");
    var e6 := Without(e5, "Content-Encoding");
    var e7 := Without(e6, "Source-Map");
    ValuesWithout(hs, "Content-Security-Policy", m);
    ValuesWithout(e1, "Content-Security-Policy-Report-Only", m);
    ValuesWithout(e2, "X-Frame-Options", m);
    ValuesWithout(e3, "Referrer-Policy", m);
    ValuesWithout(e4, "X-Content-Type-Options", m);
    ValuesWithout(e5, "Content-Encoding", m);
    ValuesWithout(e6, "Source-Map", m);
    ValuesWithout(e7, "X-SourceMap", m);
  }

  /** The CORS and stripping edits together. */
  lemma EditedValues(upstream: seq<Header>, m: string)
    ensures Values(WithoutStripped(WithCors(upstream)), m)
         == if StrippedFromResponse(m) then []
            else if CorsValue(m).Some? then [CorsValue(m).value] else Values(upstream, m)
  {
    WithoutStrippedValues(WithCors(upstream), m);
    WithCorsValues(upstream, m);
  }

  /** The edits before the redirect rewrite leave a header that is neither stripped nor a CORS header alone. */
  lemma EditedKeeps(upstream: seq<Header>, m: string)
    requires !StrippedFromResponse(m) && CorsValue(m).None?
    ensures Values(WithoutStripped(WithCors(upstream)), m) == Values(upstream, m)
  {
    EditedValues(upstream, m);
  }

  lemma LocationNotEdited()
    ensures !StrippedFromResponse("Location") && CorsValue("Location").None?
  {
  }

  lemma SetCookieNotEdited()
    ensures !StrippedFromResponse("Set-Cookie") && CorsValue("Set-Cookie").None?
  {
    assert Lower("Set-Cookie")[1] != Lower("Source-Map")[1];
  }

  lemma ContentTypeNotEdited()
    ensures !StrippedFromResponse("content-type") && CorsValue("content-type").None?
  {
  }

  lemma SanitizedValues(upstream: seq<Header>, worker: string, targetOrigin: string, m: string)
    ensures Values(Sanitized(upstream, worker, targetOrigin), m)
         == if SameName(m, "Set-Cookie") then StripEach(Values(upstream, "Set-Cookie"))
            else if SameName(m, "Location") then LocationValues(upstream, worker, targetOrigin)
            else if StrippedFromResponse(m) then []
            else if CorsValue(m).Some? then [CorsValue(m).value]
            else Values(upstream, m)
  {
    var p := WithoutStripped(WithCors(upstream));
    var l := LocationRewritten(p, worker, targetOrigin);
    var cookies := Values(upstream, "Set-Cookie");
    EditedValues(upstream, m);
    LocationNotEdited();
    EditedKeeps(upstream, "Location");
    LocationValuesOnlyLocation(p, upstream, worker, targetOrigin);
    LocationRewrittenValues(p, worker, targetOrigin, m);
    CookiesReplacedValues(l, cookies, m);
    if SameName(m, "Set-Cookie") && cookies == [] {
      SetCookieNotEdited();
      EditedKeeps(upstream, "Set-Cookie");
      LocationRewrittenValues(p, worker, targetOrigin, "Set-Cookie");
      ValuesSameName(l, m, "Set-Cookie");
    }
  }

  /** The Content-Type the route tests is the upstream one. */
  lemma SanitizedContentType(upstream: seq<Header>, worker: string, targetOrigin: string)
    ensures Values(Sanitized(upstream, worker, targetOrigin), "content-type") == Values(upstream, "content-type")
  {
    ContentTypeNotEdited();
    SanitizedValues(upstream, worker, targetOrigin, "content-type");
  }

  /** Every header of the response has the values `ResponseValues` gives it. */
  lemma ResponseEntriesValues(upstream: seq<Header>, worker: string, targetOrigin: string, m: string)
    ensures Values(ResponseEntries(upstream, worker, targetOrigin), m) == ResponseValues(upstream, worker, targetOrigin, m)
  {
    var s := Sanitized(upstream, worker, targetOrigin);
    SanitizedValues(upstream, worker, targetOrigin, m);
    ValuesWithout(s, "Content-Length", m);
    ValuesWithout(Without(s, "Content-Length"), "Content-Encoding", m);
  }

  /** Builds the response headers from the upstream response headers and tells whether the body is HTML. */
  method SanitizeResponse(upstream: seq<Header>, worker: string, targetOrigin: string)
    returns (headers: seq<Header>, html: bool)
    ensures html == IsHtml(upstream)
    ensures forall m :: Values(headers, m) == ResponseValues(upstream, worker, targetOrigin, m)
  {
    var h := new Headers(upstream);
    h.Set("Access-Control-Allow-Origin", "*");
    h.Set("Access-Control-Allow-Methods", AllowedMethods);
    h.Set("Access-Control-Allow-Headers", "*");
    h.Delete("Content-Security-Policy");
    h.Delete("Content-Security-Policy-Report-Only");
    h.Delete("X-Frame-Options");
    h.Delete("Referrer-Policy");
    h.Delete("X-Content-Type-Options");
    h.Delete("Content-Encoding");
    h.Delete("Source-Map");
    h.Delete("X-SourceMap");
    RewriteLocationHeader(h, worker, targetOrigin);
    var setCookies := ReceivedSetCookies(upstream);
    ReplaceSetCookies(h, setCookies);
    assert h.entries == Sanitized(upstream, worker, targetOrigin);
    SanitizedContentType(upstream, worker, targetOrigin);
    IsHtmlOnlyContentType(h.entries, upstream);
    var contentType := h.Get("content-type");
    html := contentType.Some? && contentType.value != "" && Includes(contentType.value, "text/html");
    if html {
      h.Delete("Content-Length");
      h.Delete("Content-Encoding");
    }
    assert h.entries == ResponseEntries(upstream, worker, targetOrigin);
    forall m ensures Values(h.entries, m) == ResponseValues(upstream, worker, targetOrigin, m) {
      ResponseEntriesValues(upstream, worker, targetOrigin, m);
    }
    headers := h.entries;
  }

  // ---- the HTML rules ------------------------------------------------------

  /** The page-level handlers: meta refresh, referrer policy removal, the interceptor script. */
  function PageRules(worker: string, target: string): seq<Rule> {
    [ Rule(TagAttrEquals("meta", "http-equiv", "refresh"), RewriteRefresh),
      Rule(TagAttrEquals("meta", "name", "referrer"), RemoveElement),
      Rule(TagIs("head"), AppendScript(NodeScript(worker, target))) ]
  }

  /** The per-tag URL attribute handlers, in two halves with no tag in common. */
  const TagRules: seq<Rule> := LeadTagRules + TrailTagRules

  /** The handlers for `a`, `img`, `link`, `script` and `form`. */
  const LeadTagRules: seq<Rule> :=
    [ Rule(TagIs("a"), RewriteUrlAttr("href")),
      Rule(TagIs("img"), RewriteUrlAttr("src")),
      Rule(TagIs("img"), RewriteUrlAttr("srcset")),
      Rule(TagIs("link"), RewriteUrlAttr("href")),
      Rule(TagIs("script"), RewriteUrlAttr("src")),
      Rule(TagIs("form"), RewriteUrlAttr("action")) ]

  /** The handlers for `iframe`, `source`, `video`, `audio` and `track`. */
  const TrailTagRules: seq<Rule> :=
    [ Rule(TagIs("iframe"), RewriteUrlAttr("src")),
      Rule(TagIs("source"), RewriteUrlAttr("src")),
      Rule(TagIs("source"), RewriteUrlAttr("srcset")),
      Rule(TagIs("video"), RewriteUrlAttr("src")),
      Rule(TagIs("audio"), RewriteUrlAttr("src")),
      Rule(TagIs("track"), RewriteUrlAttr("src")) ]

  /** The `[data-src]`, `[data-href]` and `[data-url]` handlers. */
  const DataRules: seq<Rule> :=
    [ Rule(HasAttribute("data-src"), RewriteUrlAttr("data-src")),
      Rule(HasAttribute("data-href"), RewriteUrlAttr("data-href")),
      Rule(HasAttribute("data-url"), RewriteUrlAttr("data-url")) ]

  /** The tags whose subresource-integrity attributes are removed. */
  const SriTags: seq<string> := ["script", "link", "img"]

  /** The handlers that remove `integrity` and `crossorigin`. */
  const SriRules: seq<Rule> :=
    [ Rule(TagsWithAttribute(SriTags, "integrity"), RemoveAttr("integrity")),
      Rule(TagsWithAttribute(SriTags, "crossorigin"), RemoveAttr("crossorigin")) ]

  /** The handlers registered for an HTML response, in registration order. */
  function Rules(worker: string, target: string): seq<Rule> {
    PageRules(worker, target) + TagRules + DataRules + SriRules
  }

  /** Whether `k` is a URL attribute the per-tag handlers rewrite on `tag`. */
  predicate TagUrlAttr(tag: string, k: string) {
    LeadTagUrlAttr(tag, k) || TrailTagUrlAttr(tag, k)
  }

  /** The URL attributes `LeadTagRules` rewrites. */
  predicate LeadTagUrlAttr(tag: string, k: string) {
    || ((tag == "a" || tag == "link") && k == "href")
    || (tag == "img" && (k == "src" || k == "srcset"))
    || (tag == "script" && k == "src")
    || (tag == "form" && k == "action")
  }

  /** The URL attributes `TrailTagRules` rewrites. */
  predicate TrailTagUrlAttr(tag: string, k: string) {
    || ((tag == "iframe" || tag == "video" || tag == "audio" || tag == "track") && k == "src")
    || (tag == "source" && (k == "src" || k == "srcset"))
  }

  /** The refresh rule touches `content` of a refresh `meta`; the other page rules touch no attribute. */
  lemma PageRulesOnKey(st: ElementState, tag: string, attrs: map<string, string>, worker: string, target: string, k: string)
    ensures Lookup(RunRules(st, PageRules(worker, target), tag, attrs, worker, target).attrs, k)
         == if k == "content" && Matches(TagAttrEquals("meta", "http-equiv", "refresh"), tag, attrs)
            then KeyStep(RewriteRefresh, Lookup(st.attrs, k), worker, target)
            else Lookup(st.attrs, k)
  {
    var rules := PageRules(worker, target);
    if k == "content" && Matches(TagAttrEquals("meta", "http-equiv", "refresh"), tag, attrs) {
      KeyTouchedOnce(st, rules, tag, attrs, worker, target, k, 0);
    } else {
      KeyUntouched(st, rules, tag, attrs, worker, target, k);
    }
  }

  /** The index in `LeadTagRules` of the rule for `tag` and `k`. */
  function LeadTagRuleIndex(tag: string, k: string): int {
    if tag == "a" then 0
    else if tag == "img" then (if k == "src" then 1 else 2)
    else if tag == "link" then 3
    else if tag == "script" then 4
    else 5
  }

  /** The index in `TrailTagRules` of the rule for `tag` and `k`. */
  function TrailTagRuleIndex(tag: string, k: string): int {
    if tag == "iframe" then 0
    else if tag == "source" then (if k == "src" then 1 else 2)
    else if tag == "video" then 3
    else if tag == "audio" then 4
    else 5
  }

  /** The first half of the per-tag handlers rewrites exactly its tags' URL attributes, each once. */
  lemma LeadTagRulesOnKey(st: ElementState, tag: string, attrs: map<string, string>, worker: string, target: string, k: string)
    ensures Lookup(RunRules(st, LeadTagRules, tag, attrs, worker, target).attrs, k)
         == if LeadTagUrlAttr(tag, k) then KeyStep(RewriteUrlAttr(k), Lookup(st.attrs, k), worker, target)
            else Lookup(st.attrs, k)
  {
    if LeadTagUrlAttr(tag, k) {
      KeyTouchedOnce(st, LeadTagRules, tag, attrs, worker, target, k, LeadTagRuleIndex(tag, k));
    } else {
      KeyUntouched(st, LeadTagRules, tag, attrs, worker, target, k);
    }
  }

  /** The second half of the per-tag handlers rewrites exactly its tags' URL attributes, each once. */
  lemma TrailTagRulesOnKey(st: ElementState, tag: string, attrs: map<string, string>, worker: string, target: string, k: string)
    ensures Lookup(RunRules(st, TrailTagRules, tag, attrs, worker, target).attrs, k)
         == if TrailTagUrlAttr(tag, k) then KeyStep(RewriteUrlAttr(k), Lookup(st.attrs, k), worker, target)
            else Lookup(st.attrs, k)
  {
    if TrailTagUrlAttr(tag, k) {
      KeyTouchedOnce(st, TrailTagRules, tag, attrs, worker, target, k, TrailTagRuleIndex(tag, k));
    } else {
      KeyUntouched(st, TrailTagRules, tag, attrs, worker, target, k);
    }
  }

  /** The per-tag handlers rewrite exactly the tag's URL attributes, each once. */
  lemma TagRulesOnKey(st: ElementState, tag: string, attrs: map<string, string>, worker: string, target: string, k: string)
    ensures Lookup(RunRules(st, TagRules, tag, attrs, worker, target).attrs, k)
         == if TagUrlAttr(tag, k) then KeyStep(RewriteUrlAttr(k), Lookup(st.attrs, k), worker, target)
            else Lookup(st.attrs, k)
  {
    RunRulesAppend(st, LeadTagRules, TrailTagRules, tag, attrs, worker, target);
    var mid := RunRules(st, LeadTagRules, tag, attrs, worker, target);
    LeadTagRulesOnKey(st, tag, attrs, worker, target, k);
    TrailTagRulesOnKey(mid, tag, attrs, worker, target, k);
    assert !(LeadTagUrlAttr(tag, k) && TrailTagUrlAttr(tag, k));
  }

  /** Each `data-*` URL attribute present on the start tag is rewritten once by its handler. */
  lemma DataRulesOnKey(st: ElementState, tag: string, attrs: map<string, string>, worker: string, target: string, k: string)
    ensures Lookup(RunRules(st, DataRules, tag, attrs, worker, target).attrs, k)
         == if k in DataAttrNames && k in attrs then KeyStep(RewriteUrlAttr(k), Lookup(st.attrs, k), worker, target)
            else Lookup(st.attrs, k)
  {
    if k in DataAttrNames && k in attrs {
      var i := if k == "data-src" then 0 else if k == "data-href" then 1 else 2;
      KeyTouchedOnce(st, DataRules, tag, attrs, worker, target, k, i);
    } else {
      KeyUntouched(st, DataRules, tag, attrs, worker, target, k);
    }
  }

  /** `integrity` and `crossorigin` are dropped from `script`, `link` and `img`. */
  lemma SriRulesOnKey(st: ElementState, tag: string, attrs: map<string, string>, worker: string, target: string, k: string)
    ensures Lookup(RunRules(st, SriRules, tag, attrs, worker, target).attrs, k)
         == if (k == "integrity" || k == "crossorigin") && tag in SriTags && k in attrs then None
            else Lookup(st.attrs, k)
  {
    if (k == "integrity" || k == "crossorigin") && tag in SriTags && k in attrs {
      KeyTouchedOnce(st, SriRules, tag, attrs, worker, target, k, if k == "integrity" then 0 else 1);
    } else {
      KeyUntouched(st, SriRules, tag, attrs, worker, target, k);
    }
  }

  /** The page and per-tag handlers together, on one attribute. */
  lemma FrontRulesOnKey(st: ElementState, tag: string, attrs: map<string, string>, worker: string, target: string, k: string)
    ensures Lookup(RunRules(RunRules(st, PageRules(worker, target), tag, attrs, worker, target), TagRules, tag, attrs, worker, target).attrs, k)
         == if TagUrlAttr(tag, k) then KeyStep(RewriteUrlAttr(k), Lookup(st.attrs, k), worker, target)
            else if k == "content" && Matches(TagAttrEquals("meta", "http-equiv", "refresh"), tag, attrs)
            then KeyStep(RewriteRefresh, Lookup(st.attrs, k), worker, target)
            else Lookup(st.attrs, k)
  {
    var s1 := RunRules(st, PageRules(worker, target), tag, attrs, worker, target);
    PageRulesOnKey(st, tag, attrs, worker, target, k);
    TagRulesOnKey(s1, tag, attrs, worker, target, k);
    if TagUrlAttr(tag, k) {
      TagUrlAttrNotContent(tag, k);
    }
  }

  /** No per-tag URL attribute is the `content` the refresh handler rewrites. */
  lemma TagUrlAttrNotContent(tag: string, k: string)
    requires TagUrlAttr(tag, k)
    ensures k != "content"
  {
    assert "content"[0] == 'c';
  }

  /** The `data-*` and integrity handlers together, on one attribute. */
  lemma BackRulesOnKey(st: ElementState, tag: string, attrs: map<string, string>, worker: string, target: string, k: string)
    ensures Lookup(RunRules(st, DataRules + SriRules, tag, attrs, worker, target).attrs, k)
         == if k in DataAttrNames && k in attrs then KeyStep(RewriteUrlAttr(k), Lookup(st.attrs, k), worker, target)
            else if (k == "integrity" || k == "crossorigin") && tag in SriTags && k in attrs then None
            else Lookup(st.attrs, k)
  {
    RunRulesAppend(st, DataRules, SriRules, tag, attrs, worker, target);
    var s1 := RunRules(st, DataRules, tag, attrs, worker, target);
    DataRulesOnKey(st, tag, attrs, worker, target, k);
    SriRulesOnKey(s1, tag, attrs, worker, target, k);
  }

  /**
   * What the rules do to one attribute `k` of an element: the tag's URL
   * attributes and the `data-*` URL attributes go through the attribute rule,
   * the `content` of a refresh `meta` through the meta-refresh rule,
   * `integrity` and `crossorigin` of `script`, `link` and `img` are removed,
   * and every other attribute keeps its presence and value.
   */
  lemma RulesOnAttribute(st: ElementState, tag: string, worker: string, target: string, k: string)
    ensures Lookup(RunRules(st, Rules(worker, target), tag, st.attrs, worker, target).attrs, k)
         == if TagUrlAttr(tag, k) || k in DataAttrNames
            then KeyStep(RewriteUrlAttr(k), Lookup(st.attrs, k), worker, target)
            else if k == "content" && Matches(TagAttrEquals("meta", "http-equiv", "refresh"), tag, st.attrs)
            then KeyStep(RewriteRefresh, Lookup(st.attrs, k), worker, target)
            else if (k == "integrity" || k == "crossorigin") && tag in SriTags
            then None
            else Lookup(st.attrs, k)
  {
    var attrs := st.attrs;
    var p := PageRules(worker, target);
    assert Rules(worker, target) == p + TagRules + (DataRules + SriRules);
    RunRulesAppend(st, p + TagRules, DataRules + SriRules, tag, attrs, worker, target);
    RunRulesAppend(st, p, TagRules, tag, attrs, worker, target);
    FrontRulesOnKey(st, tag, attrs, worker, target, k);
    BackRulesOnKey(RunRules(st, p + TagRules, tag, attrs, worker, target), tag, attrs, worker, target, k);
  }

  /**
   * Only a `meta name="referrer"` element is removed, and only the `head`
   * element gets the interceptor script, exactly once.
   */
  lemma RulesRemoveAndAppend(st: ElementState, tag: string, worker: string, target: string)
    ensures RunRules(st, Rules(worker, target), tag, st.attrs, worker, target).removed
        <==> st.removed || Matches(TagAttrEquals("meta", "name", "referrer"), tag, st.attrs)
    ensures RunRules(st, Rules(worker, target), tag, st.attrs, worker, target).appended
         == st.appended + if tag == "head" then [NodeScript(worker, target)] else []
  {
    var attrs := st.attrs;
    var p := PageRules(worker, target);
    var rest := TagRules + DataRules + SriRules;
    assert Rules(worker, target) == p + rest;
    RunRulesAppend(st, p, rest, tag, attrs, worker, target);
    AttributesOnly(RunRules(st, p, tag, attrs, worker, target), rest, tag, attrs, worker, target);
    RemovedIff(st, p, tag, attrs, worker, target);
    if Matches(TagAttrEquals("meta", "name", "referrer"), tag, attrs) {
      assert Fires(p, 1, tag, attrs);
    }
    if tag == "head" {
      AppendedOnce(st, p, tag, attrs, worker, target, 2);
    } else {
      NothingAppended(st, p, tag, attrs, worker, target);
    }
  }

  /**
   * The response path: sanitised headers, the upstream status, the
   * `__sp_origin` cookie for HTML pages, and every element of an HTML
   * page run through the Node rules; other bodies pass through untouched.
   */
  method Respond(upstream: seq<Header>, status: int, doc: seq<Element>, worker: string, target: Url)
    returns (headers: seq<Header>, outStatus: int, originCookie: Option<string>)
    requires forall i, j :: 0 <= i < j < |doc| ==> doc[i] != doc[j]
    modifies set e | e in doc
    ensures outStatus == status
    ensures forall m :: Values(headers, m) == ResponseValues(upstream, worker, target.origin, m)
    ensures originCookie == if IsHtml(upstream) then Some(target.origin) else None
    ensures IsHtml(upstream) ==> forall i :: 0 <= i < |doc| ==>
      doc[i].State() == RunRules(old(doc[i].State()), Rules(worker, target.origin), doc[i].tag, old(doc[i].attrs),
                                 worker, target.origin)
    ensures !IsHtml(upstream) ==> forall i :: 0 <= i < |doc| ==> doc[i].State() == old(doc[i].State())
  {
    var html;
    headers, html := SanitizeResponse(upstream, worker, target.origin);
    outStatus := status;
    originCookie := None;
    if html {
      originCookie := Some(target.origin);
      RewriteDocument(doc, Rules(worker, target.origin), worker, target.origin);
    }
  }
}
