/**
 * The main route of the shared application (used by the Cloudflare Worker
 * build): the upstream request it builds, the response headers it sends
 * back, and the rewriter rules it applies to HTML.
 */
module CoreApp {
  import opened Wrappers
  import opened Strings
  import opened UrlRules
  import opened Cookies
  import opened Http
  import opened Interceptor
  import opened Resolver
  import opened Rewriter
  import opened Forwarding

  /** The User-Agent sent upstream when the client sent none (or an empty one). */
  const DefaultUserAgent: string :=
    "Mozilla/5.0 (Windows NT 10.0; Win64; x64) AppleWebKit/537.36 (KHTML, like Gecko) Chrome/120.0.0.0 Safari/537.36"

  // ---- the upstream request ------------------------------------------------

  /** The client's User-Agent if it is non-empty, the fixed default otherwise. */
  function UserAgent(inbound: seq<Header>): string {
    match GetOf(inbound, "User-Agent")
    case Some(v) => if v != "" then v else DefaultUserAgent
    case None => DefaultUserAgent
  }

  /** The headers Cloudflare adds about the client, which are not forwarded. */
  predicate CloudflareHeader(m: string) {
    SameName(m, "cf-visitor") || SameName(m, "cf-ray") || SameName(m, "cf-ipcountry") || SameName(m, "cf-connecting-ip")
  }

  /** The client headers that are not forwarded. */
  predicate DroppedFromRequest(m: string) {
    SameName(m, "Accept-Encoding") || CloudflareHeader(m)
  }

  /**
   * The values of header `m` in the upstream request: User-Agent is kept or
   * defaulted, the Cloudflare client headers and Accept-Encoding are gone,
   * Referer and Origin name the target origin, Host the target host, and
   * every other client header is forwarded as it came.
   */
  function RequestValues(inbound: seq<Header>, target: Url, m: string): seq<string> {
    if SameName(m, "User-Agent") then [UserAgent(inbound)]
    else if DroppedFromRequest(m) then []
    else if SameName(m, "Origin") || SameName(m, "Referer") then [target.origin]
    else if SameName(m, "Host") then [target.host]
    else Values(inbound, m)
  }

  /** The client's headers with the target's Host, Referer and Origin set, in that order. */
  ghost function WithTarget(inbound: seq<Header>, target: Url): seq<Header> {
    WithSet(WithSet(WithSet(Normalized(inbound), "Host", target.host), "Referer", target.origin),
            "Origin", target.origin)
  }

  /** A header list with the Cloudflare headers deleted, in the order the route deletes them. */
  ghost function WithoutCloudflare(hs: seq<Header>): seq<Header> {
    Without(Without(Without(Without(hs, "cf-connecting-ip"), "cf-ipcountry"), "cf-ray"), "cf-visitor")
  }

  /** A header list with the headers that are not forwarded deleted, in the order the route deletes them. */
  ghost function WithoutDropped(hs: seq<Header>): seq<Header> {
    Without(WithoutCloudflare(hs), "Accept-Encoding")
  }

  /** The header list of the upstream request: the client's, edited in the order the route edits it. */
  ghost function RequestEntries(inbound: seq<Header>, target: Url): seq<Header> {
    WithSet(WithoutDropped(WithTarget(inbound, target)), "User-Agent", UserAgent(inbound))
  }

  lemma WithTargetValues(inbound: seq<Header>, target: Url, m: string)
    ensures Values(WithTarget(inbound, target), m)
         == if SameName(m, "Origin") || SameName(m, "Referer") then [target.origin]
            else if SameName(m, "Host") then [target.host] else Values(inbound, m)
  {
    var e0 := Normalized(inbound);
    var e1 := WithSet(e0, "Host", target.host);
    var e2 := WithSet(e1, "Referer", target.origin);
    ValuesNormalized(inbound, m);
    ValuesWithSet(e0, "Host", target.host, m);
    ValuesWithSet(e1, "Referer", target.origin, m);
    ValuesWithSet(e2, "Origin", target.origin, m);
  }

  lemma WithoutCloudflareValues(hs: seq<Header>, m: string)
    ensures Values(WithoutCloudflare(hs), m) == if CloudflareHeader(m) then [] else Values(hs, m)
  {
    var e4 := Without(hs, "cf-connecting-ip");
    var e5 := Without(e4, "cf-ipcountry");
    var e6 := Without(e5, "cf-ray");
    ValuesWithout(hs, "cf-connecting-ip", m);
    ValuesWithout(e4, "cf-ipcountry", m);
    ValuesWithout(e5, "cf-ray", m);
    ValuesWithout(e6, "cf-visitor", m);
  }

  lemma WithoutDroppedValues(hs: seq<Header>, m: string)
    ensures Values(WithoutDropped(hs), m) == if DroppedFromRequest(m) then [] else Values(hs, m)
  {
    WithoutCloudflareValues(hs, m);
    ValuesWithout(WithoutCloudflare(hs), "Accept-Encoding", m);
  }

  lemma EditedValues(inbound: seq<Header>, target: Url, ua: string, m: string)
    ensures Values(WithSet(WithoutDropped(WithTarget(inbound, target)), "User-Agent", ua), m)
         == if SameName(m, "User-Agent") then [ua]
            else if DroppedFromRequest(m) then []
            else if SameName(m, "Origin") || SameName(m, "Referer") then [target.origin]
            else if SameName(m, "Host") then [target.host]
            else Values(inbound, m)
  {
    WithTargetValues(inbound, target, m);
    WithoutDroppedValues(WithTarget(inbound, target), m);
    ValuesWithSet(WithoutDropped(WithTarget(inbound, target)), "User-Agent", ua, m);
  }

  /** Every header of the upstream request has the values `RequestValues` gives it. */
  lemma RequestEntriesValues(inbound: seq<Header>, target: Url, m: string)
    ensures Values(RequestEntries(inbound, target), m) == RequestValues(inbound, target, m)
  {
    EditedValues(inbound, target, UserAgent(inbound), m);
  }

  /** Builds the upstream request from the client's header record `inbound`. */
  method BuildRequest(inbound: seq<Header>, verb: string, target: Url) returns (req: UpstreamRequest)
    ensures req.url == target.href && req.verb == verb
    ensures req.sendsBody && req.manualRedirect
    ensures forall m :: Values(req.headers, m) == RequestValues(inbound, target, m)
  {
    var h := new Headers(inbound);
    h.Set("Host", target.host);
    h.Set("Referer", target.origin);
    h.Set("Origin", target.origin);
    h.Delete("cf-connecting-ip");
    h.Delete("cf-ipcountry");
    h.Delete("cf-ray");
    h.Delete("cf-visitor");
    h.Delete("Accept-Encoding");
    h.Set("User-Agent", UserAgent(inbound));
    assert h.entries == RequestEntries(inbound, target);
    forall m ensures Values(h.entries, m) == RequestValues(inbound, target, m) {
      RequestEntriesValues(inbound, target, m);
    }
    req := UpstreamRequest(target.href, verb, h.entries, true, true);
  }

  // ---- the response headers ------------------------------------------------

  /** The upstream response headers that are never passed on. */
  predicate StrippedFromResponse(m: string) {
    SameName(m, "Referrer-Policy") || SameName(m, "X-Frame-Options") || SameName(m, "Content-Security-Policy")
  }

  /**
   * The values of header `m` once cookies and redirects are rewritten, the
   * framing and content policies are gone and any origin may read the
   * response; everything else is passed on.
   */
  function SanitizedValuesOf(upstream: seq<Header>, worker: string, targetOrigin: string, m: string): seq<string> {
    if SameName(m, "Set-Cookie") then StripEach(Values(upstream, "Set-Cookie"))
    else if SameName(m, "Location") then LocationValues(upstream, worker, targetOrigin)
    else if StrippedFromResponse(m) then []
    else if SameName(m, "Access-Control-Allow-Origin") then ["*"]
    else Values(upstream, m)
  }

  /**
   * The values of header `m` in the response sent back: an HTML response
   * also loses its length and encoding (the body is about to change).
   */
  function ResponseValues(upstream: seq<Header>, worker: string, targetOrigin: string, m: string): seq<string> {
    if IsHtml(upstream) && (SameName(m, "Content-Encoding") || SameName(m, "Content-Length")) then []
    else SanitizedValuesOf(upstream, worker, targetOrigin, m)
  }

  /** The upstream headers with any origin allowed and the policies deleted, in the order the route does it. */
  ghost function WithoutPolicies(upstream: seq<Header>): seq<Header> {
    Without(Without(Without(WithSet(Normalized(upstream), "Access-Control-Allow-Origin", "*"),
                            "Content-Security-Policy"), "X-Frame-Options"), "Referrer-Policy")
  }

  /** The response headers before the HTML-only deletions. */
  ghost function Sanitized(upstream: seq<Header>, worker: string, targetOrigin: string): seq<Header> {
    CookiesReplaced(LocationRewritten(WithoutPolicies(upstream), worker, targetOrigin), Values(upstream, "Set-Cookie"))
  }

  /** The header list of the response sent back. */
  ghost function ResponseEntries(upstream: seq<Header>, worker: string, targetOrigin: string): seq<Header> {
    var s := Sanitized(upstream, worker, targetOrigin);
    if IsHtml(upstream) then Without(Without(s, "Content-Length"), "Content-Encoding") else s
  }

  lemma WithoutPoliciesValues(upstream: seq<Header>, m: string)
    ensures Values(WithoutPolicies(upstream), m)
         == if StrippedFromResponse(m) then []
            else if SameName(m, "Access-Control-Allow-Origin") then ["*"] else Values(upstream, m)
  {
    var e0 := Normalized(upstream);
    var e1 := WithSet(e0, "Access-Control-Allow-Origin", "*");
    var e2 := Without(e1, "Content-Security-Policy");
    var e3 := Without(e2, "X-Frame-Options");
    ValuesNormalized(upstream, m);
    ValuesWithSet(e0, "Access-Control-Allow-Origin", "*", m);
    ValuesWithout(e1, "Content-Security-Policy", m);
    ValuesWithout(e2, "X-Frame-Options", m);
    ValuesWithout(e3, "Referrer-Policy", m);
  }

  /** The policy edits leave `Location`, `Set-Cookie` and `Content-Type` alone. */
  lemma WithoutPoliciesKeeps(upstream: seq<Header>, m: string)
    requires m == "Location" || m == "Set-Cookie" || m == "content-type"
    ensures Values(WithoutPolicies(upstream), m) == Values(upstream, m)
  {
    WithoutPoliciesValues(upstream, m);
  }

  lemma SanitizedValues(upstream: seq<Header>, worker: string, targetOrigin: string, m: string)
    ensures Values(Sanitized(upstream, worker, targetOrigin), m) == SanitizedValuesOf(upstream, worker, targetOrigin, m)
  {
    var p := WithoutPolicies(upstream);
    var l := LocationRewritten(p, worker, targetOrigin);
    var cookies := Values(upstream, "Set-Cookie");
    WithoutPoliciesValues(upstream, m);
    WithoutPoliciesKeeps(upstream, "Location");
    LocationValuesOnlyLocation(p, upstream, worker, targetOrigin);
    LocationRewrittenValues(p, worker, targetOrigin, m);
    CookiesReplacedValues(l, cookies, m);
    if SameName(m, "Set-Cookie") && cookies == [] {
      WithoutPoliciesKeeps(upstream, "Set-Cookie");
      LocationRewrittenValues(p, worker, targetOrigin, "Set-Cookie");
      ValuesSameName(l, m, "Set-Cookie");
    }
  }

  /** The Content-Type the route tests is the upstream one. */
  lemma SanitizedContentType(upstream: seq<Header>, worker: string, targetOrigin: string)
    ensures Values(Sanitized(upstream, worker, targetOrigin), "content-type") == Values(upstream, "content-type")
  {
    SanitizedValues(upstream, worker, targetOrigin, "content-type");
  }

  /** Every header of the response has the values `ResponseValues` gives it. */
  lemma ResponseEntriesValues(upstream: seq<Header>, worker: string, targetOrigin: string, m: string)
    ensures Values(ResponseEntries(upstream, worker, targetOrigin), m) == ResponseValues(upstream, worker, targetOrigin, m)
  {
    var s := Sanitized(upstream, worker, targetOrigin);
    SanitizedValues(upstream, worker, targetOrigin, m);
    ValuesWithout(s, "Content-Length", m);
    ValuesWithout(Without(s, "Content-Length"), "Content-Encoding", m);
  }

  /** Builds the response headers from the upstream response headers and tells whether the body is HTML. */
  method SanitizeResponse(upstream: seq<Header>, worker: string, targetOrigin: string)
    returns (headers: seq<Header>, html: bool)
    ensures html == IsHtml(upstream)
    ensures forall m :: Values(headers, m) == ResponseValues(upstream, worker, targetOrigin, m)
  {
    var h := new Headers(upstream);
    h.Set("Access-Control-Allow-Origin", "*");
    h.Delete("Content-Security-Policy");
    h.Delete("X-Frame-Options");
    h.Delete("Referrer-Policy");
    RewriteLocationHeader(h, worker, targetOrigin);
    var setCookies := ReceivedSetCookies(upstream);
    ReplaceSetCookies(h, setCookies);
    assert h.entries == Sanitized(upstream, worker, targetOrigin);
    SanitizedContentType(upstream, worker, targetOrigin);
    IsHtmlOnlyContentType(h.entries, upstream);
    var contentType := h.Get("content-type");
    html := contentType.Some? && contentType.value != "" && Includes(contentType.value, "text/html");
    if html {
      h.Delete("Content-Length");
      h.Delete("Content-Encoding");
    }
    assert h.entries == ResponseEntries(upstream, worker, targetOrigin);
    forall m ensures Values(h.entries, m) == ResponseValues(upstream, worker, targetOrigin, m) {
      ResponseEntriesValues(upstream, worker, targetOrigin, m);
    }
    headers := h.entries;
  }

  // ---- the HTML rules ------------------------------------------------------

  /** The handlers registered for an HTML response, in registration order. */
  function Rules(worker: string, target: string): seq<Rule> {
    [ Rule(TagAttrEquals("meta", "http-equiv", "refresh"), RewriteRefresh),
      Rule(TagAttrEquals("meta", "name", "referrer"), RemoveElement),
      Rule(TagIs("head"), AppendScript(InterceptorScript(worker, target))),
      Rule(TagIs("a"), RewriteUrlAttr("href")),
      Rule(TagIs("img"), RewriteUrlAttr("src")),
      Rule(TagIs("link"), RewriteUrlAttr("href")),
      Rule(TagIs("script"), RewriteUrlAttr("src")),
      Rule(TagIs("form"), RewriteUrlAttr("action")),
      Rule(TagIs("iframe"), RewriteUrlAttr("src")),
      Rule(HasAttribute("data-src"), RewriteUrlAttr("data-src")),
      Rule(HasAttribute("data-href"), RewriteUrlAttr("data-href")),
      Rule(HasAttribute("data-url"), RewriteUrlAttr("data-url")) ]
  }

  /** The URL attribute each tag's own rule rewrites. */
  function TagUrlAttr(tag: string): Option<string> {
    if tag == "a" || tag == "link" then Some("href")
    else if tag == "img" || tag == "script" || tag == "iframe" then Some("src")
    else if tag == "form" then Some("action")
    else None
  }

  lemma RulesTagAttr(st: ElementState, tag: string, worker: string, target: string, k: string)
    requires TagUrlAttr(tag) == Some(k)
    ensures Lookup(RunRules(st, Rules(worker, target), tag, st.attrs, worker, target).attrs, k)
         == KeyStep(RewriteUrlAttr(k), Lookup(st.attrs, k), worker, target)
  {
    var i := if tag == "a" then 3 else if tag == "img" then 4 else if tag == "link" then 5
      else if tag == "script" then 6 else if tag == "form" then 7 else 8;
    TagUrlAttrNotData(tag);
    KeyTouchedOnce(st, Rules(worker, target), tag, st.attrs, worker, target, k, i);
  }

  /** No tag's own URL attribute is one of the `data-*` URL attributes. */
  lemma TagUrlAttrNotData(tag: string)
    ensures TagUrlAttr(tag).Some? ==> TagUrlAttr(tag).value[0] != 'd' && TagUrlAttr(tag).value !in DataAttrNames
  {
    assert forall n :: n in DataAttrNames ==> n[0] == 'd';
  }

  lemma RulesDataAttr(st: ElementState, tag: string, worker: string, target: string, k: string)
    requires k in DataAttrNames && k in st.attrs
    ensures Lookup(RunRules(st, Rules(worker, target), tag, st.attrs, worker, target).attrs, k)
         == KeyStep(RewriteUrlAttr(k), Lookup(st.attrs, k), worker, target)
  {
    var i := if k == "data-src" then 9 else if k == "data-href" then 10 else 11;
    KeyTouchedOnce(st, Rules(worker, target), tag, st.attrs, worker, target, k, i);
  }

  lemma RulesRefresh(st: ElementState, tag: string, worker: string, target: string)
    requires Matches(TagAttrEquals("meta", "http-equiv", "refresh"), tag, st.attrs)
    ensures Lookup(RunRules(st, Rules(worker, target), tag, st.attrs, worker, target).attrs, "content")
         == KeyStep(RewriteRefresh, Lookup(st.attrs, "content"), worker, target)
  {
    KeyTouchedOnce(st, Rules(worker, target), tag, st.attrs, worker, target, "content", 0);
  }

  lemma RulesOtherAttr(st: ElementState, tag: string, worker: string, target: string, k: string)
    requires TagUrlAttr(tag) != Some(k) && !(k in DataAttrNames && k in st.attrs)
    requires !(k == "content" && Matches(TagAttrEquals("meta", "http-equiv", "refresh"), tag, st.attrs))
    ensures Lookup(RunRules(st, Rules(worker, target), tag, st.attrs, worker, target).attrs, k) == Lookup(st.attrs, k)
  {
    KeyUntouched(st, Rules(worker, target), tag, st.attrs, worker, target, k);
  }

  /**
   * What the rules do to one attribute `k` of an element: the tag's own URL
   * attribute and the `data-src`/`data-href`/`data-url` attributes go through
   * the attribute rule, the `content` of a refresh `meta` through the
   * meta-refresh rule; every other attribute keeps its presence and value.
   */
  lemma RulesOnAttribute(st: ElementState, tag: string, worker: string, target: string, k: string)
    ensures Lookup(RunRules(st, Rules(worker, target), tag, st.attrs, worker, target).attrs, k)
         == if TagUrlAttr(tag) == Some(k) || k in DataAttrNames
            then KeyStep(RewriteUrlAttr(k), Lookup(st.attrs, k), worker, target)
            else if k == "content" && Matches(TagAttrEquals("meta", "http-equiv", "refresh"), tag, st.attrs)
            then KeyStep(RewriteRefresh, Lookup(st.attrs, k), worker, target)
            else Lookup(st.attrs, k)
  {
    if TagUrlAttr(tag) == Some(k) {
      RulesTagAttr(st, tag, worker, target, k);
    } else if k in DataAttrNames && k in st.attrs {
      RulesDataAttr(st, tag, worker, target, k);
    } else if k == "content" && Matches(TagAttrEquals("meta", "http-equiv", "refresh"), tag, st.attrs) {
      RulesRefresh(st, tag, worker, target);
    } else {
      RulesOtherAttr(st, tag, worker, target, k);
    }
  }

  /**
   * Only a `meta name="referrer"` element is removed, and only the `head`
   * element gets the interceptor script, exactly once.
   */
  lemma RulesRemoveAndAppend(st: ElementState, tag: string, worker: string, target: string)
    ensures RunRules(st, Rules(worker, target), tag, st.attrs, worker, target).removed
        <==> st.removed || Matches(TagAttrEquals("meta", "name", "referrer"), tag, st.attrs)
    ensures RunRules(st, Rules(worker, target), tag, st.attrs, worker, target).appended
         == st.appended + if tag == "head" then [InterceptorScript(worker, target)] else []
  {
    var rules := Rules(worker, target);
    RemovedIff(st, rules, tag, st.attrs, worker, target);
    if Matches(TagAttrEquals("meta", "name", "referrer"), tag, st.attrs) {
      assert Fires(rules, 1, tag, st.attrs);
    }
    if tag == "head" {
      AppendedOnce(st, rules, tag, st.attrs, worker, target, 2);
    } else {
      NothingAppended(st, rules, tag, st.attrs, worker, target);
    }
  }

  // ---- the response --------------------------------------------------------

  /**
   * The response to a forwarded request, given what `fetch` returned: the
   * upstream status, the sanitised headers, the `__sp_origin` cookie set to
   * the target origin for an HTML page, and an HTML body streamed through
   * the rules; any other body is passed on untouched.
   */
  method Respond(upstream: seq<Header>, status: int, doc: seq<Element>, worker: string, target: Url)
    returns (headers: seq<Header>, outStatus: int, originCookie: Option<string>)
    requires forall i, j :: 0 <= i < j < |doc| ==> doc[i] != doc[j]
    modifies set e | e in doc
    ensures outStatus == status
    ensures forall m :: Values(headers, m) == ResponseValues(upstream, worker, target.origin, m)
    ensures originCookie == if IsHtml(upstream) then Some(target.origin) else None
    ensures IsHtml(upstream) ==> forall i :: 0 <= i < |doc| ==>
      doc[i].State() == RunRules(old(doc[i].State()), Rules(worker, target.origin), doc[i].tag, old(doc[i].attrs),
                                 worker, target.origin)
    ensures !IsHtml(upstream) ==> forall i :: 0 <= i < |doc| ==> doc[i].State() == old(doc[i].State())
  {
    var html;
    headers, html := SanitizeResponse(upstream, worker, target.origin);
    outStatus := status;
    originCookie := None;
    if html {
      originCookie := Some(target.origin);
      RewriteDocument(doc, Rules(worker, target.origin), worker, target.origin);
    }
  }
}
