/**
 * The standalone Worker application: an older, self-contained copy of the
 * main route. It forwards more of the client's headers (Accept-Encoding and
 * User-Agent go through as they came), keeps the length and encoding of an
 * HTML response, injects a smaller interceptor script, rewrites fewer tags,
 * and handles the `data-*` URL attributes in one `*` handler that has no
 * check for an already proxied value.
 */
module StandaloneApp {
  import opened Wrappers
  import opened Strings
  import opened UrlRules
  import opened Http
  import opened Interceptor
  import opened Resolver
  import opened Rewriter
  import opened Forwarding
  import CoreApp

  // ---- the upstream request ------------------------------------------------

  /**
   * The values of header `m` in the upstream request: the Cloudflare client
   * headers are gone, Referer and Origin name the target origin, Host the
   * target host, and every other client header is forwarded as it came.
   */
  function RequestValues(inbound: seq<Header>, target: Url, m: string): seq<string> {
    if CoreApp.CloudflareHeader(m) then []
    else if SameName(m, "Origin") || SameName(m, "Referer") then [target.origin]
    else if SameName(m, "Host") then [target.host]
    else Values(inbound, m)
  }

  /** The header list of the upstream request: the client's, edited in the order the route edits it. */
  ghost function RequestEntries(inbound: seq<Header>, target: Url): seq<Header> {
    CoreApp.WithoutCloudflare(CoreApp.WithTarget(inbound, target))
  }

  /** Every header of the upstream request has the values `RequestValues` gives it. */
  lemma RequestEntriesValues(inbound: seq<Header>, target: Url, m: string)
    ensures Values(RequestEntries(inbound, target), m) == RequestValues(inbound, target, m)
  {
    CoreApp.WithTargetValues(inbound, target, m);
    CoreApp.WithoutCloudflareValues(CoreApp.WithTarget(inbound, target), m);
  }

  /** Builds the upstream request from the client's header record `inbound`; the body always goes along. */
  method BuildRequest(inbound: seq<Header>, verb: string, target: Url) returns (req: UpstreamRequest)
    ensures req.url == target.href && req.verb == verb
    ensures req.sendsBody && req.manualRedirect
    ensures forall m :: Values(req.headers, m) == RequestValues(inbound, target, m)
  {
    var h := new Headers(inbound);
    h.Set("Host", target.host);
    h.Set("Referer", target.origin);
    h.Set("Origin", target.origin);
    h.Delete("cf-connecting-ip");
    h.Delete("cf-ipcountry");
    h.Delete("cf-ray");
    h.Delete("cf-visitor");
    assert h.entries == RequestEntries(inbound, target);
    forall m ensures Values(h.entries, m) == RequestValues(inbound, target, m) {
      RequestEntriesValues(inbound, target, m);
    }
    req := UpstreamRequest(target.href, verb, h.entries, true, true);
  }

  /** Unlike the shared application, the client's User-Agent and Accept-Encoding reach the target unchanged. */
  lemma ForwardsClientEncodingAndAgent(inbound: seq<Header>, target: Url)
    ensures RequestValues(inbound, target, "Accept-Encoding") == Values(inbound, "Accept-Encoding")
    ensures RequestValues(inbound, target, "User-Agent") == Values(inbound, "User-Agent")
  {
    assert Lower("Accept-Encoding")[0] != Lower("cf-visitor")[0];
    assert Lower("User-Agent")[0] != Lower("cf-visitor")[0];
  }

  // ---- the response headers ------------------------------------------------

  /** Builds the response headers from the upstream response headers and tells whether the body is HTML. */
  method SanitizeResponse(upstream: seq<Header>, worker: string, targetOrigin: string)
    returns (headers: seq<Header>, html: bool)
    ensures html == IsHtml(upstream)
    ensures forall m :: Values(headers, m) == CoreApp.SanitizedValuesOf(upstream, worker, targetOrigin, m)
  {
    var h := new Headers(upstream);
    h.Set("Access-Control-Allow-Origin", "*");
    h.Delete("Content-Security-Policy");
    h.Delete("X-Frame-Options");
    h.Delete("Referrer-Policy");
    RewriteLocationHeader(h, worker, targetOrigin);
    var setCookies := ReceivedSetCookies(upstream);
    ReplaceSetCookies(h, setCookies);
    assert h.entries == CoreApp.Sanitized(upstream, worker, targetOrigin);
    CoreApp.SanitizedContentType(upstream, worker, targetOrigin);
    IsHtmlOnlyContentType(h.entries, upstream);
    var contentType := h.Get("content-type");
    html := contentType.Some? && contentType.value != "" && Includes(contentType.value, "text/html");
    forall m ensures Values(h.entries, m) == CoreApp.SanitizedValuesOf(upstream, worker, targetOrigin, m) {
      CoreApp.SanitizedValues(upstream, worker, targetOrigin, m);
    }
    headers := h.entries;
  }

  // ---- the HTML rules ------------------------------------------------------

  /** The handlers registered for an HTML response, in registration order. */
  function Rules(worker: string, target: string): seq<Rule> {
    [ Rule(TagAttrEquals("meta", "http-equiv", "refresh"), RewriteRefresh),
      Rule(TagAttrEquals("meta", "name", "referrer"), RemoveElement),
      Rule(TagIs("head"), AppendScript(StandaloneScript(worker, target))),
      Rule(TagIs("a"), RewriteUrlAttr("href")),
      Rule(TagIs("img"), RewriteUrlAttr("src")),
      Rule(TagIs("link"), RewriteUrlAttr("href")),
      Rule(TagIs("script"), RewriteUrlAttr("src")),
      Rule(TagIs("form"), RewriteUrlAttr("action")),
      Rule(TagIs("iframe"), RewriteUrlAttr("src")),
      Rule(Universal, RewriteDataAttrs) ]
  }

  lemma RulesTagAttr(st: ElementState, tag: string, worker: string, target: string, k: string)
    requires CoreApp.TagUrlAttr(tag) == Some(k)
    ensures Lookup(RunRules(st, Rules(worker, target), tag, st.attrs, worker, target).attrs, k)
         == KeyStep(RewriteUrlAttr(k), Lookup(st.attrs, k), worker, target)
  {
    var i := if tag == "a" then 3 else if tag == "img" then 4 else if tag == "link" then 5
      else if tag == "script" then 6 else if tag == "form" then 7 else 8;
    KeyTouchedOnce(st, Rules(worker, target), tag, st.attrs, worker, target, k, i);
  }

  lemma RulesDataAttr(st: ElementState, tag: string, worker: string, target: string, k: string)
    requires k in DataAttrNames
    ensures Lookup(RunRules(st, Rules(worker, target), tag, st.attrs, worker, target).attrs, k)
         == KeyStep(RewriteDataAttrs, Lookup(st.attrs, k), worker, target)
  {
    KeyTouchedOnce(st, Rules(worker, target), tag, st.attrs, worker, target, k, 9);
  }

  lemma RulesRefresh(st: ElementState, tag: string, worker: string, target: string)
    requires Matches(TagAttrEquals("meta", "http-equiv", "refresh"), tag, st.attrs)
    ensures Lookup(RunRules(st, Rules(worker, target), tag, st.attrs, worker, target).attrs, "content")
         == KeyStep(RewriteRefresh, Lookup(st.attrs, "content"), worker, target)
  {
    KeyTouchedOnce(st, Rules(worker, target), tag, st.attrs, worker, target, "content", 0);
  }

  lemma RulesOtherAttr(st: ElementState, tag: string, worker: string, target: string, k: string)
    requires CoreApp.TagUrlAttr(tag) != Some(k) && k !in DataAttrNames
    requires !(k == "content" && Matches(TagAttrEquals("meta", "http-equiv", "refresh"), tag, st.attrs))
    ensures Lookup(RunRules(st, Rules(worker, target), tag, st.attrs, worker, target).attrs, k) == Lookup(st.attrs, k)
  {
    KeyUntouched(st, Rules(worker, target), tag, st.attrs, worker, target, k);
  }

  /**
   * What the rules do to one attribute `k` of an element: the tag's own URL
   * attribute goes through the attribute rule, `data-src`, `data-href` and
   * `data-url` through the `data-*` rule on every element, the `content` of
   * a refresh `meta` through the meta-refresh rule; every other attribute
   * keeps its presence and value.
   */
  lemma RulesOnAttribute(st: ElementState, tag: string, worker: string, target: string, k: string)
    ensures Lookup(RunRules(st, Rules(worker, target), tag, st.attrs, worker, target).attrs, k)
         == if CoreApp.TagUrlAttr(tag) == Some(k) then KeyStep(RewriteUrlAttr(k), Lookup(st.attrs, k), worker, target)
            else if k in DataAttrNames then KeyStep(RewriteDataAttrs, Lookup(st.attrs, k), worker, target)
            else if k == "content" && Matches(TagAttrEquals("meta", "http-equiv", "refresh"), tag, st.attrs)
            then KeyStep(RewriteRefresh, Lookup(st.attrs, k), worker, target)
            else Lookup(st.attrs, k)
  {
    if CoreApp.TagUrlAttr(tag) == Some(k) {
      RulesTagAttr(st, tag, worker, target, k);
    } else if k in DataAttrNames {
      RulesDataAttr(st, tag, worker, target, k);
    } else if k == "content" && Matches(TagAttrEquals("meta", "http-equiv", "refresh"), tag, st.attrs) {
      RulesRefresh(st, tag, worker, target);
    } else {
      RulesOtherAttr(st, tag, worker, target, k);
    }
  }

  /**
   * Only a `meta name="referrer"` element is removed, and only the `head`
   * element gets the interceptor script, exactly once.
   */
  lemma RulesRemoveAndAppend(st: ElementState, tag: string, worker: string, target: string)
    ensures RunRules(st, Rules(worker, target), tag, st.attrs, worker, target).removed
        <==> st.removed || Matches(TagAttrEquals("meta", "name", "referrer"), tag, st.attrs)
    ensures RunRules(st, Rules(worker, target), tag, st.attrs, worker, target).appended
         == st.appended + if tag == "head" then [StandaloneScript(worker, target)] else []
  {
    var rules := Rules(worker, target);
    RemovedIff(st, rules, tag, st.attrs, worker, target);
    if Matches(TagAttrEquals("meta", "name", "referrer"), tag, st.attrs) {
      assert Fires(rules, 1, tag, st.attrs);
    }
    if tag == "head" {
      AppendedOnce(st, rules, tag, st.attrs, worker, target, 2);
    } else {
      NothingAppended(st, rules, tag, st.attrs, worker, target);
    }
  }

  /**
   * A page that goes through the rules twice (a proxied page fetched through
   * the proxy again) gets its `data-*` URLs prefixed twice: for a worker
   * origin starting with "http", each such value changes again.
   */
  lemma DataAttrsNotIdempotent(st: ElementState, tag: string, worker: string, target: string, k: string)
    requires StartsWith(worker, "http") && k in DataAttrNames && k in st.attrs
    requires StartsWith(st.attrs[k], "http") || StartsWith(st.attrs[k], "/")
    ensures (var once := RunRules(st, Rules(worker, target), tag, st.attrs, worker, target);
             Lookup(RunRules(once, Rules(worker, target), tag, once.attrs, worker, target).attrs, k)
             != Lookup(once.attrs, k))
  {
    var once := RunRules(st, Rules(worker, target), tag, st.attrs, worker, target);
    RulesDataAttr(st, tag, worker, target, k);
    RulesDataAttr(once, tag, worker, target, k);
    RewriteDataAttrNotIdempotent(st.attrs[k], worker, target);
  }

  // ---- the response --------------------------------------------------------

  /**
   * The response to a forwarded request, given what `fetch` returned: the
   * upstream status, the sanitised headers (an HTML page keeps its length and
   * encoding headers), the `__sp_origin` cookie for an HTML page, and an HTML
   * body streamed through the rules; any other body is passed on untouched.
   */
  method Respond(upstream: seq<Header>, status: int, doc: seq<Element>, worker: string, target: Url)
    returns (headers: seq<Header>, outStatus: int, originCookie: Option<string>)
    requires forall i, j :: 0 <= i < j < |doc| ==> doc[i] != doc[j]
    modifies set e | e in doc
    ensures outStatus == status
    ensures forall m :: Values(headers, m) == CoreApp.SanitizedValuesOf(upstream, worker, target.origin, m)
    ensures originCookie == if IsHtml(upstream) then Some(target.origin) else None
    ensures IsHtml(upstream) ==> forall i :: 0 <= i < |doc| ==>
      doc[i].State() == RunRules(old(doc[i].State()), Rules(worker, target.origin), doc[i].tag, old(doc[i].attrs),
                                 worker, target.origin)
    ensures !IsHtml(upstream) ==> forall i :: 0 <= i < |doc| ==> doc[i].State() == old(doc[i].State())
  {
    var html;
    headers, html := SanitizeResponse(upstream, worker, target.origin);
    outStatus := status;
    originCookie := None;
    if html {
      originCookie := Some(target.origin);
      RewriteDocument(doc, Rules(worker, target.origin), worker, target.origin);
    }
  }
}
