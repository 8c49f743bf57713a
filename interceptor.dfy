/**
 * The URL decisions of the scripts the proxy appends to every proxied
 * page's `<head>`. The scripts patch link clicks, `window.open`, `fetch`,
 * `XMLHttpRequest.open` and (in the Node.js entry point) `sendBeacon`; only
 * the decision each patch takes about the URL it is given is modelled. A
 * JavaScript argument is either a string or some other value (`undefined`,
 * `null`, a `URL` object, ...), which the patches pass through untouched.
 */
module Interceptor {
  import opened Wrappers
  import opened Strings
  import opened UrlRules

  /** A URL argument: a string or any other JavaScript value. */
  datatype Arg = Str(s: string) | NonString

  /** The first argument of `fetch`: a string, a `Request` with its URL, or anything else. */
  datatype FetchInput = FetchUrl(url: string) | FetchRequest(requestUrl: string) | FetchOther

  /** Which copy of the script a page received. */
  datatype Script =
    | SharedScript(worker: string, target: string)   // the shared application's script
    | NodeScript(worker: string, target: string)     // the Node.js entry point's script
    | StandaloneScript(worker: string, target: string) // the standalone Worker application's script

  /** `getInterceptorScript(workerOrigin, targetOrigin)`. */
  function InterceptorScript(worker: string, target: string): Script {
    SharedScript(worker, target)
  }

  // ---------------------------------------------------------------------
  // The shared script (its click and window.open patches are also those of
  // the standalone Worker application's script).

  /**
   * The click patch: the absolute `href` of the clicked link, if any, and the
   * address the page is sent to instead, if the click is taken over.
   */
  function SharedClick(href: string, worker: string): (r: Option<string>)
    ensures r.Some? <==> href != "" && !StartsWith(href, worker) && !StartsWith(href, "javascript:")
    ensures r.Some? ==> r.value == worker + "/" + href
  {
    if href != "" && !StartsWith(href, worker) && !StartsWith(href, "javascript:") then
      Some(worker + "/" + href)
    else None
  }

  /** The `window.open` patch: any non-empty string not under the proxy goes under it. */
  function SharedOpen(url: Arg, worker: string): Arg {
    match url
    case Str(s) => if s != "" && !StartsWith(s, worker) then Str(worker + "/" + s) else url
    case NonString => url
  }

  /** The `fetch` patch: only absolute URLs not yet under the proxy move. */
  function SharedFetch(input: FetchInput, worker: string): FetchInput {
    match input
    case FetchUrl(u) =>
      if StartsWith(u, "http") && !StartsWith(u, worker) then FetchUrl(worker + "/" + u) else input
    case FetchRequest(u) =>
      if StartsWith(u, "http") && !StartsWith(u, worker) then FetchRequest(worker + "/" + u) else input
    case FetchOther => input
  }

  /** The `XMLHttpRequest.open` patch: the same test as for `fetch`. */
  function SharedXhr(url: Arg, worker: string): Arg {
    match url
    case Str(s) => if StartsWith(s, "http") && !StartsWith(s, worker) then Str(worker + "/" + s) else url
    case NonString => url
  }

  /** Everything `window.open` moves ends up under the proxy, and a second pass leaves it there. */
  lemma SharedOpenIdempotent(url: Arg, worker: string)
    ensures SharedOpen(url, worker).Str? <==> url.Str?
    ensures SharedOpen(url, worker) != url ==> StartsWith(SharedOpen(url, worker).s, worker + "/")
    ensures SharedOpen(SharedOpen(url, worker), worker) == SharedOpen(url, worker)
  {
    if url.Str? && url.s != "" && !StartsWith(url.s, worker) {
      UnderWorker(worker, url.s);
    }
  }

  /**
   * `fetch` (given a string or a `Request`) and `XMLHttpRequest.open` move a
   * URL exactly when `window.open` does and it is absolute: relative and protocol-relative requests made by
   * script are left for the browser to resolve against the proxy.
   */
  lemma SharedFetchVersusOpen(s: string, worker: string)
    ensures SharedFetch(FetchUrl(s), worker) == FetchUrl(SharedXhr(Str(s), worker).s)
    ensures SharedFetch(FetchRequest(s), worker) == FetchRequest(SharedXhr(Str(s), worker).s)
    ensures StartsWith(s, "http") ==> SharedXhr(Str(s), worker) == SharedOpen(Str(s), worker)
    ensures !StartsWith(s, "http") ==> SharedXhr(Str(s), worker) == Str(s)
  {
  }

  // ---------------------------------------------------------------------
  // The Node.js entry point's script, built around one `rewriteUrl` helper.

  /** `rewriteUrl(url)` of the Node.js script. */
  function NodeRewriteUrl(url: Arg, worker: string, target: string): Arg {
    match url
    case NonString => url
    case Str(s) =>
      if s == "" || StartsWith(s, worker) || StartsWith(s, "javascript:") || StartsWith(s, "data:") then url
      else if StartsWith(s, "http") then Str(worker + "/" + s)
      else if StartsWith(s, "//") then Str(worker + "/https:" + s)
      else if StartsWith(s, "/") then Str(worker + "/" + target + s)
      else url
  }

  /**
   * On strings the script's helper is exactly the server-side attribute rule:
   * its extra "javascript:" and "data:" guards never decide anything, since
   * such values are kept by the attribute rule as well.
   */
  lemma NodeRewriteUrlIsAttrRule(s: string, worker: string, target: string)
    ensures NodeRewriteUrl(Str(s), worker, target) == Str(RewriteAttr(s, worker, target))
  {
    if StartsWith(s, "javascript:") {
      assert s[0] == 'j';
      assert !StartsWith(s, "http") && !StartsWith(s, "/");
    } else if StartsWith(s, "data:") {
      assert s[0] == 'd';
      assert !StartsWith(s, "http") && !StartsWith(s, "/");
    }
  }

  /** The helper is idempotent, as the attribute rule is. */
  lemma NodeRewriteUrlIdempotent(url: Arg, worker: string, target: string)
    ensures NodeRewriteUrl(NodeRewriteUrl(url, worker, target), worker, target) == NodeRewriteUrl(url, worker, target)
  {
    if url.Str? {
      NodeRewriteUrlIsAttrRule(url.s, worker, target);
      NodeRewriteUrlIsAttrRule(RewriteAttr(url.s, worker, target), worker, target);
      RewriteAttrIdempotent(url.s, worker, target);
    }
  }

  /**
   * The click patch of the Node.js script: `hrefAttr` is the link's `href`
   * attribute as written (absent or a string) and `href` the absolute URL the
   * browser resolved it to. The click is taken over only when the helper
   * would change the attribute and the absolute URL is an "http" URL not
   * already under the proxy; the page then goes to the absolute URL under
   * the proxy.
   */
  function NodeClick(hrefAttr: Option<string>, href: string, worker: string, target: string): (r: Option<string>)
    ensures r.Some? ==> href != "" && r.value == worker + "/" + href
  {
    if href == "" then None
    else
      var written := match hrefAttr case Some(a) => Str(a) case None => NonString;
      if NodeRewriteUrl(written, worker, target) != written && StartsWith(href, "http") && !StartsWith(href, worker) then
        Some(worker + "/" + href)
      else None
  }

  /** The Node.js `fetch` patch: a string goes through the helper, a `Request` is rebuilt only if its URL changes. */
  function NodeFetch(input: FetchInput, worker: string, target: string): FetchInput {
    match input
    case FetchUrl(u) =>
      var r := NodeRewriteUrl(Str(u), worker, target);
      FetchUrl(r.s)
    case FetchRequest(u) =>
      var r := NodeRewriteUrl(Str(u), worker, target);
      if r.s != u then FetchRequest(r.s) else input
    case FetchOther => input
  }

  /** A link the Node.js script takes over is one whose written `href` the attribute rule would move. */
  lemma NodeClickSpec(hrefAttr: Option<string>, href: string, worker: string, target: string)
    ensures NodeClick(hrefAttr, href, worker, target).Some?
        <==> href != "" && StartsWith(href, "http") && !StartsWith(href, worker)
             && hrefAttr.Some? && RewriteAttr(hrefAttr.value, worker, target) != hrefAttr.value
  {
    if hrefAttr.Some? {
      NodeRewriteUrlIsAttrRule(hrefAttr.value, worker, target);
    }
  }

  /** Every request URL the Node.js `fetch` patch sends out is the attribute rule's image of the given one. */
  lemma NodeFetchIsAttrRule(input: FetchInput, worker: string, target: string)
    ensures input.FetchUrl? ==> NodeFetch(input, worker, target) == FetchUrl(RewriteAttr(input.url, worker, target))
    ensures input.FetchRequest?
        ==> NodeFetch(input, worker, target) == FetchRequest(RewriteAttr(input.requestUrl, worker, target))
    ensures input.FetchOther? ==> NodeFetch(input, worker, target) == input
  {
    match input
    case FetchUrl(u) => NodeRewriteUrlIsAttrRule(u, worker, target);
    case FetchRequest(u) => NodeRewriteUrlIsAttrRule(u, worker, target);
    case FetchOther =>
  }

  // ---------------------------------------------------------------------
  // What each copy of the script does with each patched call.

  /** Where a click on a link sends the page, if the script takes the click over. */
  function OnClick(script: Script, hrefAttr: Option<string>, href: string): Option<string> {
    match script
    case NodeScript(w, t) => NodeClick(hrefAttr, href, w, t)
    case _ => SharedClick(href, script.worker)
  }

  /** The URL that reaches the original `window.open`. */
  function OnOpen(script: Script, url: Arg): Arg {
    match script
    case NodeScript(w, t) => NodeRewriteUrl(url, w, t)
    case _ => SharedOpen(url, script.worker)
  }

  /** The input that reaches the original `fetch`; the standalone Worker application's script does not patch it. */
  function OnFetch(script: Script, input: FetchInput): FetchInput {
    match script
    case SharedScript(w, _) => SharedFetch(input, w)
    case NodeScript(w, t) => NodeFetch(input, w, t)
    case StandaloneScript(_, _) => input
  }

  /** The URL that reaches the original `XMLHttpRequest.open`; unpatched in the standalone Worker application's script. */
  function OnXhr(script: Script, url: Arg): Arg {
    match script
    case SharedScript(w, _) => SharedXhr(url, w)
    case NodeScript(w, t) => NodeRewriteUrl(url, w, t)
    case StandaloneScript(_, _) => url
  }

  /** The URL that reaches the original `sendBeacon`; only the Node.js script patches it. */
  function OnBeacon(script: Script, url: Arg): Arg {
    match script
    case NodeScript(w, t) => NodeRewriteUrl(url, w, t)
    case _ => url
  }

  /**
   * What the script the shared application injects does with each patched
   * call: a click on a link and `window.open` send every non-empty string not
   * under the proxy through it (a click on a "javascript:" link excepted);
   * `fetch` and `XMLHttpRequest.open` do so only for "http" URLs; `sendBeacon`
   * is not patched; non-string arguments pass unchanged.
   */
  lemma SharedScriptPatches(worker: string, target: string, hrefAttr: Option<string>, u: string)
    ensures OnClick(InterceptorScript(worker, target), hrefAttr, u)
         == if u != "" && !StartsWith(u, worker) && !StartsWith(u, "javascript:") then Some(worker + "/" + u) else None
    ensures OnOpen(InterceptorScript(worker, target), Str(u))
         == if u != "" && !StartsWith(u, worker) then Str(worker + "/" + u) else Str(u)
    ensures OnFetch(InterceptorScript(worker, target), FetchUrl(u))
         == if StartsWith(u, "http") && !StartsWith(u, worker) then FetchUrl(worker + "/" + u) else FetchUrl(u)
    ensures OnFetch(InterceptorScript(worker, target), FetchRequest(u))
         == if StartsWith(u, "http") && !StartsWith(u, worker) then FetchRequest(worker + "/" + u) else FetchRequest(u)
    ensures OnXhr(InterceptorScript(worker, target), Str(u))
         == if StartsWith(u, "http") && !StartsWith(u, worker) then Str(worker + "/" + u) else Str(u)
    ensures OnBeacon(InterceptorScript(worker, target), Str(u)) == Str(u)
    ensures OnOpen(InterceptorScript(worker, target), NonString) == NonString
    ensures OnXhr(InterceptorScript(worker, target), NonString) == NonString
    ensures OnFetch(InterceptorScript(worker, target), FetchOther) == FetchOther
  {
  }

  /**
   * No patched call of any script sends a URL that is already under the proxy
   * anywhere else: such a URL reaches the original function unchanged, and a
   * click on such a link is never taken over.
   */
  lemma ProxiedUrlsPassThrough(script: Script, s: string)
    requires StartsWith(s, script.worker)
    ensures OnOpen(script, Str(s)) == Str(s)
    ensures OnXhr(script, Str(s)) == Str(s)
    ensures OnBeacon(script, Str(s)) == Str(s)
    ensures OnFetch(script, FetchUrl(s)) == FetchUrl(s)
    ensures OnFetch(script, FetchRequest(s)) == FetchRequest(s)
    ensures OnClick(script, Some(s), s) == None
  {
    if script.NodeScript? {
      NodeRewriteUrlIsAttrRule(s, script.worker, script.target);
    }
  }
}
