/**
 * How the main route turns an incoming request into the upstream URL to
 * forward to. The request URL is expected to look like
 * `worker + "/" + absoluteUrl`; a request that does not (a relative request
 * the page made on its own) is pinned to the site it came from through the
 * Referer header or the `__sp_origin` cookie. The three entry points carry
 * identical copies of this procedure. Parsing with `new URL` is a parameter.
 */
module Resolver {
  import opened Wrappers
  import opened Strings
  import opened UrlRules

  /** The parts of a parsed upstream URL the proxy uses. */
  datatype Url = Url(href: string, origin: string, host: string)

  /** Why a request is refused. */
  datatype Failure =
    | UnresolvableTarget   // no absolute URL, no fallback origin and no '.'
    | InvalidTarget        // the chosen string does not parse as a URL

  /** The first decision: the home page, a refusal, or the string to parse. */
  datatype Choice = HomePage | Unresolvable | TargetString(s: string)

  /** What the main route does with the request. */
  datatype Outcome = ServeHome | BadRequest(reason: Failure) | Forward(target: Url)

  /** The origin a string starts with, as `/^https?:\/\/[^\/]+/` finds it: scheme, "://" and a non-empty host. */
  function OriginPrefix(s: string): (r: Option<string>)
    ensures r.Some? ==> StartsWith(s, r.value)
    ensures r.Some? ==> (StartsWith(r.value, "https://") && 8 < |r.value|)
                        || (StartsWith(r.value, "http://") && 7 < |r.value|)
    ensures r.Some? ==> |r.value| == |s| || s[|r.value|] == '/'
  {
    var k := if StartsWith(s, "https://") then 8 else if StartsWith(s, "http://") then 7 else 0;
    if k == 0 then None
    else
      var n := RunBefore(s[k..], '/');
      if n == 0 then None
      else
        assert s[..k + n][..k] == s[..k];
        Some(s[..k + n])
  }

  /** The part of the request URL after the first `worker + "/"`: the URL the client asked for. */
  function Candidate(urlStr: string, worker: string): string {
    ReplaceFirst(urlStr, worker + "/", "")
  }

  /** The origin a Referer header names, if the Referer is a proxied page. */
  function RefererOrigin(referer: Option<string>, worker: string): Option<string> {
    match referer
    case Some(r) =>
      if r != "" && StartsWith(r, worker) then OriginPrefix(ReplaceFirst(r, worker + "/", "")) else None
    case None => None
  }

  /** The origin cookie, if it holds an absolute URL. */
  function CookieOrigin(cookie: Option<string>): Option<string> {
    match cookie
    case Some(c) => if c != "" && StartsWith(c, "http") then Some(c) else None
    case None => None
  }

  /** The origin a relative request is resolved against: the Referer's first, the cookie's second. */
  function FallbackOrigin(referer: Option<string>, cookie: Option<string>, worker: string): Option<string> {
    var fromReferer := RefererOrigin(referer, worker);
    if fromReferer.Some? then fromReferer else CookieOrigin(cookie)
  }

  /**
   * The string the route will try to parse. `path` is the request's
   * pathname followed by its query string.
   */
  function ChooseTarget(urlStr: string, worker: string, path: string,
                        referer: Option<string>, cookie: Option<string>): Choice
  {
    var cand := Candidate(urlStr, worker);
    if cand == "" || cand == "/" then HomePage
    else if StartsWith(cand, "http") then TargetString(cand)
    else match FallbackOrigin(referer, cookie, worker)
      case Some(o) => TargetString(o + path)
      case None => if Includes(cand, ".") then TargetString("https://" + cand) else Unresolvable
  }

  /** The main route's decision, `parse` standing for `new URL`. */
  function Route(urlStr: string, worker: string, path: string, referer: Option<string>,
                 cookie: Option<string>, parse: string -> Option<Url>): (out: Outcome)
    ensures out == ServeHome <==> ChooseTarget(urlStr, worker, path, referer, cookie) == HomePage
    ensures out == BadRequest(UnresolvableTarget)
        <==> ChooseTarget(urlStr, worker, path, referer, cookie) == Unresolvable
    ensures out == BadRequest(InvalidTarget)
        <==> exists s :: ChooseTarget(urlStr, worker, path, referer, cookie) == TargetString(s) && parse(s).None?
    ensures out.Forward? ==> exists s :: ChooseTarget(urlStr, worker, path, referer, cookie) == TargetString(s)
                                         && parse(s) == Some(out.target)
  {
    match ChooseTarget(urlStr, worker, path, referer, cookie)
    case HomePage => ServeHome
    case Unresolvable => BadRequest(UnresolvableTarget)
    case TargetString(s) =>
      match parse(s)
      case None => BadRequest(InvalidTarget)
      case Some(u) => Forward(u)
  }

  /** Every string the route tries to parse is an "http" URL. */
  lemma ChosenTargetIsAbsolute(urlStr: string, worker: string, path: string,
                               referer: Option<string>, cookie: Option<string>)
    ensures ChooseTarget(urlStr, worker, path, referer, cookie).TargetString? ==>
            StartsWith(ChooseTarget(urlStr, worker, path, referer, cookie).s, "http")
  {
    var cand := Candidate(urlStr, worker);
    if cand != "" && cand != "/" && !StartsWith(cand, "http") {
      match FallbackOrigin(referer, cookie, worker)
      case Some(o) =>
        if RefererOrigin(referer, worker).Some? {
          assert StartsWith(o, "https://") || StartsWith(o, "http://");
          if StartsWith(o, "https://") {
            StartsWithLonger(o, "http", "s://");
          } else {
            StartsWithLonger(o, "http", "://");
          }
        }
        StartsWithConcat(o, path);
        StartsWithTransitive(o + path, o, "http");
      case None =>
        StartsWithConcat("https://", cand);
        StartsWithLonger("https://" + cand, "http", "s://");
    }
  }

  /** The home page is served exactly for the proxy's own root. */
  lemma HomeIff(urlStr: string, worker: string, path: string, referer: Option<string>,
                cookie: Option<string>, parse: string -> Option<Url>)
    ensures Route(urlStr, worker, path, referer, cookie, parse) == ServeHome
        <==> Candidate(urlStr, worker) == "" || Candidate(urlStr, worker) == "/"
  {
    var cand := Candidate(urlStr, worker);
    if cand != "" && cand != "/" {
      ChosenTargetIsAbsolute(urlStr, worker, path, referer, cookie);
    }
  }

  /** A request for `worker + "/" + u` with an absolute `u` goes to `u`, whatever Referer and cookie say. */
  lemma AbsoluteRoundTrip(worker: string, u: string, path: string,
                          referer: Option<string>, cookie: Option<string>)
    requires StartsWith(u, "http")
    ensures ChooseTarget(worker + "/" + u, worker, path, referer, cookie) == TargetString(u)
  {
    assert worker + "/" + u == (worker + "/") + u;
    ReplaceFirstAtStart(worker + "/", u);
  }

  /**
   * A relative request is resolved against the Referer's origin whenever it
   * has one, and the cookie is not looked at; against the cookie's origin
   * only when the Referer gives none; when neither gives an origin it is
   * read as a host name given without scheme ("https://" + candidate) if it
   * holds a '.', and refused exactly when it holds none.
   */
  lemma RelativeOrder(urlStr: string, worker: string, path: string,
                      referer: Option<string>, cookie: Option<string>)
    requires var cand := Candidate(urlStr, worker); cand != "" && cand != "/" && !StartsWith(cand, "http")
    ensures RefererOrigin(referer, worker).Some? ==>
            ChooseTarget(urlStr, worker, path, referer, cookie) == TargetString(RefererOrigin(referer, worker).value + path)
    ensures RefererOrigin(referer, worker).None? && CookieOrigin(cookie).Some? ==>
            ChooseTarget(urlStr, worker, path, referer, cookie) == TargetString(cookie.value + path)
    ensures RefererOrigin(referer, worker).None? && CookieOrigin(cookie).None? && Includes(Candidate(urlStr, worker), ".") ==>
            ChooseTarget(urlStr, worker, path, referer, cookie) == TargetString("https://" + Candidate(urlStr, worker))
    ensures ChooseTarget(urlStr, worker, path, referer, cookie) == Unresolvable
        <==> RefererOrigin(referer, worker).None? && CookieOrigin(cookie).None? && !Includes(Candidate(urlStr, worker), ".")
  {
  }

  /** An origin followed by nothing or by a path is found as that origin. */
  lemma OriginPrefixOfOrigin(o: string, rest: string)
    requires (StartsWith(o, "https://") && 8 < |o|) || (StartsWith(o, "http://") && 7 < |o| && !StartsWith(o, "https://"))
    requires forall i :: (if StartsWith(o, "https://") then 8 else 7) <= i < |o| ==> o[i] != '/'
    requires rest == "" || rest[0] == '/'
    ensures OriginPrefix(o + rest) == Some(o)
  {
    var s := o + rest;
    var k := if StartsWith(o, "https://") then 8 else 7;
    StartsWithConcat(o, rest);
    StartsWithTransitive(s, o, if k == 8 then "https://" else "http://");
    DropConcat(o, rest, k);
    RunBeforeConcat(o[k..], rest, '/');
    assert s[..|o|] == o;
  }

  /**
   * The Referer of a page the proxy served, `worker + "/" + o + rest` with `o`
   * a scheme, "://" and a host, and `rest` empty or a path, names exactly `o`.
   */
  lemma ProxiedRefererOrigin(worker: string, o: string, rest: string)
    requires (StartsWith(o, "https://") && 8 < |o|) || (StartsWith(o, "http://") && 7 < |o| && !StartsWith(o, "https://"))
    requires forall i :: (if StartsWith(o, "https://") then 8 else 7) <= i < |o| ==> o[i] != '/'
    requires rest == "" || rest[0] == '/'
    ensures RefererOrigin(Some(worker + "/" + o + rest), worker) == Some(o)
  {
    var r := worker + "/" + o + rest;
    assert r == (worker + "/") + (o + rest);
    ReplaceFirstAtStart(worker + "/", o + rest);
    UnderWorker(worker, o + rest);
    OriginPrefixOfOrigin(o, rest);
  }

  /**
   * A URL the attribute rule moved under the proxy leads the route back to
   * the address it stood for: the absolute value itself, the protocol-relative
   * value under "https:", or the root-relative value under the target origin.
   */
  lemma RewrittenAttrResolves(v: string, worker: string, target: string, path: string,
                              referer: Option<string>, cookie: Option<string>)
    requires RewriteAttr(v, worker, target) != v
    requires StartsWith(target, "http")
    ensures ChooseTarget(RewriteAttr(v, worker, target), worker, path, referer, cookie)
         == TargetString(if StartsWith(v, "http") then v
                         else if StartsWith(v, "//") then "https:" + v
                         else target + v)
  {
    RewriteAttrChangesIff(v, worker, target);
    RewriteAttrStrip(v, worker, target);
    if StartsWith(v, "http") {
    } else if StartsWith(v, "//") {
      StartsWithConcat("https:", v);
      StartsWithLonger("https:" + v, "http", "s:");
    } else {
      StartsWithConcat(target, v);
      StartsWithTransitive(target + v, target, "http");
    }
  }
}
