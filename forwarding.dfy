/**
 * The parts of forwarding that the three entry points share word for word:
 * the upstream request they build, the redirect (`Location`) rewrite, the
 * per-cookie `Set-Cookie` rewrite and the test for an HTML response.
 */
module Forwarding {
  import opened Wrappers
  import opened Strings
  import opened UrlRules
  import opened Cookies
  import opened Http

  /** The upstream `fetch`: URL, method, headers, whether the body is streamed along, and manual redirects. */
  datatype UpstreamRequest = UpstreamRequest(url: string, verb: string, headers: seq<Header>,
                                             sendsBody: bool, manualRedirect: bool)

  /** The `Location` values of the response after the redirect rewrite, given the upstream entries `hs`. */
  function LocationValues(hs: seq<Header>, worker: string, targetOrigin: string): seq<string> {
    match GetOf(hs, "Location")
    case None => []
    case Some(loc) =>
      if StartsWith(loc, "http") || StartsWith(loc, "/") then [RewriteLocation(loc, worker, targetOrigin)]
      else Values(hs, "Location")
  }

  /** The response is HTML: its Content-Type is present, non-empty and contains "text/html". */
  predicate IsHtml(hs: seq<Header>) {
    match GetOf(hs, "content-type")
    case None => false
    case Some(ct) => ct != "" && Includes(ct, "text/html")
  }

  /** The header list after the redirect rewrite. */
  ghost function LocationRewritten(hs: seq<Header>, worker: string, targetOrigin: string): seq<Header> {
    match GetOf(hs, "Location")
    case None => hs
    case Some(loc) =>
      if StartsWith(loc, "http") || StartsWith(loc, "/") then WithSet(hs, "Location", RewriteLocation(loc, worker, targetOrigin))
      else hs
  }

  /** After the redirect rewrite `Location` has the values `LocationValues` gives it; no other header changes. */
  lemma LocationRewrittenValues(hs: seq<Header>, worker: string, targetOrigin: string, m: string)
    ensures Values(LocationRewritten(hs, worker, targetOrigin), m)
         == if SameName(m, "Location") then LocationValues(hs, worker, targetOrigin) else Values(hs, m)
  {
    if SameName(m, "Location") {
      ValuesSameName(hs, m, "Location");
    }
    match GetOf(hs, "Location")
    case None =>
    case Some(loc) =>
      if StartsWith(loc, "http") || StartsWith(loc, "/") {
        ValuesWithSet(hs, "Location", RewriteLocation(loc, worker, targetOrigin), m);
      }
  }

  /**
   * The redirect rewrite: a `Location` whose (joined) value starts with
   * "http", "//" or "/" is replaced by its image under the proxy; any other
   * `Location` is kept as it is; no other header changes.
   */
  method RewriteLocationHeader(h: Headers, worker: string, targetOrigin: string)
    modifies h
    ensures h.entries == LocationRewritten(old(h.entries), worker, targetOrigin)
    ensures forall m ::
      h.ValuesOf(m) == if SameName(m, "Location") then LocationValues(old(h.entries), worker, targetOrigin)
                       else old(h.ValuesOf(m))
  {
    ghost var before := h.entries;
    var present := h.Has("Location");
    assert present == (Values(before, "Location") != []);
    if present {
      var loc := h.Get("Location");
      assert loc == GetOf(before, "Location");
      if loc.Some? && loc.value != "" {
        var l := loc.value;
        if StartsWith(l, "http") {
          assert RewriteLocation(l, worker, targetOrigin) == worker + "/" + l;
          h.Set("Location", worker + "/" + l);
        } else if StartsWith(l, "//") {
          assert RewriteLocation(l, worker, targetOrigin) == worker + "/https:" + l;
          h.Set("Location", worker + "/https:" + l);
        } else if StartsWith(l, "/") {
          assert RewriteLocation(l, worker, targetOrigin) == worker + "/" + targetOrigin + l;
          h.Set("Location", worker + "/" + targetOrigin + l);
        } else {
          assert h.entries == LocationRewritten(before, worker, targetOrigin);
        }
      } else {
        assert h.entries == LocationRewritten(before, worker, targetOrigin);
      }
    }
    ghost var after := h.entries;
    assert after == LocationRewritten(before, worker, targetOrigin);
    forall m ensures Values(after, m) == if SameName(m, "Location") then LocationValues(before, worker, targetOrigin)
                                         else Values(before, m) {
      LocationRewrittenValues(before, worker, targetOrigin, m);
    }
  }

  /** `hs` with one `Set-Cookie` entry appended per cookie, in order, each with its Domain attributes stripped. */
  ghost function WithCookies(hs: seq<Header>, cookies: seq<string>): seq<Header>
    decreases |cookies|
  {
    if cookies == [] then hs
    else WithCookies(hs, cookies[..|cookies| - 1]) + [Header(Lower("Set-Cookie"), StripDomain(cookies[|cookies| - 1]))]
  }

  /** The header list after the cookie rewrite. */
  ghost function CookiesReplaced(hs: seq<Header>, cookies: seq<string>): seq<Header> {
    if cookies == [] then hs else WithCookies(Without(hs, "Set-Cookie"), cookies)
  }

  lemma {:induction false} WithCookiesValues(hs: seq<Header>, cookies: seq<string>, m: string)
    ensures Values(WithCookies(hs, cookies), m)
         == Values(hs, m) + if SameName(m, "Set-Cookie") then StripEach(cookies) else []
    decreases |cookies|
  {
    if cookies != [] {
      var init := cookies[..|cookies| - 1];
      var last := cookies[|cookies| - 1];
      var prev := WithCookies(hs, init);
      assert WithCookies(hs, cookies) == prev + [Header(Lower("Set-Cookie"), StripDomain(last))];
      WithCookiesValues(hs, init, m);
      ValuesAppend(prev, "Set-Cookie", StripDomain(last), m);
      StripEachLast(cookies);
    }
  }

  /** Stripping a list of cookies is stripping all but the last, then the last. */
  lemma {:induction false} StripEachLast(cookies: seq<string>)
    requires cookies != []
    ensures StripEach(cookies) == StripEach(cookies[..|cookies| - 1]) + [StripDomain(cookies[|cookies| - 1])]
    decreases |cookies|
  {
    var init := cookies[..|cookies| - 1];
    if |cookies| == 1 {
      assert init == [];
      assert StripEach(cookies) == [StripDomain(cookies[0])] + StripEach(cookies[1..]);
      assert cookies[1..] == [];
    } else {
      var tail := cookies[1..];
      StripEachLast(tail);
      assert tail[..|tail| - 1] == init[1..];
      assert tail[|tail| - 1] == cookies[|cookies| - 1];
      assert init[0] == cookies[0];
      assert StripEach(cookies) == [StripDomain(cookies[0])] + StripEach(tail);
      assert StripEach(init) == [StripDomain(init[0])] + StripEach(init[1..]);
    }
  }

  /** After the cookie rewrite `Set-Cookie` holds the stripped cookies, if there were any; no other header changes. */
  lemma CookiesReplacedValues(hs: seq<Header>, cookies: seq<string>, m: string)
    ensures Values(CookiesReplaced(hs, cookies), m)
         == if SameName(m, "Set-Cookie") && cookies != [] then StripEach(cookies) else Values(hs, m)
  {
    if cookies != [] {
      WithCookiesValues(Without(hs, "Set-Cookie"), cookies, m);
      ValuesWithout(hs, "Set-Cookie", m);
    }
  }

  /** `res.headers.getSetCookie()`: the upstream response's cookies, one per `Set-Cookie` entry, in order. */
  method ReceivedSetCookies(upstream: seq<Header>) returns (cookies: seq<string>)
    ensures cookies == Values(upstream, "Set-Cookie")
  {
    var received := new Headers(upstream);
    cookies := received.GetSetCookie();
    ValuesSameName(upstream, "set-cookie", "Set-Cookie");
  }

  /**
   * The cookie rewrite: when the upstream response set any cookies, every
   * `Set-Cookie` entry is dropped and each cookie is appended again, in
   * order, with its Domain attributes stripped; no other header changes.
   */
  method ReplaceSetCookies(h: Headers, cookies: seq<string>)
    modifies h
    ensures h.entries == CookiesReplaced(old(h.entries), cookies)
    ensures forall m ::
      h.ValuesOf(m) == if SameName(m, "Set-Cookie") && |cookies| > 0 then StripEach(cookies) else old(h.ValuesOf(m))
  {
    ghost var start := h.entries;
    if |cookies| > 0 {
      h.Delete("Set-Cookie");
      ghost var before := h.entries;
      for i := 0 to |cookies|
        invariant h.entries == WithCookies(before, cookies[..i])
      {
        assert cookies[..i + 1][..i] == cookies[..i];
        h.Append("Set-Cookie", StripDomain(cookies[i]));
      }
      assert cookies[..|cookies|] == cookies;
    }
    forall m ensures Values(h.entries, m) == if SameName(m, "Set-Cookie") && |cookies| > 0 then StripEach(cookies)
                                             else Values(start, m) {
      CookiesReplacedValues(start, cookies, m);
    }
  }

  /** The redirect rewrite looks at the `Location` values only. */
  lemma LocationValuesOnlyLocation(a: seq<Header>, b: seq<Header>, worker: string, targetOrigin: string)
    requires Values(a, "Location") == Values(b, "Location")
    ensures LocationValues(a, worker, targetOrigin) == LocationValues(b, worker, targetOrigin)
  {
  }

  /** The HTML test looks at the Content-Type values only. */
  lemma IsHtmlOnlyContentType(a: seq<Header>, b: seq<Header>)
    requires Values(a, "content-type") == Values(b, "content-type")
    ensures IsHtml(a) <==> IsHtml(b)
  {
  }
}
