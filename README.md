# siteproxy URL remapping, modelled in Dafny

siteproxy is a single-origin forwarding proxy. A client asks for
`worker + "/" + absoluteUrl`; the proxy works out the upstream URL, forwards
the request with edited headers, and edits the response on the way back. It
rewrites redirects and cookie domains, strips the framing and content
policies, and streams HTML through a rule table. That table rewrites every
URL-bearing attribute so that it points back through the proxy, and it
injects a script that patches the page's own navigation and network calls.

The logic exists in three near-copies, and the model keeps them apart:

- the **shared application** (`src/core/app.ts` with the handlers and the
  interceptor script of `src/core/proxy.ts`), used by the Cloudflare Worker
  build;
- the **Node.js entry point** (`src/node.ts`), which forwards an allow-list
  of request headers, forces identity encoding, deletes more response
  headers, rewrites more tags, strips subresource-integrity attributes, and
  injects a larger script;
- the **standalone Worker application** (`src/index.ts`), which forwards
  almost every request header, never drops the length or encoding of an
  HTML response, and rewrites `data-*` URLs with a `*` handler that has no
  check for an already proxied value.

Modules, one file each:

| module | what it holds |
|---|---|
| `Strings` | JavaScript string operations used by the source (`startsWith`, `includes`, first-occurrence `replace`, ASCII case folding for the `/i` flag, `trim`) |
| `Http` | the WHATWG `Headers` object as a class over an ordered entry list, and lemmas on what `set`, `delete` and `append` do to the values of every name |
| `UrlRules` | the pure URL rewrites: the attribute rule, the redirect rule, the `data-*` rule of the standalone application, the meta-refresh rule with its `split(/url=/i)` |
| `Cookies` | the `Domain=[^;]+;?` deletion (flags `gi`) as a hand-written scanner |
| `Interceptor` | the URL decisions inside the three injected scripts |
| `Resolver` | the first-match procedure that picks the upstream URL |
| `Rewriter` | elements as objects changed in place by the handlers, rules as selector/action pairs, the document pass |
| `Forwarding` | the redirect and cookie rewrites on a `Headers` object, which are the same in all three copies |
| `CoreApp`, `NodeApp`, `StandaloneApp` | each copy's request builder, response sanitiser, rule table and response |

Header policies work in two layers. A ghost function builds the entry list
that the edits produce, in the order the source makes them. A lemma then
states the resulting values of every header name. Each method that edits
the `Headers` object is proved to produce that entry list. Its `ensures`
gives, for every name `m`, the values the upstream request or the response
carries (`RequestValues`, `ResponseValues`). Those functions spell out the
policy: which names are forced, which are deleted, and that all other names
pass through unchanged.

The three copies differ as follows:

- `Accept-Encoding`: `node.ts` forces `identity`, `app.ts` deletes the
  client's value, and `index.ts` forwards it unchanged.
- `User-Agent`: only `app.ts` sets it, to the client's value or a default.
- Tags: only the `node.ts` table rewrites `srcset`, `source`, `video`,
  `audio` and `track`, and only it removes `integrity` and `crossorigin`.
- Response headers: `index.ts` never deletes `Content-Length` or
  `Content-Encoding`.
- `data-*` URLs: `index.ts` rewrites them with a rule of its own that has no
  already-proxied check and no `//` branch
  (`UrlRules.RewriteDataAttrVersusAttr`).

## Model

| member | source | states |
|---|---|---|
| Strings.IndexOf | src/core/app.ts:49 | the first occurrence of a pattern that `replace` with a string pattern acts on: it occurs there, nowhere earlier, and `None` means nowhere |
| Strings.ReplaceFirstAtStart | src/core/app.ts:49 | removing the first `p` from `p + u` gives back `u` |
| Strings.Lower | src/core/proxy.ts:22 | the `/i` flag folds case letter by letter and keeps the length |
| Strings.IndexOfIgnoreCase | src/core/proxy.ts:22 | the first case-insensitive occurrence of a pattern, and none before it |
| Strings.TrimStart | src/core/proxy.ts:24 | `trim` drops exactly the leading whitespace: what is dropped is whitespace and the result does not start with it |
| Strings.TrimEnd | src/core/proxy.ts:24 | the same for trailing whitespace |
| Http.Values | src/core/app.ts:89 | a header list holds at most one value per entry for a name |
| Http.GetOf | src/core/app.ts:116 | `get` is absent exactly when the name has no values, and is the value itself when there is one |
| Http.ValuesSameName | src/core/app.ts:109-112 | names that differ only in ASCII case denote the same header |
| Http.ValuesWithout | src/core/app.ts:110-112 | after `delete(n)` the name `n` has no values and every other name keeps its values |
| Http.ValuesWithSet | src/core/app.ts:109 | after `set(n, v)` the name `n` has exactly `[v]` and every other name keeps its values |
| Http.ValuesAppend | src/core/app.ts:129 | after `append(n, v)` the value `v` follows the old values of `n` and no other name changes |
| Http.ValuesNormalized | src/core/app.ts:108 | lower-casing the names in `new Headers(init)` changes no lookup |
| Http.ValuesMembers | src/core/app.ts:115-125 | a value is stored under a name exactly when some entry with that name, ignoring case, carries it |
| Http.ValuesPresent | src/core/app.ts:115 | a name has values exactly when some entry has that name, ignoring case |
| Http.Headers.constructor | src/core/app.ts:108 | `new Headers(init)` holds init's entries with lower-cased names, and every name has init's values |
| Http.Headers.Get | src/core/app.ts:116 | `get(n)` is absent exactly when `n` has no values, and is the value itself when there is exactly one |
| Http.Headers.Has | src/core/app.ts:115 | `has(n)` holds exactly when some entry of the list has the name `n`, ignoring case |
| Http.Headers.GetSetCookie | src/core/app.ts:125 | `getSetCookie()` returns the Set-Cookie values in entry order, so at most one per entry, and a value is returned exactly when some Set-Cookie entry carries it |
| Http.Headers.Set | src/core/app.ts:109 | `set` replaces the entry list as the WHATWG algorithm does, gives the name the one value and changes no other name |
| Http.Headers.Delete | src/core/app.ts:110-112 | `delete` drops every entry for the name and changes no other name |
| Http.Headers.Append | src/core/app.ts:129 | `append` adds one entry at the end and changes no other name |
| UrlRules.RewriteAttrChangesIff | src/core/proxy.ts:7-12 | the attribute rule changes a value exactly when it is non-empty, not already under the worker origin, and starts with "http" or "/"; a changed value lies under `worker + "/"` |
| UrlRules.RewriteAttrIdempotent | src/core/proxy.ts:9-12 | applying the attribute rule twice gives what applying it once gives |
| UrlRules.RewriteAttrStrip | src/core/proxy.ts:10-12 | removing the first `worker + "/"` from a rewritten value gives back the original, "https:" + value, or target + value, for the three branches |
| UrlRules.RewriteLocationVersusAttr | src/core/app.ts:115-122 | the redirect rule equals the attribute rule except on values already under the worker origin, which it prefixes again |
| UrlRules.RewriteLocationChangesIff | src/core/app.ts:117-121 | a Location value changes exactly when it starts with "http" or "/" |
| UrlRules.RewriteDataAttrVersusAttr | src/index.ts:166-176 | the `data-*` rule of the `*` handler agrees with the attribute rule except on proxied and protocol-relative values; "//cdn/x" becomes worker/target//cdn/x |
| UrlRules.RewriteDataAttrNotIdempotent | src/index.ts:169-173 | a `data-*` value the rule rewrites is rewritten again, and grows, on a second pass |
| UrlRules.SplitUrlEq | src/core/proxy.ts:22 | `split(/url=/i)` always gives at least one part |
| UrlRules.SplitUrlEqTwoParts | src/core/proxy.ts:22-23 | the split gives exactly two parts iff "url=" occurs exactly once, ignoring case, and the parts are then the text before and after it |
| UrlRules.RefreshTargetVersusAttr | src/core/proxy.ts:24-26 | the refresh target rule agrees with the attribute rule on plain values; it sends "//x" under the target origin and prefixes an already proxied target again |
| UrlRules.RewriteMetaRefreshSpec | src/core/proxy.ts:20-28 | with exactly one "url=", the content becomes the part before it, a lower-case "url=", and the trimmed, rewritten target; otherwise it is unchanged |
| UrlRules.RewriteMetaRefreshReprefixes | src/core/proxy.ts:24-27 | a refresh target already under the worker origin is prefixed again |
| Cookies.DomainMatch | src/core/app.ts:129 | `Domain=[^;]+;?` matches at the start exactly when "domain=" (any case) is followed by a character other than ';'; the match takes the whole run of non-';' characters and the ';' after it when there is one, so it ends at the end of the cookie or just after a ';' |
| Cookies.StripEach | src/core/app.ts:126-131 | the cookie loop keeps the number and the order of the cookies and strips each one |
| Cookies.StripDomainNotLonger | src/core/app.ts:129 | stripping never lengthens a cookie |
| Cookies.StripDomainUnchangedIff | src/core/app.ts:129 | a cookie is unchanged exactly when no match starts anywhere in it, and a cookie with a match gets shorter |
| Cookies.StripDomainKeepsPrefix | src/core/app.ts:129 | text before the first match is kept as it is |
| Cookies.StripDomainExample | src/core/app.ts:129 | "id=1; Domain=.x.com; Path=/" becomes "id=1;  Path=/": the "; " before the attribute stays |
| Cookies.StripDomainNotIdempotent | src/core/app.ts:129 | stripping is not idempotent: "DoDomain=x;main=y" becomes "Domain=y", which a second pass empties |
| Interceptor.SharedScriptPatches | src/core/proxy.ts:33-70 | in the script the shared application injects, a link click and `window.open` send every non-empty string not under the worker through it (a click on a "javascript:" link excepted); `fetch` (string or `Request`) and XHR do so only for "http" URLs not under the worker; `sendBeacon` and non-string arguments pass unchanged |
| Interceptor.SharedClick | src/core/proxy.ts:39-45 | a click is taken over exactly for a non-empty href that is neither under the worker nor "javascript:", and goes to `worker + "/" + href` |
| Interceptor.SharedOpenIdempotent | src/core/proxy.ts:46-52 | the `window.open` patch keeps non-strings, prefixes every other URL once, and is idempotent |
| Interceptor.SharedFetchVersusOpen | src/core/proxy.ts:53-70 | fetch (given a string or a `Request`) and XHR prefix only "http" URLs not under the worker, as `window.open` does for those; other strings pass unchanged |
| Interceptor.NodeRewriteUrlIsAttrRule | src/node.ts:188-194 | the injected `rewriteUrl` equals the attribute rule on strings |
| Interceptor.NodeRewriteUrlIdempotent | src/node.ts:188-194 | `rewriteUrl` is idempotent |
| Interceptor.NodeClick | src/node.ts:195-207 | a taken-over click goes to `worker + "/" + href` |
| Interceptor.NodeClickSpec | src/node.ts:195-207 | a click is taken over exactly when the href attribute would be rewritten and the absolute href starts with "http" and is not under the worker |
| Interceptor.NodeFetchIsAttrRule | src/node.ts:210-218 | the fetch patch applies the attribute rule to a string or a Request's URL and passes anything else on |
| Interceptor.ProxiedUrlsPassThrough | src/core/proxy.ts:39-70 | no patched call of any of the three scripts sends a URL already under the proxy anywhere else, and no click on such a link is taken over |
| Resolver.OriginPrefix | src/core/app.ts:63 | the match of `^https?://[^/]+` is a prefix of the Referer path, has a scheme and a non-empty host, and ends at "/" or at the end |
| Resolver.Route | src/core/app.ts:49-86 | the home page, the two 400 refusals and a forward happen exactly as the target choice and `new URL` decide |
| Resolver.ChosenTargetIsAbsolute | src/core/app.ts:57-79 | every string the route tries to parse starts with "http" |
| Resolver.HomeIff | src/core/app.ts:49-54 | the home page is served exactly when what follows the worker prefix is "" or "/" |
| Resolver.AbsoluteRoundTrip | src/core/app.ts:57 | a request for `worker + "/" + u`, with `u` starting with "http", goes to `u` whatever the Referer and cookie say |
| Resolver.RelativeOrder | src/core/app.ts:57-79 | for a relative request the Referer origin wins (followed by the path), then the cookie's; with neither, a candidate holding a '.' becomes "https://" + candidate, and the refusal happens exactly when all three fail |
| Resolver.OriginPrefixOfOrigin | src/core/app.ts:63 | an origin followed by nothing or by a path matches as that origin |
| Resolver.ProxiedRefererOrigin | src/core/app.ts:61-64 | a Referer that is a proxied page of origin `o` gives `o` |
| Resolver.RewrittenAttrResolves | src/core/app.ts:49-57 | a rewritten attribute, requested back through the proxy, resolves to the URL it stood for |
| Rewriter.Element.constructor | src/core/proxy.ts:6-7 | an element starts with its start-tag attributes, not removed, with nothing appended |
| Rewriter.Element.GetAttribute | src/core/proxy.ts:7 | `getAttribute` is absent exactly when the attribute is, and is its value otherwise |
| Rewriter.Element.SetAttribute | src/core/proxy.ts:10-12 | `setAttribute` changes that attribute only |
| Rewriter.Element.RemoveAttribute | src/node.ts:249-258 | `removeAttribute` drops that attribute only |
| Rewriter.Element.Remove | src/core/app.ts:146 | `remove` marks the element removed and nothing else |
| Rewriter.Element.Append | src/core/app.ts:147-151 | `append` adds the script after the element's content and nothing else |
| Rewriter.ElementHandler | src/core/proxy.ts:4-15 | the handler leaves the element as the attribute rule makes it: only its attribute changes, by `RewriteAttr`, when present |
| Rewriter.MetaRefreshHandler | src/core/proxy.ts:17-31 | the handler rewrites `content`, when present, by the meta-refresh rule and changes nothing else |
| Rewriter.DataAttrHandler | src/index.ts:169-173 | one step of the `*` handler rewrites one present `data-*` attribute by the data rule and nothing else |
| Rewriter.DataAttrsHandler | src/index.ts:166-176 | the `*` handler's loop leaves every present `data-*` URL attribute rewritten by the data rule and everything else as it was |
| Rewriter.RunRulesAppend | src/core/app.ts:144-161 | running the handlers `a + b` is running `a`, then `b` |
| Rewriter.KeyUntouched | src/core/app.ts:144-161 | an attribute no firing handler touches keeps its presence and value |
| Rewriter.KeyTouchedOnce | src/core/app.ts:144-161 | an attribute exactly one firing handler touches ends up as that handler makes it |
| Rewriter.RemovedIff | src/core/app.ts:146 | an element ends up removed exactly when some firing handler removes it |
| Rewriter.NothingAppended | src/core/app.ts:147-151 | with no firing handler that appends, nothing is appended |
| Rewriter.AppendedOnce | src/core/app.ts:147-151 | with one firing handler that appends, its script is appended once |
| Rewriter.AttributesOnly | src/node.ts:234-258 | attribute handlers neither remove the element nor append to it |
| Rewriter.Dispatch | src/core/app.ts:144-161 | each handler changes an element as its action says |
| Rewriter.ApplyRules | src/core/app.ts:144-161 | an element ends up as running every handler whose selector matches its start tag, in registration order, makes it |
| Rewriter.RewriteDocument | src/core/app.ts:161 | every element of the document ends up as the handlers make it, the document being processed in order |
| Forwarding.LocationRewrittenValues | src/core/app.ts:114-122 | after the redirect rewrite, Location has the rewritten value (or is kept), and no other header changes |
| Forwarding.RewriteLocationHeader | src/core/app.ts:114-122 | the redirect rewrite on the `Headers` object produces exactly that list and those values |
| Forwarding.WithCookiesValues | src/core/app.ts:128-130 | appending the stripped cookies adds them, in order, after the old Set-Cookie values and changes nothing else |
| Forwarding.CookiesReplacedValues | src/core/app.ts:124-131 | after the cookie rewrite Set-Cookie holds the stripped cookies if there were any, and no other header changes |
| Forwarding.ReceivedSetCookies | src/core/app.ts:125 | reading `getSetCookie()` off the upstream headers gives every upstream Set-Cookie value, in order |
| Forwarding.ReplaceSetCookies | src/core/app.ts:124-131 | the cookie loop on the `Headers` object produces exactly that list and those values |
| Forwarding.LocationValuesOnlyLocation | src/core/app.ts:115-122 | the redirect rewrite depends on the Location values only |
| Forwarding.IsHtmlOnlyContentType | src/core/app.ts:133-134 | the HTML test depends on the Content-Type values only |
| CoreApp.WithTargetValues | src/core/app.ts:89-92 | after the target edits Host is the target host, Referer and Origin the target origin, and other names keep the client's values |
| CoreApp.WithoutCloudflareValues | src/core/app.ts:93-96 | the four Cloudflare client headers are gone and nothing else changes |
| CoreApp.WithoutDroppedValues | src/core/app.ts:93-97 | those and Accept-Encoding are gone and nothing else changes |
| CoreApp.EditedValues | src/core/app.ts:89-98 | the request edits give User-Agent the chosen value and act on the other names as the policy says |
| CoreApp.RequestEntriesValues | src/core/app.ts:89-98 | every header of the upstream request has the values `RequestValues` gives it |
| CoreApp.BuildRequest | src/core/app.ts:89-106 | the upstream request goes to the target URL with the client's method, its body and manual redirects, and carries the request header policy |
| CoreApp.WithoutPoliciesValues | src/core/app.ts:108-112 | any origin may read the response and CSP, X-Frame-Options and Referrer-Policy are gone; other names are kept |
| CoreApp.WithoutPoliciesKeeps | src/core/app.ts:108-112 | those edits leave Location, Set-Cookie and Content-Type alone |
| CoreApp.SanitizedValues | src/core/app.ts:108-131 | after the policy, redirect and cookie edits every header has the values `SanitizedValuesOf` gives it |
| CoreApp.SanitizedContentType | src/core/app.ts:133 | the Content-Type tested for HTML is the upstream one |
| CoreApp.ResponseEntriesValues | src/core/app.ts:108-141 | every header of the response has the values `ResponseValues` gives it: an HTML response also loses Content-Length and Content-Encoding |
| CoreApp.SanitizeResponse | src/core/app.ts:108-141 | the response headers carry that policy, and the HTML flag is the Content-Type test |
| CoreApp.RulesTagAttr | src/core/app.ts:152-157 | the tag's own URL attribute is rewritten once by the attribute rule |
| CoreApp.RulesDataAttr | src/core/app.ts:158-160 | a present `data-src`, `data-href` or `data-url` is rewritten once by the attribute rule |
| CoreApp.RulesRefresh | src/core/app.ts:145 | the `content` of a refresh `meta` is rewritten by the meta-refresh rule |
| CoreApp.RulesOtherAttr | src/core/app.ts:144-161 | every other attribute keeps its presence and value |
| CoreApp.RulesOnAttribute | src/core/app.ts:144-161 | the whole table's effect on any one attribute, case by case |
| CoreApp.RulesRemoveAndAppend | src/core/app.ts:146-151 | only `meta name="referrer"` is removed, and only `head` gets the interceptor script, once |
| CoreApp.Respond | src/core/app.ts:133-164 | the response keeps the upstream status and carries the sanitised headers; an HTML page sets the origin cookie and has every element run through the table, and any other body is untouched |
| NodeApp.ClientValue | src/node.ts:107-109 | an allow-listed client header is copied only when its value is present and non-empty |
| NodeApp.PreservedValues | src/node.ts:106-110 | after the allow-list loop each listed name has its non-empty client value and every other name has none |
| NodeApp.TargetValues | src/node.ts:112-116 | Host, Referer and Origin name the target and Accept-Encoding is "identity"; nothing else changes |
| NodeApp.RequestEntriesValues | src/node.ts:101-116 | every header of the upstream request has the values `RequestValues` gives it: the allow-list, the target headers, identity encoding, nothing else |
| NodeApp.BuildRequest | src/node.ts:101-132 | the upstream request goes to the target URL with manual redirects, carries the request header policy, and sends the body exactly when the method is neither GET nor HEAD |
| NodeApp.WithCorsValues | src/node.ts:135-137 | the three CORS headers are set to their values and nothing else changes |
| NodeApp.WithoutStrippedValues | src/node.ts:138-147 | the eight stripped headers are gone and nothing else changes |
| NodeApp.EditedValues | src/node.ts:134-147 | the CORS and deletion edits together |
| NodeApp.EditedKeeps | src/node.ts:134-147 | a name neither set nor deleted keeps its upstream values |
| NodeApp.SanitizedValues | src/node.ts:134-166 | after the CORS, deletion, redirect and cookie edits every header has its policy values |
| NodeApp.SanitizedContentType | src/node.ts:168 | the Content-Type tested for HTML is the upstream one |
| NodeApp.ResponseEntriesValues | src/node.ts:134-176 | every header of the response has the values `ResponseValues` gives it |
| NodeApp.SanitizeResponse | src/node.ts:134-176 | the response headers carry that policy, and the HTML flag is the Content-Type test |
| NodeApp.PageRulesOnKey | src/node.ts:179-233 | of the page handlers only the meta-refresh one touches an attribute, the `content` of a refresh `meta` |
| NodeApp.LeadTagRulesOnKey | src/node.ts:234-239 | the `a`, `img`, `link`, `script` and `form` handlers rewrite each URL attribute of those tags once and nothing else |
| NodeApp.TrailTagRulesOnKey | src/node.ts:240-245 | the `iframe`, `source`, `video`, `audio` and `track` handlers rewrite each URL attribute of those tags once and nothing else |
| NodeApp.TagRulesOnKey | src/node.ts:234-245 | the per-tag handlers rewrite each URL attribute of the tag (`srcset` included) once and nothing else |
| NodeApp.DataRulesOnKey | src/node.ts:246-248 | each present `data-*` URL attribute is rewritten once |
| NodeApp.SriRulesOnKey | src/node.ts:249-258 | `integrity` and `crossorigin` are removed from `script`, `link` and `img` and nothing else changes |
| NodeApp.FrontRulesOnKey | src/node.ts:179-245 | the page and per-tag handlers together, on one attribute |
| NodeApp.BackRulesOnKey | src/node.ts:246-258 | the `data-*` and integrity handlers together, on one attribute |
| NodeApp.RulesOnAttribute | src/node.ts:178-258 | the whole Node table's effect on any one attribute, case by case |
| NodeApp.RulesRemoveAndAppend | src/node.ts:180-233 | only `meta name="referrer"` is removed, and only `head` gets the Node script, once |
| NodeApp.Respond | src/node.ts:168-262 | status, sanitised headers, origin cookie for HTML, every element of an HTML page run through the Node table, other bodies untouched |
| StandaloneApp.RequestEntriesValues | src/index.ts:85-92 | every header of the upstream request has the values `RequestValues` gives it: the Cloudflare headers are gone, the target headers set, all else forwarded |
| StandaloneApp.BuildRequest | src/index.ts:85-100 | the upstream request goes to the target URL with the client's method, its body and manual redirects, and carries that policy |
| StandaloneApp.ForwardsClientEncodingAndAgent | src/index.ts:85-92 | the client's Accept-Encoding and User-Agent reach the target unchanged |
| StandaloneApp.SanitizeResponse | src/index.ts:102-128 | the response headers carry the shared policy without the HTML-only deletions, and the HTML flag is the Content-Type test |
| StandaloneApp.RulesTagAttr | src/index.ts:160-165 | the tag's own URL attribute is rewritten once by the attribute rule |
| StandaloneApp.RulesDataAttr | src/index.ts:166-176 | on every element, each `data-*` URL attribute goes through the data rule once |
| StandaloneApp.RulesRefresh | src/index.ts:134 | the `content` of a refresh `meta` is rewritten by the meta-refresh rule |
| StandaloneApp.RulesOtherAttr | src/index.ts:133-176 | every other attribute keeps its presence and value |
| StandaloneApp.RulesOnAttribute | src/index.ts:133-176 | the whole standalone table's effect on any one attribute, case by case |
| StandaloneApp.RulesRemoveAndAppend | src/index.ts:135-159 | only `meta name="referrer"` is removed, and only `head` gets the standalone script, once |
| StandaloneApp.DataAttrsNotIdempotent | src/index.ts:166-176 | a page run through the table twice gets its `data-*` URLs prefixed twice |
| StandaloneApp.Respond | src/index.ts:127-180 | status, sanitised headers with length and encoding kept, origin cookie for HTML, every element of an HTML page run through the table, other bodies untouched |

## Left out

- Network I/O: `fetch`, the streamed bodies, `duplex`, the abort `signal`, and the 500 response when `fetch` throws. The upstream response arrives as parameters (headers, status, elements).
- `new URL` parsing is a parameter of `Resolver.Route`. The request URL's origin, pathname and search arrive as strings.
- The plain-text bodies of the two 400 refusals. `Resolver.Route` says which refusal it is.
- The HTMLRewriter engine. Its tokenizer, CSS selector matching (including case rules) and `{ html: true }` insertion are not modelled. A document is a sequence of start-tag elements, and handlers match the attributes as parsed.
- The browser-side patching itself: `addEventListener`, prototype replacement and `new Request`. Only the URL decisions of each patch are modelled. A non-string argument is one `NonString` value.
- Header value normalisation in `Headers` (stripping surrounding whitespace) and the forbidden-header checks of the runtime.
- The `inbound` client header list of `BuildRequest`, in all three copies, stands for the Hono header record `c.req.header()`, which has one lower-cased key per name with repeated values already joined by ", ". The model takes `inbound` to have one entry per name and does not build it from the raw request; a list that repeats a name would be forwarded as several entries, where the source sends one joined value. Lookups in the list join repeated names the way `Headers.get` does.
- The password gate middleware, the `cors()` middleware, the login and home page templates, server bootstrap, environment loading and the build script. None of them takes part in URL remapping.
- The origin cookie's name (`__sp_origin`) and the attributes `setCookie` gives it (path, secure, httpOnly, sameSite, maxAge). The model returns only the cookie's value.
- StandaloneApp.BuildRequest: a GET or HEAD request with no body passes a null body to `fetch`. The model says only that the body is passed along, for every method.
- CoreApp.BuildRequest: the same holds for the shared application. It passes `c.req.raw.body` for every method, and the model says only that the body is passed along.
- The `upstream` header list of `SanitizeResponse` and `Respond`, in all three copies, stands for the list that iterating the upstream `Headers` yields, since `new Headers(res.headers)` copies that list. The list has lower-cased names and one entry per name, with repeated values joined by ", ", except Set-Cookie, which keeps one entry per cookie. The model does not build that list from the raw response.

