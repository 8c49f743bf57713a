/**
 * The string rules that map a URL found in a response onto the proxy.
 * `worker` is the proxy's own origin (for example "https://proxy.example"),
 * `target` the origin of the site being proxied.
 */
module UrlRules {
  import opened Wrappers
  import opened Strings

  /**
   * The attribute rule of `ElementHandler.element`: an empty or already proxied
   * value is kept; an absolute ("http…"), protocol-relative ("//…") or
   * root-relative ("/…") value is moved under the proxy; anything else
   * (relative paths, "javascript:", "data:", "mailto:") is kept.
   */
  function RewriteAttr(v: string, worker: string, target: string): string {
    if v == "" || StartsWith(v, worker) then v
    else if StartsWith(v, "http") then worker + "/" + v
    else if StartsWith(v, "//") then worker + "/https:" + v
    else if StartsWith(v, "/") then worker + "/" + target + v
    else v
  }

  /** A string placed after `worker + "/"` starts with the worker origin. */
  lemma UnderWorker(worker: string, rest: string)
    ensures StartsWith(worker + "/" + rest, worker)
    ensures StartsWith(worker + "/" + rest, worker + "/")
  {
    assert worker + "/" + rest == worker + ("/" + rest);
    StartsWithConcat(worker, "/" + rest);
    StartsWithConcat(worker + "/", rest);
  }

  /**
   * The attribute rule changes a value exactly when it is non-empty, not yet
   * proxied and absolute, protocol-relative or root-relative; a changed value
   * always begins with `worker + "/"`.
   */
  lemma RewriteAttrChangesIff(v: string, worker: string, target: string)
    ensures RewriteAttr(v, worker, target) != v
        <==> v != "" && !StartsWith(v, worker) && (StartsWith(v, "http") || StartsWith(v, "/"))
    ensures RewriteAttr(v, worker, target) != v ==> StartsWith(RewriteAttr(v, worker, target), worker + "/")
  {
    var r := RewriteAttr(v, worker, target);
    if v != "" && !StartsWith(v, worker) {
      if StartsWith(v, "http") {
        UnderWorker(worker, v);
        assert |r| > |v|;
      } else if StartsWith(v, "//") {
        UnderWorker(worker, "https:" + v);
        assert worker + "/https:" + v == worker + "/" + ("https:" + v);
        assert |r| > |v|;
      } else if StartsWith(v, "/") {
        UnderWorker(worker, target + v);
        assert worker + "/" + target + v == worker + "/" + (target + v);
        assert |r| > |v|;
      }
    }
  }

  /** Applying the attribute rule to its own output changes nothing. */
  lemma RewriteAttrIdempotent(v: string, worker: string, target: string)
    ensures RewriteAttr(RewriteAttr(v, worker, target), worker, target) == RewriteAttr(v, worker, target)
  {
    RewriteAttrChangesIff(v, worker, target);
    var r := RewriteAttr(v, worker, target);
    if r != v {
      StartsWithLonger(r, worker, "/");
    }
  }

  /**
   * Removing the first `worker + "/"` from a rewritten value recovers the URL
   * the proxy will fetch: the value itself when it was absolute, "https:" in
   * front of a protocol-relative value, the target origin in front of a
   * root-relative one.
   */
  lemma RewriteAttrStrip(v: string, worker: string, target: string)
    requires RewriteAttr(v, worker, target) != v
    ensures ReplaceFirst(RewriteAttr(v, worker, target), worker + "/", "")
         == if StartsWith(v, "http") then v
            else if StartsWith(v, "//") then "https:" + v
            else target + v
  {
    if StartsWith(v, "http") {
      ReplaceFirstAtStart(worker + "/", v);
    } else if StartsWith(v, "//") {
      assert worker + "/https:" + v == (worker + "/") + ("https:" + v);
      ReplaceFirstAtStart(worker + "/", "https:" + v);
    } else {
      assert worker + "/" + target + v == (worker + "/") + (target + v);
      ReplaceFirstAtStart(worker + "/", target + v);
    }
  }

  /**
   * The redirect rule applied to a non-empty `Location` value: the same three
   * cases as the attribute rule, but with no check for an already proxied value.
   */
  function RewriteLocation(loc: string, worker: string, target: string): string {
    if loc == "" then loc
    else if StartsWith(loc, "http") then worker + "/" + loc
    else if StartsWith(loc, "//") then worker + "/https:" + loc
    else if StartsWith(loc, "/") then worker + "/" + target + loc
    else loc
  }

  /**
   * The redirect rule agrees with the attribute rule on every location that
   * is not yet proxied, and prefixes an already proxied absolute location a
   * second time.
   */
  lemma RewriteLocationVersusAttr(loc: string, worker: string, target: string)
    ensures !StartsWith(loc, worker) ==> RewriteLocation(loc, worker, target) == RewriteAttr(loc, worker, target)
    ensures loc != "" && StartsWith(loc, worker) && StartsWith(worker, "http")
        ==> RewriteLocation(loc, worker, target) == worker + "/" + loc != loc
  {
    if loc != "" && StartsWith(loc, worker) && StartsWith(worker, "http") {
      StartsWithTransitive(loc, worker, "http");
    }
  }

  /** The redirect rule changes a location exactly when it starts with "http" or "/". */
  lemma RewriteLocationChangesIff(loc: string, worker: string, target: string)
    ensures RewriteLocation(loc, worker, target) != loc <==> StartsWith(loc, "http") || StartsWith(loc, "/")
  {
    var r := RewriteLocation(loc, worker, target);
    if StartsWith(loc, "http") {
      assert |r| > |loc|;
    } else if StartsWith(loc, "//") {
      assert |r| > |loc|;
    } else if StartsWith(loc, "/") {
      assert |r| > |loc|;
    }
  }

  /**
   * The `data-*` rule of the `*` handler in the Worker entry point: an
   * absolute value goes under the proxy, any other value starting with "/"
   * (protocol-relative ones included) gets the target origin in front; there
   * is no check for an already proxied value.
   */
  function RewriteDataAttr(v: string, worker: string, target: string): string {
    if v == "" then v
    else if StartsWith(v, "http") then worker + "/" + v
    else if StartsWith(v, "/") then worker + "/" + target + v
    else v
  }

  /**
   * The `data-*` rule agrees with the attribute rule except on values that are
   * already proxied or protocol-relative; a protocol-relative value "//cdn/x"
   * becomes worker/target//cdn/x.
   */
  lemma RewriteDataAttrVersusAttr(v: string, worker: string, target: string)
    ensures !StartsWith(v, worker) && !StartsWith(v, "//")
        ==> RewriteDataAttr(v, worker, target) == RewriteAttr(v, worker, target)
    ensures StartsWith(v, "//") ==> RewriteDataAttr(v, worker, target) == worker + "/" + target + v
  {
    if StartsWith(v, "//") {
      assert v[0] == '/';
      assert !StartsWith(v, "http");
      StartsWithLonger(v, "/", "/");
    }
  }

  /**
   * Unlike the attribute rule, the `data-*` rule is not idempotent: for any
   * worker origin that starts with "http", every value it rewrites is
   * rewritten again (and grows) on a second pass.
   */
  lemma RewriteDataAttrNotIdempotent(v: string, worker: string, target: string)
    requires StartsWith(worker, "http")
    requires StartsWith(v, "http") || StartsWith(v, "/")
    ensures RewriteDataAttr(RewriteDataAttr(v, worker, target), worker, target) != RewriteDataAttr(v, worker, target)
  {
    var once := RewriteDataAttr(v, worker, target);
    assert v != "";
    if StartsWith(v, "http") {
      UnderWorker(worker, v);
    } else {
      assert worker + "/" + target + v == worker + "/" + (target + v);
      UnderWorker(worker, target + v);
    }
    StartsWithTransitive(once, worker, "http");
    assert |RewriteDataAttr(once, worker, target)| > |once|;
  }

  // ---- meta refresh -------------------------------------------------------

  /** `content.split(/url=/i)`. */
  function SplitUrlEq(s: string): (parts: seq<string>)
    ensures |parts| >= 1
    decreases |s|
  {
    match IndexOfIgnoreCase(s, "url=")
    case None => [s]
    case Some(i) => [s[..i]] + SplitUrlEq(s[i + 4..])
  }

  /** "url=" occurs in `s` at `i` (ignoring case) and nowhere else. */
  ghost predicate UniqueUrlEq(s: string, i: nat) {
    OccursAtIgnoreCase(s, "url=", i) && forall j: nat :: OccursAtIgnoreCase(s, "url=", j) ==> j == i
  }

  /** Two case-insensitive occurrences of "url=" never overlap. */
  lemma UrlEqNoOverlap(s: string, i: nat, j: nat)
    requires OccursAtIgnoreCase(s, "url=", i) && OccursAtIgnoreCase(s, "url=", j)
    requires i <= j < i + 4
    ensures i == j
  {
    if i < j {
      CharOfLowerSlice(s, i, j);
      CharOfLowerSlice(s, j, j);
      assert false;
    }
  }

  /** The character at `k` of the lower-cased four characters starting at `i`. */
  lemma CharOfLowerSlice(s: string, i: nat, k: nat)
    requires i <= k < i + 4 <= |s|
    ensures Lower(s[i..i + 4])[k - i] == LowerChar(s[k])
  {
  }

  /** An occurrence at or after `k` is an occurrence in `s[k..]`. */
  lemma OccursInSuffix(s: string, p: string, k: nat, j: nat)
    requires k <= j && k <= |s|
    ensures OccursAtIgnoreCase(s, p, j) <==> OccursAtIgnoreCase(s[k..], p, j - k)
  {
    if j + |p| <= |s| {
      assert s[k..][j - k..j - k + |p|] == s[j..j + |p|];
    }
  }

  /**
   * Splitting on "url=" yields exactly two parts if and only if "url=" occurs
   * exactly once (ignoring case); the parts are then what precedes and what
   * follows that occurrence.
   */
  lemma {:induction false} SplitUrlEqTwoParts(s: string)
    ensures |SplitUrlEq(s)| == 2 <==> exists i: nat :: UniqueUrlEq(s, i)
    ensures forall i: nat :: UniqueUrlEq(s, i) ==> SplitUrlEq(s) == [s[..i], s[i + 4..]]
  {
    match IndexOfIgnoreCase(s, "url=")
    case None =>
    case Some(i) =>
      var rest := s[i + 4..];
      assert SplitUrlEq(s) == [s[..i]] + SplitUrlEq(rest);
      match IndexOfIgnoreCase(rest, "url=")
      case None =>
        assert SplitUrlEq(rest) == [rest];
        OnlyOccurrence(s, i);
      case Some(k) =>
        assert |SplitUrlEq(rest)| >= 2;
        SecondOccurrence(s, i, k);
  }

  /** The first "url=" is the only one when none follows it. */
  lemma OnlyOccurrence(s: string, i: nat)
    requires IndexOfIgnoreCase(s, "url=") == Some(i)
    requires IndexOfIgnoreCase(s[i + 4..], "url=").None?
    ensures UniqueUrlEq(s, i)
  {
    forall j: nat | OccursAtIgnoreCase(s, "url=", j)
      ensures j == i
    {
      if j < i + 4 {
        UrlEqNoOverlap(s, i, j);
      } else {
        OccursInSuffix(s, "url=", i + 4, j);
      }
    }
  }

  /** A second "url=" after the first leaves no unique occurrence. */
  lemma SecondOccurrence(s: string, i: nat, k: nat)
    requires IndexOfIgnoreCase(s, "url=") == Some(i)
    requires IndexOfIgnoreCase(s[i + 4..], "url=") == Some(k)
    ensures forall i': nat :: !UniqueUrlEq(s, i')
  {
    OccursInSuffix(s, "url=", i + 4, i + 4 + k);
    assert OccursAtIgnoreCase(s, "url=", i) && OccursAtIgnoreCase(s, "url=", i + 4 + k);
  }

  /** The meta-refresh target rule: only an absolute or a "/"-prefixed target moves. */
  function RefreshTarget(t: string, worker: string, target: string): string {
    if StartsWith(t, "http") then worker + "/" + t
    else if StartsWith(t, "/") then worker + "/" + target + t
    else t
  }

  /**
   * The meta-refresh target rule agrees with the attribute rule on targets
   * that are neither proxied nor protocol-relative; a protocol-relative target
   * gets the target origin in front, and an already proxied absolute target is
   * prefixed again.
   */
  lemma RefreshTargetVersusAttr(t: string, worker: string, target: string)
    ensures t != "" && !StartsWith(t, worker) && !StartsWith(t, "//")
        ==> RefreshTarget(t, worker, target) == RewriteAttr(t, worker, target)
    ensures StartsWith(t, "//") ==> RefreshTarget(t, worker, target) == worker + "/" + target + t
    ensures StartsWith(t, worker) && StartsWith(worker, "http")
        ==> RefreshTarget(t, worker, target) == worker + "/" + t
  {
    if StartsWith(t, "//") {
      assert t[0] == '/';
      StartsWithLonger(t, "/", "/");
    }
    if StartsWith(t, worker) && StartsWith(worker, "http") {
      StartsWithTransitive(t, worker, "http");
    }
  }

  /**
   * `MetaRefreshHandler.element` on a `content` value: when splitting on "url="
   * gives exactly two parts, the content is rebuilt with a lower-case "url="
   * and the trimmed, rewritten target; otherwise it is kept.
   */
  function RewriteMetaRefresh(content: string, worker: string, target: string): string {
    if content == "" then content
    else
      var parts := SplitUrlEq(content);
      if |parts| == 2 then parts[0] + "url=" + RefreshTarget(Trim(parts[1]), worker, target)
      else content
  }

  /**
   * A meta-refresh content changes shape exactly at its single "url=": what
   * precedes it is kept, "url=" is written in lower case and the trimmed
   * remainder goes through the target rule; content without exactly one
   * "url=" is left alone.
   */
  lemma RewriteMetaRefreshSpec(content: string, worker: string, target: string)
    ensures forall i: nat :: UniqueUrlEq(content, i) ==>
      RewriteMetaRefresh(content, worker, target)
        == content[..i] + "url=" + RefreshTarget(Trim(content[i + 4..]), worker, target)
    ensures (forall i: nat :: !UniqueUrlEq(content, i)) ==> RewriteMetaRefresh(content, worker, target) == content
  {
    SplitUrlEqTwoParts(content);
  }

  /**
   * There is no already-proxied check: a refresh whose single target already
   * points into the proxy is pointed into the proxy a second time.
   */
  lemma RewriteMetaRefreshReprefixes(content: string, worker: string, target: string, i: nat)
    requires UniqueUrlEq(content, i)
    requires StartsWith(worker, "http") && StartsWith(Trim(content[i + 4..]), worker)
    ensures RewriteMetaRefresh(content, worker, target)
         == content[..i] + "url=" + worker + "/" + Trim(content[i + 4..])
  {
    var t := Trim(content[i + 4..]);
    RewriteMetaRefreshSpec(content, worker, target);
    assert RewriteMetaRefresh(content, worker, target) == content[..i] + "url=" + RefreshTarget(t, worker, target);
    RefreshTargetVersusAttr(t, worker, target);
    assert RefreshTarget(t, worker, target) == worker + "/" + t;
    ConcatAssoc(content[..i] + "url=", worker + "/", t);
    ConcatAssoc(content[..i] + "url=", worker, "/");
  }
}
