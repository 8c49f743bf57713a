/**
 * The Set-Cookie rewrite `cookie.replace(/Domain=[^;]+;?/gi, '')`, written
 * out as a left-to-right scanner: at each position it tries to match
 * "domain=" (ASCII case ignored), one or more characters other than ';' (as
 * many as there are) and an optional ';'; a match is deleted and the scan
 * resumes after it, otherwise one character is kept.
 */
module Cookies {
  import opened Wrappers
  import opened Strings

  /**
   * The length of the match of /Domain=[^;]+;?/i at the start of `s`, if
   * there is one: "domain=" in any case followed by at least one character
   * other than ';', the run of such characters taken whole, and the ';' that
   * ends it, if any, taken with it.
   */
  function DomainMatch(s: string): (n: Option<nat>)
    ensures n.Some? <==> OccursAtIgnoreCase(s, "domain=", 0) && 7 < |s| && s[7] != ';'
    ensures n.Some? ==> 8 <= n.value <= |s|
    ensures n.Some? ==> forall j :: 7 <= j < n.value - 1 ==> s[j] != ';'
    ensures n.Some? ==> n.value == |s| || s[n.value - 1] == ';'
    ensures n.Some? && s[n.value - 1] != ';' ==> n.value == |s|
  {
    if OccursAtIgnoreCase(s, "domain=", 0) && 7 < |s| && s[7] != ';' then
      var e := 7 + RunBefore(s[7..], ';');
      Some(if e < |s| then e + 1 else e)
    else None
  }

  /** A Domain attribute match begins at position `i` of `s`. */
  predicate DomainAt(s: string, i: nat) {
    i < |s| && DomainMatch(s[i..]).Some?
  }

  /** The rewritten cookie: every leftmost non-overlapping match removed, all else kept. */
  function StripDomain(s: string): string
    decreases |s|
  {
    if s == [] then []
    else match DomainMatch(s)
      case Some(n) => StripDomain(s[n..])
      case None => [s[0]] + StripDomain(s[1..])
  }

  /** The cookies after the rewrite, one for one: same number, same order. */
  function StripEach(cookies: seq<string>): (r: seq<string>)
    ensures |r| == |cookies|
    ensures forall i :: 0 <= i < |cookies| ==> r[i] == StripDomain(cookies[i])
  {
    if cookies == [] then [] else [StripDomain(cookies[0])] + StripEach(cookies[1..])
  }

  /** Never longer than the input. */
  lemma {:induction false} StripDomainNotLonger(s: string)
    ensures |StripDomain(s)| <= |s|
    decreases |s|
  {
    if s != [] {
      match DomainMatch(s)
      case Some(n) => StripDomainNotLonger(s[n..]);
      case None => StripDomainNotLonger(s[1..]);
    }
  }

  /** With no match at its start, the first character is kept and the scan moves on by one. */
  lemma KeepFirst(s: string)
    requires s != [] && !DomainAt(s, 0)
    ensures StripDomain(s) == [s[0]] + StripDomain(s[1..])
  {
    assert s[0..] == s;
  }

  /** A match at position `i + 1` of `s` is a match at `i` of `s[1..]`. */
  lemma DomainAtShift(s: string, i: nat)
    requires s != []
    ensures DomainAt(s, i + 1) <==> DomainAt(s[1..], i)
  {
    if i + 1 < |s| {
      assert s[1..][i..] == s[i + 1..];
    }
  }

  /**
   * A cookie is left exactly as it is if and only if no Domain attribute
   * match begins anywhere in it; otherwise it gets strictly shorter.
   */
  lemma {:induction false} StripDomainUnchangedIff(s: string)
    ensures StripDomain(s) == s <==> forall i: nat :: !DomainAt(s, i)
    ensures (exists i: nat :: DomainAt(s, i)) ==> |StripDomain(s)| < |s|
    decreases |s|
  {
    if s == [] {
      return;
    }
    assert s[0..] == s;
    match DomainMatch(s)
    case Some(n) =>
      StripDomainNotLonger(s[n..]);
      assert DomainAt(s, 0);
    case None =>
      StripDomainUnchangedIff(s[1..]);
      KeepFirst(s);
      if forall i: nat :: !DomainAt(s, i) {
        forall i: nat
          ensures !DomainAt(s[1..], i)
        {
          DomainAtShift(s, i);
        }
        assert StripDomain(s) == [s[0]] + s[1..] == s;
      } else {
        var i: nat :| DomainAt(s, i);
        assert i != 0;
        DomainAtShift(s, i - 1);
        assert |StripDomain(s)| < |s|;
      }
  }

  /** Characters before the first possible match are copied unchanged. */
  lemma {:induction false} StripDomainKeepsPrefix(a: string, b: string)
    requires forall i: nat :: i < |a| ==> !DomainAt(a + b, i)
    ensures StripDomain(a + b) == a + StripDomain(b)
    decreases |a|
  {
    if a != [] {
      var s := a + b;
      assert s[1..] == a[1..] + b;
      forall i: nat | i < |a[1..]|
        ensures !DomainAt(a[1..] + b, i)
      {
        DomainAtShift(s, i);
      }
      StripDomainKeepsPrefix(a[1..], b);
      KeepFirst(s);
      assert [a[0]] + a[1..] == a;
      ConcatAssoc([a[0]], a[1..], StripDomain(b));
    } else {
      assert a + b == b;
    }
  }

  /** A match at the start of `s` is removed, and the scan goes on after it. */
  lemma StripDomainAtMatch(s: string, n: nat)
    requires s != [] && DomainMatch(s) == Some(n)
    ensures StripDomain(s) == StripDomain(s[n..])
  {
  }

  /** A match begins with "dom", ignoring case. */
  lemma DomainAtStart(s: string, i: nat)
    requires DomainAt(s, i)
    ensures i + 7 < |s| && LowerChar(s[i]) == 'd' && LowerChar(s[i + 1]) == 'o'
    ensures LowerChar(s[i + 2]) == 'm'
  {
    var t := s[i..];
    assert Lower(t[0..7]) == "domain=";
    assert Lower(t[0..7])[0] == LowerChar(t[0]);
    assert Lower(t[0..7])[1] == LowerChar(t[1]);
    assert Lower(t[0..7])[2] == LowerChar(t[2]);
  }

  /** A string in which no character is 'd' or 'D' holds no match. */
  lemma NoDomainWithoutD(s: string)
    requires forall i :: 0 <= i < |s| ==> LowerChar(s[i]) != 'd'
    ensures forall i: nat :: !DomainAt(s, i)
  {
    forall i: nat
      ensures !DomainAt(s, i)
    {
      if DomainAt(s, i) {
        DomainAtStart(s, i);
        assert false;
      }
    }
  }

  /** The Domain attribute of the documented example is a single match of 14 characters. */
  lemma ExampleDomainMatch(bc: string)
    requires bc == "Domain=.x.com; Path=/"
    ensures DomainMatch(bc) == Some(14)
  {
    assert Lower(bc[0..7]) == "domain=";
    var x, y := ".x.com", "; Path=/";
    assert bc[7..] == x + y;
    RunBeforeConcat(x, y, ';');
  }

  /** What follows the Domain attribute in the documented example holds no match. */
  lemma ExampleTail(c: string)
    requires c == " Path=/"
    ensures StripDomain(c) == c
  {
    assert forall i :: 0 <= i < |c| ==> LowerChar(c[i]) != 'd';
    NoDomainWithoutD(c);
    StripDomainUnchangedIff(c);
  }

  /** The part of the documented example before its Domain attribute is copied. */
  lemma ExamplePrefix(a: string, bc: string)
    requires a == "id=1; "
    ensures StripDomain(a + bc) == a + StripDomain(bc)
  {
    forall i: nat | i < |a|
      ensures !DomainAt(a + bc, i)
    {
      if DomainAt(a + bc, i) {
        DomainAtStart(a + bc, i);
        assert false;
      }
    }
    StripDomainKeepsPrefix(a, bc);
  }

  /** The documented example, taken apart around its Domain attribute. */
  lemma ExampleParts(a: string, bc: string, c: string)
    requires a == "id=1; " && bc == "Domain=.x.com; Path=/" && c == " Path=/"
    ensures StripDomain(a + bc) == a + c
  {
    ExampleDomainMatch(bc);
    assert bc[14..] == c;
    StripDomainAtMatch(bc, 14);
    ExampleTail(c);
    ExamplePrefix(a, bc);
  }

  /** The documented example, put back together. */
  lemma ExampleConcat()
    ensures "id=1; " + "Domain=.x.com; Path=/" == "id=1; Domain=.x.com; Path=/"
    ensures "id=1; " + " Path=/" == "id=1;  Path=/"
  {
  }

  /**
   * The documented example: the Domain attribute and its ';' go, the space
   * before it stays.
   */
  lemma StripDomainExample(cookie: string)
    requires cookie == "id=1; Domain=.x.com; Path=/"
    ensures StripDomain(cookie) == "id=1;  Path=/"
  {
    ExampleConcat();
    ExampleParts("id=1; ", "Domain=.x.com; Path=/", " Path=/");
  }

  /** The Domain attribute inside "DoDomain=x;main=y" is one match of 9 characters. */
  lemma InnerDomainMatch(bc: string)
    requires bc == "Domain=x;main=y"
    ensures DomainMatch(bc) == Some(9)
  {
    assert Lower(bc[0..7]) == "domain=";
    var r := bc[7..];
    assert r == "x;main=y";
    assert RunBefore(r, ';') == 1;
  }

  /** A whole cookie that is just one Domain attribute disappears. */
  lemma LoneDomainVanishes(d: string)
    requires d == "Domain=y"
    ensures StripDomain(d) == ""
  {
    assert Lower(d[0..7]) == "domain=";
    assert RunBefore(d[7..], ';') == 1;
    assert DomainMatch(d) == Some(8);
    assert d[8..] == [];
  }

  /** "DoDomain=x;main=y", taken apart around its Domain attribute. */
  lemma InnerParts(a: string, bc: string, c: string)
    requires a == "Do" && bc == "Domain=x;main=y" && c == "main=y"
    ensures StripDomain(a + bc) == a + c
  {
    InnerDomainMatch(bc);
    assert bc[9..] == c;
    StripDomainAtMatch(bc, 9);
    assert forall i :: 0 <= i < |c| ==> LowerChar(c[i]) != 'd';
    NoDomainWithoutD(c);
    StripDomainUnchangedIff(c);
    forall i: nat | i < |a|
      ensures !DomainAt(a + bc, i)
    {
      if DomainAt(a + bc, i) {
        DomainAtStart(a + bc, i);
        assert false;
      }
    }
    StripDomainKeepsPrefix(a, bc);
  }

  /** "DoDomain=x;main=y", put back together. */
  lemma InnerConcat()
    ensures "Do" + "Domain=x;main=y" == "DoDomain=x;main=y"
    ensures "Do" + "main=y" == "Domain=y"
  {
  }

  /**
   * One pass does not remove every Domain attribute: deleting a match can
   * join the characters around it into a new one, so the rewrite is not
   * idempotent and its result may still carry a Domain attribute.
   */
  lemma StripDomainNotIdempotent(cookie: string)
    requires cookie == "DoDomain=x;main=y"
    ensures StripDomain(cookie) == "Domain=y"
    ensures DomainAt(StripDomain(cookie), 0)
    ensures StripDomain(StripDomain(cookie)) == ""
  {
    InnerConcat();
    InnerParts("Do", "Domain=x;main=y", "main=y");
    LoneDomainVanishes("Domain=y");
    var d := StripDomain(cookie);
    assert Lower(d[0..7]) == "domain=";
    assert d[0..] == d;
  }
}
