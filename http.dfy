/**
 * The WHATWG `Headers` object the proxy edits step by step: an ordered list
 * of (name, value) entries whose names are stored lower-cased and compared
 * without regard to ASCII case. `set` leaves one entry for the name (where
 * the first one was, or at the end), `delete` drops every entry for the
 * name, `append` adds one at the end, `get` joins the values with ", ",
 * and `getSetCookie` lists the Set-Cookie values one by one.
 */
module Http {
  import opened Wrappers
  import opened Strings

  datatype Header = Header(name: string, value: string)

  /** Two header names denote the same header. */
  predicate SameName(a: string, b: string) {
    Lower(a) == Lower(b)
  }

  /** The values stored under `name`, in list order. */
  function Values(hs: seq<Header>, name: string): (vs: seq<string>)
    ensures |vs| <= |hs|
  {
    if hs == [] then []
    else if SameName(hs[0].name, name) then [hs[0].value] + Values(hs[1..], name)
    else Values(hs[1..], name)
  }

  /** The list with every entry for `name` removed. */
  function Without(hs: seq<Header>, name: string): seq<Header> {
    if hs == [] then []
    else if SameName(hs[0].name, name) then Without(hs[1..], name)
    else [hs[0]] + Without(hs[1..], name)
  }

  /** The list after `set(name, value)`. */
  function WithSet(hs: seq<Header>, name: string, value: string): seq<Header> {
    if hs == [] then [Header(Lower(name), value)]
    else if SameName(hs[0].name, name) then [Header(Lower(name), value)] + Without(hs[1..], name)
    else [hs[0]] + WithSet(hs[1..], name, value)
  }

  /** The list built from `init`, names lower-cased, order kept. */
  function Normalized(init: seq<Header>): (hs: seq<Header>)
    ensures |hs| == |init|
  {
    if init == [] then []
    else [Header(Lower(init[0].name), init[0].value)] + Normalized(init[1..])
  }

  /** `get(name)`: nothing when absent, otherwise all values joined by ", ". */
  function GetOf(hs: seq<Header>, name: string): (r: Option<string>)
    ensures r.None? <==> Values(hs, name) == []
    ensures |Values(hs, name)| == 1 ==> r == Some(Values(hs, name)[0])
  {
    var vs := Values(hs, name);
    if vs == [] then None else Some(Join(vs, ", "))
  }

  /** A value is stored under `name` exactly when some entry with that name carries it. */
  lemma {:induction false} ValuesMembers(hs: seq<Header>, name: string)
    ensures forall v :: v in Values(hs, name) <==> exists i :: 0 <= i < |hs| && SameName(hs[i].name, name) && hs[i].value == v
  {
    if hs != [] {
      ValuesMembers(hs[1..], name);
      forall v | (exists i :: 0 <= i < |hs| && SameName(hs[i].name, name) && hs[i].value == v)
        ensures v in Values(hs, name)
      {
        var i :| 0 <= i < |hs| && SameName(hs[i].name, name) && hs[i].value == v;
        if i > 0 {
          assert hs[1..][i - 1] == hs[i];
        }
      }
      forall v | v in Values(hs, name)
        ensures exists i :: 0 <= i < |hs| && SameName(hs[i].name, name) && hs[i].value == v
      {
        if !(SameName(hs[0].name, name) && hs[0].value == v) {
          var i :| 0 <= i < |hs[1..]| && SameName(hs[1..][i].name, name) && hs[1..][i].value == v;
          assert hs[i + 1] == hs[1..][i];
        }
      }
    }
  }

  /** A name has values exactly when some entry has that name. */
  lemma ValuesPresent(hs: seq<Header>, name: string)
    ensures Values(hs, name) != [] <==> exists i :: 0 <= i < |hs| && SameName(hs[i].name, name)
  {
    ValuesMembers(hs, name);
    if i :| 0 <= i < |hs| && SameName(hs[i].name, name) {
      assert hs[i].value in Values(hs, name);
    }
  }

  /** Lower-casing is idempotent. */
  lemma {:induction false} LowerIdempotent(s: string)
    ensures Lower(Lower(s)) == Lower(s)
  {
    var l := Lower(s);
    assert |Lower(l)| == |l|;
    forall i | 0 <= i < |l|
      ensures Lower(l)[i] == l[i]
    {
      assert l[i] == LowerChar(s[i]);
    }
  }

  /** Names that differ only in ASCII case look up the same values. */
  lemma {:induction false} ValuesSameName(hs: seq<Header>, a: string, b: string)
    requires SameName(a, b)
    ensures Values(hs, a) == Values(hs, b)
  {
    if hs != [] {
      ValuesSameName(hs[1..], a, b);
    }
  }

  /** After deleting `name`, it has no values; every other name keeps its values. */
  lemma {:induction false} ValuesWithout(hs: seq<Header>, name: string, m: string)
    ensures Values(Without(hs, name), m) == if SameName(m, name) then [] else Values(hs, m)
  {
    if hs != [] {
      ValuesWithout(hs[1..], name, m);
      if !SameName(hs[0].name, name) {
        assert Without(hs, name) == [hs[0]] + Without(hs[1..], name);
        assert ([hs[0]] + Without(hs[1..], name))[1..] == Without(hs[1..], name);
      }
    }
  }

  /** After `set(name, value)`, `name` has exactly that value; every other name keeps its values. */
  lemma {:induction false} ValuesWithSet(hs: seq<Header>, name: string, value: string, m: string)
    ensures Values(WithSet(hs, name, value), m) == if SameName(m, name) then [value] else Values(hs, m)
  {
    LowerIdempotent(name);
    if hs == [] {
      assert WithSet(hs, name, value)[1..] == [];
    } else if SameName(hs[0].name, name) {
      ValuesWithout(hs[1..], name, m);
      assert ([Header(Lower(name), value)] + Without(hs[1..], name))[1..] == Without(hs[1..], name);
    } else {
      ValuesWithSet(hs[1..], name, value, m);
      assert ([hs[0]] + WithSet(hs[1..], name, value))[1..] == WithSet(hs[1..], name, value);
    }
  }

  /** After `append(name, value)`, `value` follows the old values of `name`; other names are untouched. */
  lemma {:induction false} ValuesAppend(hs: seq<Header>, name: string, value: string, m: string)
    ensures Values(hs + [Header(Lower(name), value)], m)
         == Values(hs, m) + (if SameName(m, name) then [value] else [])
  {
    LowerIdempotent(name);
    if hs == [] {
      assert [Header(Lower(name), value)][1..] == [];
    } else {
      ValuesAppend(hs[1..], name, value, m);
      assert (hs + [Header(Lower(name), value)])[1..] == hs[1..] + [Header(Lower(name), value)];
    }
  }

  /** Lower-casing the names on construction changes no lookup. */
  lemma {:induction false} ValuesNormalized(init: seq<Header>, m: string)
    ensures Values(Normalized(init), m) == Values(init, m)
  {
    if init != [] {
      LowerIdempotent(init[0].name);
      ValuesNormalized(init[1..], m);
      assert Normalized(init)[1..] == Normalized(init[1..]);
    }
  }

  /** A mutable header list, as the proxy's request and response headers are. */
  class Headers {
    var entries: seq<Header>

    /** `new Headers(init)`. */
    constructor (init: seq<Header>)
      ensures entries == Normalized(init)
      ensures forall m :: ValuesOf(m) == Values(init, m)
    {
      forall m ensures Values(Normalized(init), m) == Values(init, m) {
        ValuesNormalized(init, m);
      }
      entries := Normalized(init);
    }

    /** The values stored under `name`. */
    function ValuesOf(name: string): seq<string>
      reads this
    {
      Values(entries, name)
    }

    /** `get(name)`. */
    function Get(name: string): (r: Option<string>)
      reads this
      ensures r.None? <==> ValuesOf(name) == []
      ensures |ValuesOf(name)| == 1 ==> r == Some(ValuesOf(name)[0])
    {
      GetOf(entries, name)
    }

    /** `has(name)`. */
    function Has(name: string): (r: bool)
      reads this
      ensures r <==> exists i :: 0 <= i < |entries| && SameName(entries[i].name, name)
    {
      ValuesPresent(entries, name);
      Values(entries, name) != []
    }

    /** `getSetCookie()`: every Set-Cookie value, unjoined, in order. */
    function GetSetCookie(): (r: seq<string>)
      reads this
      ensures r == ValuesOf("set-cookie")
      ensures |r| <= |entries|
      ensures forall v :: v in r <==> exists i :: 0 <= i < |entries| && SameName(entries[i].name, "set-cookie") && entries[i].value == v
    {
      ValuesMembers(entries, "set-cookie");
      Values(entries, "set-cookie")
    }

    /** `set(name, value)`. */
    method Set(name: string, value: string)
      modifies this
      ensures entries == WithSet(old(entries), name, value)
      ensures forall m :: ValuesOf(m) == if SameName(m, name) then [value] else old(ValuesOf(m))
    {
      forall m ensures Values(WithSet(entries, name, value), m) == if SameName(m, name) then [value] else Values(entries, m) {
        ValuesWithSet(entries, name, value, m);
      }
      entries := WithSet(entries, name, value);
    }

    /** `delete(name)`. */
    method Delete(name: string)
      modifies this
      ensures entries == Without(old(entries), name)
      ensures forall m :: ValuesOf(m) == if SameName(m, name) then [] else old(ValuesOf(m))
    {
      forall m ensures Values(Without(entries, name), m) == if SameName(m, name) then [] else Values(entries, m) {
        ValuesWithout(entries, name, m);
      }
      entries := Without(entries, name);
    }

    /** `append(name, value)`. */
    method Append(name: string, value: string)
      modifies this
      ensures entries == old(entries) + [Header(Lower(name), value)]
      ensures forall m :: ValuesOf(m) == old(ValuesOf(m)) + (if SameName(m, name) then [value] else [])
    {
      forall m ensures Values(entries + [Header(Lower(name), value)], m)
                    == Values(entries, m) + (if SameName(m, name) then [value] else []) {
        ValuesAppend(entries, name, value, m);
      }
      entries := entries + [Header(Lower(name), value)];
    }
  }
}
