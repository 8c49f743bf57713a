/**
 * The per-element rules the proxy registers with the streaming HTML
 * rewriter. The parser and the CSS selector engine are not modelled: a
 * document is a sequence of distinct elements, each with its tag name and
 * attribute map, and the rewriter hands every element in turn to each
 * registered handler whose selector matches its start tag, in the order
 * the handlers were registered. A handler edits the element in place.
 */
module Rewriter {
  import opened Wrappers
  import opened Strings
  import opened UrlRules
  import opened Interceptor

  /** What the handlers can change about an element. */
  datatype ElementState = ElementState(attrs: map<string, string>, removed: bool, appended: seq<Script>)

  /** An element of the streamed document. */
  class Element {
    const tag: string
    var attrs: map<string, string>
    var removed: bool
    var appended: seq<Script>

    constructor (tag: string, attrs: map<string, string>)
      ensures this.tag == tag && State() == ElementState(attrs, false, [])
    {
      this.tag := tag;
      this.attrs := attrs;
      removed := false;
      appended := [];
    }

    function State(): ElementState
      reads this
    {
      ElementState(attrs, removed, appended)
    }

    /** `getAttribute(name)`: `null` when the attribute is absent. */
    function GetAttribute(name: string): (r: Option<string>)
      reads this
      ensures r.Some? <==> name in attrs
      ensures r.Some? ==> r.value == attrs[name]
    {
      if name in attrs then Some(attrs[name]) else None
    }

    /** `setAttribute(name, value)`. */
    method SetAttribute(name: string, value: string)
      modifies this
      ensures State() == old(State()).(attrs := old(attrs)[name := value])
    {
      attrs := attrs[name := value];
    }

    /** `removeAttribute(name)`. */
    method RemoveAttribute(name: string)
      modifies this
      ensures State() == old(State()).(attrs := old(attrs) - {name})
    {
      attrs := attrs - {name};
    }

    /** `remove()`: the element and its content are dropped from the output. */
    method Remove()
      modifies this
      ensures State() == old(State()).(removed := true)
    {
      removed := true;
    }

    /** `append(script, { html: true })`: the script is inserted before the end tag. */
    method Append(script: Script)
      modifies this
      ensures State() == old(State()).(appended := old(appended) + [script])
    {
      appended := appended + [script];
    }
  }

  // ---- the handlers, as functions on element states ----------------------

  /** The element after `ElementHandler(attr, worker, target)`. */
  function AttrRuleOn(st: ElementState, attr: string, worker: string, target: string): ElementState {
    if attr in st.attrs then st.(attrs := st.attrs[attr := RewriteAttr(st.attrs[attr], worker, target)]) else st
  }

  /** The element after `MetaRefreshHandler(worker, target)`. */
  function RefreshRuleOn(st: ElementState, worker: string, target: string): ElementState {
    if "content" in st.attrs then
      st.(attrs := st.attrs["content" := RewriteMetaRefresh(st.attrs["content"], worker, target)])
    else st
  }

  /** The attributes the `*` handler of the standalone Worker application looks at. */
  const DataAttrNames: seq<string> := ["data-src", "data-href", "data-url"]

  /** The element after the `*` handler: each present `data-*` URL attribute goes through the data rule. */
  function DataRuleOn(st: ElementState, worker: string, target: string): ElementState {
    st.(attrs := map k | k in st.attrs :: if k in DataAttrNames then RewriteDataAttr(st.attrs[k], worker, target) else st.attrs[k])
  }

  // ---- the handlers, as methods on elements ------------------------------

  /** `ElementHandler.element`. */
  method ElementHandler(e: Element, attr: string, worker: string, target: string)
    modifies e
    ensures e.State() == AttrRuleOn(old(e.State()), attr, worker, target)
  {
    var val := e.GetAttribute(attr);
    if val.Some? && val.value != "" {
      var v := val.value;
      if StartsWith(v, worker) {
        assert e.attrs[attr := v] == e.attrs;
        return;
      }
      if StartsWith(v, "http") {
        e.SetAttribute(attr, worker + "/" + v);
      } else if StartsWith(v, "//") {
        e.SetAttribute(attr, worker + "/https:" + v);
      } else if StartsWith(v, "/") {
        e.SetAttribute(attr, worker + "/" + target + v);
      } else {
        assert e.attrs[attr := v] == e.attrs;
      }
    } else if val.Some? {
      assert e.attrs[attr := val.value] == e.attrs;
    }
  }

  /** `MetaRefreshHandler.element`. */
  method MetaRefreshHandler(e: Element, worker: string, target: string)
    modifies e
    ensures e.State() == RefreshRuleOn(old(e.State()), worker, target)
  {
    var content := e.GetAttribute("content");
    if content.Some? && content.value != "" {
      var parts := SplitUrlEq(content.value);
      if |parts| == 2 {
        var t := Trim(parts[1]);
        if StartsWith(t, "http") {
          t := worker + "/" + t;
        } else if StartsWith(t, "/") {
          t := worker + "/" + target + t;
        }
        e.SetAttribute("content", parts[0] + "url=" + t);
      } else {
        assert e.attrs["content" := content.value] == e.attrs;
      }
    } else if content.Some? {
      assert e.attrs["content" := content.value] == e.attrs;
    }
  }

  /** One `data-*` name of the `*` handler: a present value goes through the data rule. */
  method DataAttrHandler(e: Element, name: string, worker: string, target: string)
    modifies e
    ensures e.removed == old(e.removed) && e.appended == old(e.appended)
    ensures e.attrs == if name in old(e.attrs) then old(e.attrs)[name := RewriteDataAttr(old(e.attrs)[name], worker, target)]
                       else old(e.attrs)
  {
    var val := e.GetAttribute(name);
    if val.Some? && val.value != "" {
      var v := val.value;
      if StartsWith(v, "http") {
        e.SetAttribute(name, worker + "/" + v);
      } else if StartsWith(v, "/") {
        e.SetAttribute(name, worker + "/" + target + v);
      } else {
        assert e.attrs[name := v] == e.attrs;
      }
    } else if val.Some? {
      assert e.attrs[name := val.value] == e.attrs;
    }
  }

  /** The position of `k` in `DataAttrNames`, or its length when `k` is not there. */
  function DataAttrIndex(k: string): nat {
    if k == "data-src" then 0 else if k == "data-href" then 1 else if k == "data-url" then 2 else 3
  }

  /** `cur` is `start` with the `data-*` names before position `n` rewritten by the data rule. */
  ghost predicate DataDoneBelow(start: map<string, string>, cur: map<string, string>, n: nat, worker: string, target: string) {
    && cur.Keys == start.Keys
    && forall k :: k in start ==>
         cur[k] == if DataAttrIndex(k) < n then RewriteDataAttr(start[k], worker, target) else start[k]
  }

  /** Rewriting the name at position `n` extends the rewritten prefix by one. */
  lemma DataDoneStep(start: map<string, string>, cur: map<string, string>, n: nat, worker: string, target: string)
    requires n < |DataAttrNames| && DataDoneBelow(start, cur, n, worker, target)
    ensures (var name := DataAttrNames[n];
             DataDoneBelow(start, if name in cur then cur[name := RewriteDataAttr(cur[name], worker, target)] else cur,
                           n + 1, worker, target))
  {
    assert DataAttrIndex(DataAttrNames[n]) == n;
  }

  /** With every name rewritten, the attributes are those of the `*` rule. */
  lemma DataDoneAll(start: map<string, string>, cur: map<string, string>, worker: string, target: string)
    requires DataDoneBelow(start, cur, |DataAttrNames|, worker, target)
    ensures cur == DataRuleOn(ElementState(start, false, []), worker, target).attrs
  {
    assert forall k :: DataAttrIndex(k) < 3 <==> k in DataAttrNames;
  }

  /** The `*` handler of the standalone Worker application: one pass over the three `data-*` names. */
  method DataAttrsHandler(e: Element, worker: string, target: string)
    modifies e
    ensures e.State() == DataRuleOn(old(e.State()), worker, target)
  {
    ghost var start := e.attrs;
    for i := 0 to |DataAttrNames|
      invariant e.removed == old(e.removed) && e.appended == old(e.appended)
      invariant DataDoneBelow(start, e.attrs, i, worker, target)
    {
      DataDoneStep(start, e.attrs, i, worker, target);
      DataAttrHandler(e, DataAttrNames[i], worker, target);
    }
    DataDoneAll(start, e.attrs, worker, target);
  }

  // ---- selectors, rules and the rule tables ------------------------------

  /** The CSS selectors the proxy registers. */
  datatype Selector =
    | TagIs(tag: string)                                     // `a`, `head`, ...
    | HasAttribute(attr: string)                             // `[data-src]`
    | TagAttrEquals(tag: string, attr: string, value: string)  // `meta[name="referrer"]`
    | TagsWithAttribute(tags: seq<string>, attr: string)     // `script[integrity], link[integrity], img[integrity]`
    | Universal                                              // `*`

  /** Whether a start tag matches a selector. */
  predicate Matches(sel: Selector, tag: string, attrs: map<string, string>) {
    match sel
    case TagIs(t) => tag == t
    case HasAttribute(a) => a in attrs
    case TagAttrEquals(t, a, v) => tag == t && a in attrs && attrs[a] == v
    case TagsWithAttribute(ts, a) => tag in ts && a in attrs
    case Universal => true
  }

  /** What a handler does. */
  datatype Action =
    | RewriteUrlAttr(attr: string)
    | RewriteRefresh
    | RemoveElement
    | AppendScript(script: Script)
    | RemoveAttr(attr: string)
    | RewriteDataAttrs

  datatype Rule = Rule(selector: Selector, action: Action)

  /** The element after one handler. */
  function ApplyAction(st: ElementState, a: Action, worker: string, target: string): ElementState {
    match a
    case RewriteUrlAttr(attr) => AttrRuleOn(st, attr, worker, target)
    case RewriteRefresh => RefreshRuleOn(st, worker, target)
    case RemoveElement => st.(removed := true)
    case AppendScript(s) => st.(appended := st.appended + [s])
    case RemoveAttr(attr) => st.(attrs := st.attrs - {attr})
    case RewriteDataAttrs => DataRuleOn(st, worker, target)
  }

  /**
   * The element after every rule of `rules` whose selector matches its start
   * tag (`tag`, `attrs`) has run, in order.
   */
  function RunRules(st: ElementState, rules: seq<Rule>, tag: string, attrs: map<string, string>,
                    worker: string, target: string): ElementState
    decreases |rules|
  {
    if rules == [] then st
    else
      var before := RunRules(st, rules[..|rules| - 1], tag, attrs, worker, target);
      var last := rules[|rules| - 1];
      if Matches(last.selector, tag, attrs) then ApplyAction(before, last.action, worker, target) else before
  }

  /** Running `a + b` is running `a`, then `b`. */
  lemma {:induction false} RunRulesAppend(st: ElementState, a: seq<Rule>, b: seq<Rule>, tag: string,
                                          attrs: map<string, string>, worker: string, target: string)
    ensures RunRules(st, a + b, tag, attrs, worker, target)
         == RunRules(RunRules(st, a, tag, attrs, worker, target), b, tag, attrs, worker, target)
    decreases |b|
  {
    if b == [] {
      assert a + b == a;
    } else {
      var n := |b| - 1;
      assert (a + b)[..|a + b| - 1] == a + b[..n];
      assert (a + b)[|a + b| - 1] == b[n];
      RunRulesAppend(st, a, b[..n], tag, attrs, worker, target);
    }
  }

  // ---- what a run of rules does, attribute by attribute -----------------

  /** The `i`th rule exists and its selector matches the start tag. */
  predicate Fires(rules: seq<Rule>, i: int, tag: string, attrs: map<string, string>) {
    0 <= i < |rules| && Matches(rules[i].selector, tag, attrs)
  }

  /** The value of attribute `k`, if present. */
  function Lookup(attrs: map<string, string>, k: string): Option<string> {
    if k in attrs then Some(attrs[k]) else None
  }

  /** Whether a handler may change attribute `k`. */
  predicate Touches(a: Action, k: string) {
    match a
    case RewriteUrlAttr(x) => x == k
    case RewriteRefresh => k == "content"
    case RemoveAttr(x) => x == k
    case RewriteDataAttrs => k in DataAttrNames
    case _ => false
  }

  /** What a handler that touches attribute `k` makes of its value `v`. */
  function KeyStep(a: Action, v: Option<string>, worker: string, target: string): Option<string> {
    match a
    case RewriteUrlAttr(_) => if v.Some? then Some(RewriteAttr(v.value, worker, target)) else None
    case RewriteRefresh => if v.Some? then Some(RewriteMetaRefresh(v.value, worker, target)) else None
    case RemoveAttr(_) => None
    case RewriteDataAttrs => if v.Some? then Some(RewriteDataAttr(v.value, worker, target)) else None
    case _ => v
  }

  /** A handler changes attribute `k` only if it touches `k`, and then only as `KeyStep` says. */
  lemma ActionOnKey(st: ElementState, a: Action, k: string, worker: string, target: string)
    ensures Lookup(ApplyAction(st, a, worker, target).attrs, k)
         == if Touches(a, k) then KeyStep(a, Lookup(st.attrs, k), worker, target) else Lookup(st.attrs, k)
  {
  }

  /** The rules before the last one fire where they fired in the whole list. */
  lemma FiresInPrefix(rules: seq<Rule>, tag: string, attrs: map<string, string>)
    requires rules != []
    ensures forall i :: Fires(rules[..|rules| - 1], i, tag, attrs) <==> Fires(rules, i, tag, attrs) && i < |rules| - 1
    ensures forall i :: 0 <= i < |rules| - 1 ==> rules[..|rules| - 1][i] == rules[i]
  {
  }

  /** An attribute that no firing rule touches keeps its presence and value. */
  lemma {:induction false} KeyUntouched(st: ElementState, rules: seq<Rule>, tag: string, attrs: map<string, string>,
                                        worker: string, target: string, k: string)
    requires forall i :: Fires(rules, i, tag, attrs) ==> !Touches(rules[i].action, k)
    ensures Lookup(RunRules(st, rules, tag, attrs, worker, target).attrs, k) == Lookup(st.attrs, k)
    decreases |rules|
  {
    if rules != [] {
      var n := |rules| - 1;
      FiresInPrefix(rules, tag, attrs);
      KeyUntouched(st, rules[..n], tag, attrs, worker, target, k);
      ActionOnKey(RunRules(st, rules[..n], tag, attrs, worker, target), rules[n].action, k, worker, target);
    }
  }

  /** An attribute touched by exactly one firing rule ends up as that rule makes it. */
  lemma {:induction false} KeyTouchedOnce(st: ElementState, rules: seq<Rule>, tag: string, attrs: map<string, string>,
                                          worker: string, target: string, k: string, i: int)
    requires Fires(rules, i, tag, attrs) && Touches(rules[i].action, k)
    requires forall j :: Fires(rules, j, tag, attrs) && j != i ==> !Touches(rules[j].action, k)
    ensures Lookup(RunRules(st, rules, tag, attrs, worker, target).attrs, k)
         == KeyStep(rules[i].action, Lookup(st.attrs, k), worker, target)
    decreases |rules|
  {
    var n := |rules| - 1;
    FiresInPrefix(rules, tag, attrs);
    var before := RunRules(st, rules[..n], tag, attrs, worker, target);
    if i == n {
      KeyUntouched(st, rules[..n], tag, attrs, worker, target, k);
    } else {
      KeyTouchedOnce(st, rules[..n], tag, attrs, worker, target, k, i);
    }
    ActionOnKey(before, rules[n].action, k, worker, target);
  }

  /** The element is removed exactly when it already was or some firing rule removes it. */
  lemma {:induction false} RemovedIff(st: ElementState, rules: seq<Rule>, tag: string, attrs: map<string, string>,
                                      worker: string, target: string)
    ensures RunRules(st, rules, tag, attrs, worker, target).removed
        <==> st.removed || exists i :: Fires(rules, i, tag, attrs) && rules[i].action == RemoveElement
    decreases |rules|
  {
    if rules != [] {
      var n := |rules| - 1;
      FiresInPrefix(rules, tag, attrs);
      RemovedIff(st, rules[..n], tag, attrs, worker, target);
    }
  }

  /** With no firing rule that appends, nothing is appended. */
  lemma {:induction false} NothingAppended(st: ElementState, rules: seq<Rule>, tag: string, attrs: map<string, string>,
                                           worker: string, target: string)
    requires forall i :: Fires(rules, i, tag, attrs) ==> !rules[i].action.AppendScript?
    ensures RunRules(st, rules, tag, attrs, worker, target).appended == st.appended
    decreases |rules|
  {
    if rules != [] {
      FiresInPrefix(rules, tag, attrs);
      NothingAppended(st, rules[..|rules| - 1], tag, attrs, worker, target);
    }
  }

  /** With exactly one firing rule that appends, its script is appended once. */
  lemma {:induction false} AppendedOnce(st: ElementState, rules: seq<Rule>, tag: string, attrs: map<string, string>,
                                        worker: string, target: string, i: int)
    requires Fires(rules, i, tag, attrs) && rules[i].action.AppendScript?
    requires forall j :: Fires(rules, j, tag, attrs) && j != i ==> !rules[j].action.AppendScript?
    ensures RunRules(st, rules, tag, attrs, worker, target).appended == st.appended + [rules[i].action.script]
    decreases |rules|
  {
    var n := |rules| - 1;
    FiresInPrefix(rules, tag, attrs);
    if i == n {
      NothingAppended(st, rules[..n], tag, attrs, worker, target);
    } else {
      AppendedOnce(st, rules[..n], tag, attrs, worker, target, i);
    }
  }

  /** Rules that neither remove nor append leave the element's removal and appended scripts alone. */
  lemma {:induction false} AttributesOnly(st: ElementState, rules: seq<Rule>, tag: string, attrs: map<string, string>,
                                          worker: string, target: string)
    requires forall i :: 0 <= i < |rules| ==> !rules[i].action.RemoveElement? && !rules[i].action.AppendScript?
    ensures RunRules(st, rules, tag, attrs, worker, target).removed == st.removed
    ensures RunRules(st, rules, tag, attrs, worker, target).appended == st.appended
    decreases |rules|
  {
    if rules != [] {
      FiresInPrefix(rules, tag, attrs);
      AttributesOnly(st, rules[..|rules| - 1], tag, attrs, worker, target);
    }
  }

  /** Runs one handler on an element. */
  method Dispatch(e: Element, a: Action, worker: string, target: string)
    modifies e
    ensures e.State() == ApplyAction(old(e.State()), a, worker, target)
  {
    match a
    case RewriteUrlAttr(attr) => ElementHandler(e, attr, worker, target);
    case RewriteRefresh => MetaRefreshHandler(e, worker, target);
    case RemoveElement => e.Remove();
    case AppendScript(s) => e.Append(s);
    case RemoveAttr(attr) => e.RemoveAttribute(attr);
    case RewriteDataAttrs => DataAttrsHandler(e, worker, target);
  }

  /** Runs, in order, every handler whose selector matches the element's start tag. */
  method ApplyRules(e: Element, rules: seq<Rule>, worker: string, target: string)
    modifies e
    ensures e.State() == RunRules(old(e.State()), rules, e.tag, old(e.attrs), worker, target)
  {
    var startTag := e.attrs;
    for i := 0 to |rules|
      invariant e.State() == RunRules(old(e.State()), rules[..i], e.tag, startTag, worker, target)
    {
      assert rules[..i + 1][..i] == rules[..i];
      if Matches(rules[i].selector, e.tag, startTag) {
        Dispatch(e, rules[i].action, worker, target);
      }
    }
    assert rules[..|rules|] == rules;
  }

  /** Streams a whole document through the rules, element by element, in document order. */
  method RewriteDocument(doc: seq<Element>, rules: seq<Rule>, worker: string, target: string)
    requires forall i, j :: 0 <= i < j < |doc| ==> doc[i] != doc[j]
    modifies set e | e in doc
    ensures forall i :: 0 <= i < |doc| ==>
      doc[i].State() == RunRules(old(doc[i].State()), rules, doc[i].tag, old(doc[i].attrs), worker, target)
  {
    for n := 0 to |doc|
      invariant forall i :: 0 <= i < n ==>
        doc[i].State() == RunRules(old(doc[i].State()), rules, doc[i].tag, old(doc[i].attrs), worker, target)
      invariant forall i :: n <= i < |doc| ==> doc[i].State() == old(doc[i].State())
    {
      ApplyRules(doc[n], rules, worker, target);
    }
  }
}
