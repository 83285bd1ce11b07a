/**
 * The introspection element tree (`DIElement` and the kinds of element derived from it).
 *
 * Every element is an object whose child list and attribute map are updated in place.
 * Serialising an element produces an abstract element tree (`Elem`) and, as a side effect,
 * rewrites every boolean attribute of every element below it to the literal `'true'`/`'false'`.
 */
module Elements {
  import opened Py

  // Access modes and directions used as attribute values.
  const READ := "read"
  const READWRITE := "readwrite"
  const WRITE := "write"
  const OUT := "out"
  const IN := "in"
  const INVALIDATES := "invalidates"
  const CONST := "const"

  /** A serialised element: its tag, its attributes and its children, in order. */
  datatype Elem = Elem(tag: string, attributes: map<string, Value>, children: seq<Elem>)

  /** `_untail`: the trailing underscore protecting a reserved word is dropped. */
  function Untail(key: string): (r: string)
    ensures r != key <==> key in {"type_", "class_", "id_"}
    ensures key in {"type_", "class_", "id_"} ==> r + "_" == key
  {
    if key in {"type_", "class_", "id_"} then key[..|key| - 1] else key
  }

  lemma UntailIdempotent(key: string)
    ensures Untail(Untail(key)) == Untail(key)
  {
    if key == "type_" {
      assert Untail(key) == "type";
    } else if key == "class_" {
      assert Untail(key) == "class";
    } else if key == "id_" {
      assert Untail(key) == "id";
    }
  }

  /** The attribute map built from keyword arguments: keys untailed, a later key wins. */
  function UntailAll(kwargs: seq<(string, Value)>): (m: map<string, Value>)
    ensures m.Keys == set i | 0 <= i < |kwargs| :: Untail(kwargs[i].0)
  {
    if kwargs == [] then map[]
    else
      var init, last := kwargs[..|kwargs| - 1], kwargs[|kwargs| - 1];
      var m := UntailAll(init)[Untail(last.0) := last.1];
      assert forall i :: 0 <= i < |init| ==> init[i] == kwargs[i];
      m
  }

  /** Keyword arguments are taken in order: one more keyword updates the map built so far. */
  lemma UntailAllSnoc(kwargs: seq<(string, Value)>, kv: (string, Value))
    ensures UntailAll(kwargs + [kv]) == UntailAll(kwargs)[Untail(kv.0) := kv.1]
  {
    assert (kwargs + [kv])[..|kwargs|] == kwargs;
  }

  /** The value stored under a key is the one given by the last keyword that untails to it. */
  lemma {:induction false} UntailAllLastWins(kwargs: seq<(string, Value)>, i: nat)
    requires i < |kwargs|
    requires forall j :: i < j < |kwargs| ==> Untail(kwargs[j].0) != Untail(kwargs[i].0)
    ensures Untail(kwargs[i].0) in UntailAll(kwargs)
    ensures UntailAll(kwargs)[Untail(kwargs[i].0)] == kwargs[i].1
  {
    if i < |kwargs| - 1 {
      var init := kwargs[..|kwargs| - 1];
      assert init[i] == kwargs[i];
      UntailAllLastWins(init, i);
    }
  }

  /** `str(v).lower()` for a value that compares equal to `True` or `False`. */
  function BoolText(v: Value): string
  {
    match v
    case PyBool(b) => if b then "true" else "false"
    case PyInt(i) => if i == 0 then "0" else "1"
    case _ => ""
  }

  /** The serialised form of one attribute value. */
  function NormValue(v: Value): (r: Value)
    ensures !IsBoolLike(r)
    ensures IsBoolLike(v) ==> r.PyStr?
    ensures !IsBoolLike(v) ==> r == v
    ensures v == PyBool(true) ==> r == PyStr("true")
    ensures v == PyBool(false) ==> r == PyStr("false")
  {
    BoolLikeValues(v);
    var r := if IsBoolLike(v) then PyStr(BoolText(v)) else v;
    BoolLikeValues(r);
    r
  }

  function NormAttrs(m: map<string, Value>): (r: map<string, Value>)
    ensures r.Keys == m.Keys
  {
    map k | k in m :: NormValue(m[k])
  }

  /** The tree as serialisation leaves it: every boolean-like attribute of every element rewritten. */
  function NormTree(t: Elem): (r: Elem)
    ensures r.tag == t.tag && |r.children| == |t.children|
    ensures r.attributes.Keys == t.attributes.Keys
    ensures forall k :: k in t.attributes ==> r.attributes[k] == NormValue(t.attributes[k])
  {
    Elem(t.tag, NormAttrs(t.attributes),
         seq(|t.children|, i requires 0 <= i < |t.children| => NormTree(t.children[i])))
  }

  /** No element of the tree carries a boolean-like attribute. */
  ghost predicate NoBools(t: Elem)
  {
    (forall k :: k in t.attributes ==> !IsBoolLike(t.attributes[k])) &&
    (forall i :: 0 <= i < |t.children| ==> NoBools(t.children[i]))
  }

  lemma {:induction false} NormTreeNoBools(t: Elem)
    ensures NoBools(NormTree(t))
  {
    forall i | 0 <= i < |t.children| {
      NormTreeNoBools(t.children[i]);
    }
  }

  /** A tree is left as it is by serialisation exactly when it holds no booleans. */
  lemma {:induction false} NormTreeFixpoint(t: Elem)
    ensures NormTree(t) == t <==> NoBools(t)
  {
    forall i | 0 <= i < |t.children| {
      NormTreeFixpoint(t.children[i]);
    }
    if NoBools(t) {
      assert NormAttrs(t.attributes) == t.attributes;
      assert NormTree(t).children == t.children;
    } else if NormTree(t) == t {
      NormTreeNoBools(t);
      assert false;
    }
  }

  /** A second serialisation sees no booleans and yields the same tree. */
  lemma NormTreeIdempotent(t: Elem)
    ensures NormTree(NormTree(t)) == NormTree(t)
  {
    NormTreeNoBools(t);
    NormTreeFixpoint(NormTree(t));
  }

  /** What each (sub)class of `DIElement` adds, fixed when the element is constructed. */
  datatype Kind =
    | Generic(tag: string)        // a bare `DIElement(element_factory, ...)`
    | AnnotationNode(origin: Origin)
    | ArgNode
    | MethodNode
    | SignalNode
    | PropertyNode(flags: PropertyFlags)
    | InterfaceNode
    | IntrospectorNode

  /**
   * Which definition of a class an element was built from: the self-contained `service.py`
   * or the per-concern modules (`annotations.py`, `properties.py`, ...), whose classes are distinct.
   */
  datatype Origin = ServiceModule | SplitModules

  /** The access flags a property element records in its constructor. */
  datatype PropertyFlags =
    | ServiceFlags(needsSetter: bool, onlySetter: bool)
    | SplitFlags(needsSetter: bool, writeOnly: bool, readOnly: bool, emitter: Option<EmitterInfo>)

  /** The emitter a signalling property creates; it is bound to the property's namespace. */
  datatype EmitterInfo = EmitterInfo(namespace: Option<string>)

  /** The element factory (`E.annotation`, `E.arg`, ...) each kind serialises with. */
  function Tag(kind: Kind): string
  {
    match kind
    case Generic(tag) => tag
    case AnnotationNode(_) => "annotation"
    case ArgNode => "arg"
    case MethodNode => "method"
    case SignalNode => "signal"
    case PropertyNode(_) => "property"
    case InterfaceNode => "interface"
    case IntrospectorNode => "interface"
  }

  /** `_passthrough_decorator(func)`: a new function that forwards every call to `func`. */
  function Passthrough(func: PyFunc): (wrapper: PyFunc)
    ensures wrapper.name == "_passthrough_decorator_wrapper"
    ensures forall args :: wrapper.impl(args) == func.impl(args)
  {
    PyFunc("_passthrough_decorator_wrapper", PyNone, args => func.impl(args))
  }

  /** The objects making up a sequence of element trees. */
  ghost function ReprOf(cs: seq<Element>): set<Element>
    reads cs
  {
    set i, o | 0 <= i < |cs| && o in cs[i].Repr :: o
  }

  /** Children that may be put under one parent: each a valid tree, no two sharing an object. */
  ghost predicate ValidForest(cs: seq<Element>)
    reads cs, ReprOf(cs)
  {
    (forall i :: 0 <= i < |cs| ==> cs[i] in cs[i].Repr && cs[i].Valid()) &&
    (forall i, j :: 0 <= i < j < |cs| ==> cs[i].Repr !! cs[j].Repr)
  }

  /** The serialisable value of each tree of a forest. */
  ghost function TreesOf(cs: seq<Element>): (ts: seq<Elem>)
    reads cs, ReprOf(cs)
    requires ValidForest(cs)
    ensures |ts| == |cs|
    ensures forall i :: 0 <= i < |cs| ==> ts[i] == cs[i].Tree()
  {
    if cs == [] then []
    else
      var init := cs[..|cs| - 1];
      assert ReprOf(init) <= ReprOf(cs);
      TreesOf(init) + [cs[|cs| - 1].Tree()]
  }

  /** A valid tree that is disjoint from a forest may be added at its end. */
  lemma ForestSnoc(cs: seq<Element>, e: Element)
    requires ValidForest(cs) && e in e.Repr && e.Valid() && ReprOf(cs) !! e.Repr
    ensures ValidForest(cs + [e])
    ensures ReprOf(cs + [e]) == ReprOf(cs) + e.Repr
    ensures TreesOf(cs + [e]) == TreesOf(cs) + [e.Tree()]
  {
    var cs' := cs + [e];
    forall i | 0 <= i < |cs| ensures cs[i].Repr !! e.Repr {
      assert cs[i].Repr <= ReprOf(cs);
    }
    assert cs'[..|cs|] == cs;
    forall o ensures o in ReprOf(cs') <==> o in ReprOf(cs) + e.Repr {
      if o in ReprOf(cs') {
        var i :| 0 <= i < |cs'| && o in cs'[i].Repr;
        if i < |cs| {
          assert cs'[i] == cs[i];
        }
      }
      if o in ReprOf(cs) {
        var i :| 0 <= i < |cs| && o in cs[i].Repr;
        assert cs'[i] == cs[i];
      }
      if o in e.Repr {
        assert cs'[|cs|] == e;
      }
    }
  }

  class Element {
    const kind: Kind
    var namespace: Option<string>
    var children: seq<Element>
    var attributes: map<string, Value>
    var onSignalCallback: Option<PyFunc>
    ghost var Repr: set<Element>

    /** The element and everything below it form a tree. */
    ghost predicate Valid()
      reads this, Repr
      decreases Repr
    {
      this in Repr &&
      (forall i :: 0 <= i < |children| ==>
         children[i] in Repr && children[i].Repr <= Repr && this !in children[i].Repr) &&
      (forall i, j :: 0 <= i < j < |children| ==> children[i].Repr !! children[j].Repr) &&
      (forall i :: 0 <= i < |children| ==> children[i].Valid())
    }

    /** The element as it would serialise if no attribute needed rewriting. */
    ghost function Tree(): (t: Elem)
      reads this, Repr
      requires Valid()
      decreases Repr, 1
      ensures t.tag == Tag(kind) && t.attributes == attributes && |t.children| == |children|
    {
      Elem(Tag(kind), attributes, Forest(|children|))
    }

    ghost function Forest(n: nat): (f: seq<Elem>)
      reads this, Repr
      requires Valid() && n <= |children|
      decreases Repr, 0, n
      ensures |f| == n
      ensures forall i :: 0 <= i < n ==> f[i] == children[i].Tree()
    {
      if n == 0 then [] else Forest(n - 1) + [children[n - 1].Tree()]
    }

    /** The children of the tree are the children's trees, in list order. */
    lemma TreeChildren()
      requires Valid()
      ensures forall i :: 0 <= i < |children| ==> Tree().children[i] == children[i].Tree()
    {
      assert Tree().children == Forest(|children|);
    }

    /**
     * `DIElement(element_factory, *children, **attributes)`, followed by the namespace the
     * subclass's constructor stores (None for a bare element).
     */
    constructor (kind: Kind, namespace: Option<string>, children: seq<Element>, kwargs: seq<(string, Value)>)
      requires ValidForest(children)
      ensures Valid() && fresh(Repr - ReprOf(children)) && Repr == {this} + ReprOf(children)
      ensures this.kind == kind && this.children == children
      ensures attributes == UntailAll(kwargs) && this.namespace == namespace && onSignalCallback == None
      ensures Tree() == Elem(Tag(kind), UntailAll(kwargs), TreesOf(children))
    {
      this.kind := kind;
      this.namespace := namespace;
      this.children := children;
      this.attributes := UntailAll(kwargs);
      this.onSignalCallback := None;
      this.Repr := {this} + ReprOf(children);
      new;
      assert this !in ReprOf(children);
      Adopted();
    }

    /** An element over a valid forest that it is not part of is itself a valid tree. */
    lemma Adopted()
      requires Repr == {this} + ReprOf(children) && this !in ReprOf(children)
      requires ValidForest(children)
      ensures Valid()
      ensures Tree().children == TreesOf(children)
    {
      forall i | 0 <= i < |children|
        ensures children[i] in Repr && children[i].Repr <= Repr && this !in children[i].Repr
      {
        assert children[i] in children[i].Repr;
      }
      assert Valid();
      TreeChildren();
    }

    /** `append(child)`: the child goes last, earlier children are untouched. */
    method Append(child: Element)
      requires Valid() && child.Valid() && child.Repr !! Repr
      modifies this
      ensures Valid() && Repr == old(Repr) + child.Repr
      ensures children == old(children) + [child]
      ensures attributes == old(attributes) && namespace == old(namespace)
      ensures onSignalCallback == old(onSignalCallback)
      ensures Tree() == Elem(Tag(kind), attributes, old(Tree()).children + [child.Tree()])
    {
      ghost var t0 := Tree();
      TreeChildren();
      children := children + [child];
      Repr := Repr + child.Repr;
      TreeChildren();
      assert Tree().children == t0.children + [child.Tree()];
    }

    /** `element[attribute] = value`. */
    method SetItem(attribute: string, value: Value)
      requires Valid()
      modifies this
      ensures Valid() && Repr == old(Repr) && children == old(children)
      ensures attributes == old(attributes)[attribute := value]
      ensures namespace == old(namespace) && onSignalCallback == old(onSignalCallback)
      ensures Tree() == old(Tree()).(attributes := attributes)
    {
      ghost var t0 := Tree();
      TreeChildren();
      attributes := attributes[attribute := value];
      TreeChildren();
      assert Tree().children == t0.children;
    }

    /** `element._namespace = namespace`: the tree is unaffected. */
    method SetNamespace(namespace: Option<string>)
      requires Valid()
      modifies this
      ensures Valid() && Repr == old(Repr) && children == old(children) && attributes == old(attributes)
      ensures this.namespace == namespace && onSignalCallback == old(onSignalCallback)
      ensures Tree() == old(Tree())
    {
      ghost var t0 := Tree();
      TreeChildren();
      this.namespace := namespace;
      TreeChildren();
      assert Tree().children == t0.children;
    }

    /** `element[attribute]`: a missing attribute raises KeyError. */
    function GetItem(attribute: string): (r: Result<Value>)
      reads this
      ensures r.Ok? <==> attribute in attributes
      ensures r.Ok? ==> r.value == attributes[attribute]
    {
      if attribute in attributes then Ok(attributes[attribute]) else Err(KeyError)
    }

    /** `element.get(attribute, default)`. */
    function Get(attribute: string, default: Value): (r: Value)
      reads this
      ensures attribute in attributes ==> r == attributes[attribute]
      ensures attribute !in attributes ==> r == default
    {
      if attribute in attributes then attributes[attribute] else default
    }

    /** `element(func)`: the decorator records the function's name and hands back a forwarding wrapper. */
    method Decorate(func: PyFunc) returns (wrapper: PyFunc)
      requires Valid()
      modifies this
      ensures Valid() && Repr == old(Repr) && children == old(children)
      ensures attributes == old(attributes)["name" := PyStr(func.name)]
      ensures namespace == old(namespace) && onSignalCallback == old(onSignalCallback)
      ensures Tree() == old(Tree()).(attributes := attributes)
      ensures wrapper.name == "_passthrough_decorator_wrapper"
      ensures forall args :: wrapper.impl(args) == func.impl(args)
    {
      SetItem("name", PyStr(func.name));
      wrapper := Passthrough(func);
    }

    /** Rewrites this element's own boolean-like attributes in place, one key at a time. */
    method NormaliseAttributes()
      requires Valid()
      modifies this`attributes
      ensures Valid()
      ensures attributes == NormAttrs(old(attributes))
    {
      ghost var a0 := attributes;
      var keys := attributes.Keys;
      while keys != {}
        invariant keys <= a0.Keys && attributes.Keys == a0.Keys
        invariant forall k :: k in a0 ==> attributes[k] == (if k in keys then a0[k] else NormValue(a0[k]))
        invariant Valid()
        decreases keys
      {
        var k :| k in keys;
        if IsBoolLike(attributes[k]) {
          attributes := attributes[k := PyStr(BoolText(attributes[k]))];
        }
        keys := keys - {k};
      }
      assert attributes == NormAttrs(a0);
    }

    /**
     * `element.__xml__`: the serialised element, children in list order.  The tree keeps its
     * shape, and every attribute below is left in serialised form.
     */
    method Xml() returns (x: Elem)
      requires Valid()
      modifies Repr
      decreases Repr, 2, 0
      ensures Valid() && Repr == old(Repr) && children == old(children)
      ensures namespace == old(namespace) && onSignalCallback == old(onSignalCallback)
      ensures x == Tree() && x == NormTree(old(Tree()))
    {
      ghost var t0 := Tree();
      TreeChildren();
      NormaliseAttributes();
      var xs := ChildrenXml();
      x := Elem(Tag(kind), attributes, xs);
      TreeChildren();
      assert x.children == NormTree(t0).children;
    }

    /**
     * The first `i` children are serialised, into `xs`, and the rest are as they were; `t0` holds
     * every child's tree from before serialisation started.
     */
    ghost predicate Serialised(i: nat, xs: seq<Elem>, t0: seq<Elem>)
      reads this, Repr
      requires Valid()
    {
      i <= |children| && |xs| == i && |t0| == |children| &&
      (forall j :: 0 <= j < i ==> xs[j] == children[j].Tree() && xs[j] == NormTree(t0[j])) &&
      (forall j :: i <= j < |children| ==> children[j].Tree() == t0[j])
    }

    /** Serialises the children one after the other, in list order. */
    method ChildrenXml() returns (xs: seq<Elem>)
      requires Valid()
      modifies Repr - {this}
      decreases Repr, 1, 0
      ensures Valid() && Repr == old(Repr)
      ensures |xs| == |children|
      ensures forall j :: 0 <= j < |children| ==>
                xs[j] == children[j].Tree() && xs[j] == NormTree(old(children[j].Tree()))
    {
      ghost var t0 := Forest(|children|);
      xs := [];
      var i := 0;
      while i < |children|
        invariant Valid() && Serialised(i, xs, t0)
        decreases |children| - i
      {
        xs := ChildXml(i, xs, t0);
        i := i + 1;
      }
    }

    /** Serialises child `i` onto `xs`. */
    method ChildXml(i: nat, xs: seq<Elem>, ghost t0: seq<Elem>) returns (xs': seq<Elem>)
      requires Valid() && Serialised(i, xs, t0) && i < |children|
      modifies children[i].Repr
      decreases Repr, 0, 1
      ensures Valid() && Serialised(i + 1, xs', t0)
    {
      var c := OneChildXml(i);
      xs' := xs + [c];
    }

    /** Serialises child `i`; its siblings are left alone. */
    method OneChildXml(i: nat) returns (c: Elem)
      requires Valid() && i < |children|
      modifies children[i].Repr
      decreases Repr, 0, 0
      ensures Valid()
      ensures c == children[i].Tree() && c == NormTree(old(children[i].Tree()))
      ensures forall j :: 0 <= j < |children| && j != i ==> children[j].Tree() == old(children[j].Tree())
    {
      c := children[i].Xml();
      forall j | 0 <= j < |children| && j != i
        ensures children[j].Repr == old(children[j].Repr)
        ensures children[j].Valid() && children[j].Tree() == old(children[j].Tree())
      {
        assert children[i].Repr !! children[j].Repr;
      }
    }
  }
}
