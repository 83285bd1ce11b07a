/**
 * `Introspector`: the root interface of a service.  Decorating a class makes every
 * construction of it first refuse a `namespace` keyword, then store the whole introspection
 * document as the class's `dbus` attribute, then run the class's own constructor.
 */
module Introspectors {
  import opened Py
  import opened Elements
  import opened Paths
  import opened Classes
  import Interfaces

  /** `Introspector(namespace, *interfaces, **attributes)`: an interface over a dot-normalised namespace. */
  method NewIntrospector(namespace: string, interfaces: seq<Element>, kwargs: seq<(string, Value)>)
    returns (p: Element)
    requires ValidForest(interfaces)
    ensures p.Valid() && fresh(p) && p.Repr == {p} + ReprOf(interfaces)
    ensures p.kind == IntrospectorNode && p.children == interfaces
    ensures p.namespace == Some(DotNotation(namespace)) && NoChar(p.namespace.value, '/')
    ensures |p.namespace.value| == |namespace|
    ensures p.attributes == UntailAll(kwargs) && p.onSignalCallback == None
  {
    DotNotationSpec(namespace);
    p := new Element(IntrospectorNode, Some(DotNotation(namespace)), interfaces, kwargs);
  }

  /** How the node's `name` attribute holds a namespace. */
  function NameValue(namespace: Option<string>): Value
  {
    if namespace.Some? then PyStr(namespace.value) else PyNone
  }

  /** `E.node(interface, name=namespace)`: the document root over the serialised interface. */
  function Document(namespace: Option<string>, x: Elem): (d: Elem)
    ensures d.tag == "node" && d.attributes == map["name" := NameValue(namespace)] && d.children == [x]
  {
    Elem("node", map["name" := NameValue(namespace)], [x])
  }

  /** A document built again from the interface it was built from, unchanged, is the same document. */
  lemma DocumentStable(namespace: Option<string>, t: Elem)
    ensures Document(namespace, NormTree(NormTree(t))) == Document(namespace, NormTree(t))
    ensures NoBools(Document(namespace, NormTree(t)).children[0])
  {
    NormTreeIdempotent(t);
    NormTreeNoBools(t);
  }

  /**
   * `introspector(cls)` of `service.py`: the interface step runs first (AttributeError with no
   * namespace, and the class is left alone); then the class's constructor is wrapped, and the
   * class itself is handed back.
   */
  method DecorateService(p: Element, cls: PyClass) returns (r: Result<PyClass>)
    requires p.Valid() && p.kind == IntrospectorNode
    requires cls.Valid() && p.Repr !! cls.Repr
    modifies p, cls`wrappers, cls`Repr
    ensures p.Valid() && p.children == old(p.children) && cls.Valid()
    ensures old(p.namespace).None? ==>
              r == Err(AttributeError) && p.namespace == None && p.attributes == old(p.attributes) &&
              cls.wrappers == old(cls.wrappers)
    ensures old(p.namespace).Some? ==>
              r == Ok(cls) &&
              p.namespace == Some(JoinPath([old(p.namespace).value, cls.name])) &&
              p.attributes == old(p.attributes)["name" := PyStr(p.namespace.value)] &&
              cls.wrappers == [p] + old(cls.wrappers)
  {
    r := Interfaces.DecorateInterface(p, cls);
    if r.Ok? {
      Wrap(cls, p);
    }
  }

  /** `interface_class.__init__ = decorating__init__`: `p` becomes the outermost wrapper. */
  method Wrap(cls: PyClass, p: Element)
    requires p.Valid() && p.kind == IntrospectorNode
    requires cls.Valid() && p.Repr !! cls.Repr
    modifies cls`wrappers, cls`Repr
    ensures cls.Valid() && cls.wrappers == [p] + old(cls.wrappers) && cls.Repr == p.Repr + old(cls.Repr)
  {
    ghost var ws := cls.wrappers;
    cls.wrappers := [p] + cls.wrappers;
    cls.Repr := p.Repr + cls.Repr;
    assert forall k :: 0 < k < |cls.wrappers| ==> cls.wrappers[k] == ws[k - 1];
  }

  /** The keyword arguments name `namespace`. */
  predicate NamespaceGiven(kwargs: seq<(string, Value)>)
  {
    exists j :: 0 <= j < |kwargs| && kwargs[j].0 == "namespace"
  }

  /** The innermost wrapper, whose document the class's own constructor sees. */
  function Innermost(cls: PyClass): (w: Element)
    reads cls
    requires cls.wrappers != []
    ensures w == cls.wrappers[|cls.wrappers| - 1]
  {
    cls.wrappers[|cls.wrappers| - 1]
  }

  /**
   * Constructing an instance of the class (`cls(*args, **kwargs)`).  With a wrapper in place a
   * `namespace` keyword raises TypeError before anything changes.  Otherwise every wrapper,
   * outermost first, serialises its introspector and stores the document as `dbus`, so the
   * class's own constructor runs after `dbus` holds the document the innermost one builds from
   * its introspector as it is at this construction.
   */
  method Construct(cls: PyClass, instance: Value, args: seq<Value>, kwargs: seq<(string, Value)>)
    returns (r: Result<Value>)
    requires cls.Valid()
    modifies cls`dbus, cls.Repr
    ensures cls.Valid()
    ensures cls.wrappers != [] && NamespaceGiven(kwargs) ==>
              r == Err(TypeError) && cls.dbus == old(cls.dbus) && unchanged(cls.Repr)
    ensures cls.wrappers == [] ==> cls.dbus == old(cls.dbus) && r == RunBase(cls.base, cls.dbus, [instance] + args)
    ensures cls.wrappers != [] && !NamespaceGiven(kwargs) ==>
              var w := Innermost(cls);
              cls.dbus == Some(Document(old(w.namespace), NormTree(old(w.Tree())))) &&
              r == RunBase(cls.base, cls.dbus, [instance] + args) &&
              w.namespace == old(w.namespace) && w.Tree() == NormTree(old(w.Tree()))
  {
    if cls.wrappers != [] && NamespaceGiven(kwargs) {
      return Err(TypeError);
    }
    r := RunWrappers(cls, 0, instance, args);
  }

  /**
   * `decorating__init__` of the wrappers from position `k` inward, the check on the keyword
   * arguments already passed: each stores its document, then the next constructor inward runs.
   */
  method RunWrappers(cls: PyClass, k: nat, instance: Value, args: seq<Value>) returns (r: Result<Value>)
    requires k <= |cls.wrappers| && cls.Valid()
    modifies cls`dbus, cls.Repr
    decreases |cls.wrappers| - k
    ensures cls.Valid()
    ensures k == |cls.wrappers| ==> cls.dbus == old(cls.dbus) && unchanged(cls.Repr)
    ensures k < |cls.wrappers| ==>
              var w := Innermost(cls);
              cls.dbus == Some(Document(old(w.namespace), NormTree(old(w.Tree())))) &&
              w.namespace == old(w.namespace) && w.Tree() == NormTree(old(w.Tree()))
    ensures r == RunBase(cls.base, cls.dbus, [instance] + args)
  {
    if k == |cls.wrappers| {
      r := RunBase(cls.base, cls.dbus, [instance] + args);
      return;
    }
    ghost var w := Innermost(cls);
    ghost var t0, ns0 := w.Tree(), w.namespace;
    StoreDocument(cls, k);
    if k < |cls.wrappers| - 1 {
      assert unchanged(w.Repr);
      assert w.Tree() == t0 && w.namespace == ns0;
      r := RunWrappers(cls, k + 1, instance, args);
    } else {
      ghost var t1 := w.Tree();
      label stored:
      r := RunWrappers(cls, k + 1, instance, args);
      assert unchanged@stored(w.Repr);
      assert w.Tree() == t1;
    }
  }

  /**
   * `self._set_introspection_xml(interface_class)` of the wrapper at position `k`; the
   * innermost wrapper, when it is another one, is left as it was.
   */
  method StoreDocument(cls: PyClass, k: nat)
    requires k < |cls.wrappers| && cls.Valid()
    modifies cls`dbus, cls.wrappers[k].Repr
    ensures cls.Valid()
    ensures cls.dbus == Some(Document(old(cls.wrappers[k].namespace), NormTree(old(cls.wrappers[k].Tree()))))
    ensures cls.wrappers[k].namespace == old(cls.wrappers[k].namespace)
    ensures cls.wrappers[k].Tree() == NormTree(old(cls.wrappers[k].Tree()))
    ensures forall j :: 0 <= j < |cls.wrappers| && j != k ==> unchanged(cls.wrappers[j].Repr)
  {
    var w := cls.wrappers[k];
    ghost var ws := cls.wrappers;
    var x := w.Xml();
    forall j | 0 <= j < |ws| && j != k ensures unchanged(ws[j].Repr) {
      assert ws[j].Repr !! w.Repr;
    }
    SetDbus(cls, Some(Document(w.namespace, x)));
  }

  /** `cls.dbus = document`: the wrapping introspectors are not touched. */
  method SetDbus(cls: PyClass, document: Option<Elem>)
    requires cls.Valid()
    modifies cls`dbus
    ensures cls.Valid() && cls.dbus == document
  {
    cls.dbus := document;
  }

  /**
   * `introspector(cls)` of `introspector.py`: the interface step runs, then the wrapper reads
   * `self._interface_class`, which is never set, so AttributeError is raised and the class is
   * left alone.
   */
  method DecorateSplitService(p: Element, cls: PyClass) returns (r: Result<PyClass>)
    requires p.Valid() && p.kind == IntrospectorNode
    modifies p
    ensures r == Err(AttributeError)
    ensures p.Valid() && p.children == old(p.children)
    ensures old(p.namespace).None? ==> p.namespace == None && p.attributes == old(p.attributes)
    ensures old(p.namespace).Some? ==>
              p.namespace == Some(JoinPath([old(p.namespace).value, cls.name])) &&
              p.attributes == old(p.attributes)["name" := PyStr(p.namespace.value)]
  {
    var _ := Interfaces.DecorateInterface(p, cls);
    r := Err(AttributeError);
  }
}
