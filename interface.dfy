/**
 * `Interface`: an `interface` element that is also a class decorator and a factory of the
 * members declared on the class.  Each member is built in the interface's namespace as it is
 * when the member is declared, and appended after the members declared before it.
 */
module Interfaces {
  import opened Py
  import opened Elements
  import opened Paths
  import opened Classes
  import Args
  import Methods
  import Properties
  import Signals

  /** The elements that carry the interface operations: interfaces and introspectors. */
  predicate IsInterface(i: Element)
  {
    i.kind == InterfaceNode || i.kind == IntrospectorNode
  }

  /** `Interface(namespace, *children, **attributes)`: an `interface` element remembering its namespace. */
  method NewInterface(namespace: Option<string>, children: seq<Element>, kwargs: seq<(string, Value)>)
    returns (i: Element)
    requires ValidForest(children)
    ensures i.Valid() && fresh(i) && i.Repr == {i} + ReprOf(children)
    ensures i.kind == InterfaceNode && i.namespace == namespace && i.children == children
    ensures i.attributes == UntailAll(kwargs) && i.onSignalCallback == None
  {
    i := new Element(InterfaceNode, namespace, children, kwargs);
  }

  /**
   * `interface(cls)`: the namespace becomes `join_path(namespace, cls.__name__)`, the element is
   * named with it, and the class itself is handed back.  With no namespace (None) `join_path`
   * raises AttributeError before anything changes.  The members already declared keep the
   * namespace they were built with.
   */
  method DecorateInterface(i: Element, cls: PyClass) returns (r: Result<PyClass>)
    requires i.Valid() && IsInterface(i)
    modifies i
    ensures i.Valid() && i.Repr == old(i.Repr) && i.children == old(i.children)
    ensures i.onSignalCallback == old(i.onSignalCallback)
    ensures forall c :: c in i.children ==> c.namespace == old(c.namespace)
    ensures old(i.namespace).None? ==>
              r == Err(AttributeError) && i.namespace == None && i.attributes == old(i.attributes)
    ensures old(i.namespace).Some? ==>
              r == Ok(cls) &&
              i.namespace == Some(JoinPath([old(i.namespace).value, cls.name])) &&
              i.attributes == old(i.attributes)["name" := PyStr(i.namespace.value)] &&
              i.Tree() == old(i.Tree()).(attributes := i.attributes)
  {
    if i.namespace.None? {
      return Err(AttributeError);
    }
    var joined := JoinPath([i.namespace.value, cls.name]);
    i.SetNamespace(Some(joined));
    i.SetItem("name", PyStr(joined));
    r := Ok(cls);
  }

  /** The name a decorated interface takes: the namespace and the class name, dotted. */
  lemma DecoratedName(namespace: string, className: string)
    ensures JoinPath([namespace, className]) == DotNotation(namespace) + "." + DotNotation(className)
    ensures NoChar(JoinPath([namespace, className]), '/')
    ensures JoinPath([namespace, className])[..|namespace|] == DotNotation(namespace)
  {
    JoinPathTwo(namespace, className);
    DotNotationSpec(namespace);
  }

  /**
   * `interface.property(*annotations, type_=None, access=READWRITE)` of `service.py`: one
   * `property` element in the current namespace is appended and returned, or the property's
   * TypeError for a child it refuses leaves the interface as it was.
   */
  method ServiceInterfaceProperty(i: Element, annotations: seq<Element>, type_: Value := PyNone,
                                  access: Value := PyStr(READWRITE))
    returns (r: Result<Element>)
    requires i.Valid() && IsInterface(i) && ValidForest(annotations) && ReprOf(annotations) !! i.Repr
    modifies i
    ensures r.Err? <==> exists k :: 0 <= k < |annotations| && !Properties.ServicePropertyChild(annotations[k])
    ensures r.Err? ==> r.error == TypeError && unchanged(i)
    ensures r.Ok? ==> i.Valid() && i.children == old(i.children) + [r.value] && r.value.Valid()
    ensures r.Ok? ==> i.attributes == old(i.attributes) && i.namespace == old(i.namespace)
    ensures r.Ok? ==> i.onSignalCallback == old(i.onSignalCallback)
    ensures r.Ok? ==> r.value.kind == PropertyNode(Properties.ServicePropertyFlags(access))
    ensures r.Ok? ==> r.value.namespace == i.namespace && r.value.children == annotations
    ensures r.Ok? ==> r.value.attributes == UntailAll(Properties.PropertyKwargs(type_, access, []))
  {
    r := ServicePropertyMember(i.namespace, type_, annotations, access, i.Repr);
    if r.Ok? {
      Adopt(i, r.value);
    }
  }

  /** The property element `ServiceInterfaceProperty` appends, sharing nothing with `avoid`. */
  method ServicePropertyMember(namespace: Option<string>, type_: Value, annotations: seq<Element>,
                               access: Value, ghost avoid: set<Element>)
    returns (r: Result<Element>)
    requires ValidForest(annotations) && ReprOf(annotations) !! avoid
    ensures r.Err? <==> exists k :: 0 <= k < |annotations| && !Properties.ServicePropertyChild(annotations[k])
    ensures r.Err? ==> r.error == TypeError
    ensures r.Ok? ==> r.value.Valid() && r.value.Repr !! avoid
    ensures r.Ok? ==> r.value.kind == PropertyNode(Properties.ServicePropertyFlags(access))
    ensures r.Ok? ==> r.value.namespace == namespace && r.value.children == annotations
    ensures r.Ok? ==> r.value.attributes == UntailAll(Properties.PropertyKwargs(type_, access, []))
  {
    r := Properties.NewServiceProperty(namespace, type_, annotations, [], access);
  }

  /**
   * `interface.property(*annotations, type_=None, access=READWRITE, signal_on=[])` of
   * `interface.py`: as above, with the checks and the `signal_on` children of `properties.py`.
   */
  method SplitInterfaceProperty(i: Element, annotations: seq<Element>, type_: Value := PyNone,
                                access: Value := PyStr(READWRITE), signalOn: seq<Properties.Event> := [])
    returns (r: Result<Element>)
    requires i.Valid() && IsInterface(i)
    requires ValidForest(annotations) && Properties.ValidEvents(annotations, signalOn)
    requires ReprOf(annotations) !! i.Repr
    requires forall j :: 0 <= j < |signalOn| ==> Properties.EventRepr(signalOn[j]) !! i.Repr
    modifies i
    ensures r.Err? <==>
              (exists k :: 0 <= k < |annotations| && !Properties.SplitPropertyChild(annotations[k])) ||
              (exists j :: 0 <= j < |signalOn| && !Properties.Accepted(signalOn[j]))
    ensures r.Err? ==> r.error == TypeError && unchanged(i)
    ensures r.Ok? ==> i.Valid() && i.children == old(i.children) + [r.value] && r.value.Valid()
    ensures r.Ok? ==> i.attributes == old(i.attributes) && i.namespace == old(i.namespace)
    ensures r.Ok? ==> i.onSignalCallback == old(i.onSignalCallback)
    ensures r.Ok? ==> r.value.kind == PropertyNode(Properties.SplitPropertyFlags(i.namespace, access, signalOn != []))
    ensures r.Ok? ==> r.value.namespace == i.namespace
    ensures r.Ok? ==> r.value.attributes == UntailAll(Properties.PropertyKwargs(type_, access, []))
    ensures r.Ok? ==> |r.value.children| == |annotations| + |signalOn| && r.value.children[..|annotations|] == annotations
    ensures r.Ok? ==> forall j :: 0 <= j < |signalOn| ==>
                        Properties.AppendedFor(r.value.children[|annotations| + j], signalOn[j])
  {
    r := Properties.NewSplitProperty(i.namespace, type_, annotations, [], access, signalOn, i.Repr);
    if r.Ok? {
      var p := r.value;
      ghost var cs := p.children;
      assert forall j :: 0 <= j < |cs| ==> cs[j] in p.Repr;
      Adopt(i, p);
    }
  }

  /**
   * Appends a member built for the interface: the member and everything below it are left as
   * they are.
   */
  method Adopt(i: Element, member: Element)
    requires i.Valid() && member.Valid() && member.Repr !! i.Repr
    modifies i
    ensures i.Valid() && i.children == old(i.children) + [member]
    ensures i.attributes == old(i.attributes) && i.namespace == old(i.namespace)
    ensures i.onSignalCallback == old(i.onSignalCallback)
    ensures member.Valid()
  {
    i.Append(member);
  }

  /**
   * `interface.method(*children, response=None)`: one `method` element in the current namespace
   * is appended and returned; its children are the given ones, then a response argument when
   * the response type is truthy.
   */
  method InterfaceMethod(i: Element, children: seq<Element>, response: Value := PyNone)
    returns (m: Element)
    requires i.Valid() && IsInterface(i) && ValidForest(children) && ReprOf(children) !! i.Repr
    modifies i
    ensures i.Valid() && i.children == old(i.children) + [m] && m.Valid()
    ensures i.attributes == old(i.attributes) && i.namespace == old(i.namespace)
    ensures i.onSignalCallback == old(i.onSignalCallback)
    ensures m.kind == MethodNode && m.namespace == i.namespace && m.attributes == map[]
    ensures |m.children| == |children| + (if Truthy(response) then 1 else 0)
    ensures m.children[..|children|] == children
    ensures Truthy(response) ==> m.children[|children|].kind == ArgNode && m.children[|children|].children == [] &&
                                 m.children[|children|].attributes == Args.ResponseAttributes(response)
  {
    var packed := PackAvoiding(children, response, i.Repr);
    m := MethodAvoiding(i.namespace, packed, i.Repr);
    Adopt(i, m);
  }

  /** `_pack_response(children, response)` for a member of an interface that shares nothing with `avoid`. */
  method PackAvoiding(children: seq<Element>, response: Value, ghost avoid: set<Element>)
    returns (packed: seq<Element>)
    requires ValidForest(children) && ReprOf(children) !! avoid
    ensures ValidForest(packed) && ReprOf(packed) !! avoid
    ensures |packed| == |children| + (if Truthy(response) then 1 else 0)
    ensures packed[..|children|] == children
    ensures Truthy(response) ==> packed[|children|].kind == ArgNode && packed[|children|].children == [] &&
                                 packed[|children|].attributes == Args.ResponseAttributes(response)
  {
    packed := Args.PackResponse(children, response);
  }

  /** `Method(namespace, *packed)` sharing nothing with `avoid`. */
  method MethodAvoiding(namespace: Option<string>, packed: seq<Element>, ghost avoid: set<Element>)
    returns (m: Element)
    requires ValidForest(packed) && ReprOf(packed) !! avoid
    ensures m.Valid() && m.Repr !! avoid
    ensures m.kind == MethodNode && m.namespace == namespace && m.attributes == map[] && m.children == packed
  {
    m := Methods.NewMethod(namespace, packed, []);
  }

  /** `Signal(namespace, *packed)` of `service.py` sharing nothing with `avoid`. */
  method SignalAvoiding(namespace: Option<string>, packed: seq<Element>, ghost avoid: set<Element>)
    returns (s: Element)
    requires ValidForest(packed) && ReprOf(packed) !! avoid
    ensures s.Valid() && s.Repr !! avoid
    ensures s.kind == SignalNode && s.namespace == namespace && s.attributes == map[] && s.children == packed
  {
    s := Signals.NewServiceSignal(namespace, packed, []);
  }

  /**
   * `interface.signal(*args, response=None)` of `service.py`: `Response(response)` raises
   * TypeError for a falsy response before anything changes.  Otherwise that response element
   * is itself handed to `_pack_response` as the type of a second response argument; it stands
   * here as the object `PyObj(responseId)`.  One `signal` element over the arguments and that
   * second response is appended and returned.
   */
  method ServiceInterfaceSignal(i: Element, args: seq<Element>, response: Value, responseId: nat)
    returns (r: Result<Element>)
    requires i.Valid() && IsInterface(i) && ValidForest(args) && ReprOf(args) !! i.Repr
    modifies i
    ensures r.Err? <==> !Truthy(response)
    ensures r.Err? ==> r.error == TypeError && unchanged(i)
    ensures r.Ok? ==> i.Valid() && i.children == old(i.children) + [r.value] && r.value.Valid()
    ensures r.Ok? ==> i.attributes == old(i.attributes) && i.namespace == old(i.namespace)
    ensures r.Ok? ==> r.value.kind == SignalNode && r.value.namespace == i.namespace && r.value.attributes == map[]
    ensures r.Ok? ==> |r.value.children| == |args| + 1 && r.value.children[..|args|] == args
    ensures r.Ok? ==> r.value.children[|args|].kind == ArgNode && r.value.children[|args|].children == [] &&
                      r.value.children[|args|].attributes == Args.ResponseAttributes(PyObj(responseId))
  {
    var made := ResponseMade(response);
    if !made {
      return Err(TypeError);
    }
    var s := PackedSignal(i.namespace, args, PyObj(responseId), i.Repr);
    Adopt(i, s);
    r := Ok(s);
  }

  /** Whether `Response(response)` is built rather than raising TypeError. */
  method ResponseMade(response: Value) returns (made: bool)
    ensures made <==> Truthy(response)
  {
    var inner := Args.NewResponse(response);
    made := inner.Ok?;
  }

  /** `Signal(namespace, *_pack_response(args, response))` of `service.py`, sharing nothing with `avoid`. */
  method PackedSignal(namespace: Option<string>, args: seq<Element>, response: Value, ghost avoid: set<Element>)
    returns (s: Element)
    requires ValidForest(args) && ReprOf(args) !! avoid && Truthy(response)
    ensures s.Valid() && s.Repr !! avoid
    ensures s.kind == SignalNode && s.namespace == namespace && s.attributes == map[]
    ensures |s.children| == |args| + 1 && s.children[..|args|] == args
    ensures s.children[|args|].kind == ArgNode && s.children[|args|].children == [] &&
            s.children[|args|].attributes == Args.ResponseAttributes(response)
  {
    var packed := PackAvoiding(args, response, avoid);
    s := SignalAvoiding(namespace, packed, avoid);
  }

  /**
   * `interface.signal(*annotations, response=None)` of `interface.py` reads `args` before
   * assigning it, so every call raises UnboundLocalError (a NameError) and nothing changes.
   */
  function SplitInterfaceSignal(i: Element, annotations: seq<Element>, response: Value): (r: Result<Element>)
    ensures r.Err? && r.error == NameError
  {
    Err(NameError)
  }
}
