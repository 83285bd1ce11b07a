/**
 * Property elements and the descriptors their decorators hand back.
 *
 * `service.py`'s `Property` checks its children, records two access flags and turns the
 * decorated function into a builtin `property`.  The `Property` of `properties.py` also takes
 * a list of events to signal on, each of which becomes one more child, and hands back a
 * `SignallingPropertyDescriptor`, whose setter and emitter can be replaced later.
 */
module Properties {
  import opened Py
  import opened Elements
  import opened Annotations
  import opened Signals
  import DBusDeco

  /** `access in (READWRITE, WRITE)`: whether the access mode asks for a setter. */
  predicate NeedsSetter(access: Value)
  {
    PyIn(access, [PyStr(READWRITE), PyStr(WRITE)])
  }

  /** Only the two writable modes ask for a setter; no number is equal to either string. */
  lemma NeedsSetterValues(access: Value)
    ensures NeedsSetter(access) <==> access == PyStr(READWRITE) || access == PyStr(WRITE)
  {
    var modes := [PyStr(READWRITE), PyStr(WRITE)];
    if access == PyStr(READWRITE) {
      assert PyEq(access, modes[0]);
    } else if access == PyStr(WRITE) {
      assert PyEq(access, modes[1]);
    } else {
      assert !PyEq(access, modes[0]) && !PyEq(access, modes[1]);
    }
  }

  /** The flags `service.py`'s `Property` records: `needs_setter` and `only_setter`. */
  function ServicePropertyFlags(access: Value): (f: PropertyFlags)
    ensures f.ServiceFlags?
    ensures f.needsSetter <==> access == PyStr(READWRITE) || access == PyStr(WRITE)
    ensures f.onlySetter <==> access == PyStr(WRITE)
  {
    NeedsSetterValues(access);
    ServiceFlags(NeedsSetter(access), PyEq(access, PyStr(WRITE)))
  }

  /**
   * The flags the `Property` of `properties.py` records: `needs_setter`, `write_only`,
   * `read_only`, and the emitter, bound to the namespace, that it creates when it signals.
   */
  function SplitPropertyFlags(namespace: Option<string>, access: Value, signalling: bool): (f: PropertyFlags)
    ensures f.SplitFlags?
    ensures f.needsSetter <==> access == PyStr(READWRITE) || access == PyStr(WRITE)
    ensures f.writeOnly <==> access == PyStr(WRITE)
    ensures f.readOnly <==> access == PyStr(READ)
    ensures f.emitter.Some? <==> signalling
    ensures f.emitter.Some? ==> f.emitter.value.namespace == namespace
  {
    NeedsSetterValues(access);
    SplitFlags(NeedsSetter(access), PyEq(access, PyStr(WRITE)), PyEq(access, PyStr(READ)),
               if signalling then Some(EmitterInfo(namespace)) else None)
  }

  /** A write-only property reads as neither readable nor read-only; the other modes exclude each other too. */
  lemma AccessModesExclusive(namespace: Option<string>, access: Value, signalling: bool)
    ensures var f := SplitPropertyFlags(namespace, access, signalling);
              (f.writeOnly ==> f.needsSetter && !f.readOnly) && (f.readOnly ==> !f.needsSetter)
    ensures ServicePropertyFlags(access).onlySetter ==> ServicePropertyFlags(access).needsSetter
    ensures SplitPropertyFlags(namespace, access, signalling).needsSetter == ServicePropertyFlags(access).needsSetter
    ensures SplitPropertyFlags(namespace, access, signalling).writeOnly == ServicePropertyFlags(access).onlySetter
  {
  }

  /**
   * The keyword arguments a property hands to the element: `type_` and `access` first, then
   * the extra attributes.
   */
  function PropertyKwargs(type_: Value, access: Value, kwargs: seq<(string, Value)>): seq<(string, Value)>
  {
    [("type_", type_), ("access", access)] + kwargs
  }

  /** Unless an extra attribute overrides them, a property element carries its type and its access mode. */
  lemma PropertyAttributes(type_: Value, access: Value, kwargs: seq<(string, Value)>)
    requires forall j :: 0 <= j < |kwargs| ==> Untail(kwargs[j].0) != "type" && Untail(kwargs[j].0) != "access"
    ensures "type" in UntailAll(PropertyKwargs(type_, access, kwargs))
    ensures "access" in UntailAll(PropertyKwargs(type_, access, kwargs))
    ensures UntailAll(PropertyKwargs(type_, access, kwargs))["type"] == type_
    ensures UntailAll(PropertyKwargs(type_, access, kwargs))["access"] == access
    ensures "type_" !in UntailAll(PropertyKwargs(type_, access, kwargs))
  {
    var all := PropertyKwargs(type_, access, kwargs);
    assert Untail("type_") == "type" && Untail("access") == "access";
    UntailAllLastWins(all, 0);
    UntailAllLastWins(all, 1);
  }

  /** The children `service.py`'s `Property` accepts: its own properties and annotations. */
  predicate ServicePropertyChild(e: Element)
  {
    e.kind == AnnotationNode(ServiceModule) || (e.kind.PropertyNode? && e.kind.flags.ServiceFlags?)
  }

  /**
   * `Property(namespace, type_, *children, access=READWRITE, **attributes)` of `service.py`:
   * TypeError for any other child; otherwise a `property` element over the children.
   */
  method NewServiceProperty(namespace: Option<string>, type_: Value, children: seq<Element>,
                            kwargs: seq<(string, Value)>, access: Value := PyStr(READWRITE))
    returns (r: Result<Element>)
    requires ValidForest(children)
    ensures r.Err? <==> exists i :: 0 <= i < |children| && !ServicePropertyChild(children[i])
    ensures r.Err? ==> r.error == TypeError
    ensures r.Ok? ==> r.value.Valid() && fresh(r.value.Repr - ReprOf(children)) && r.value.Repr == {r.value} + ReprOf(children)
    ensures r.Ok? ==> r.value.kind == PropertyNode(ServicePropertyFlags(access)) && r.value.children == children
    ensures r.Ok? ==> r.value.namespace == namespace && r.value.onSignalCallback == None
    ensures r.Ok? ==> r.value.attributes == UntailAll(PropertyKwargs(type_, access, kwargs))
  {
    var i := 0;
    while i < |children|
      invariant 0 <= i <= |children|
      invariant forall j :: 0 <= j < i ==> ServicePropertyChild(children[j])
    {
      if !ServicePropertyChild(children[i]) {
        return Err(TypeError);
      }
      i := i + 1;
    }
    var p := new Element(PropertyNode(ServicePropertyFlags(access)), namespace, children,
                         PropertyKwargs(type_, access, kwargs));
    r := Ok(p);
  }

  /** The getter of a write-only property: `lambda *_, **__: None`. */
  const NoneGetter: PyFunc := PyFunc("<lambda>", PyNone, _ => Ok(PyNone))

  /** The placeholder setter of a readable and writable property. */
  const FakeSetter: PyFunc :=
    PyFunc("fake_setter", PyNone, _ => Err(NotImplementedError))

  /**
   * The builtin `property` that a `service.py` property hands back for the decorated function:
   * write-only properties read as None and write through the function; readable and writable
   * ones read through it and refuse writes until a setter is given; read-only ones refuse
   * writes with AttributeError.  None of them can be deleted.
   */
  function ServiceAccessors(flags: PropertyFlags, func: PyFunc): (d: DBusDeco.DBusProperty)
    requires flags.ServiceFlags?
    ensures d.fdel == None && d.name == PyNone && d.interface == PyNone && d.doc == func.doc
    ensures flags.onlySetter ==> forall obj :: obj != PyNone ==> DBusDeco.Get(d, obj) == Ok(DBusDeco.Attribute(PyNone))
    ensures flags.onlySetter ==> forall obj, v :: DBusDeco.Set(d, obj, v) == DBusDeco.Discard(func.impl([obj, v]))
    ensures !flags.onlySetter ==> d.fget == Some(func)
    ensures !flags.onlySetter && flags.needsSetter ==>
              forall obj, v :: DBusDeco.Set(d, obj, v) == Err(NotImplementedError)
    ensures !flags.onlySetter && !flags.needsSetter ==>
              forall obj, v :: DBusDeco.Set(d, obj, v) == Err(AttributeError)
  {
    if flags.onlySetter then DBusDeco.NewDBusProperty(Some(NoneGetter), Some(func), None, func.doc)
    else if flags.needsSetter then DBusDeco.NewDBusProperty(Some(func), Some(FakeSetter))
    else DBusDeco.NewDBusProperty(Some(func))
  }

  /** What reading, writing and deleting through a `service.py` property does, by access mode. */
  lemma ServiceAccessModes(access: Value, func: PyFunc, obj: Value, v: Value)
    requires obj != PyNone
    ensures var d := ServiceAccessors(ServicePropertyFlags(access), func);
              if access == PyStr(WRITE) then
                DBusDeco.Get(d, obj) == Ok(DBusDeco.Attribute(PyNone)) &&
                DBusDeco.Set(d, obj, v) == DBusDeco.Discard(func.impl([obj, v]))
              else
                DBusDeco.Get(d, obj) == DBusDeco.AsAttribute(func.impl([obj])) &&
                DBusDeco.Set(d, obj, v) == Err(if access == PyStr(READWRITE) then NotImplementedError else AttributeError)
    ensures DBusDeco.Delete(ServiceAccessors(ServicePropertyFlags(access), func), obj) == Err(AttributeError)
    ensures DBusDeco.Get(ServiceAccessors(ServicePropertyFlags(access), func), PyNone) ==
              Ok(DBusDeco.Descriptor(ServiceAccessors(ServicePropertyFlags(access), func)))
  {
    var d := ServiceAccessors(ServicePropertyFlags(access), func);
    if access != PyStr(WRITE) {
      assert d.fget == Some(func);
    }
  }

  /**
   * `service.Property.__call__(func)`: the element takes the function's name and a builtin
   * `property` for the function is handed back.
   */
  method DecorateServiceProperty(p: Element, func: PyFunc) returns (d: DBusDeco.DBusProperty)
    requires p.Valid() && p.kind.PropertyNode? && p.kind.flags.ServiceFlags?
    modifies p
    ensures p.Valid() && p.Repr == old(p.Repr) && p.children == old(p.children)
    ensures p.attributes == old(p.attributes)["name" := PyStr(func.name)]
    ensures p.Tree() == old(p.Tree()).(attributes := p.attributes)
    ensures d == ServiceAccessors(p.kind.flags, func)
  {
    var _ := p.Decorate(func);
    d := ServiceAccessors(p.kind.flags, func);
  }

  /**
   * Replacing the placeholder setter of a readable and writable `service.py` property with the
   * builtin `setter(f)`: assignment then calls `f` instead of raising NotImplementedError.
   */
  lemma ServiceSetterReplacesFake(func: PyFunc, f: PyFunc, obj: Value, v: Value)
    ensures DBusDeco.Set(ServiceAccessors(ServicePropertyFlags(PyStr(READWRITE)), func), obj, v) == Err(NotImplementedError)
    ensures DBusDeco.Set(DBusDeco.BuiltinSetter(ServiceAccessors(ServicePropertyFlags(PyStr(READWRITE)), func), f), obj, v) ==
              DBusDeco.Discard(f.impl([obj, v]))
    ensures DBusDeco.BuiltinSetter(ServiceAccessors(ServicePropertyFlags(PyStr(READWRITE)), func), f).fget == Some(func)
  {
  }

  /** A setter or emitter as stored on a descriptor: a plain function, a classmethod or a staticmethod. */
  datatype Accessor = Plain(f: PyFunc) | ClassMethod(f: PyFunc) | StaticMethod(f: PyFunc)

  /** `setter` and `emitter` wrap a plain function in `classmethod`; the wrapped kinds are kept. */
  function AsClassMethod(a: Accessor): (b: Accessor)
    ensures b.f == a.f && !b.Plain?
    ensures !a.Plain? ==> b == a
  {
    if a.Plain? then ClassMethod(a.f) else a
  }

  /**
   * `accessor.__get__(obj, cls)(*args)`: a plain function is bound to the instance (and left
   * unbound for class access, `obj` None), a classmethod to the class, a staticmethod to nothing.
   */
  function Invoke(a: Accessor, obj: Value, cls: Value, args: seq<Value>): (r: Result<Value>)
    ensures a.Plain? && obj != PyNone ==> r == a.f.impl([obj] + args)
    ensures a.Plain? && obj == PyNone ==> r == a.f.impl(args)
    ensures a.ClassMethod? ==> r == a.f.impl([cls] + args)
    ensures a.StaticMethod? ==> r == a.f.impl(args)
  {
    match a
    case Plain(f) => if obj != PyNone then f.impl([obj] + args) else f.impl(args)
    case ClassMethod(f) => f.impl([cls] + args)
    case StaticMethod(f) => f.impl(args)
  }

  /**
   * What `SignallingPropertyDescriptor.__set__` makes of the setter's outcome: its value is
   * returned, and whatever it raises turns into NameError, as the handler names the
   * module-level `signal`, which is not defined.
   */
  function Settled(outcome: Result<Value>): (r: Result<Value>)
    ensures outcome.Ok? ==> r == outcome
    ensures outcome.Err? ==> r == Err(NameError)
  {
    if outcome.Ok? then outcome else Err(NameError)
  }

  /**
   * `__get__(obj, cls)`: the getter bound to the instance and called; for class access (`obj`
   * None) the unbound getter is called with no arguments at all.
   */
  function DescriptorGet(fget: PyFunc, obj: Value): (r: Result<Value>)
    ensures r == Invoke(Plain(fget), obj, PyNone, [])
    ensures obj != PyNone ==> r == fget.impl([obj])
    ensures obj == PyNone ==> r == fget.impl([])
  {
    assert [obj] + [] == [obj];
    Invoke(Plain(fget), obj, PyNone, [])
  }

  /** `__set__(obj, value)`: AttributeError without a setter; otherwise the setter's settled outcome. */
  function DescriptorSet(fset: Option<Accessor>, obj: Value, cls: Value, value: Value): (r: Result<Value>)
    ensures fset.None? ==> r == Err(AttributeError)
    ensures r.Err? ==> r.error in {AttributeError, NameError}
    ensures fset.Some? ==> (r.Ok? <==> Invoke(fset.value, obj, cls, [value]).Ok?)
  {
    match fset
    case None => Err(AttributeError)
    case Some(a) => Settled(Invoke(a, obj, cls, [value]))
  }

  /**
   * `Property.__call__`'s choice of getter and setter in `properties.py`: a write-only property
   * reads as None and writes through the function; a readable and writable one reads through
   * it and, until a setter is given, refuses writes with the NameError its placeholder's
   * NotImplementedError turns into; a read-only one refuses writes with AttributeError.
   */
  function SplitAccessors(flags: PropertyFlags, func: PyFunc): (r: (PyFunc, Option<Accessor>))
    requires flags.SplitFlags?
    ensures flags.writeOnly ==>
              r.0.name == "<lambda>" && r.0.doc == PyNone && forall obj :: DescriptorGet(r.0, obj) == Ok(PyNone)
    ensures flags.writeOnly ==> forall obj, cls, v :: obj != PyNone ==> DescriptorSet(r.1, obj, cls, v) == Settled(func.impl([obj, v]))
    ensures !flags.writeOnly ==> r.0 == func
    ensures !flags.writeOnly && flags.needsSetter ==>
              forall obj, cls, v :: DescriptorSet(r.1, obj, cls, v) == Err(NameError)
    ensures !flags.writeOnly && !flags.needsSetter ==>
              forall obj, cls, v :: DescriptorSet(r.1, obj, cls, v) == Err(AttributeError)
  {
    assert forall obj: Value, v: Value :: [obj] + [v] == [obj, v];
    if flags.writeOnly then (NoneGetter, Some(Plain(func)))
    else if flags.needsSetter then (func, Some(Plain(FakeSetter)))
    else (func, None)
  }

  /** What reading and writing through a `properties.py` property does, by access mode. */
  lemma SplitAccessModes(namespace: Option<string>, access: Value, signalling: bool, func: PyFunc,
                         obj: Value, cls: Value, v: Value)
    requires obj != PyNone
    ensures var acc := SplitAccessors(SplitPropertyFlags(namespace, access, signalling), func);
              if access == PyStr(WRITE) then
                DescriptorGet(acc.0, obj) == Ok(PyNone) &&
                DescriptorSet(acc.1, obj, cls, v) == Settled(func.impl([obj, v]))
              else
                DescriptorGet(acc.0, obj) == func.impl([obj]) &&
                DescriptorSet(acc.1, obj, cls, v) == Err(if access == PyStr(READWRITE) then NameError else AttributeError)
  {
    var acc := SplitAccessors(SplitPropertyFlags(namespace, access, signalling), func);
    if access != PyStr(WRITE) {
      assert acc.0 == func;
    }
  }

  /** `SignallingPropertyDescriptor`: a getter, a replaceable setter and emitter, a name and a doc. */
  class SignallingPropertyDescriptor {
    const fget: PyFunc
    var name: string
    var fset: Option<Accessor>
    var femit: Accessor
    const namespace: Option<string>
    var doc: Value

    /**
     * `SignallingPropertyDescriptor(fget, fset, femit, namespace, doc)`: the emitter defaults
     * to the getter, the name is the getter's, and a falsy doc is taken from the getter.
     */
    constructor (fget: PyFunc, fset: Option<Accessor>, femit: Option<Accessor>, namespace: Option<string>, doc: Value)
      ensures this.fget == fget && this.fset == fset && this.namespace == namespace
      ensures this.femit == (if femit.Some? then femit.value else Plain(fget))
      ensures name == fget.name
      ensures this.doc == Or(doc, fget.doc)
    {
      this.fget := fget;
      name := fget.name;
      this.fset := fset;
      this.femit := if femit.Some? then femit.value else Plain(fget);
      this.namespace := namespace;
      this.doc := doc;
      new;
      CollectValues(fget);
    }

    /** `__collect_values(func)`: fills in a missing doc and a missing name from `func`. */
    method CollectValues(func: PyFunc)
      modifies this`doc, this`name
      ensures doc == Or(old(doc), func.doc)
      ensures name == (if old(name) != "" then old(name) else func.name)
    {
      if !Truthy(doc) {
        doc := func.doc;
      }
      if name == "" {
        name := func.name;
      }
    }

    /** `descriptor.__get__(obj, cls)`: class access (`obj` None) calls the getter with no arguments. */
    function Get(obj: Value): (r: Result<Value>)
      ensures obj != PyNone ==> r == fget.impl([obj])
      ensures obj == PyNone ==> r == fget.impl([])
    {
      DescriptorGet(fget, obj)
    }

    /** `descriptor.__set__(obj, value)`, for an instance `obj` of class `cls`. */
    function Set(obj: Value, cls: Value, value: Value): (r: Result<Value>)
      reads this
      ensures fset.None? ==> r == Err(AttributeError)
      ensures r.Err? ==> r.error in {AttributeError, NameError}
    {
      DescriptorSet(fset, obj, cls, value)
    }

    /**
     * `setter(func)`: the setter is replaced (a plain function becoming a classmethod), the
     * doc and name are completed from it, and the same descriptor is handed back.
     */
    method Setter(func: Accessor) returns (self: SignallingPropertyDescriptor)
      modifies this
      ensures self == this
      ensures fset == Some(AsClassMethod(func)) && femit == old(femit)
      ensures doc == Or(old(doc), func.f.doc)
      ensures name == (if old(name) != "" then old(name) else func.f.name)
      ensures forall obj, cls, v :: Set(obj, cls, v) == Settled(Invoke(AsClassMethod(func), obj, cls, [v]))
    {
      fset := Some(AsClassMethod(func));
      CollectValues(AsClassMethod(func).f);
      self := this;
    }

    /** `emitter(func)`: as `setter`, for the emitter. */
    method Emitter(func: Accessor) returns (self: SignallingPropertyDescriptor)
      modifies this
      ensures self == this
      ensures femit == AsClassMethod(func) && fset == old(fset)
      ensures doc == Or(old(doc), func.f.doc)
      ensures name == (if old(name) != "" then old(name) else func.f.name)
    {
      femit := AsClassMethod(func);
      CollectValues(AsClassMethod(func).f);
      self := this;
    }
  }

  /**
   * `properties.Property.__call__(func)`: the element takes the function's name and a new
   * descriptor is handed back, with the getter and setter its access mode calls for, the
   * getter as emitter, the property's namespace, the getter's name, and the function's doc.
   */
  method DecorateSplitProperty(p: Element, func: PyFunc) returns (d: SignallingPropertyDescriptor)
    requires p.Valid() && p.kind.PropertyNode? && p.kind.flags.SplitFlags?
    modifies p
    ensures p.Valid() && p.Repr == old(p.Repr) && p.children == old(p.children)
    ensures p.attributes == old(p.attributes)["name" := PyStr(func.name)]
    ensures p.Tree() == old(p.Tree()).(attributes := p.attributes)
    ensures fresh(d) && d.namespace == p.namespace
    ensures (d.fget, d.fset) == SplitAccessors(p.kind.flags, func)
    ensures d.femit == Plain(d.fget) && d.name == d.fget.name
    ensures d.doc == (if p.kind.flags.writeOnly then Or(func.doc, PyNone) else func.doc)
  {
    var acc := SplitAccessors(p.kind.flags, func);
    d := new SignallingPropertyDescriptor(acc.0, acc.1, None, p.namespace, func.doc);
    var _ := p.Decorate(func);
  }

  /** An entry of `signal_on`: a plain value, or an element (valid when it is an annotation). */
  datatype Event = EventValue(value: Value) | EventElement(element: Element)

  /** The attributes of an annotation built from the `(name, value)` its constructor settles on. */
  function AnnotationAttributes(attrs: Result<(Value, Value)>): Result<map<string, Value>>
  {
    match attrs
    case Err(e) => Err(e)
    case Ok((name, value)) => Ok(map["name" := name, "value" := value])
  }

  /**
   * The values `Property` accepts as entries: one equal to `Events.ON_PROPERTY_CHANGE`, or a
   * pair whose value is not None (an annotation needs a value, and `Annotation` has no default).
   */
  predicate AcceptedValue(v: Value)
  {
    PyEq(v, PyStr(ON_PROPERTY_CHANGE)) || (v.PyList? && |v.items| == 2 && v.items[1] != PyNone)
  }

  /**
   * The attributes of the annotation a value entry becomes, tested in this order: a value equal
   * to `Events.ON_PROPERTY_CHANGE` gives `PropertyEmitsChangedSignal(value=True)`, a pair gives
   * `Annotation(name=pair[0], value=pair[1])`, and anything else is refused with TypeError.
   */
  function ValueAttributes(v: Value): (r: Result<map<string, Value>>)
    ensures r.Ok? <==> AcceptedValue(v)
    ensures r.Err? ==> r.error == TypeError
  {
    if PyEq(v, PyStr(ON_PROPERTY_CHANGE)) then
      AnnotationAttributes(SplitSubclass(PropertyEmitsChangedSignal, PyBool(true)))
    else if v.PyList? && |v.items| == 2 then
      AnnotationAttributes(SplitAnnotation(BaseAnnotation, v.items[0], v.items[1]))
    else Err(TypeError)
  }

  /** What each kind of value entry becomes. */
  lemma ValueAttributesCases(v: Value)
    ensures v == PyStr(ON_PROPERTY_CHANGE) ==>
              ValueAttributes(v) == Ok(map["name" := PyStr(PROPERTY_EMITS_CHANGED_SIGNAL), "value" := PyBool(true)])
    ensures v.PyList? && |v.items| == 2 && Truthy(v.items[1]) ==>
              ValueAttributes(v) == Ok(map["name" := Or(v.items[0], PyNone), "value" := v.items[1]])
    ensures v.PyList? && |v.items| == 2 && v.items[1] == PyNone ==> ValueAttributes(v) == Err(TypeError)
    ensures v.PyList? && |v.items| != 2 ==> ValueAttributes(v) == Err(TypeError)
    ensures (v.PyStr? || v.PyNone? || v.PyObj? || v.PyDict?) && v != PyStr(ON_PROPERTY_CHANGE) ==>
              ValueAttributes(v) == Err(TypeError)
  {
    if v.PyList? {
      assert !PyEq(v, PyStr(ON_PROPERTY_CHANGE));
    }
  }

  /** `a` is the annotation made for the value entry `v`: no children, and the attributes `v` gives. */
  ghost predicate AnnotationFor(a: Element, v: Value)
    reads a
  {
    a.kind == AnnotationNode(SplitModules) && a.children == [] && Ok(a.attributes) == ValueAttributes(v)
  }

  /**
   * Whether `Property` accepts an entry: a value as `AcceptedValue` says, an element when it is
   * an annotation of `annotations.py` (which is then appended as it is).
   */
  predicate Accepted(ev: Event)
  {
    if ev.EventValue? then AcceptedValue(ev.value) else ev.element.kind == AnnotationNode(SplitModules)
  }

  /** The child appended for an entry: the entry's own element, or the annotation made for its value. */
  ghost predicate AppendedFor(child: Element, ev: Event)
    reads child
  {
    if ev.EventElement? then child == ev.element else AnnotationFor(child, ev.value)
  }

  /** The objects an entry brings along: an element's whole tree, nothing for a value. */
  ghost function EventRepr(ev: Event): set<Element>
    reads if ev.EventElement? then {ev.element} else {}
  {
    if ev.EventElement? then ev.element.Repr else {}
  }

  /** An element entry is a valid tree. */
  ghost predicate EventValid(ev: Event)
    reads if ev.EventElement? then {ev.element} + ev.element.Repr else {}
  {
    ev.EventElement? ==> ev.element in ev.element.Repr && ev.element.Valid()
  }

  /** The elements among the entries. */
  ghost function EventElements(events: seq<Event>): (es: set<Element>)
    ensures forall j :: 0 <= j < |events| && events[j].EventElement? ==> events[j].element in es
  {
    set j | 0 <= j < |events| && events[j].EventElement? :: events[j].element
  }

  /** The objects the element entries bring along. */
  ghost function EventsRepr(events: seq<Event>): (os: set<Element>)
    reads EventElements(events)
    ensures forall j :: 0 <= j < |events| && events[j].EventElement? ==> events[j].element.Repr <= os
  {
    set j, o | 0 <= j < |events| && events[j].EventElement? && o in events[j].element.Repr :: o
  }

  /** Every element entry is a valid tree. */
  ghost predicate EventsValid(events: seq<Event>)
    reads EventElements(events), EventsRepr(events)
  {
    forall j :: 0 <= j < |events| ==> EventValid(events[j])
  }

  /**
   * Entries that can all be appended under a property with `children`: each element entry a
   * valid tree, sharing no object with the children or with another entry.
   */
  ghost predicate ValidEvents(children: seq<Element>, events: seq<Event>)
    reads children, ReprOf(children), EventElements(events), EventsRepr(events)
  {
    EventsValid(events) &&
    (forall j :: 0 <= j < |events| ==> EventRepr(events[j]) !! ReprOf(children)) &&
    (forall j, k :: 0 <= j < k < |events| ==> EventRepr(events[j]) !! EventRepr(events[k]))
  }

  /** What the `Property` of `properties.py` checks its children for: annotations of `annotations.py`. */
  predicate SplitPropertyChild(e: Element)
  {
    e.kind == AnnotationNode(SplitModules)
  }

  /**
   * `Property(namespace, type_, *children, access=READWRITE, signal_on=[], **attributes)` of
   * `properties.py`: TypeError for a child that is not an annotation, or for an entry of
   * `signal_on` that is refused; otherwise a `property` element over the children followed by
   * one child per entry, in order, each as `AppendedFor` says.
   */
  method NewSplitProperty(namespace: Option<string>, type_: Value, children: seq<Element>,
                          kwargs: seq<(string, Value)>, access: Value := PyStr(READWRITE),
                          signalOn: seq<Event> := [], ghost avoid: set<Element> := {})
    returns (r: Result<Element>)
    requires ValidForest(children) && ValidEvents(children, signalOn)
    requires ReprOf(children) !! avoid && forall j :: 0 <= j < |signalOn| ==> EventRepr(signalOn[j]) !! avoid
    ensures r.Err? <==>
              (exists i :: 0 <= i < |children| && !SplitPropertyChild(children[i])) ||
              (exists j :: 0 <= j < |signalOn| && !Accepted(signalOn[j]))
    ensures r.Err? ==> r.error == TypeError
    ensures r.Ok? ==> r.value.Valid() && fresh(r.value)
    ensures r.Ok? ==> r.value.kind == PropertyNode(SplitPropertyFlags(namespace, access, signalOn != []))
    ensures r.Ok? ==> r.value.namespace == namespace && r.value.onSignalCallback == None
    ensures r.Ok? ==> r.value.attributes == UntailAll(PropertyKwargs(type_, access, kwargs))
    ensures r.Ok? ==> |r.value.children| == |children| + |signalOn| && r.value.children[..|children|] == children
    ensures r.Ok? ==> forall j :: 0 <= j < |signalOn| ==> AppendedFor(r.value.children[|children| + j], signalOn[j])
    ensures r.Ok? ==> r.value.Repr !! avoid
  {
    var c := 0;
    while c < |children|
      invariant 0 <= c <= |children|
      invariant forall j :: 0 <= j < c ==> SplitPropertyChild(children[j])
    {
      if !SplitPropertyChild(children[c]) {
        return Err(TypeError);
      }
      c := c + 1;
    }
    var p := SplitPropertyElement(namespace, type_, children, kwargs, access, signalOn != []);
    var res, added := AppendEvents(p, signalOn, avoid);
    if res.Err? {
      return Err(TypeError);
    }
    ConcatIndex(children, added);
    r := Ok(p);
  }

  /** The indices past a prefix address the suffix. */
  lemma ConcatIndex<T>(a: seq<T>, b: seq<T>)
    ensures (a + b)[..|a|] == a
    ensures forall j :: 0 <= j < |b| ==> (a + b)[|a| + j] == b[j]
  {
  }

  /** The `property` element before any entry of `signal_on` is appended. */
  method SplitPropertyElement(namespace: Option<string>, type_: Value, children: seq<Element>,
                              kwargs: seq<(string, Value)>, access: Value, signalling: bool)
    returns (p: Element)
    requires ValidForest(children)
    ensures p.Valid() && fresh(p) && p.Repr == {p} + ReprOf(children)
    ensures p.kind == PropertyNode(SplitPropertyFlags(namespace, access, signalling))
    ensures p.namespace == namespace && p.onSignalCallback == None
    ensures p.attributes == UntailAll(PropertyKwargs(type_, access, kwargs))
    ensures p.children == children
  {
    p := new Element(PropertyNode(SplitPropertyFlags(namespace, access, signalling)), namespace, children,
                     PropertyKwargs(type_, access, kwargs));
  }

  /** `for event in signal_on: ...`: appends the child each entry becomes, in order, until one is refused. */
  method AppendEvents(p: Element, signalOn: seq<Event>, ghost avoid: set<Element>)
    returns (r: Result<()>, ghost added: seq<Element>)
    requires p.Valid() && EventsValid(signalOn)
    requires p.Repr !! avoid && forall j :: 0 <= j < |signalOn| ==> EventRepr(signalOn[j]) !! avoid
    requires forall j :: 0 <= j < |signalOn| ==> EventRepr(signalOn[j]) !! p.Repr
    requires forall j, k :: 0 <= j < k < |signalOn| ==> EventRepr(signalOn[j]) !! EventRepr(signalOn[k])
    modifies p
    ensures r.Err? <==> exists j :: 0 <= j < |signalOn| && !Accepted(signalOn[j])
    ensures r.Err? ==> r.error == TypeError
    ensures r.Ok? ==> p.Valid() && p.attributes == old(p.attributes)
    ensures r.Ok? ==> p.namespace == old(p.namespace) && p.onSignalCallback == old(p.onSignalCallback)
    ensures r.Ok? ==> p.children == old(p.children) + added && |added| == |signalOn|
    ensures r.Ok? ==> forall j :: 0 <= j < |signalOn| ==> AppendedFor(added[j], signalOn[j])
    ensures r.Ok? ==> p.Repr !! avoid
  {
    ghost var reprs := seq(|signalOn|, j requires 0 <= j < |signalOn| reads EventElements(signalOn) => EventRepr(signalOn[j]));
    ghost var c0 := p.children;
    added := [];
    var i := 0;
    while i < |signalOn|
      invariant 0 <= i <= |signalOn|
      invariant forall j :: 0 <= j < i ==> Accepted(signalOn[j])
      invariant p.Valid() && p.attributes == old(p.attributes)
      invariant p.namespace == old(p.namespace) && p.onSignalCallback == old(p.onSignalCallback)
      invariant p.children == c0 + added && |added| == i
      invariant forall j :: 0 <= j < i ==> added[j] != p && AppendedFor(added[j], signalOn[j])
      invariant forall j, k :: 0 <= j < k < |signalOn| ==> reprs[j] !! reprs[k]
      invariant forall j :: i <= j < |signalOn| ==> EventValid(signalOn[j]) && EventRepr(signalOn[j]) == reprs[j]
      invariant forall j :: i <= j < |signalOn| ==> reprs[j] !! p.Repr
      invariant p.Repr !! avoid && forall j :: i <= j < |signalOn| ==> reprs[j] !! avoid
    {
      var res, child := AddEvent(p, signalOn[i], avoid);
      if res.Err? {
        return Err(TypeError), added;
      }
      AppendAssoc(c0, added, child);
      added := added + [child];
      i := i + 1;
    }
    r := Ok(());
  }

  /** Appending to a concatenation appends to its second part. */
  lemma AppendAssoc<T>(a: seq<T>, b: seq<T>, x: T)
    ensures (a + b) + [x] == a + (b + [x])
  {
  }

  /** Appends the child one entry of `signal_on` becomes, or refuses the entry. */
  method AddEvent(p: Element, ev: Event, ghost avoid: set<Element>) returns (r: Result<()>, ghost child: Element)
    requires p.Valid() && EventValid(ev) && EventRepr(ev) !! p.Repr
    requires p.Repr !! avoid && EventRepr(ev) !! avoid
    modifies p
    ensures r.Err? <==> !Accepted(ev)
    ensures r.Err? ==> unchanged(p)
    ensures r.Ok? ==> p.Valid() && p.attributes == old(p.attributes)
    ensures r.Ok? ==> p.namespace == old(p.namespace) && p.onSignalCallback == old(p.onSignalCallback)
    ensures r.Ok? ==> p.children == old(p.children) + [child] && child != p && AppendedFor(child, ev)
    ensures r.Ok? ==> old(p.Repr) <= p.Repr && fresh(p.Repr - old(p.Repr) - EventRepr(ev))
    ensures r.Ok? ==> p.Repr !! avoid
  {
    match ev
    case EventValue(v) =>
      r, child := AddValueEvent(p, v);
    case EventElement(e) =>
      r := AddElementEvent(p, e);
      child := e;
  }

  /** The annotation a value entry becomes, or why it is refused. */
  method ValueAnnotation(v: Value) returns (a: Result<Element>)
    ensures a.Err? <==> !AcceptedValue(v)
    ensures a.Err? ==> a.error == TypeError
    ensures a.Ok? ==> fresh(a.value.Repr) && a.value.Valid() && AnnotationFor(a.value, v)
  {
    if PyEq(v, PyStr(ON_PROPERTY_CHANGE)) {
      a := NewSplitAnnotation(PropertyEmitsChangedSignal, PyNone, PyBool(true));
    } else if v.PyList? && |v.items| == 2 {
      a := NewSplitAnnotation(BaseAnnotation, v.items[0], v.items[1]);
    } else {
      a := Err(TypeError);
    }
  }

  /** A value entry: an annotation is made for it and appended, or it is refused. */
  method AddValueEvent(p: Element, v: Value) returns (r: Result<()>, ghost child: Element)
    requires p.Valid()
    modifies p
    ensures r.Err? <==> !AcceptedValue(v)
    ensures r.Err? ==> unchanged(p)
    ensures r.Ok? ==> p.Valid() && p.attributes == old(p.attributes)
    ensures r.Ok? ==> p.namespace == old(p.namespace) && p.onSignalCallback == old(p.onSignalCallback)
    ensures r.Ok? ==> p.children == old(p.children) + [child] && child != p && AnnotationFor(child, v)
    ensures r.Ok? ==> old(p.Repr) <= p.Repr && fresh(p.Repr - old(p.Repr))
  {
    var a := ValueAnnotation(v);
    if a.Err? {
      return Err(a.error), p;
    }
    var annotation := a.value;
    child := annotation;
    p.Append(annotation);
    r := Ok(());
  }

  /** An element entry: an annotation of `annotations.py` is appended as it is, anything else refused. */
  method AddElementEvent(p: Element, e: Element) returns (r: Result<()>)
    requires p.Valid() && e in e.Repr && e.Valid() && e.Repr !! p.Repr
    modifies p
    ensures r.Err? <==> e.kind != AnnotationNode(SplitModules)
    ensures r.Err? ==> unchanged(p)
    ensures r.Ok? ==> p.Valid() && p.attributes == old(p.attributes)
    ensures r.Ok? ==> p.namespace == old(p.namespace) && p.onSignalCallback == old(p.onSignalCallback)
    ensures r.Ok? ==> p.children == old(p.children) + [e] && p.Repr == old(p.Repr) + e.Repr
  {
    if e.kind != AnnotationNode(SplitModules) {
      return Err(TypeError);
    }
    p.Append(e);
    r := Ok(());
  }
}
