/**
 * `DBusProperty`, the package's emulation of Python's builtin `property`: a descriptor made of
 * optional get, set and delete functions, a doc string, and the D-Bus member name and
 * interface its accessors look remote methods up under.
 *
 * Descriptors are values: `getter`, `setter` and `deleter` build new descriptors and leave the
 * original as it was.  The builtin `property` that `service.py` hands out is the same
 * descriptor with no name and no interface as far as getting, setting and deleting go; its
 * own `setter` and `deleter` install the function given as it is (`BuiltinSetter`,
 * `BuiltinDeleter`), with no remote lookup.
 */
module DBusDeco {
  import opened Py

  datatype DBusProperty = DBusProperty(
    fget: Option<PyFunc>, fset: Option<PyFunc>, fdel: Option<PyFunc>,
    doc: Value, name: Value, interface: Value)

  /** What reading the descriptor gives: the descriptor itself (class access) or an attribute value. */
  datatype Access = Descriptor(prop: DBusProperty) | Attribute(value: Value)

  /**
   * `obj.get_method(name, interface)`: the remote method an object offers under a member name
   * and an interface.  It is not part of this model and is taken as a parameter.
   */
  type Lookup = (Value, Value, Value) -> Result<PyFunc>

  /** A descriptor whose doc is missing only when its getter has no doc either. */
  predicate DocFromGetter(p: DBusProperty)
  {
    p.doc == PyNone && p.fget.Some? ==> p.fget.value.doc == PyNone
  }

  /** `DBusProperty(fget, fset, fdel, doc, name, interface)`: an omitted doc is taken from the getter. */
  function NewDBusProperty(fget: Option<PyFunc> := None, fset: Option<PyFunc> := None,
                           fdel: Option<PyFunc> := None, doc: Value := PyNone,
                           name: Value := PyNone, interface: Value := PyNone): (p: DBusProperty)
    ensures p.fget == fget && p.fset == fset && p.fdel == fdel
    ensures p.name == name && p.interface == interface
    ensures doc != PyNone ==> p.doc == doc
    ensures fget.None? ==> p.doc == doc
    ensures DocFromGetter(p)
  {
    DBusProperty(fget, fset, fdel, if doc == PyNone && fget.Some? then fget.value.doc else doc, name, interface)
  }

  /** The result of a call whose value is discarded (`__set__` and `__delete__` return None). */
  function Discard(r: Result<Value>): (d: Result<Value>)
    ensures d.Ok? <==> r.Ok?
    ensures d.Ok? ==> d.value == PyNone
    ensures d.Err? ==> d.error == r.error
  {
    match r
    case Ok(_) => Ok(PyNone)
    case Err(e) => Err(e)
  }

  /** A getter's result as the value of the attribute read. */
  function AsAttribute(r: Result<Value>): (a: Result<Access>)
    ensures a.Ok? <==> r.Ok?
    ensures a.Ok? ==> a.value == Attribute(r.value)
    ensures a.Err? ==> a.error == r.error
  {
    match r
    case Ok(v) => Ok(Attribute(v))
    case Err(e) => Err(e)
  }

  /** `__get__(obj)`: the descriptor itself for class access (`obj` is None), else the getter's result. */
  function Get(p: DBusProperty, obj: Value): (r: Result<Access>)
    ensures obj == PyNone ==> r == Ok(Descriptor(p))
    ensures obj != PyNone && p.fget.None? ==> r == Err(AttributeError)
    ensures obj != PyNone && p.fget.Some? ==>
              (r.Ok? <==> p.fget.value.impl([obj]).Ok?) &&
              (r.Ok? ==> r.value == Attribute(p.fget.value.impl([obj]).value)) &&
              (r.Err? ==> r.error == p.fget.value.impl([obj]).error)
  {
    if obj == PyNone then Ok(Descriptor(p))
    else
      match p.fget
      case None => Err(AttributeError)
      case Some(f) =>
        match f.impl([obj])
        case Ok(v) => Ok(Attribute(v))
        case Err(e) => Err(e)
  }

  /** `__set__(obj, value)`: AttributeError without a setter, else the setter runs and None is returned. */
  function Set(p: DBusProperty, obj: Value, value: Value): (r: Result<Value>)
    ensures p.fset.None? ==> r == Err(AttributeError)
    ensures p.fset.Some? ==> r == Discard(p.fset.value.impl([obj, value]))
  {
    match p.fset
    case None => Err(AttributeError)
    case Some(f) => Discard(f.impl([obj, value]))
  }

  /** `__delete__(obj)`: AttributeError without a deleter, else the deleter runs and None is returned. */
  function Delete(p: DBusProperty, obj: Value): (r: Result<Value>)
    ensures p.fdel.None? ==> r == Err(AttributeError)
    ensures p.fdel.Some? ==> r == Discard(p.fdel.value.impl([obj]))
  {
    match p.fdel
    case None => Err(AttributeError)
    case Some(f) => Discard(f.impl([obj]))
  }

  /** Calls a remote method looked up on `obj` with `args`. */
  function CallRemote(lookup: Lookup, obj: Value, name: Value, interface: Value, args: seq<Value>): Result<Value>
  {
    match lookup(obj, name, interface)
    case Err(e) => Err(e)
    case Ok(m) => m.impl(args)
  }

  /** Hands the result of a remote call, with the object, to a local function; a remote error propagates. */
  function Chain(remote: Result<Value>, obj: Value, local: PyFunc): Result<Value>
  {
    match remote
    case Err(e) => Err(e)
    case Ok(v) => local.impl([obj, v])
  }

  /**
   * `getter_wrapper` and `deleter_wrapper`, which differ only in their names: the remote member
   * is called with no arguments and its result is handed, with the object, to the local function.
   */
  function RemoteThenLocal(wrapperName: string, lookup: Lookup, name: Value, interface: Value, local: PyFunc): (w: PyFunc)
    ensures w.name == wrapperName && w.doc == PyNone
    ensures forall obj :: w.impl([obj]) ==
              Chain(CallRemote(lookup, obj, name, interface, []), obj, local)
  {
    PyFunc(wrapperName, PyNone,
           args => if |args| != 1 then Err(TypeError)
                   else Chain(CallRemote(lookup, args[0], name, interface, []), args[0], local))
  }

  /** `setter_wrapper`: passes the value through the remote setter, then to the local function. */
  function SetterWrapper(lookup: Lookup, name: Value, interface: Value, fset: PyFunc): (w: PyFunc)
    ensures w.name == "setter_wrapper" && w.doc == PyNone
    ensures forall obj, value :: w.impl([obj, value]) ==
              Chain(CallRemote(lookup, obj, name, interface, [value]), obj, fset)
  {
    PyFunc("setter_wrapper", PyNone,
           args => if |args| != 2 then Err(TypeError)
                   else Chain(CallRemote(lookup, args[0], name, interface, [args[1]]), args[0], fset))
  }

  /**
   * `getter(name, interface)(fget)`: a new descriptor whose getter reads the remote member
   * `name` of `interface`, exactly as given (an empty name is not replaced).
   */
  function WithGetter(p: DBusProperty, lookup: Lookup, name: Value, interface: Value, fget: PyFunc): (q: DBusProperty)
    requires DocFromGetter(p)
    ensures q.fget == Some(RemoteThenLocal("getter_wrapper", lookup, name, interface, fget))
    ensures q.fset == p.fset && q.fdel == p.fdel
    ensures q.doc == p.doc && q.name == p.name && q.interface == p.interface
    ensures DocFromGetter(q)
  {
    NewDBusProperty(Some(RemoteThenLocal("getter_wrapper", lookup, name, interface, fget)), p.fset, p.fdel, p.doc, p.name, p.interface)
  }

  /**
   * `setter(name, interface)(fset)`: a new descriptor whose setter goes through the remote
   * member; an empty name or interface falls back to the descriptor's own.
   */
  function WithSetter(p: DBusProperty, lookup: Lookup, name: Value, interface: Value, fset: PyFunc): (q: DBusProperty)
    requires DocFromGetter(p)
    ensures q.fset == Some(SetterWrapper(lookup, Or(name, p.name), Or(interface, p.interface), fset))
    ensures q.fget == p.fget && q.fdel == p.fdel
    ensures q.doc == p.doc && q.name == p.name && q.interface == p.interface
    ensures DocFromGetter(q)
  {
    NewDBusProperty(p.fget, Some(SetterWrapper(lookup, Or(name, p.name), Or(interface, p.interface), fset)),
                    p.fdel, p.doc, p.name, p.interface)
  }

  /** `deleter(name, interface)(fdel)`: as `setter`, for the deleter. */
  function WithDeleter(p: DBusProperty, lookup: Lookup, name: Value, interface: Value, fdel: PyFunc): (q: DBusProperty)
    requires DocFromGetter(p)
    ensures q.fdel == Some(RemoteThenLocal("deleter_wrapper", lookup, Or(name, p.name), Or(interface, p.interface), fdel))
    ensures q.fget == p.fget && q.fset == p.fset
    ensures q.doc == p.doc && q.name == p.name && q.interface == p.interface
    ensures DocFromGetter(q)
  {
    NewDBusProperty(p.fget, p.fset, Some(RemoteThenLocal("deleter_wrapper", lookup, Or(name, p.name), Or(interface, p.interface), fdel)),
                    p.doc, p.name, p.interface)
  }

  /**
   * Setting through a descriptor built by `setter` with no name of its own calls the remote
   * setter named after the descriptor, then the local function with the remote result.
   */
  lemma SetterFallsBackToOwnName(p: DBusProperty, lookup: Lookup, interface: Value, fset: PyFunc, obj: Value, value: Value)
    requires DocFromGetter(p)
    ensures Set(WithSetter(p, lookup, PyStr(""), interface, fset), obj, value) ==
              Discard(Chain(CallRemote(lookup, obj, p.name, Or(interface, p.interface), [value]), obj, fset))
  {
    var q := WithSetter(p, lookup, PyStr(""), interface, fset);
    assert q.fset.value.impl([obj, value]) ==
             Chain(CallRemote(lookup, obj, p.name, Or(interface, p.interface), [value]), obj, fset);
  }

  /** Reading through a descriptor built by `getter` calls the remote getter, then the local function. */
  lemma GetThroughGetter(p: DBusProperty, lookup: Lookup, name: Value, interface: Value, fget: PyFunc, obj: Value)
    requires DocFromGetter(p)
    requires obj != PyNone
    ensures Get(WithGetter(p, lookup, name, interface, fget), PyNone) == Ok(Descriptor(WithGetter(p, lookup, name, interface, fget)))
    ensures Get(WithGetter(p, lookup, name, interface, fget), obj) ==
              AsAttribute(Chain(CallRemote(lookup, obj, name, interface, []), obj, fget))
  {
    var q := WithGetter(p, lookup, name, interface, fget);
    assert q.fget.value.impl([obj]) ==
             Chain(CallRemote(lookup, obj, name, interface, []), obj, fget);
  }

  /** The builtin `property.setter(fset)`: a copy of the descriptor with `fset` installed as it is. */
  function BuiltinSetter(p: DBusProperty, fset: PyFunc): (q: DBusProperty)
    ensures q.fset == Some(fset)
    ensures q.fget == p.fget && q.fdel == p.fdel
    ensures q.doc == p.doc && q.name == p.name && q.interface == p.interface
  {
    p.(fset := Some(fset))
  }

  /** The builtin `property.deleter(fdel)`: a copy of the descriptor with `fdel` installed as it is. */
  function BuiltinDeleter(p: DBusProperty, fdel: PyFunc): (q: DBusProperty)
    ensures q.fdel == Some(fdel)
    ensures q.fget == p.fget && q.fset == p.fset
    ensures q.doc == p.doc && q.name == p.name && q.interface == p.interface
  {
    p.(fdel := Some(fdel))
  }

  /**
   * Assigning through a builtin property after `setter(f)` calls `f` itself with the object and
   * the value, whatever setter was there before; reading and class access are unaffected.
   */
  lemma BuiltinSetterInstallsDirectly(p: DBusProperty, fset: PyFunc, obj: Value, value: Value)
    ensures Set(BuiltinSetter(p, fset), obj, value) == Discard(fset.impl([obj, value]))
    ensures Get(BuiltinSetter(p, fset), obj) == (if obj == PyNone then Ok(Descriptor(BuiltinSetter(p, fset))) else Get(p, obj))
  {
  }
}
