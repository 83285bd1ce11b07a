/** The user classes the class decorators are applied to. */
module Classes {
  import opened Py
  import opened Elements

  /**
   * A class's own `__init__`: called with the instance and the positional arguments, it sees
   * the class's `dbus` attribute as that attribute is when it runs.
   */
  type InitFunc = (Option<Elem>, seq<Value>) -> Result<Value>

  /**
   * The constructor a class starts with. `NoInit` is the no-op of the `hasattr` fallback, which
   * is never taken. A class with no constructor of its own inherits `object.__init__`: that is
   * an `OwnInit` that refuses any argument.
   */
  datatype BaseInit = NoInit | OwnInit(f: InitFunc)

  /** What the class's constructor underneath every introspector wrapper does. */
  function RunBase(base: BaseInit, dbus: Option<Elem>, args: seq<Value>): Result<Value>
  {
    match base
    case NoInit => Ok(PyNone)
    case OwnInit(f) => f(dbus, args)
  }

  /**
   * A decorated class: its `__name__`, the constructor it was defined with, the introspectors
   * whose constructor wrappers are stacked on that constructor (outermost first), and its
   * `dbus` attribute.
   */
  class PyClass {
    const name: string
    const base: BaseInit
    var wrappers: seq<Element>
    var dbus: Option<Elem>
    ghost var Repr: set<Element>    // the objects of the wrapping introspectors

    /** Each wrapping introspector is a valid tree, and no two share an object. */
    ghost predicate Valid()
      reads this, Repr
    {
      (forall k :: 0 <= k < |wrappers| ==>
         wrappers[k] in Repr && wrappers[k].Repr <= Repr && wrappers[k] in wrappers[k].Repr) &&
      (forall k :: 0 <= k < |wrappers| ==> wrappers[k].Valid() && wrappers[k].kind == IntrospectorNode) &&
      (forall k, l :: 0 <= k < l < |wrappers| ==> wrappers[k].Repr !! wrappers[l].Repr)
    }

    constructor (name: string, base: BaseInit)
      ensures Valid() && Repr == {}
      ensures this.name == name && this.base == base
      ensures wrappers == [] && dbus == None
    {
      this.name := name;
      this.base := base;
      wrappers := [];
      dbus := None;
      Repr := {};
    }
  }
}
