/**
 * Annotation elements: key/value metadata attached to methods, signals, properties and
 * interfaces, with the well-known catalogue of annotation names.
 *
 * There are two definitions of the annotation classes.  The self-contained `service.py`
 * validates the value and then stores the class default; `annotations.py` stores
 * `value or default_value` and never validates.  Both are modelled.
 */
module Annotations {
  import opened Py
  import opened Elements

  /**
   * The class-level settings of an annotation class: `name`, `default_value` and
   * `valid_values`, the last absent when the class does not define it.
   */
  datatype AnnotationClass = AnnotationClass(name: Value, defaultValue: Value, validValues: Option<seq<Value>>)

  const DEPRECATED := "org.freedesktop.DBus.Deprecated"
  const GLIB_C_SYMBOL := "org.freedesktop.DBus.GLib.CSymbol"
  const METHOD_NO_REPLY := "org.freedesktop.DBus.Method.NoReply"
  const PROPERTY_EMITS_CHANGED_SIGNAL := "org.freedesktop.DBus.Property.EmitsChangedSignal"

  /** `Annotation` itself: no name, no default and no `valid_values`. */
  const BaseAnnotation := AnnotationClass(PyNone, PyNone, None)

  /** `Depricated`: its default is spelt `defaault_value`, so the inherited default (None) applies. */
  const Depricated := AnnotationClass(PyStr(DEPRECATED), PyNone, Some([PyBool(true), PyBool(false)]))

  /** `GLibCSymbol`: no default and no `valid_values`. */
  const GLibCSymbol := AnnotationClass(PyStr(GLIB_C_SYMBOL), PyNone, None)

  const MethodNoReply := AnnotationClass(PyStr(METHOD_NO_REPLY), PyBool(true), Some([PyBool(true), PyBool(false)]))

  const PropertyEmitsChangedSignal :=
    AnnotationClass(PyStr(PROPERTY_EMITS_CHANGED_SIGNAL), PyNone,
                    Some([PyBool(true), PyStr(INVALIDATES), PyStr(CONST), PyBool(false)]))

  /** `WellKnown`: the catalogue of annotation classes by attribute name. */
  const WellKnown: map<string, AnnotationClass> := map[
    "depricated" := Depricated,
    "glib_c_symbol" := GLibCSymbol,
    "method_noreply" := MethodNoReply,
    "property_emits_changed_signal" := PropertyEmitsChangedSignal
  ]

  /**
   * `validate(value)`: TypeError when the class lists valid values and `value` is not among
   * them; a class without `valid_values` fails on the missing attribute.
   */
  function Validate(cls: AnnotationClass, value: Value): (r: Result<Value>)
    ensures cls.validValues.None? ==> r == Err(AttributeError)
    ensures cls.validValues.Some? ==>
              (r == Err(TypeError) <==> cls.validValues.value != [] && !PyIn(value, cls.validValues.value))
    ensures r.Ok? ==> r.value == PyNone
  {
    match cls.validValues
    case None => Err(AttributeError)
    case Some(vs) => if vs != [] && !PyIn(value, vs) then Err(TypeError) else Ok(PyNone)
  }

  /** The value both constructors start from: the one given, else the class default, else TypeError. */
  function GivenOrDefault(cls: AnnotationClass, value: Value): (r: Result<Value>)
    ensures r.Err? <==> value == PyNone && cls.defaultValue == PyNone
    ensures r.Err? ==> r.error == TypeError
    ensures r.Ok? ==> r.value != PyNone
  {
    if value != PyNone then Ok(value)
    else if cls.defaultValue == PyNone then Err(TypeError)
    else Ok(cls.defaultValue)
  }

  /**
   * `service.py`'s `Annotation(name, value)`: the `(name, value)` attributes of the new
   * element.  The validated value is discarded (`validate` returns None), so the element
   * always carries the class default.
   */
  function ServiceAnnotation(cls: AnnotationClass, name: Value, value: Value): (r: Result<(Value, Value)>)
    ensures value == PyNone && cls.defaultValue == PyNone ==> r == Err(TypeError)
    ensures r.Ok? <==> GivenOrDefault(cls, value).Ok? && Validate(cls, GivenOrDefault(cls, value).value).Ok?
    ensures r.Ok? ==> r.value == (if Truthy(name) then name else cls.name, cls.defaultValue)
  {
    var n := Or(name, cls.name);
    match GivenOrDefault(cls, value)
    case Err(e) => Err(e)
    case Ok(v) =>
      match Validate(cls, v)
      case Err(e) => Err(e)
      case Ok(checked) => Ok((Or(n, cls.name), Or(checked, cls.defaultValue)))
  }

  /**
   * `annotations.py`'s `Annotation(name, value)`: the name falls back to the class name and a
   * falsy value (None included) to the class default; nothing is validated.
   */
  function SplitAnnotation(cls: AnnotationClass, name: Value, value: Value): (r: Result<(Value, Value)>)
    ensures r.Err? <==> value == PyNone && cls.defaultValue == PyNone
    ensures r.Err? ==> r.error == TypeError
    ensures r.Ok? ==> r.value == (if Truthy(name) then name else cls.name,
                                  if Truthy(value) then value else cls.defaultValue)
  {
    var n := Or(name, cls.name);
    match GivenOrDefault(cls, value)
    case Err(e) => Err(e)
    case Ok(v) => Ok((Or(n, cls.name), Or(v, cls.defaultValue)))
  }

  /** The subclasses of `annotations.py` take only a value; the name is always the class name. */
  function SplitSubclass(cls: AnnotationClass, value: Value): (r: Result<(Value, Value)>)
    ensures r == SplitAnnotation(cls, PyNone, value)
    ensures r.Ok? ==> r.value.0 == cls.name
  {
    SplitAnnotation(cls, PyNone, value)
  }

  /** The closed set of `Depricated` and `MethodNoReply`: exactly the values equal to True or False. */
  lemma BoolSetMembers(cls: AnnotationClass, v: Value)
    requires cls == Depricated || cls == MethodNoReply
    ensures Validate(cls, v).Ok? <==> v in {PyBool(true), PyBool(false), PyInt(1), PyInt(0)}
  {
    BoolLikeValues(v);
  }

  /**
   * The closed set of `PropertyEmitsChangedSignal`: True, False (or 1, 0, which compare equal
   * to them), `'invalidates'` and `'const'`.
   */
  lemma EmitsChangedSignalMembers(v: Value)
    ensures Validate(PropertyEmitsChangedSignal, v).Ok? <==>
              v in {PyBool(true), PyBool(false), PyInt(1), PyInt(0), PyStr(INVALIDATES), PyStr(CONST)}
  {
    var vs := PropertyEmitsChangedSignal.validValues.value;
    if v in {PyBool(true), PyBool(false), PyInt(1), PyInt(0), PyStr(INVALIDATES), PyStr(CONST)} {
      if v == PyBool(true) || v == PyInt(1) {
        assert PyEq(v, vs[0]);
      } else if v == PyStr(INVALIDATES) {
        assert PyEq(v, vs[1]);
      } else if v == PyStr(CONST) {
        assert PyEq(v, vs[2]);
      } else {
        assert PyEq(v, vs[3]);
      }
    } else {
      assert forall i :: 0 <= i < |vs| ==> !PyEq(v, vs[i]);
    }
  }

  /** In `service.py` a value outside the closed set is rejected, and one inside it is dropped for the default. */
  lemma ServiceValueIsDiscarded()
    ensures ServiceAnnotation(MethodNoReply, PyNone, PyBool(false)) == Ok((PyStr(METHOD_NO_REPLY), PyBool(true)))
    ensures ServiceAnnotation(MethodNoReply, PyNone, PyStr("maybe")) == Err(TypeError)
    ensures ServiceAnnotation(Depricated, PyNone, PyBool(true)) == Ok((PyStr(DEPRECATED), PyNone))
    ensures ServiceAnnotation(PropertyEmitsChangedSignal, PyNone, PyStr(CONST)) ==
              Ok((PyStr(PROPERTY_EMITS_CHANGED_SIGNAL), PyNone))
    ensures ServiceAnnotation(GLibCSymbol, PyNone, PyStr("c_symbol")) == Err(AttributeError)
    ensures ServiceAnnotation(BaseAnnotation, PyStr("org.example.Any"), PyStr("x")) == Err(AttributeError)
  {
    BoolSetMembers(MethodNoReply, PyBool(false));
    BoolSetMembers(MethodNoReply, PyStr("maybe"));
    BoolSetMembers(Depricated, PyBool(true));
    EmitsChangedSignalMembers(PyStr(CONST));
  }

  /** In `annotations.py` the constructor does not consult `validate`: out-of-set values are stored. */
  lemma SplitNeverValidates()
    ensures Validate(MethodNoReply, PyStr("maybe")) == Err(TypeError)
    ensures SplitSubclass(MethodNoReply, PyStr("maybe")) == Ok((PyStr(METHOD_NO_REPLY), PyStr("maybe")))
    ensures SplitSubclass(MethodNoReply, PyBool(false)) == Ok((PyStr(METHOD_NO_REPLY), PyBool(true)))
    ensures SplitSubclass(PropertyEmitsChangedSignal, PyBool(false)) == Ok((PyStr(PROPERTY_EMITS_CHANGED_SIGNAL), PyNone))
  {
    BoolSetMembers(MethodNoReply, PyStr("maybe"));
  }

  /**
   * Of the well-known annotations only `MethodNoReply` can be built without a value;
   * `Depricated` lost its default to the misspelling.  Every one of them can be built
   * with an explicit truthy value.
   */
  lemma WellKnownWithoutValue(key: string)
    requires key in WellKnown
    ensures SplitSubclass(WellKnown[key], PyNone).Ok? <==> key == "method_noreply"
    ensures SplitSubclass(WellKnown[key], PyNone).Ok? ==> SplitSubclass(WellKnown[key], PyNone).value.1 == PyBool(true)
    ensures SplitSubclass(WellKnown[key], PyBool(true)) == Ok((WellKnown[key].name, PyBool(true)))
  {
  }

  /** The element an annotation constructor builds from its `(name, value)` attributes. */
  method NewAnnotation(origin: Origin, attrs: (Value, Value)) returns (a: Element)
    ensures fresh(a.Repr) && a.Valid() && a.kind == AnnotationNode(origin)
    ensures a.children == [] && a.namespace == None
    ensures a.attributes == map["name" := attrs.0, "value" := attrs.1]
    ensures a.Tree() == Elem("annotation", map["name" := attrs.0, "value" := attrs.1], [])
  {
    var kwargs := [("name", attrs.0), ("value", attrs.1)];
    assert kwargs[..1] == [("name", attrs.0)] && kwargs[..1][..0] == [];
    a := new Element(AnnotationNode(origin), None, [], kwargs);
  }

  /** `service.Annotation(name, value)` and its subclasses, as an element. */
  method NewServiceAnnotation(cls: AnnotationClass, name: Value, value: Value) returns (r: Result<Element>)
    ensures r.Err? <==> ServiceAnnotation(cls, name, value).Err?
    ensures r.Err? ==> r.error == ServiceAnnotation(cls, name, value).error
    ensures r.Ok? ==> fresh(r.value.Repr) && r.value.Valid() && r.value.kind == AnnotationNode(ServiceModule)
    ensures r.Ok? ==> (r.value.Tree() ==
                       Elem("annotation", map["name" := ServiceAnnotation(cls, name, value).value.0,
                                              "value" := cls.defaultValue], []))
  {
    match ServiceAnnotation(cls, name, value)
    case Err(e) => r := Err(e);
    case Ok(attrs) =>
      var a := NewAnnotation(ServiceModule, attrs);
      r := Ok(a);
  }

  /** `annotations.Annotation(name, value)` and its subclasses, as an element. */
  method NewSplitAnnotation(cls: AnnotationClass, name: Value, value: Value) returns (r: Result<Element>)
    ensures r.Err? <==> value == PyNone && cls.defaultValue == PyNone
    ensures r.Err? ==> r.error == TypeError
    ensures r.Ok? ==> fresh(r.value.Repr) && r.value.Valid() && r.value.kind == AnnotationNode(SplitModules)
    ensures r.Ok? ==> (r.value.Tree() ==
                       Elem("annotation", map["name" := (if Truthy(name) then name else cls.name),
                                              "value" := (if Truthy(value) then value else cls.defaultValue)], []))
  {
    match SplitAnnotation(cls, name, value)
    case Err(e) => r := Err(e);
    case Ok(attrs) =>
      var a := NewAnnotation(SplitModules, attrs);
      r := Ok(a);
  }
}
