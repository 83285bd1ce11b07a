# dbus-deco, modelled in Dafny

A model of dbus-deco, a library that builds D-Bus introspection documents from decorators. The documents follow the "Introspection Data Format" section of the D-Bus Specification.

A service class is decorated with an `Introspector`. Its methods are decorated with the introspector's `method`, `property` and `signal` factories. Each declaration appends one element to the tree: a `method`, `property` or `signal` element with its `arg` and `annotation` children. Every construction of the class serialises that tree, wraps it in a `node` element and stores it as the class's `dbus` attribute. The class's own constructor runs only after that.

The repository has two versions of the builder:

- `dbus_deco/service.py` is self-contained.
- The split modules are `annotations.py`, `args.py`, `methods.py`, `properties.py`, `signals.py`, `interface.py` and `introspector.py`.

The split modules import `DIElement`, `E`, `READ` and similar names from `dbus_deco/__init__.py`, which does not define them. They are modelled on top of the `service.py` definitions. These undefined names are resolved as follows:

- `_dot_notation` in `introspector.py` is taken as `dot_notation`.
- `join_path` in `interface.py` is taken as `service.py`'s `join_path`.
- The bare `Annotation` in the child check of `properties.py` is taken as `annotations.Annotation`.
- `Emitter` is imported from `signals.py` but not defined there. It is modelled only by the namespace it is bound to.
- `Response` in `signals.py` (line 86) is never imported there. It is taken as the `Response` of `service.py`, the same as that of `args.py`.
- `E` in `interface.py` (line 21) is never imported there. It is taken as the lxml element maker of `service.py`, so the element is an `interface` element.

Where the two versions differ, each is modelled as written. An element records which version built it (`Elements.Origin`).

## How the model is organised

- **Py.** Python values, truthiness and `==`, functions (`PyFunc`) and exceptions. Every raise is an `Err` of a `Result`.
  - A dict is its key-value pairs in insertion order. Setting a key that is `==` to a stored key (`1` and `True`, say) replaces that entry's value and keeps its place.
- **Paths.** `dot_notation`, `slash_notation`, `join_path` and `extrapolate_service_path`.
- **Elements.** `DIElement` as the class `Element`, with a kind, a namespace, a child list and an attribute map, all updated in place.
  - Its ghost `Repr` is the set of objects of the subtree. `Valid()` says the subtree is a tree.
  - `Tree()` is the abstract element tree it serialises to.
  - Serialisation (`Xml`) returns that tree and rewrites boolean attributes in place, exactly as `__xml__` does.
- **Annotations.** Both annotation constructors, `validate`, and the four well-known annotation classes and their catalogue.
- **Args.** `Arg`, `Response` and `_pack_response`. **Methods.** `Method`.
- **DBusDeco.** The `DBusProperty` descriptor of `__init__.py`. Its get, set and delete guards and its copy-with-replace `getter`, `setter` and `deleter` are functions on values.
  - The builtin `property` that `service.py` hands out shares the datatype, with no name and no interface, for getting, setting and deleting.
  - Its own `setter` and `deleter` install the given function as it is (`BuiltinSetter`, `BuiltinDeleter`). They do no remote lookup.
- **Signals.**
  - `_Signal` is the class `SignalBinding`: per-instance subscriber lists, connect, disconnect and emit.
  - `PropertiesChangedSignal` re-reads the getter for every changed name when it emits.
  - Also the signal element and its decorator.
- **Properties.**
  - Both `Property` elements: the access flags, the child checks and the `signal_on` loop.
  - The descriptors their decorators hand back: a builtin `property` for `service.py` and the class `SignallingPropertyDescriptor` for `properties.py`.
- **Classes.** The decorated user class: its name, its own constructor, the introspectors wrapping that constructor, and its `dbus` attribute.
- **Interfaces** and **Introspectors.**
  - The class decorators and the member factories.
  - The wrapped constructor: it refuses a `namespace` keyword, then stores a freshly serialised document, then runs the class's own constructor.

Calls into code the model cannot see are parameters:

- `obj.get_method` remote lookups.
- The class's own `__init__`.
- Getters and setters written by the user.

Notes on the code as written:

- The document is recomputed and stored again at every construction of the class.
- `annotations.py` never validates an annotation's value. `service.py` validates the value and then stores the class default instead of it.
- A read-only property does not refuse a setter being attached. Only assigning to it fails, with AttributeError.
- In the descriptor of `properties.py`, any exception a setter raises becomes a NameError. That includes the placeholder setter's NotImplementedError. The cause is that the `except` clause names the undefined module-level `signal`.
- `signal_on` takes a list of events, each of which becomes one more annotation child.
- There is no element group: `DIElementGroup` is imported by `signals.py` but defined nowhere.
- Falsy attribute values are kept on the element and serialised like any other value.

## Model

| member | source | states |
|---|---|---|
| Py.BoolLikeValues | dbus_deco/service.py:98 | `v in (True, False)` holds for exactly True, False, 1 and 0 |
| Paths.ReplaceChar | dbus_deco/service.py:45-50 | `str.replace` for one character: same length, and each position is replaced exactly when it held that character |
| Paths.DotNotationSpec | dbus_deco/service.py:45-46 | `dot_notation` keeps the length, leaves no `/`, is idempotent, and keeps every other character |
| Paths.SlashNotationSpec | dbus_deco/service.py:49-50 | `slash_notation` keeps the length, leaves no `.`, is idempotent, and keeps every other character |
| Paths.NotationsRoundTrip | dbus_deco/service.py:45-50 | converting to the other notation and back gives the same result as converting once |
| Paths.NotationFixpoints | dbus_deco/service.py:45-50 | a name is left unchanged by a notation exactly when it already lacks the separator that notation replaces |
| Paths.DotNotation | dbus_deco/service.py:45-46 | same length; each `/` becomes `.` and every other character is kept |
| Paths.SlashNotation | dbus_deco/service.py:49-50 | same length; each `.` becomes `/` and every other character is kept |
| Paths.JoinPath | dbus_deco/service.py:53-54 | `join_path` leaves no `/`, whatever its segments hold; no segment gives the empty name, and one segment is only dot-normalised |
| Paths.JoinPathTwo | dbus_deco/service.py:53-54 | joining a namespace and a name gives both dot-normalised, with one `.` between them |
| Paths.ExtrapolateServicePath | dbus_deco/__init__.py:3-4 | the object path is `/` followed by the bus name in slash notation |
| Paths.ExtrapolateServicePathSpec | dbus_deco/__init__.py:3-4 | the object path is one character longer than the bus name and contains no `.` |
| Elements.Untail | dbus_deco/service.py:34-37 | a key changes exactly when it is `type_`, `class_` or `id_`, and then loses only its trailing underscore |
| Elements.UntailIdempotent | dbus_deco/service.py:34-37 | untailing twice gives the same key as untailing once |
| Elements.UntailAll | dbus_deco/service.py:72 | the attribute keys are exactly the untailed keyword names |
| Elements.UntailAllSnoc | dbus_deco/service.py:72 | keywords are taken in order: one more keyword updates the map built so far |
| Elements.UntailAllLastWins | dbus_deco/service.py:72 | the value stored under a key is the value of the last keyword that untails to it |
| Elements.NormValue | dbus_deco/service.py:97-99 | a value equal to True or False becomes a string: `true` and `false` for the booleans, `1` and `0` for the numbers equal to them; every other value is kept; no result is boolean-like |
| Elements.NormTree | dbus_deco/service.py:97-100 | serialisation keeps the tag, the attribute keys and the number of children; each attribute becomes the serialised form of its own value |
| Elements.NormTreeNoBools | dbus_deco/service.py:97-100 | no element of a serialised tree carries a boolean-like attribute |
| Elements.NormTreeFixpoint | dbus_deco/service.py:97-100 | serialisation leaves a tree unchanged exactly when the tree holds no booleans |
| Elements.NormTreeIdempotent | dbus_deco/service.py:97-100 | serialising a second time yields the same tree |
| Elements.Passthrough | dbus_deco/service.py:23-26 | the wrapper returns what the function returns, for every argument list |
| Elements.Element.constructor | dbus_deco/service.py:68-72 | a new tree over the children in the order given, with the untailed keyword attributes and no namespace of its own unless a subclass stores one |
| Elements.Element.Append | dbus_deco/service.py:82-83 | the child is added last; earlier children, attributes and namespace are untouched; the tree gains the child's tree at its end |
| Elements.Element.SetItem | dbus_deco/service.py:88-89 | exactly one attribute is set; children and namespace are unchanged |
| Elements.Element.SetNamespace | dbus_deco/service.py:353 | the namespace is replaced and the serialisable tree is unchanged |
| Elements.Element.GetItem | dbus_deco/service.py:85-86 | the attribute's value, or KeyError exactly when it is missing |
| Elements.Element.Get | dbus_deco/service.py:91-92 | the attribute's value, or the default when it is missing |
| Elements.Element.Decorate | dbus_deco/service.py:74-77 | the `name` attribute becomes the function's name, nothing else changes, and the returned wrapper behaves like the function |
| Elements.Element.NormaliseAttributes | dbus_deco/service.py:97-99 | the element's own attributes are rewritten in place to their serialised values, with the same keys |
| Elements.Element.Xml | dbus_deco/service.py:94-100 | the result is the element's tree after serialisation, which is the old tree with every boolean below rewritten; children keep their list order |
| Elements.Element.ChildrenXml | dbus_deco/service.py:100 | the children are serialised one after another, in list order, each to its own rewritten tree |
| Annotations.Validate | dbus_deco/service.py:125-144 | TypeError exactly when the class lists valid values and the value is not among them; a class without `valid_values` fails with AttributeError; `annotations.py` repeats it at dbus_deco/annotations.py:45-46 |
| Annotations.GivenOrDefault | dbus_deco/annotations.py:21-24 | TypeError exactly when no value is given and the class has no default; otherwise the value given, or the default |
| Annotations.ServiceAnnotation | dbus_deco/service.py:117-123 | `service.py` annotations: the name falls back to the class name, the value is validated, and the stored value is always the class default |
| Annotations.SplitAnnotation | dbus_deco/annotations.py:19-25 | `annotations.py` annotations: TypeError exactly when there is neither a value nor a default; the name falls back to the class name; a falsy value falls back to the default; nothing is validated |
| Annotations.SplitSubclass | dbus_deco/annotations.py:68-69 | the well-known subclasses take only a value and always carry the class name |
| Annotations.BoolSetMembers | dbus_deco/service.py:192-194 | the closed set of `Depricated` and `MethodNoReply` accepts exactly True, False, 1 and 0 |
| Annotations.EmitsChangedSignalMembers | dbus_deco/service.py:223-225 | the closed set of EmitsChangedSignal accepts exactly True, False, 1, 0, `invalidates` and `const` |
| Annotations.ServiceValueIsDiscarded | dbus_deco/service.py:123 | concrete cases: an in-set value is replaced by the default, an out-of-set value raises TypeError, and a class without valid values raises AttributeError |
| Annotations.SplitNeverValidates | dbus_deco/annotations.py:25 | concrete cases: an out-of-set value that `validate` rejects is stored as given, and a falsy value is replaced by the default |
| Annotations.WellKnownWithoutValue | dbus_deco/annotations.py:141-146 | of the catalogue, only `method_noreply` can be built without a value, and it then carries True; `Depricated()` fails because of the misspelt `defaault_value`; every entry accepts True |
| Annotations.NewAnnotation | dbus_deco/service.py:117-123 | an `annotation` element with no children and no namespace whose attributes, and tree, are exactly the settled name and value |
| Annotations.NewServiceAnnotation | dbus_deco/service.py:117-123 | the annotation element, or the error `ServiceAnnotation` gives; its tree carries the settled name and the class default |
| Annotations.NewSplitAnnotation | dbus_deco/annotations.py:19-25 | the annotation element, or TypeError exactly when there is neither a value nor a default; its tree carries the settled name and value |
| Args.ArgKwargs | dbus_deco/args.py:21-24 | TypeError exactly for a falsy type; otherwise the attributes are name, `type` (from `type_`) and direction |
| Args.ResponseKwargs | dbus_deco/args.py:35-36 | a response is an arg named `response` with direction `out`; TypeError exactly for a falsy type |
| Args.ArgDefaultDirection | dbus_deco/args.py:21 | an omitted direction is `in`, and no `type_` key survives |
| Args.NewArg | dbus_deco/service.py:242-245 | the `arg` element with those attributes and no children, or TypeError exactly for a falsy type |
| Args.NewResponse | dbus_deco/service.py:256-257 | the `arg` element of a response, or TypeError exactly for a falsy type |
| Args.PackResponse | dbus_deco/service.py:40-43 | a falsy response leaves the arguments as they are; otherwise exactly one response argument follows them |
| Methods.NewMethod | dbus_deco/methods.py:14-16 | a `method` element over the children in the order given, with the namespace as given and the untailed keyword attributes |
| DBusDeco.NewDBusProperty | dbus_deco/__init__.py:10-18 | the accessors, name and interface as given; an omitted doc is taken from the getter |
| DBusDeco.Get | dbus_deco/__init__.py:20-25 | class access (`obj` is None) returns the descriptor itself; otherwise, without a getter, AttributeError, and with one the getter's result or error for the object |
| DBusDeco.Set | dbus_deco/__init__.py:27-30 | without a setter, AttributeError; otherwise the setter runs and its value is discarded |
| DBusDeco.Delete | dbus_deco/__init__.py:32-35 | without a deleter, AttributeError; otherwise the deleter runs and its value is discarded |
| DBusDeco.RemoteThenLocal | dbus_deco/__init__.py:38-41 | `getter_wrapper`, and `deleter_wrapper` of lines 54-57 under its own name: the remote member is called with no arguments and its result is handed, with the object, to the local function |
| DBusDeco.SetterWrapper | dbus_deco/__init__.py:46-49 | the value goes through the remote setter, then to the local function |
| DBusDeco.WithGetter | dbus_deco/__init__.py:37-43 | a new descriptor in which only the getter is replaced; doc, name and interface are copied |
| DBusDeco.WithSetter | dbus_deco/__init__.py:45-51 | only the setter is replaced; an empty name or interface falls back to the descriptor's own |
| DBusDeco.WithDeleter | dbus_deco/__init__.py:53-59 | only the deleter is replaced, with the same fallback |
| DBusDeco.SetterFallsBackToOwnName | dbus_deco/__init__.py:48 | setting through a setter built with an empty name calls the remote member named after the descriptor |
| DBusDeco.BuiltinSetter | dbus_deco/service.py:324-325 | the builtin `property.setter(f)` a `service.py` property offers: a copy in which only the setter is replaced, by `f` itself |
| DBusDeco.BuiltinDeleter | dbus_deco/service.py:327 | the builtin `property.deleter(f)`: a copy in which only the deleter is replaced, by `f` itself |
| DBusDeco.BuiltinSetterInstallsDirectly | dbus_deco/service.py:324-325 | after the builtin `setter(f)`, assignment calls `f` with the object and the value, with no remote lookup; reading is unchanged |
| DBusDeco.GetThroughGetter | dbus_deco/__init__.py:37-43 | reading through a replaced getter calls the remote getter, then the local function; class access still returns the descriptor |
| Signals.Notifications | dbus_deco/signals.py:25-28 | each subscriber is notified once, in order, with the same arguments |
| Signals.NotificationsSnoc | dbus_deco/signals.py:25-28 | the last subscriber is notified last |
| Signals.RemoveFirst | dbus_deco/signals.py:23 | disconnecting removes exactly one occurrence of the callback |
| Signals.RemoveFirstUndoesAppend | dbus_deco/signals.py:21-23 | connecting a new callback and then disconnecting it restores the list |
| Signals.SignalBinding.constructor | dbus_deco/signals.py:11-13 | no subscribers, and no instance bound |
| Signals.SignalBinding.Callbacks | dbus_deco/signals.py:17-19 | the bound instance's list, or KeyError exactly when that instance never connected |
| Signals.SignalBinding.Subscribed | dbus_deco/signals.py:27 | the bound instance's list, or empty when it never connected |
| Signals.SignalBinding.Connect | dbus_deco/signals.py:21-23 | the callback joins the end of the bound instance's list, which is created on first use; the other instances' lists are unchanged |
| Signals.SignalBinding.Disconnect | dbus_deco/signals.py:23 | the first occurrence of the callback leaves its instance's list; a callback not subscribed is refused with nothing changed |
| Signals.SignalBinding.Emit | dbus_deco/signals.py:25-28 | the notifications are exactly those for the bound instance's subscribers, in order; with none there are none |
| Signals.SignalBinding.Call | dbus_deco/signals.py:30-33 | binds the instance, then notifies only that instance's subscribers |
| Py.DictSetSpec | dbus_deco/signals.py:50 | `changed[change] = v`: the keys stay distinct, and `change` is added last exactly when no equal key is there; otherwise the keys keep their order |
| Py.DictSetGet | dbus_deco/signals.py:50 | after `changed[change] = v`, every key equal to `change` finds `v`, and every other key finds what it found before |
| Signals.Iterate | dbus_deco/signals.py:49 | iterating `changed`: a list yields its items, a string its characters, a dict its keys in insertion order; any other value raises TypeError |
| Signals.ChangedValues | dbus_deco/signals.py:48-50 | the `changed` dict built name by name is a dict: no two of its keys are equal |
| Signals.ChangedValuesSpec | dbus_deco/signals.py:48-50 | the `changed` dict has a key equal to each changed name and no other; every getter call succeeded on a hashable name; names no two of which are equal become the keys in the order given |
| Signals.BuildChanged | dbus_deco/signals.py:48-50 | the loop over the changed names computes exactly `ChangedValues`; the getter is called on a prefix of the names, in order, and on all of them when the dict is built |
| Signals.ChangedValuesLastWins | dbus_deco/signals.py:50 | the value under a changed name is the getter's result for the last name equal to it |
| Signals.ChangedValuesMergesEqualKeys | dbus_deco/signals.py:50 | `1` and `True` are one key: the dict keeps the key `1` with the getter's value for `True` |
| Signals.ChangedFromDict | dbus_deco/signals.py:48-50 | a `changed` dict gives a payload with the same keys in the same order, each with the getter's result for it |
| Signals.ChangedValuesStops | dbus_deco/signals.py:48-50 | once building the dict fails, it fails with that same error |
| Signals.ChangedValuesFails | dbus_deco/signals.py:48-50 | a getter failing on any changed name makes the emission fail |
| Signals.ChangedNames | dbus_deco/signals.py:49 | with no `changed` keyword, no name changed |
| Signals.Invalidated | dbus_deco/signals.py:51 | the invalidated list defaults to empty under the key `invalidatated` |
| Signals.ChangedPayload | dbus_deco/signals.py:48-50 | iteration errors propagate; no changed names gives an empty dict; a missing getter (None) fails with TypeError only when some name changed |
| Signals.PropertiesChangedSignal.constructor | dbus_deco/signals.py:42-45 | the namespace and getter are stored over a fresh, empty binding |
| Signals.PropertiesChangedSignal.Call | dbus_deco/signals.py:47-52 | the getter is called once per changed name, in order, at emit time; on success the instance's subscribers get `(namespace, changed, invalidated)`; on failure nothing is emitted |
| Signals.NewSplitSignal | dbus_deco/signals.py:83-88 | a `signal` element over the children, followed by a response argument exactly when the response is truthy |
| Signals.AppendResponse | dbus_deco/signals.py:85-86 | a truthy response appends one response argument last; otherwise nothing changes |
| Signals.NewServiceSignal | dbus_deco/service.py:285-287 | a `signal` element over the children in the order given, with the namespace as given |
| Signals.DecorateSignal | dbus_deco/signals.py:90-102 | TypeError exactly when there is neither a callback nor a function; otherwise `name` becomes the name of the callback (preferred) or the function, and a fresh, empty signal binding is returned |
| Properties.NeedsSetterValues | dbus_deco/service.py:314 | `access in (READWRITE, WRITE)` holds for exactly those two strings |
| Properties.ServicePropertyFlags | dbus_deco/service.py:314-315 | `needs_setter` holds exactly for `readwrite` or `write`, and `only_setter` holds exactly for `write` |
| Properties.SplitPropertyFlags | dbus_deco/properties.py:87-101 | `needs_setter`, `write_only` and `read_only` as their modes say; an emitter bound to the namespace exists exactly when `signal_on` is non-empty |
| Properties.AccessModesExclusive | dbus_deco/properties.py:99-101 | write-only implies writable and not read-only; read-only implies no setter; both versions agree on the shared flags |
| Properties.PropertyAttributes | dbus_deco/service.py:306-312 | the element carries `type` and `access` as given, unless an extra attribute overrides them |
| Properties.NewServiceProperty | dbus_deco/service.py:302-315 | TypeError exactly when some child is neither a property nor an annotation; otherwise a `property` element over the children, with the flags of its access mode |
| Properties.ServiceAccessors | dbus_deco/service.py:317-327 | write-only reads None and writes through the function; readable and writable reads through it and writes raise NotImplementedError; read-only writes raise AttributeError; nothing deletes |
| Properties.ServiceAccessModes | dbus_deco/service.py:320-327 | the same three cases, stated by access mode for every instance and value; class access returns the descriptor; nothing deletes |
| Properties.ServiceSetterReplacesFake | dbus_deco/service.py:323-325 | a readable and writable property refuses assignment with NotImplementedError until the builtin `setter(f)` replaces the placeholder; assignment then calls `f`, and the getter is kept |
| Properties.DecorateServiceProperty | dbus_deco/service.py:317-327 | the element takes the function's name and the descriptor of its access mode is returned |
| Properties.AsClassMethod | dbus_deco/properties.py:44-45 | a plain function becomes a classmethod, and classmethods and staticmethods are kept |
| Properties.Invoke | dbus_deco/properties.py:20 | `accessor.__get__(obj, cls)(*args)`: a plain function receives the instance first, or nothing extra for class access (`obj` None); a classmethod receives the class; a staticmethod receives nothing extra |
| Properties.Settled | dbus_deco/properties.py:25-29 | a setter's value is returned, and anything it raises becomes NameError |
| Properties.DescriptorGet | dbus_deco/properties.py:17-20 | the getter called with the instance; for class access (`obj` None) the unbound getter called with no arguments |
| Properties.DescriptorSet | dbus_deco/properties.py:22-29 | without a setter, AttributeError; the only errors are AttributeError and NameError; it succeeds exactly when the setter does |
| Properties.SplitAccessors | dbus_deco/properties.py:116-124 | write-only reads None and writes through the function; readable and writable reads through it and writes raise NameError; read-only writes raise AttributeError |
| Properties.SplitAccessModes | dbus_deco/properties.py:116-124 | the same three cases, stated by access mode for every instance and value |
| Properties.SignallingPropertyDescriptor.constructor | dbus_deco/properties.py:8-15 | the emitter defaults to the getter, the name is the getter's, and a falsy doc is taken from the getter |
| Properties.SignallingPropertyDescriptor.CollectValues | dbus_deco/properties.py:34-40 | a missing doc and a missing name are filled in from the function; present ones are kept |
| Properties.SignallingPropertyDescriptor.Get | dbus_deco/properties.py:17-20 | the getter's result for the instance; for class access (`obj` None), the getter called with no arguments |
| Properties.SignallingPropertyDescriptor.Set | dbus_deco/properties.py:22-29 | without a setter, AttributeError; the only errors are AttributeError and NameError |
| Properties.SignallingPropertyDescriptor.Setter | dbus_deco/properties.py:43-48 | only the setter is replaced (as a classmethod); the same descriptor is returned; assignment then goes through the new setter |
| Properties.SignallingPropertyDescriptor.Emitter | dbus_deco/properties.py:50-55 | only the emitter is replaced (as a classmethod); the same descriptor is returned |
| Properties.DecorateSplitProperty | dbus_deco/properties.py:103-125 | the element takes the function's name; a new descriptor gets the accessors of its access mode, the getter as emitter, and the property's namespace |
| Properties.ValueAttributes | dbus_deco/properties.py:90-98 | a value entry is accepted exactly when it equals `ON_PROPERTY_CHANGE` or is a pair with a value; otherwise TypeError |
| Properties.ValueAttributesCases | dbus_deco/properties.py:90-98 | `ON_PROPERTY_CHANGE` gives EmitsChangedSignal with True; a pair gives an annotation with that name and value; anything else raises TypeError |
| Properties.NewSplitProperty | dbus_deco/properties.py:75-101 | TypeError exactly for a child that is not an annotation or an entry that is refused; otherwise the children, then one child per entry, in order |
| Properties.AppendEvents | dbus_deco/properties.py:90-98 | the entries are appended in order until one is refused; each child is the entry's element or the annotation made for its value |
| Properties.ValueAnnotation | dbus_deco/properties.py:91-96 | the annotation for an accepted value entry, or TypeError |
| Properties.AddElementEvent | dbus_deco/properties.py:93-94 | an annotation entry is appended as it is; any other element is refused with TypeError |
| Interfaces.NewInterface | dbus_deco/service.py:343-345 | an `interface` element over the children, remembering its namespace |
| Interfaces.DecorateInterface | dbus_deco/service.py:347-355 | the namespace becomes `join_path(namespace, class name)` and the `name` attribute holds it; the class is returned; members already declared keep their namespace; AttributeError with no namespace, nothing changed |
| Interfaces.DecoratedName | dbus_deco/service.py:353 | the decorated name is the dotted namespace, a `.`, and the dotted class name, with no `/` |
| Interfaces.ServiceInterfaceProperty | dbus_deco/service.py:357-360 | exactly one `property` element in the current namespace is appended last and returned, or TypeError with the interface unchanged |
| Interfaces.SplitInterfaceProperty | dbus_deco/interface.py:34-50 | as above, with the child checks and the `signal_on` children of `properties.py` |
| Interfaces.InterfaceMethod | dbus_deco/service.py:362-366 | exactly one `method` element in the current namespace is appended and returned; its children are those given, then a response argument exactly when the response is truthy (dbus_deco/interface.py:52-66 is the same) |
| Interfaces.ServiceInterfaceSignal | dbus_deco/service.py:368-372 | TypeError for a falsy response, with the interface unchanged; otherwise one `signal` element is appended whose last argument is a response typed by the inner response element |
| Interfaces.SplitInterfaceSignal | dbus_deco/interface.py:68-82 | every call fails because `args` is read before it is assigned |
| Introspectors.NewIntrospector | dbus_deco/service.py:379-380 | the namespace is dot-normalised: no `/`, same length (dbus_deco/introspector.py:25-26 is the same) |
| Introspectors.Document | dbus_deco/service.py:408 | a `node` element named with the namespace, over the interface element |
| Introspectors.DocumentStable | dbus_deco/service.py:407-409 | rebuilding the document from an unchanged introspector gives the same document, with no booleans in it |
| Introspectors.DecorateService | dbus_deco/service.py:382-405 | the interface step runs; on success the constructor is wrapped by this introspector (outermost) and the class is returned; with no namespace, AttributeError and the class is untouched |
| Introspectors.Wrap | dbus_deco/service.py:404 | the introspector becomes the outermost constructor wrapper |
| Introspectors.Construct | dbus_deco/service.py:396-403 | with a wrapper, a `namespace` keyword raises TypeError before anything changes; otherwise `dbus` holds the innermost introspector's freshly serialised document before the class's own constructor runs on it |
| Introspectors.RunWrappers | dbus_deco/service.py:396-403 | the class's own constructor runs after the wrappers from this one inward and sees the innermost introspector's freshly serialised document; with none left, nothing changes |
| Introspectors.StoreDocument | dbus_deco/service.py:407-409 | `dbus` becomes the node document over this introspector's serialised tree; the other wrappers are untouched |
| Introspectors.DecorateSplitService | dbus_deco/introspector.py:28-36 | the interface step runs, then AttributeError on `self._interface_class`; the class is left alone |

## Left out

- Bus plumbing is not modelled: publishing, the main loop, `client.py`, the examples and the demo at the end of `service.py`. The model has no bus.
- lxml is not modelled.
  - The text rendering (`etree.tostring`, pretty-printing, `__str__`) is not modelled: serialisation produces an abstract element tree.
  - Neither is lxml's refusal of non-string attribute values. An example is the `None` type of a property declared without one.
- `_to_xml` of `service.py` is not modelled: nothing in the library calls it.
- `SignallingPropertyDescriptor.emit` is not modelled: it calls into pydbus.
- The `EmitSignal` exception is not modelled: it discards its arguments, and the handler meant to catch it names an undefined `signal`.
- `load_class_methods` in `introspector.py` is not modelled: it is only reached after the AttributeError on `_interface_class`.
- How Python binds descriptors and classmethods is not modelled. It is replaced by the explicit `Invoke` and the get/set functions.
- Attribute insertion order is not modelled, because attributes are a map.
- Signals.Iterate: tuples are written as lists. Sets, generators and other iterables are not values of the model, so a `changed` argument of those kinds is not covered.
- The builtin `property.getter(f)` of a `service.py` property is not modelled. Whether it takes the doc from the new getter depends on where the old doc came from, which the model does not record.
- The identity of a callback is its only property. What a callback does when notified is not modelled.
- Elements.Element.Valid: an element shared by two parents (aliasing) is not modelled; every tree is required to share no object with its siblings.
- Interfaces.ServiceInterfaceProperty, Interfaces.SplitInterfaceProperty, Interfaces.InterfaceMethod and Interfaces.ServiceInterfaceSignal: these state the new member's kind, namespace, attributes and children, not its serialised tree. They require the given children to share no object with the interface.
- Interfaces.ServiceInterfaceSignal: the inner response element is used as the type of the outer response. It stands as the opaque object `PyObj(responseId)`.
- Methods.NewMethod, Signals.NewServiceSignal, Interfaces.NewInterface, Properties.NewServiceProperty and Properties.NewSplitProperty: these state the element's fields, not its serialised tree. `Elements.Element.constructor` relates the two.
- Properties.NewSplitProperty: the `signal_on` element entries are required to share no object with the children or with each other. Each appended child is described by its fields, not by its tree.
- Introspectors.DecorateService: the introspector is required to share no object with those already wrapping the class, so the same introspector decorating a class twice is not modelled.
- Introspectors.Construct: only the innermost introspector's document and serialised tree are stated. In the source the keyword arguments also reach the class's own constructor; in the model that constructor is given only the positional ones.
- Class inheritance is not modelled: the wrapped constructor is a property of the decorated class alone.
- The `hasattr(cls, '__init__')` guard always holds in Python, so the no-op constructor it falls back to is kept only as `Classes.NoInit`.
