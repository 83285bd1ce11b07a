/**
 * Signals: the per-instance subscriber registry a decorated signal hands back, the
 * PropertiesChanged payload builder, and the `signal` element with its decorator.
 *
 * Subscribers are told apart by identity only; what a callback does when it is notified is
 * not part of this model, so emitting a signal yields the list of notifications it makes.
 */
module Signals {
  import opened Py
  import opened Elements
  import opened Annotations
  import opened Args

  /** `Events.ON_PROPERTY_CHANGE`: the name of the EmitsChangedSignal annotation. */
  const ON_PROPERTY_CHANGE: string := PROPERTY_EMITS_CHANGED_SIGNAL

  /** A subscribed callback. */
  datatype Callback = Callback(id: nat)

  /** One notification: the callback called and the arguments it was called with. */
  datatype Notification = Notification(callback: Callback, args: seq<Value>)

  /** The handle `connect` returns: the instance the callback was registered under, and the callback. */
  datatype Subscription = Subscription(instance: Value, callback: Callback)

  /** The notifications `emit(*args)` makes for a list of subscribers: each one once, in order. */
  function Notifications(subscribers: seq<Callback>, args: seq<Value>): (ns: seq<Notification>)
    ensures |ns| == |subscribers|
    ensures forall i :: 0 <= i < |subscribers| ==> ns[i] == Notification(subscribers[i], args)
  {
    seq(|subscribers|, i requires 0 <= i < |subscribers| => Notification(subscribers[i], args))
  }

  /** A callback subscribed last is notified last, after everyone subscribed before it. */
  lemma NotificationsSnoc(subscribers: seq<Callback>, cb: Callback, args: seq<Value>)
    ensures Notifications(subscribers + [cb], args) == Notifications(subscribers, args) + [Notification(cb, args)]
  {
  }

  /** `list.remove(cb)`: the first occurrence goes, the rest keep their order. */
  function RemoveFirst(subscribers: seq<Callback>, cb: Callback): (r: seq<Callback>)
    requires cb in subscribers
    ensures |r| == |subscribers| - 1
    ensures multiset(r) == multiset(subscribers) - multiset{cb}
  {
    assert subscribers == [subscribers[0]] + subscribers[1..];
    if subscribers[0] == cb then subscribers[1..]
    else [subscribers[0]] + RemoveFirst(subscribers[1..], cb)
  }

  /** Subscribing a new callback and disconnecting it again restores the subscriber list. */
  lemma {:induction false} RemoveFirstUndoesAppend(subscribers: seq<Callback>, cb: Callback)
    requires cb !in subscribers
    ensures RemoveFirst(subscribers + [cb], cb) == subscribers
  {
    if subscribers != [] {
      assert (subscribers + [cb])[1..] == subscribers[1..] + [cb];
      RemoveFirstUndoesAppend(subscribers[1..], cb);
    }
  }

  /** `_Signal`: the subscriber lists of each instance, and the instance it is currently bound to. */
  class SignalBinding {
    var subscribers: map<Value, seq<Callback>>   // `map`
    var instance: Value                          // `__self__`

    constructor ()
      ensures subscribers == map[] && instance == PyNone
    {
      subscribers := map[];
      instance := PyNone;
    }

    /** `callbacks`: the bound instance's list; an instance that never subscribed raises KeyError. */
    function Callbacks(): (r: Result<seq<Callback>>)
      reads this
      ensures r.Ok? <==> instance in subscribers
      ensures r.Ok? ==> r.value == subscribers[instance]
      ensures r.Err? ==> r.error == KeyError
    {
      if instance in subscribers then Ok(subscribers[instance]) else Err(KeyError)
    }

    /** `map.get(__self__, [])`: who is notified when the signal is emitted now. */
    function Subscribed(): (cbs: seq<Callback>)
      reads this
      ensures instance in subscribers ==> cbs == subscribers[instance]
      ensures instance !in subscribers ==> cbs == []
    {
      if instance in subscribers then subscribers[instance] else []
    }

    /**
     * `connect(callback)`: the callback joins the end of the bound instance's list, which is
     * created on first use; the lists of other instances are left alone.
     */
    method Connect(callback: Callback) returns (s: Subscription)
      modifies this
      ensures instance == old(instance)
      ensures subscribers == old(subscribers)[instance := old(Subscribed()) + [callback]]
      ensures s == Subscription(instance, callback)
    {
      var list := if instance in subscribers then subscribers[instance] else [];
      subscribers := subscribers[instance := list + [callback]];
      s := Subscription(instance, callback);
    }

    /** Disconnecting a subscription removes the first occurrence of its callback from its list. */
    method Disconnect(s: Subscription) returns (r: Result<()>)
      modifies this
      ensures instance == old(instance)
      ensures r.Err? <==> s.instance !in old(subscribers) || s.callback !in old(subscribers)[s.instance]
      ensures r.Err? ==> r.error == ValueError && subscribers == old(subscribers)
      ensures r.Ok? ==> subscribers == old(subscribers)[s.instance := RemoveFirst(old(subscribers)[s.instance], s.callback)]
    {
      if s.instance in subscribers && s.callback in subscribers[s.instance] {
        subscribers := subscribers[s.instance := RemoveFirst(subscribers[s.instance], s.callback)];
        r := Ok(());
      } else {
        r := Err(ValueError);
      }
    }

    /** `emit(*args)`: every subscriber of the bound instance, once each, in subscription order. */
    method Emit(args: seq<Value>) returns (sent: seq<Notification>)
      ensures sent == Notifications(Subscribed(), args)
    {
      var list := if instance in subscribers then subscribers[instance] else [];
      sent := [];
      var i := 0;
      while i < |list|
        invariant 0 <= i <= |list|
        invariant sent == Notifications(list[..i], args)
      {
        sent := sent + [Notification(list[i], args)];
        i := i + 1;
        assert list[..i] == list[..i - 1] + [list[i - 1]];
        NotificationsSnoc(list[..i - 1], list[i - 1], args);
      }
      assert list[..|list|] == list;
    }

    /** `signal(instance, *args)`: binds `instance`, then notifies that instance's subscribers only. */
    method Call(instance: Value, args: seq<Value>) returns (sent: seq<Notification>)
      modifies this
      ensures this.instance == instance && subscribers == old(subscribers)
      ensures sent == Notifications(if instance in subscribers then subscribers[instance] else [], args)
    {
      this.instance := instance;
      sent := Emit(args);
    }
  }

  /**
   * Python's iteration over the `changed` keyword: a list yields its items, a string its
   * characters, a dict its keys in insertion order; any other value is not iterable.
   */
  function Iterate(v: Value): (r: Result<seq<Value>>)
    ensures v.PyList? ==> r == Ok(v.items)
    ensures v.PyStr? ==> r.Ok? && |r.value| == |v.s| && forall i :: 0 <= i < |v.s| ==> r.value[i] == PyStr([v.s[i]])
    ensures v.PyDict? ==> r == Ok(Keys(v.pairs))
    ensures r.Err? <==> !v.PyList? && !v.PyStr? && !v.PyDict?
    ensures r.Err? ==> r.error == TypeError
  {
    match v
    case PyList(items) => Ok(items)
    case PyStr(s) => Ok(seq(|s|, i requires 0 <= i < |s| => PyStr([s[i]])))
    case PyDict(pairs) => Ok(Keys(pairs))
    case _ => Err(TypeError)
  }

  /** A value that can be a dict key. */
  predicate Hashable(v: Value)
  {
    !v.PyList? && !v.PyDict?
  }

  /**
   * The `changed` dict of a PropertiesChanged emission, built name by name: the getter is
   * called with the name first, then the name is used as a key.  The result is a dict: no two
   * of its keys are equal.
   */
  function ChangedValues(getter: PyFunc, names: seq<Value>): (r: Result<seq<(Value, Value)>>)
    ensures r.Ok? ==> Distinct(Keys(r.value))
  {
    if names == [] then Ok([])
    else
      match ChangedValues(getter, names[..|names| - 1])
      case Err(e) => Err(e)
      case Ok(m) =>
        var name := names[|names| - 1];
        match getter.impl([name])
        case Err(e) => Err(e)
        case Ok(v) =>
          if Hashable(name) then
            DictSetSpec(m, name, v);
            Ok(DictSet(m, name, v))
          else Err(TypeError)
  }

  /** `v in xs + [x]`: `v` is in `xs` or equal to `x`. */
  lemma PyInSnoc(v: Value, xs: seq<Value>, x: Value)
    ensures PyIn(v, xs + [x]) <==> PyIn(v, xs) || PyEq(v, x)
  {
    if PyIn(v, xs) {
      var i :| 0 <= i < |xs| && PyEq(v, xs[i]);
      assert (xs + [x])[i] == xs[i];
    }
    if PyEq(v, x) {
      assert (xs + [x])[|xs|] == x;
    }
    if PyIn(v, xs + [x]) {
      var i :| 0 <= i < |xs| + 1 && PyEq(v, (xs + [x])[i]);
      if i < |xs| {
        assert (xs + [x])[i] == xs[i];
      }
    }
  }

  /** One more key: a value is found under `n` exactly when it was before or `n` equals the new key. */
  lemma KeySetStep(m: seq<(Value, Value)>, last: Value, v: Value, init: seq<Value>, n: Value)
    requires DictGet(m, n).Some? <==> PyIn(n, init)
    ensures DictGet(DictSet(m, last, v), n).Some? <==> PyIn(n, init + [last])
  {
    DictSetGet(m, last, v, n);
    PyInSnoc(n, init, last);
    PyEqEquivalence(last, n, n);
    PyEqEquivalence(n, last, n);
  }

  /** Every getter call succeeded, on a name that could be a key. */
  lemma {:induction false} ChangedValuesCalls(getter: PyFunc, names: seq<Value>)
    requires ChangedValues(getter, names).Ok?
    ensures forall i :: 0 <= i < |names| ==> getter.impl([names[i]]).Ok? && Hashable(names[i])
  {
    if names != [] {
      var init := names[..|names| - 1];
      ChangedValuesCalls(getter, init);
      assert forall i :: 0 <= i < |init| ==> init[i] == names[i];
    }
  }

  /** The payload has a key equal to each changed name and no other. */
  lemma {:induction false} ChangedValuesKeySet(getter: PyFunc, names: seq<Value>)
    requires ChangedValues(getter, names).Ok?
    ensures forall n :: DictGet(ChangedValues(getter, names).value, n).Some? <==> PyIn(n, names)
  {
    if names != [] {
      var init := names[..|names| - 1];
      var last := names[|names| - 1];
      ChangedValuesKeySet(getter, init);
      var m := ChangedValues(getter, init).value;
      var v := getter.impl([last]).value;
      assert names == init + [last];
      forall n ensures DictGet(DictSet(m, last, v), n).Some? <==> PyIn(n, names) {
        KeySetStep(m, last, v, init, n);
      }
    }
  }

  /** Names no two of which are equal, as a dict's keys are, become the keys in the order given. */
  lemma {:induction false} ChangedValuesInOrder(getter: PyFunc, names: seq<Value>)
    requires ChangedValues(getter, names).Ok? && Distinct(names)
    ensures Keys(ChangedValues(getter, names).value) == names
  {
    if names != [] {
      var init := names[..|names| - 1];
      var last := names[|names| - 1];
      assert Distinct(init);
      ChangedValuesInOrder(getter, init);
      var m := ChangedValues(getter, init).value;
      DictSetSpec(m, last, getter.impl([last]).value);
      forall i | 0 <= i < |init| ensures !PyEq(Keys(m)[i], last) {
        assert !PyEq(names[i], names[|names| - 1]);
      }
      assert names == init + [last];
    }
  }

  /**
   * The payload has a key equal to each changed name and no other; every getter call
   * succeeded on a hashable name; and names no two of which are equal, as a dict's keys are,
   * become the keys in the order given.
   */
  lemma ChangedValuesSpec(getter: PyFunc, names: seq<Value>)
    requires ChangedValues(getter, names).Ok?
    ensures forall n :: DictGet(ChangedValues(getter, names).value, n).Some? <==> PyIn(n, names)
    ensures forall i :: 0 <= i < |names| ==> getter.impl([names[i]]).Ok? && Hashable(names[i])
    ensures Distinct(names) ==> Keys(ChangedValues(getter, names).value) == names
  {
    ChangedValuesKeySet(getter, names);
    ChangedValuesCalls(getter, names);
    if Distinct(names) {
      ChangedValuesInOrder(getter, names);
    }
  }

  /** The value under a changed name is the getter's result for the last name equal to it. */
  lemma {:induction false} ChangedValuesLastWins(getter: PyFunc, names: seq<Value>, i: nat)
    requires ChangedValues(getter, names).Ok? && i < |names|
    requires forall j :: i < j < |names| ==> !PyEq(names[j], names[i])
    ensures getter.impl([names[i]]).Ok?
    ensures DictGet(ChangedValues(getter, names).value, names[i]) == Some(getter.impl([names[i]]).value)
  {
    var init := names[..|names| - 1];
    var last := names[|names| - 1];
    var m := ChangedValues(getter, init).value;
    ChangedValuesCalls(getter, names);
    DictSetGet(m, last, getter.impl([last]).value, names[i]);
    PyEqEquivalence(last, last, last);
    if i < |names| - 1 {
      assert init[i] == names[i];
      ChangedValuesLastWins(getter, init, i);
    }
  }

  /** `1` and `True` are equal keys: the second name only replaces the value stored under the first. */
  lemma ChangedValuesMergesEqualKeys(getter: PyFunc)
    requires getter.impl([PyInt(1)]).Ok? && getter.impl([PyBool(true)]).Ok?
    ensures ChangedValues(getter, [PyInt(1), PyBool(true)]) == Ok([(PyInt(1), getter.impl([PyBool(true)]).value)])
  {
    var one, yes := PyInt(1), PyBool(true);
    var first := getter.impl([one]).value;
    assert [one, yes][..1] == [one] && [one][..0] == [];
    assert Keys([]) == [] && DictSet([], one, first) == [(one, first)];
    assert ChangedValues(getter, [one]) == Ok([(one, first)]);
    assert Keys([(one, first)]) == [one] && IndexOf([one], yes) == Some(0);
    var second := getter.impl([yes]).value;
    assert DictSet([(one, first)], yes, second) == [(one, second)];
  }

  /** One more name: its getter result is stored under it, or building fails on it. */
  lemma ChangedValuesStep(getter: PyFunc, names: seq<Value>, i: nat)
    requires i < |names| && ChangedValues(getter, names[..i]).Ok?
    ensures getter.impl([names[i]]).Err? ==> ChangedValues(getter, names[..i + 1]) == Err(getter.impl([names[i]]).error)
    ensures getter.impl([names[i]]).Ok? && !Hashable(names[i]) ==> ChangedValues(getter, names[..i + 1]) == Err(TypeError)
    ensures getter.impl([names[i]]).Ok? && Hashable(names[i]) ==>
              ChangedValues(getter, names[..i + 1]) ==
                Ok(DictSet(ChangedValues(getter, names[..i]).value, names[i], getter.impl([names[i]]).value))
  {
    assert names[..i + 1][..i] == names[..i];
  }

  /** Once building the payload has failed on a prefix of the names, it fails with that same error. */
  lemma {:induction false} ChangedValuesStops(getter: PyFunc, names: seq<Value>, k: nat)
    requires k <= |names| && ChangedValues(getter, names[..k]).Err?
    ensures ChangedValues(getter, names) == ChangedValues(getter, names[..k])
    decreases |names| - k
  {
    if k < |names| {
      assert names[..k + 1][..k] == names[..k];
      ChangedValuesStops(getter, names, k + 1);
    } else {
      assert names[..k] == names;
    }
  }

  /** One round of `BuildChanged`: the payload grows by one entry, or the whole emission fails. */
  lemma BuildChangedStep(getter: PyFunc, names: seq<Value>, i: nat, changed: seq<(Value, Value)>)
    requires i < |names| && ChangedValues(getter, names[..i]) == Ok(changed)
    ensures getter.impl([names[i]]).Err? ==> ChangedValues(getter, names) == Err(getter.impl([names[i]]).error)
    ensures getter.impl([names[i]]).Ok? && !Hashable(names[i]) ==> ChangedValues(getter, names) == Err(TypeError)
    ensures getter.impl([names[i]]).Ok? && Hashable(names[i]) ==>
              ChangedValues(getter, names[..i + 1]) == Ok(DictSet(changed, names[i], getter.impl([names[i]]).value))
  {
    ChangedValuesStep(getter, names, i);
    if ChangedValues(getter, names[..i + 1]).Err? {
      ChangedValuesStops(getter, names, i + 1);
    }
  }

  /** A getter failing on any changed name makes the whole emission fail. */
  lemma {:induction false} ChangedValuesFails(getter: PyFunc, names: seq<Value>, i: nat)
    requires i < |names| && getter.impl([names[i]]).Err?
    ensures ChangedValues(getter, names).Err?
  {
    if i < |names| - 1 {
      var init := names[..|names| - 1];
      assert init[i] == names[i];
      ChangedValuesFails(getter, init, i);
    }
  }

  /** The names a PropertiesChanged emission reports as changed (`kwargs.get('changed', [])`). */
  function ChangedNames(kwargs: map<string, Value>): (r: Result<seq<Value>>)
    ensures "changed" !in kwargs ==> r == Ok([])
  {
    if "changed" in kwargs then Iterate(kwargs["changed"]) else Ok([])
  }

  /** The invalidated list, under the keyword `invalidatated`, empty when it is not given. */
  function Invalidated(kwargs: map<string, Value>): (v: Value)
    ensures "invalidatated" !in kwargs ==> v == PyList([])
  {
    if "invalidatated" in kwargs then kwargs["invalidatated"] else PyList([])
  }

  /**
   * The `changed` dict a PropertiesChanged emission sends, or the exception building it raises;
   * a missing getter (None) is only called, and so only fails, when some name changed.
   */
  function ChangedPayload(getter: Option<PyFunc>, kwargs: map<string, Value>): (r: Result<seq<(Value, Value)>>)
    ensures ChangedNames(kwargs).Err? ==> r == Err(ChangedNames(kwargs).error)
    ensures ChangedNames(kwargs) == Ok([]) ==> r == Ok([])
    ensures ChangedNames(kwargs).Ok? && ChangedNames(kwargs).value != [] && getter.None? ==> r == Err(TypeError)
  {
    match ChangedNames(kwargs)
    case Err(e) => Err(e)
    case Ok(names) =>
      if names == [] then Ok([])
      else if getter.None? then Err(TypeError)
      else ChangedValues(getter.value, names)
  }

  /**
   * A `changed` dict (whose keys, as in any dict, are distinct) is iterated over its keys: the
   * payload has the same keys in the same order, each with the getter's result for it.
   */
  lemma ChangedFromDict(getter: PyFunc, kwargs: map<string, Value>, pairs: seq<(Value, Value)>)
    requires "changed" in kwargs && kwargs["changed"] == PyDict(pairs) && Distinct(Keys(pairs))
    requires ChangedPayload(Some(getter), kwargs).Ok?
    ensures Keys(ChangedPayload(Some(getter), kwargs).value) == Keys(pairs)
    ensures forall i :: 0 <= i < |pairs| ==>
              getter.impl([pairs[i].0]).Ok? &&
              DictGet(ChangedPayload(Some(getter), kwargs).value, pairs[i].0) == Some(getter.impl([pairs[i].0]).value)
  {
    var names := Keys(pairs);
    if names != [] {
      ChangedValuesSpec(getter, names);
      forall i | 0 <= i < |pairs|
        ensures getter.impl([pairs[i].0]).Ok?
        ensures DictGet(ChangedValues(getter, names).value, names[i]) == Some(getter.impl([names[i]]).value)
      {
        forall j | i < j < |names| ensures !PyEq(names[j], names[i]) {
          PyEqEquivalence(names[j], names[i], names[j]);
        }
        ChangedValuesLastWins(getter, names, i);
      }
    }
  }

  /** `PropertiesChangedSignal`: a signal preloaded with a namespace and a getter for changed values. */
  class PropertiesChangedSignal {
    const binding: SignalBinding
    const namespace: Value
    const getter: Option<PyFunc>

    constructor (namespace: Value, getter: Option<PyFunc>)
      ensures fresh(binding) && binding.subscribers == map[] && binding.instance == PyNone
      ensures this.namespace == namespace && this.getter == getter
    {
      binding := new SignalBinding();
      this.namespace := namespace;
      this.getter := getter;
    }

    /**
     * `signal(instance, changed=[...], invalidatated=[...])`: reads every changed name through
     * the getter at this moment and notifies the subscribers of `instance` with
     * `(namespace, changed, invalidated)`.  `getterCalls` lists the names the getter was called with.
     */
    method Call(instance: Value, kwargs: map<string, Value>) returns (r: Result<seq<Notification>>, getterCalls: seq<Value>)
      modifies binding
      ensures r.Err? <==> ChangedPayload(getter, kwargs).Err?
      ensures r.Err? ==> r.error == ChangedPayload(getter, kwargs).error && unchanged(binding)
      ensures r.Ok? ==> binding.instance == instance && binding.subscribers == old(binding.subscribers)
      ensures r.Ok? ==> r.value == Notifications(binding.Subscribed(),
                                                 [namespace, PyDict(ChangedPayload(getter, kwargs).value), Invalidated(kwargs)])
      ensures ChangedNames(kwargs).Ok? && getter.Some? ==> getterCalls <= ChangedNames(kwargs).value
      ensures ChangedNames(kwargs).Ok? && getter.Some? && r.Ok? ==> getterCalls == ChangedNames(kwargs).value
    {
      var names := ChangedNames(kwargs);
      if names.Err? {
        return Err(names.error), [];
      }
      if names.value == [] {
        getterCalls := [];
      } else if getter.None? {
        return Err(TypeError), [];
      }
      var changed: Result<seq<(Value, Value)>> := Ok([]);
      if getter.Some? {
        changed, getterCalls := BuildChanged(getter.value, names.value);
      }
      if changed.Err? {
        return Err(changed.error), getterCalls;
      }
      var sent := binding.Call(instance, [namespace, PyDict(changed.value), Invalidated(kwargs)]);
      r := Ok(sent);
    }
  }

  /**
   * The loop of `PropertiesChangedSignal.__call__`: the getter is called on the names one by
   * one, in order, and each result is stored under its name, until a call or a key fails.
   * `calls` lists the names the getter was called with.
   */
  method BuildChanged(getter: PyFunc, names: seq<Value>) returns (r: Result<seq<(Value, Value)>>, calls: seq<Value>)
    ensures r == ChangedValues(getter, names)
    ensures calls <= names
    ensures r.Ok? ==> calls == names
  {
    var changed: seq<(Value, Value)> := [];
    var i := 0;
    while i < |names|
      invariant 0 <= i <= |names|
      invariant ChangedValues(getter, names[..i]) == Ok(changed)
    {
      var name := names[i];
      var v := getter.impl([name]);
      BuildChangedStep(getter, names, i, changed);
      if v.Err? {
        return Err(v.error), names[..i + 1];
      }
      if !Hashable(name) {
        return Err(TypeError), names[..i + 1];
      }
      changed := DictSet(changed, name, v.value);
      i := i + 1;
    }
    assert names[..|names|] == names;
    r, calls := Ok(changed), names;
  }

  /**
   * `Signal(namespace, *children, response=None, **attributes)` of `signals.py`: a truthy
   * response adds a response argument after the children.
   */
  method NewSplitSignal(namespace: Option<string>, children: seq<Element>, response: Value, kwargs: seq<(string, Value)>)
    returns (s: Element)
    requires ValidForest(children)
    ensures s.Valid() && fresh(s)
    ensures s.kind == SignalNode && s.namespace == namespace && s.onSignalCallback == None
    ensures s.attributes == UntailAll(kwargs)
    ensures |s.children| == |children| + (if Truthy(response) then 1 else 0)
    ensures s.children[..|children|] == children
    ensures Truthy(response) ==> s.children[|children|].Tree() == Elem("arg", ResponseAttributes(response), [])
  {
    s := new Element(SignalNode, namespace, children, kwargs);
    AppendResponse(s, response);
  }

  /** `if response: self.append(Response(response))`. */
  method AppendResponse(s: Element, response: Value)
    requires s.Valid()
    modifies s
    ensures s.Valid() && fresh(s.Repr - old(s.Repr)) && old(s.Repr) <= s.Repr
    ensures s.attributes == old(s.attributes) && s.namespace == old(s.namespace)
    ensures s.onSignalCallback == old(s.onSignalCallback)
    ensures |s.children| == |old(s.children)| + (if Truthy(response) then 1 else 0)
    ensures s.children[..|old(s.children)|] == old(s.children)
    ensures Truthy(response) ==> s.children[|old(s.children)|].Tree() == Elem("arg", ResponseAttributes(response), [])
  {
    if Truthy(response) {
      var resp := NewResponse(response);
      s.Append(resp.value);
      assert s.children[..|old(s.children)|] == old(s.children);
      s.TreeChildren();
    }
  }

  /** `Signal(namespace, *children, **attributes)` of `service.py`. */
  method NewServiceSignal(namespace: Option<string>, children: seq<Element>, kwargs: seq<(string, Value)>)
    returns (s: Element)
    requires ValidForest(children)
    ensures s.Valid() && fresh(s.Repr - ReprOf(children)) && s.Repr == {s} + ReprOf(children)
    ensures s.kind == SignalNode && s.children == children && s.namespace == namespace
    ensures s.attributes == UntailAll(kwargs) && s.onSignalCallback == None
  {
    s := new Element(SignalNode, namespace, children, kwargs);
  }

  /**
   * `signal_element(func)`: the function named is the construction-time callback if there is
   * one, else `func`; with neither TypeError is raised.  The element takes that function's
   * name and a new, unsubscribed signal is handed back.
   */
  method DecorateSignal(s: Element, func: Option<PyFunc>) returns (r: Result<SignalBinding>)
    requires s.Valid()
    modifies s
    ensures s.Valid() && s.Repr == old(s.Repr) && s.children == old(s.children)
    ensures s.namespace == old(s.namespace) && s.onSignalCallback == old(s.onSignalCallback)
    ensures r.Err? <==> s.onSignalCallback.None? && func.None?
    ensures r.Err? ==> r.error == TypeError && s.attributes == old(s.attributes)
    ensures r.Ok? ==>
              var named := if s.onSignalCallback.Some? then s.onSignalCallback.value else func.value;
              s.attributes == old(s.attributes)["name" := PyStr(named.name)] &&
              s.Tree() == old(s.Tree()).(attributes := s.attributes) &&
              fresh(r.value) && r.value.subscribers == map[] && r.value.instance == PyNone
  {
    if s.onSignalCallback.None? && func.None? {
      return Err(TypeError);
    }
    var f := if s.onSignalCallback.Some? then s.onSignalCallback.value else func.value;
    var binding := new SignalBinding();
    // the base decorator already stores the name that is then assigned a second time
    var _ := s.Decorate(f);
    r := Ok(binding);
  }
}
