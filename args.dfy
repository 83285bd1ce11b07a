/** Argument elements of methods and signals, and the response argument appended for a return type. */
module Args {
  import opened Py
  import opened Elements

  /**
   * `Arg(name, type_, direction=IN)`: a falsy type is refused with TypeError; otherwise the
   * keyword arguments handed to the element, whose `type_` is stored under `type`.
   */
  function ArgKwargs(name: Value, type_: Value, direction: Value := PyStr(IN)): (r: Result<seq<(string, Value)>>)
    ensures r.Err? <==> !Truthy(type_)
    ensures r.Err? ==> r.error == TypeError
    ensures r.Ok? ==> UntailAll(r.value) == map["name" := name, "type" := type_, "direction" := direction]
  {
    if !Truthy(type_) then Err(TypeError)
    else
      var kwargs := [("name", name), ("type_", type_), ("direction", direction)];
      UntailAllSnoc([], kwargs[0]);
      UntailAllSnoc(kwargs[..1], kwargs[1]);
      UntailAllSnoc(kwargs[..2], kwargs[2]);
      assert kwargs[..1] == [] + [kwargs[0]] && kwargs[..2] == kwargs[..1] + [kwargs[1]];
      assert kwargs == kwargs[..2] + [kwargs[2]];
      assert Untail("name") == "name" && Untail("type_") == "type" && Untail("direction") == "direction";
      Ok(kwargs)
  }

  /** The attributes of a response: always named `response`, always an output. */
  function ResponseAttributes(type_: Value): map<string, Value>
  {
    map["name" := PyStr("response"), "type" := type_, "direction" := PyStr(OUT)]
  }

  /** `Response(type_)`: `Arg('response', type_, OUT)`. */
  function ResponseKwargs(type_: Value): (r: Result<seq<(string, Value)>>)
    ensures r.Err? <==> !Truthy(type_)
    ensures r.Err? ==> r.error == TypeError
    ensures r.Ok? ==> UntailAll(r.value) == ResponseAttributes(type_)
  {
    ArgKwargs(PyStr("response"), type_, PyStr(OUT))
  }

  /** An omitted direction is an input. */
  lemma ArgDefaultDirection(name: Value, type_: Value)
    requires Truthy(type_)
    ensures UntailAll(ArgKwargs(name, type_).value)["direction"] == PyStr(IN)
    ensures "type_" !in UntailAll(ArgKwargs(name, type_).value)
  {
  }

  /** The element `Arg(name, type_, direction)` builds. */
  method NewArg(name: Value, type_: Value, direction: Value := PyStr(IN)) returns (r: Result<Element>)
    ensures r.Err? <==> !Truthy(type_)
    ensures r.Err? ==> r.error == TypeError
    ensures r.Ok? ==> fresh(r.value.Repr) && r.value.Valid() && r.value.kind == ArgNode
    ensures r.Ok? ==> r.value.children == [] && r.value.namespace == None
    ensures r.Ok? ==> (r.value.Tree() ==
                       Elem("arg", map["name" := name, "type" := type_, "direction" := direction], []))
  {
    match ArgKwargs(name, type_, direction)
    case Err(e) => r := Err(e);
    case Ok(kwargs) =>
      var a := new Element(ArgNode, None, [], kwargs);
      r := Ok(a);
  }

  /** The element `Response(type_)` builds. */
  method NewResponse(type_: Value) returns (r: Result<Element>)
    ensures r.Err? <==> !Truthy(type_)
    ensures r.Err? ==> r.error == TypeError
    ensures r.Ok? ==> fresh(r.value.Repr) && r.value.Valid() && r.value.kind == ArgNode
    ensures r.Ok? ==> r.value.children == [] && r.value.namespace == None
    ensures r.Ok? ==> r.value.Tree() == Elem("arg", ResponseAttributes(type_), [])
  {
    r := NewArg(PyStr("response"), type_, PyStr(OUT));
  }

  /**
   * `_pack_response(args, response)`: a falsy response leaves the arguments as they are;
   * otherwise exactly one response argument is added after them.
   */
  method PackResponse(args: seq<Element>, response: Value) returns (packed: seq<Element>)
    requires ValidForest(args)
    ensures !Truthy(response) ==> packed == args
    ensures Truthy(response) ==> |packed| == |args| + 1 && packed[..|args|] == args
    ensures Truthy(response) ==> packed[|args|].kind == ArgNode && packed[|args|].children == [] &&
                                 packed[|args|].attributes == ResponseAttributes(response)
    ensures ValidForest(packed) && ReprOf(args) <= ReprOf(packed) && fresh(ReprOf(packed) - ReprOf(args))
    ensures TreesOf(packed) ==
              TreesOf(args) + (if Truthy(response) then [Elem("arg", ResponseAttributes(response), [])] else [])
  {
    packed := args;
    if Truthy(response) {
      var r := NewResponse(response);
      var resp := r.value;
      assert resp in resp.Repr;
      ForestSnoc(args, resp);
      packed := args + [resp];
      assert packed[..|args|] == args;
    }
  }
}
