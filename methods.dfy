/** Method elements. */
module Methods {
  import opened Py
  import opened Elements

  /**
   * `Method(namespace, *children, **attributes)`: a `method` element over the children in the
   * order given, remembering the namespace it was declared in.
   */
  method NewMethod(namespace: Option<string>, children: seq<Element>, kwargs: seq<(string, Value)>)
    returns (m: Element)
    requires ValidForest(children)
    ensures m.Valid() && fresh(m.Repr - ReprOf(children)) && m.Repr == {m} + ReprOf(children)
    ensures m.kind == MethodNode && m.children == children && m.namespace == namespace
    ensures m.attributes == UntailAll(kwargs) && m.onSignalCallback == None
  {
    m := new Element(MethodNode, namespace, children, kwargs);
  }
}
