/** An element of the builder's canvas: a free-form record, built on a drop
    with an id, a type, a display name and empty props, and edited by shallow
    merges from the properties panel. */
module CanvasElement {
  import opened JsValue
  import JsString
  import opened Schema

  type Element = map<string, Value>

  /** `el.id` */
  function IdOf(el: Element): Value {
    Get(el, "id")
  }

  /** `param-${Date.now()}`, with the clock reading passed in. */
  function NewId(now: nat): string {
    "param-" + JsString.NatToString(now)
  }

  /** The element a palette item dropped on the canvas becomes. */
  function NewElement(activeId: string, now: nat): (e: Element)
    ensures IdOf(e) == Str(NewId(now))
    ensures Get(e, "paramType") == Str(activeId)
    ensures Get(e, "displayName") == Str("New " + activeId)
    ensures Get(e, "props") == Obj(map[])
    ensures e.Keys == {"id", "paramType", "displayName", "props"}
  {
    map["id" := Str(NewId(now)), "paramType" := Str(activeId),
        "displayName" := Str("New " + activeId), "props" := Obj(map[])]
  }

  /** Drops at different clock readings get different ids. */
  lemma NewIdsDiffer(m: nat, n: nat)
    requires m != n
    ensures NewId(m) != NewId(n)
  {
    if NewId(m) == NewId(n) {
      var pre := "param-";
      assert NewId(m)[|pre|..] == JsString.NatToString(m);
      assert NewId(n)[|pre|..] == JsString.NatToString(n);
      JsString.NatToStringInjective(m, n);
    }
  }

  /** A string-valued entry, `""` for a missing or non-string one. */
  function TextOf(el: Element, k: string): string {
    var v := Get(el, k);
    if v.Str? then v.s else ""
  }

  /** An element read as a parameter, as the canvas preview and a saved
      payload are read by the renderer. */
  function AsParameter(el: Element): (p: Parameter)
    ensures Get(el, "paramType").Str? ==> p.paramType == Get(el, "paramType").s
    ensures Get(el, "orderIndex").Num? ==> p.orderIndex == Some(Get(el, "orderIndex").n)
    ensures p.props == Get(el, "props")
  {
    var order := Get(el, "orderIndex");
    Parameter(TextOf(el, "id"), TextOf(el, "paramKey"), TextOf(el, "displayName"), TextOf(el, "paramType"),
      if order.Num? then Some(order.n) else None,
      Get(el, "props"), Get(el, "validationRules"))
  }
}
