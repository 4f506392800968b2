/** The button treatment: a variant from a fixed allow-list, a label from the
    first truthy of alias, label and display name, and a click that reaches
    the caller's callback only when the bindings name an `onClick`. */
module ButtonParameter {
  import opened JsValue
  import opened Schema

  /** The variants the button component accepts. */
  const ValidVariants: set<string> := {"default", "destructive", "outline", "secondary", "ghost", "link"}

  datatype ButtonView = ButtonView(variant: string, fullWidth: bool, caption: Value)

  /** `validVariants.includes(uiProps.variant) ? uiProps.variant : 'default'`:
      only a string on the list passes through. */
  function SafeVariant(p: Parameter): (r: string)
    ensures r in ValidVariants
    ensures Field(UiProps(p), "variant") == Str(r) || r == "default"
    ensures (Field(UiProps(p), "variant").Str? && Field(UiProps(p), "variant").s in ValidVariants)
      ==> Field(UiProps(p), "variant") == Str(r)
  {
    var v := Field(UiProps(p), "variant");
    if v.Str? && v.s in ValidVariants then v.s else "default"
  }

  /** `uiProps.alias || uiProps.label || parameter.displayName` */
  function ButtonLabel(p: Parameter): (l: Value)
    ensures Truthy(Field(UiProps(p), "alias")) ==> l == Field(UiProps(p), "alias")
    ensures !Truthy(Field(UiProps(p), "alias")) && Truthy(Field(UiProps(p), "label")) ==> l == Field(UiProps(p), "label")
    ensures !Truthy(Field(UiProps(p), "alias")) && !Truthy(Field(UiProps(p), "label")) ==> l == Str(p.displayName)
  {
    Or(Or(Field(UiProps(p), "alias"), Field(UiProps(p), "label")), Str(p.displayName))
  }

  function RenderButton(p: Parameter): (v: ButtonView)
    ensures v.variant == SafeVariant(p) && v.caption == ButtonLabel(p)
    ensures v.fullWidth <==> Field(UiProps(p), "width") == Str("full")
  {
    ButtonView(SafeVariant(p), Field(UiProps(p), "width") == Str("full"), ButtonLabel(p))
  }

  /** A call of the caller's click callback. */
  datatype ClickCall = ClickCall(paramKey: string, eventCode: Value, methods: Value)

  /** `methods.onClick.action || 'DEFAULT_CLICK'`, read only once `onClick` is
      known to be truthy. */
  function EventCode(p: Parameter): (e: Value)
    requires Truthy(Field(Methods(p), "onClick"))
    ensures Truthy(e)
    ensures !Truthy(Field(Field(Methods(p), "onClick"), "action")) ==> e == Str("DEFAULT_CLICK")
    ensures Truthy(Field(Field(Methods(p), "onClick"), "action")) ==> e == Field(Field(Methods(p), "onClick"), "action")
  {
    Or(Field(Field(Methods(p), "onClick"), "action"), Str("DEFAULT_CLICK"))
  }

  /** A click forwards the event code and the whole bindings object (not only
      its `onClick`) when `onClick` is bound and a callback is supplied. */
  function OnClick(p: Parameter, hasCallback: bool): (c: Option<ClickCall>)
    ensures c.Some? <==> hasCallback && Truthy(Field(Methods(p), "onClick"))
    ensures c.Some? ==> c.value == ClickCall(p.paramKey, EventCode(p), Methods(p))
  {
    if Truthy(Field(Methods(p), "onClick")) && hasCallback then
      Some(ClickCall(p.paramKey, EventCode(p), Methods(p)))
    else None
  }

  /** A button with no props renders as a default, fit-width button labelled
      with its display name, and its click does nothing. */
  lemma BarePropsDefaults(p: Parameter, hasCallback: bool)
    requires Nullish(p.props) || p.props == Obj(map[])
    ensures RenderButton(p) == ButtonView("default", false, Str(p.displayName))
    ensures OnClick(p, hasCallback) == None
  {
    assert Field(UiProps(p), "methods") == Undefined;
  }

  /** An `onClick` binding without an `action` sends the default event code. */
  lemma DefaultEventCode(p: Parameter, onClick: map<string, Value>)
    requires Methods(p) == Obj(map["onClick" := Obj(onClick)])
    requires "action" !in onClick
    ensures OnClick(p, true) == Some(ClickCall(p.paramKey, Str("DEFAULT_CLICK"), Methods(p)))
  {
  }
}
