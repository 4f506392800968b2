/** The input treatment: a controlled field whose kind comes from the
    normalised type tag, whose shown value is always the one supplied from
    outside, and whose change and blur events are forwarded to the caller's
    callback together with the parameter's method bindings. */
module InputParameter {
  import opened JsValue
  import opened Schema

  datatype InputKind = PasswordInput | EmailInput | TextInput

  /** The HTML `type` attribute of each kind. */
  function HtmlType(k: InputKind): string {
    match k
    case PasswordInput => "password"
    case EmailInput => "email"
    case TextInput => "text"
  }

  /** The password branch for `INPUT_PASSWORD`, `email` for `INPUT_EMAIL`, a
      text field for every other tag. */
  function Kind(p: Parameter): (k: InputKind)
    ensures k == PasswordInput <==> NormalizedTag(p) == "INPUT_PASSWORD"
    ensures k == EmailInput <==> NormalizedTag(p) == "INPUT_EMAIL"
  {
    var tag := NormalizedTag(p);
    if tag == "INPUT_PASSWORD" then PasswordInput
    else if tag == "INPUT_EMAIL" then EmailInput
    else TextInput
  }

  /** The "forgot password" anchor of the password branch. */
  datatype ForgotLink = ForgotLink(href: Value, text: Value)

  datatype InputView = InputView(
    id: string,
    kind: InputKind,
    caption: Value,
    forgot: Option<ForgotLink>,
    shown: Value,
    placeholder: Value,
    required: bool)

  /** `value || ''`: what a controlled field shows for the supplied value. */
  function Shown(value: Value): (r: Value)
    ensures !Nullish(r)
    ensures Truthy(value) ==> r == value
    ensures !Truthy(value) ==> r == Str("")
  {
    Or(value, Str(""))
  }

  /** `uiProps.label || parameter.displayName` */
  function Label(p: Parameter): (l: Value)
    ensures Truthy(Field(UiProps(p), "label")) ==> l == Field(UiProps(p), "label")
    ensures !Truthy(Field(UiProps(p), "label")) ==> l == Str(p.displayName)
  {
    Or(Field(UiProps(p), "label"), Str(p.displayName))
  }

  /** The `required` attribute: set when the validation rules or the props ask
      for it. */
  function Required(p: Parameter): (b: bool)
    ensures b <==> Truthy(OptField(p.validationRules, "required")) || Truthy(Field(UiProps(p), "required"))
  {
    Truthy(Or(Or(OptField(p.validationRules, "required"), Field(UiProps(p), "required")), Bool(false)))
  }

  /** The anchor, present only in the password branch and only when a link
      target is set; its text falls back to a fixed prompt. */
  function Forgot(p: Parameter, k: InputKind): (f: Option<ForgotLink>)
    ensures f.Some? <==> k == PasswordInput && Truthy(Field(UiProps(p), "forgotPasswordLink"))
    ensures f.Some? ==> f.value.href == Field(UiProps(p), "forgotPasswordLink")
    ensures f.Some? && !Truthy(Field(UiProps(p), "forgotPasswordText")) ==>
      f.value.text == Str("Forgot your password?")
    ensures f.Some? && Truthy(Field(UiProps(p), "forgotPasswordText")) ==>
      f.value.text == Field(UiProps(p), "forgotPasswordText")
  {
    var u := UiProps(p);
    if k == PasswordInput && Truthy(Field(u, "forgotPasswordLink")) then
      Some(ForgotLink(Field(u, "forgotPasswordLink"), Or(Field(u, "forgotPasswordText"), Str("Forgot your password?"))))
    else None
  }

  /** The rendered field for the supplied value. */
  function RenderInput(p: Parameter, value: Value): (v: InputView)
    ensures v.id == p.paramKey && v.kind == Kind(p)
    ensures v.shown == Shown(value)
    ensures v.caption == Label(p) && v.required == Required(p)
    ensures v.forgot == Forgot(p, Kind(p))
    ensures v.placeholder == Field(UiProps(p), "placeholder")
  {
    var k := Kind(p);
    InputView(p.paramKey, k, Label(p), Forgot(p, k), Shown(value), Field(UiProps(p), "placeholder"), Required(p))
  }

  /** A call of the caller's change callback. */
  datatype ChangeCall = ChangeCall(paramKey: string, value: Value, methods: Value)

  /** A change forwards the typed text with the whole method bindings, whenever
      a callback is supplied. */
  function OnChange(p: Parameter, hasCallback: bool, newValue: string): (c: Option<ChangeCall>)
    ensures c.Some? <==> hasCallback
    ensures c.Some? ==> c.value == ChangeCall(p.paramKey, Str(newValue), Methods(p))
  {
    if hasCallback then Some(ChangeCall(p.paramKey, Str(newValue), Methods(p))) else None
  }

  /** A blur forwards the supplied value itself (not the `''` shown in its
      place) when the bindings name an `onBlur` and a callback is supplied. */
  function OnBlur(p: Parameter, hasCallback: bool, value: Value): (c: Option<ChangeCall>)
    ensures c.Some? <==> hasCallback && Truthy(Field(Methods(p), "onBlur"))
    ensures c.Some? ==> c.value == ChangeCall(p.paramKey, value, Methods(p))
  {
    if Truthy(Field(Methods(p), "onBlur")) && hasCallback then Some(ChangeCall(p.paramKey, value, Methods(p)))
    else None
  }

  /** The field holds no state of its own: a typed text reaches the owner
      through the change callback, and once the owner supplies it back it is
      shown as typed. */
  lemma Controlled(p: Parameter, newValue: string)
    requires newValue != ""
    ensures OnChange(p, true, newValue).Some?
    ensures RenderInput(p, OnChange(p, true, newValue).value.value).shown == Str(newValue)
  {
  }

  /** A falsy supplied value, such as `0` or `false`, shows as the empty text,
      while a blur still forwards it unchanged. */
  lemma FalsyShownEmpty(p: Parameter, value: Value)
    requires !Truthy(value)
    requires Truthy(Field(Methods(p), "onBlur"))
    ensures RenderInput(p, value).shown == Str("")
    ensures OnBlur(p, true, value) == Some(ChangeCall(p.paramKey, value, Methods(p)))
  {
  }

  /** Without bindings there is no blur to forward, while a change is still
      forwarded with an empty bindings object. */
  lemma NoBindings(p: Parameter, v: Value, s: string)
    requires Nullish(p.props) || p.props == Obj(map[])
    ensures OnBlur(p, true, v) == None
    ensures OnChange(p, true, s) == Some(ChangeCall(p.paramKey, Str(s), Obj(map[])))
  {
    assert Field(UiProps(p), "methods") == Undefined;
  }
}
