/** The dispatcher: the type tag is normalised (`String(tag || '')`, trimmed,
    upper-cased) and matched against a closed switch; every tag the switch
    does not name renders nothing. Each treatment receives only its own part
    of the wiring. */
module ParameterRenderer {
  import opened JsValue
  import opened Schema
  import JsString
  import TextParameter
  import InputParameter
  import ButtonParameter

  /** What a caller hands the dispatcher besides the parameter. */
  datatype Wiring = Wiring(isCardHeader: bool, value: Value, hasInputChange: bool, hasBtnClick: bool)

  datatype Treatment = TextTreatment | InputTreatment | ButtonTreatment | NoTreatment

  /** The switch over a normalised tag. */
  function Dispatch(tag: string): (t: Treatment)
    ensures t == TextTreatment <==> tag == "TEXT"
    ensures t == InputTreatment <==> tag == "INPUT_TEXT" || tag == "INPUT_EMAIL" || tag == "INPUT_PASSWORD"
    ensures t == ButtonTreatment <==> tag == "BUTTON"
  {
    match ParseParamType(tag)
    case Text => TextTreatment
    case InputText => InputTreatment
    case InputEmail => InputTreatment
    case InputPassword => InputTreatment
    case Button => ButtonTreatment
    case _ => NoTreatment
  }

  /** The treatment a parameter gets. */
  function TreatmentOf(p: Parameter): Treatment {
    Dispatch(NormalizedTag(p))
  }

  /** What the dispatcher produces. An input or button records whether its
      callback was wired; `Nothing` records the tag the warning names. */
  datatype Rendered =
    | TextOut(text: TextParameter.TextView)
    | InputOut(input: InputParameter.InputView, changeWired: bool)
    | ButtonOut(button: ButtonParameter.ButtonView, clickWired: bool)
    | Nothing(warnedTag: string)

  function Render(p: Parameter, w: Wiring): (r: Rendered)
    ensures r.TextOut? <==> TreatmentOf(p) == TextTreatment
    ensures r.InputOut? <==> TreatmentOf(p) == InputTreatment
    ensures r.ButtonOut? <==> TreatmentOf(p) == ButtonTreatment
    ensures r.TextOut? ==> r.text == TextParameter.RenderText(p, w.isCardHeader)
    ensures r.InputOut? ==> r.input == InputParameter.RenderInput(p, w.value) && r.changeWired == w.hasInputChange
    ensures r.ButtonOut? ==> r.button == ButtonParameter.RenderButton(p) && r.clickWired == w.hasBtnClick
    ensures r.Nothing? ==> r.warnedTag == NormalizedTag(p)
  {
    match TreatmentOf(p)
    case TextTreatment => TextOut(TextParameter.RenderText(p, w.isCardHeader))
    case InputTreatment => InputOut(InputParameter.RenderInput(p, w.value), w.hasInputChange)
    case ButtonTreatment => ButtonOut(ButtonParameter.RenderButton(p), w.hasBtnClick)
    case NoTreatment => Nothing(NormalizedTag(p))
  }

  /** A change typed into what the dispatcher rendered: only an input with a
      wired callback forwards it. */
  function Change(p: Parameter, w: Wiring, newValue: string): (c: Option<InputParameter.ChangeCall>)
    ensures c.Some? ==> TreatmentOf(p) == InputTreatment && w.hasInputChange
    ensures TreatmentOf(p) == InputTreatment ==> c == InputParameter.OnChange(p, w.hasInputChange, newValue)
  {
    if TreatmentOf(p) == InputTreatment then InputParameter.OnChange(p, w.hasInputChange, newValue) else None
  }

  /** A blur on what the dispatcher rendered; it forwards the wired value. */
  function Blur(p: Parameter, w: Wiring): (c: Option<InputParameter.ChangeCall>)
    ensures c.Some? ==> TreatmentOf(p) == InputTreatment && w.hasInputChange
    ensures TreatmentOf(p) == InputTreatment ==> c == InputParameter.OnBlur(p, w.hasInputChange, w.value)
  {
    if TreatmentOf(p) == InputTreatment then InputParameter.OnBlur(p, w.hasInputChange, w.value) else None
  }

  /** A click on what the dispatcher rendered: only a button forwards it. */
  function Click(p: Parameter, w: Wiring): (c: Option<ButtonParameter.ClickCall>)
    ensures c.Some? ==> TreatmentOf(p) == ButtonTreatment && w.hasBtnClick
    ensures TreatmentOf(p) == ButtonTreatment ==> c == ButtonParameter.OnClick(p, w.hasBtnClick)
  {
    if TreatmentOf(p) == ButtonTreatment then ButtonParameter.OnClick(p, w.hasBtnClick) else None
  }

  /** Each treatment sees only its own wiring: a text only `isCardHeader`, an
      input only the value and the change callback, a button only the click
      callback; and what renders nothing ignores all of it. */
  lemma WiringIsolation(p: Parameter, w1: Wiring, w2: Wiring)
    ensures TreatmentOf(p) == TextTreatment && w1.isCardHeader == w2.isCardHeader ==> Render(p, w1) == Render(p, w2)
    ensures TreatmentOf(p) == InputTreatment && w1.value == w2.value && w1.hasInputChange == w2.hasInputChange ==>
      Render(p, w1) == Render(p, w2) && Change(p, w1, "") == Change(p, w2, "") && Blur(p, w1) == Blur(p, w2)
    ensures TreatmentOf(p) == ButtonTreatment && w1.hasBtnClick == w2.hasBtnClick ==>
      Render(p, w1) == Render(p, w2) && Click(p, w1) == Click(p, w2)
    ensures TreatmentOf(p) == NoTreatment ==>
      Render(p, w1) == Render(p, w2) && Click(p, w1) == None && Change(p, w1, "") == None
  {
  }

  /** Two parameters that differ at most in the spelling of their tag, and
      whose tags normalise alike, render alike. */
  lemma SameNormalizedTagSameRender(p: Parameter, q: Parameter, w: Wiring)
    requires q.paramKey == p.paramKey && q.displayName == p.displayName
    requires q.props == p.props && q.validationRules == p.validationRules
    requires NormalizedTag(q) == NormalizedTag(p)
    ensures Render(q, w) == Render(p, w)
  {
    assert TreatmentOf(q) == TreatmentOf(p);
    match TreatmentOf(p)
    case TextTreatment => SameText(p, q, w.isCardHeader);
    case InputTreatment => SameInput(p, q, w.value);
    case ButtonTreatment => SameButton(p, q);
    case NoTreatment =>
  }

  lemma SameText(p: Parameter, q: Parameter, isCardHeader: bool)
    requires q.displayName == p.displayName && q.props == p.props
    ensures TextParameter.RenderText(q, isCardHeader) == TextParameter.RenderText(p, isCardHeader)
  {
  }

  lemma SameInput(p: Parameter, q: Parameter, v: Value)
    requires q.paramKey == p.paramKey && q.displayName == p.displayName
    requires q.props == p.props && q.validationRules == p.validationRules
    requires NormalizedTag(q) == NormalizedTag(p)
    ensures InputParameter.RenderInput(q, v) == InputParameter.RenderInput(p, v)
  {
  }

  lemma SameButton(p: Parameter, q: Parameter)
    requires q.displayName == p.displayName && q.props == p.props
    ensures ButtonParameter.RenderButton(q) == ButtonParameter.RenderButton(p)
  {
  }

  /** Spellings of the tag that differ only in ASCII case or surrounding
      whitespace dispatch identically and render identically. */
  lemma SpellingInsensitive(p: Parameter, w1: string, tag: string, w2: string, w: Wiring)
    requires JsString.AllWhitespace(w1) && JsString.AllWhitespace(w2)
    requires JsString.SameIgnoringCase(tag, p.paramType)
    ensures TreatmentOf(p.(paramType := w1 + tag + w2)) == TreatmentOf(p)
    ensures Render(p.(paramType := w1 + tag + w2), w) == Render(p, w)
  {
    var q := p.(paramType := w1 + tag + w2);
    JsString.NormalizeIgnoresCaseAndPadding(w1, tag, w2, p.paramType);
    assert NormalizedTag(q) == NormalizedTag(p);
    SameNormalizedTagSameRender(p, q, w);
  }

  /** Declared types the switch does not name render nothing. */
  lemma UnhandledTypesRenderNothing(p: Parameter, w: Wiring)
    requires NormalizedTag(p) in {"LINK", "CHECKBOX", "SELECT", "INPUT_NUMBER", "IMAGE", "INPUT", ""}
    ensures Render(p, w) == Nothing(NormalizedTag(p))
    ensures Click(p, w) == None && Change(p, w, "") == None
  {
  }
}
