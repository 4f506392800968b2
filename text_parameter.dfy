/** The TEXT treatment: a variant chosen from the props (default `p`), a content
    that falls back to the display name, and a header or block element chosen
    by whether the text sits inside a card header. */
module TextParameter {
  import opened JsValue
  import opened Schema

  /** The element a text parameter becomes; each carries the content it shows. */
  datatype TextView =
    | CardTitle(content: Value)
    | CardDescription(content: Value)
    | Heading1(content: Value)
    | Heading2(content: Value)
    | Paragraph(content: Value)

  /** `uiProps.variant || 'p'` */
  function TextVariant(p: Parameter): (v: Value)
    ensures Truthy(v)
    ensures !Truthy(Field(UiProps(p), "variant")) ==> v == Str("p")
    ensures Truthy(Field(UiProps(p), "variant")) ==> v == Field(UiProps(p), "variant")
  {
    Or(Field(UiProps(p), "variant"), Str("p"))
  }

  /** `uiProps.text || parameter.displayName` */
  function TextContent(p: Parameter): (c: Value)
    ensures Truthy(Field(UiProps(p), "text")) ==> c == Field(UiProps(p), "text")
    ensures !Truthy(Field(UiProps(p), "text")) ==> c == Str(p.displayName)
  {
    Or(Field(UiProps(p), "text"), Str(p.displayName))
  }

  /** Inside a card header only `title` and the description exist; outside it
      `h1`, `h2` and the paragraph. Every element shows the same content. */
  function RenderText(p: Parameter, isCardHeader: bool): (v: TextView)
    ensures v.content == TextContent(p)
    ensures isCardHeader <==> v.CardTitle? || v.CardDescription?
    ensures v.CardTitle? <==> isCardHeader && TextVariant(p) == Str("title")
    ensures v.Heading1? <==> !isCardHeader && TextVariant(p) == Str("h1")
    ensures v.Heading2? <==> !isCardHeader && TextVariant(p) == Str("h2")
  {
    var variant := TextVariant(p);
    var content := TextContent(p);
    if isCardHeader then
      if variant == Str("title") then CardTitle(content) else CardDescription(content)
    else if variant == Str("h1") then Heading1(content)
    else if variant == Str("h2") then Heading2(content)
    else Paragraph(content)
  }

  /** A text parameter with no props at all is a paragraph showing its display
      name, or a card description inside a header. */
  lemma BarePropsDefaults(p: Parameter, isCardHeader: bool)
    requires Nullish(p.props) || p.props == Obj(map[])
    ensures RenderText(p, isCardHeader) ==
      (if isCardHeader then CardDescription(Str(p.displayName)) else Paragraph(Str(p.displayName)))
  {
    assert Field(UiProps(p), "variant") == Undefined;
    assert Field(UiProps(p), "text") == Undefined;
  }

  /** A heading variant is not a header variant: `h1` inside a card header is a
      description, and `title` outside one is a paragraph. */
  lemma VariantsDoNotCross(p: Parameter)
    ensures TextVariant(p) == Str("h1") ==> RenderText(p, true).CardDescription?
    ensures TextVariant(p) == Str("title") ==> RenderText(p, false).Paragraph?
  {
  }
}
