/** The wire schema the renderer consumes: a page is an ordered collection of
    sections, a section an ordered collection of parameters. Type and layout
    tags arrive as open strings; the closed enumerations below are what a
    normalised tag is matched against. */
module Schema {
  import opened JsValue
  import JsString

  /** The parameter types the schema declares, plus the tag of any other. */
  datatype ParamType =
    // display
    | Text | Image | Video | Icon | Divider | Spacer | Badge
    // inputs
    | InputText | InputNumber | InputEmail | InputPassword
    | TextArea | Select | MultiSelect | Checkbox | RadioGroup
    | Switch | FileUpload | DatePicker | ColorPicker | QuantityCounter
    // navigation
    | NavLinks | Breadcrumb | Pagination
    // actions
    | Button | IconButton | Link
    // data
    | ProductGrid | ProductCard | OrderTable | StatsCard
    | Chart | Carousel | Card | SmartForm
    | UnrecognisedType(raw: string)

  /** The wire spelling of a parameter type. */
  function ParamTypeName(t: ParamType): string {
    match t
    case Text => "TEXT"
    case Image => "IMAGE"
    case Video => "VIDEO"
    case Icon => "ICON"
    case Divider => "DIVIDER"
    case Spacer => "SPACER"
    case Badge => "BADGE"
    case InputText => "INPUT_TEXT"
    case InputNumber => "INPUT_NUMBER"
    case InputEmail => "INPUT_EMAIL"
    case InputPassword => "INPUT_PASSWORD"
    case TextArea => "TEXTAREA"
    case Select => "SELECT"
    case MultiSelect => "MULTI_SELECT"
    case Checkbox => "CHECKBOX"
    case RadioGroup => "RADIO_GROUP"
    case Switch => "SWITCH"
    case FileUpload => "FILE_UPLOAD"
    case DatePicker => "DATE_PICKER"
    case ColorPicker => "COLOR_PICKER"
    case QuantityCounter => "QUANTITY_COUNTER"
    case NavLinks => "NAV_LINKS"
    case Breadcrumb => "BREADCRUMB"
    case Pagination => "PAGINATION"
    case Button => "BUTTON"
    case IconButton => "ICON_BUTTON"
    case Link => "LINK"
    case ProductGrid => "PRODUCT_GRID"
    case ProductCard => "PRODUCT_CARD"
    case OrderTable => "ORDER_TABLE"
    case StatsCard => "STATS_CARD"
    case Chart => "CHART"
    case Carousel => "CAROUSEL"
    case Card => "CARD"
    case SmartForm => "SMART_FORM"
    case UnrecognisedType(raw) => raw
  }

  /** Matches a tag exactly against the declared spellings. */
  function ParseParamType(tag: string): (t: ParamType)
    ensures t.UnrecognisedType? ==> t.raw == tag
    ensures t == Text <==> tag == "TEXT"
    ensures t == InputText <==> tag == "INPUT_TEXT"
    ensures t == InputEmail <==> tag == "INPUT_EMAIL"
    ensures t == InputPassword <==> tag == "INPUT_PASSWORD"
    ensures t == Button <==> tag == "BUTTON"
  {
    match tag
    case "TEXT" => Text
    case "IMAGE" => Image
    case "VIDEO" => Video
    case "ICON" => Icon
    case "DIVIDER" => Divider
    case "SPACER" => Spacer
    case "BADGE" => Badge
    case "INPUT_TEXT" => InputText
    case "INPUT_NUMBER" => InputNumber
    case "INPUT_EMAIL" => InputEmail
    case "INPUT_PASSWORD" => InputPassword
    case "TEXTAREA" => TextArea
    case "SELECT" => Select
    case "MULTI_SELECT" => MultiSelect
    case "CHECKBOX" => Checkbox
    case "RADIO_GROUP" => RadioGroup
    case "SWITCH" => Switch
    case "FILE_UPLOAD" => FileUpload
    case "DATE_PICKER" => DatePicker
    case "COLOR_PICKER" => ColorPicker
    case "QUANTITY_COUNTER" => QuantityCounter
    case "NAV_LINKS" => NavLinks
    case "BREADCRUMB" => Breadcrumb
    case "PAGINATION" => Pagination
    case "BUTTON" => Button
    case "ICON_BUTTON" => IconButton
    case "LINK" => Link
    case "PRODUCT_GRID" => ProductGrid
    case "PRODUCT_CARD" => ProductCard
    case "ORDER_TABLE" => OrderTable
    case "STATS_CARD" => StatsCard
    case "CHART" => Chart
    case "CAROUSEL" => Carousel
    case "CARD" => Card
    case "SMART_FORM" => SmartForm
    case _ => UnrecognisedType(tag)
  }

  /** The layout tags the code distinguishes, plus the tag of any other. */
  datatype LayoutTag = Grid | Flex | Container | FullWidth | Portrait | OtherLayout(raw: string)

  function ParseLayout(tag: string): (l: LayoutTag)
    ensures l.OtherLayout? ==> l.raw == tag
    ensures l == Portrait <==> tag == "PORTRAIT"
    ensures l == Grid <==> tag == "GRID"
    ensures l == Flex <==> tag == "FLEX"
    ensures l == Container <==> tag == "CONTAINER"
    ensures l == FullWidth <==> tag == "FULLWIDTH"
  {
    match tag
    case "GRID" => Grid
    case "FLEX" => Flex
    case "CONTAINER" => Container
    case "FULLWIDTH" => FullWidth
    case "PORTRAIT" => Portrait
    case _ => OtherLayout(tag)
  }

  /** A parameter. Text fields that the wire leaves out are "" here; both are
      falsy, which is all the components test. `paramType` is the raw tag. */
  datatype Parameter = Parameter(
    id: string,
    paramKey: string,
    displayName: string,
    paramType: string,
    orderIndex: Option<int>,
    props: Value,
    validationRules: Value)

  /** A section; `parameters` is None when the collection is missing altogether. */
  datatype Section = Section(
    id: string,
    sectionKey: string,
    displayName: string,
    description: string,
    orderIndex: Option<int>,
    layout: string,
    isVisible: Option<bool>,
    parameters: Option<seq<Parameter>>)

  /** A page; `sections` is None when the collection is missing altogether. */
  datatype Page = Page(
    id: string,
    slug: string,
    title: string,
    pageType: string,
    isPublished: bool,
    sections: Option<seq<Section>>)

  /** `x.orderIndex || 0` */
  function OrderKey(orderIndex: Option<int>): int {
    if orderIndex.Some? then orderIndex.value else 0
  }

  /** `parameter.props || {}`: never nullish, so its properties can be read. */
  function UiProps(p: Parameter): (u: Value)
    ensures !Nullish(u)
    ensures Truthy(p.props) ==> u == p.props
  {
    Or(p.props, Obj(map[]))
  }

  /** `uiProps.methods || {}`, the parameter's event bindings. */
  function Methods(p: Parameter): (m: Value)
    ensures !Nullish(m)
  {
    Or(Field(UiProps(p), "methods"), Obj(map[]))
  }

  /** `String(parameter.paramType || '').trim().toUpperCase()` */
  function NormalizedTag(p: Parameter): string {
    JsString.Normalize(p.paramType)
  }

  /** The declared type the normalised tag names. */
  function NormalizedType(p: Parameter): ParamType {
    ParseParamType(NormalizedTag(p))
  }
}
