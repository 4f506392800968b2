/** One section of a page: its parameters in order, split by their raw type
    tag into input, action and display groups, laid out by the normalised
    layout tag, with a per-section form state keyed by `paramKey` and the
    routing of change and click events to the page's controller. */
module SectionRenderer {
  import opened JsValue
  import opened Schema
  import opened Seqs
  import opened StableSort
  import JsString
  import Controllers
  import ParameterRenderer
  import InputParameter
  import ButtonParameter

  // ---------------------------------------------------------------------
  // Ordering and grouping

  /** `a.orderIndex || 0` for a parameter. */
  function ParamOrderKey(p: Parameter): int {
    OrderKey(p.orderIndex)
  }

  /** A copy of the parameters, stably sorted by order index; none at all
      when the section carries no parameter list. */
  function SortedParameters(s: Section): (r: seq<Parameter>)
    ensures s.parameters.None? ==> r == []
    ensures s.parameters.Some? ==> multiset(r) == multiset(s.parameters.value)
    ensures SortedBy(r, ParamOrderKey)
    ensures s.parameters.Some? ==>
      forall k :: Filter(r, HasKey(ParamOrderKey, k)) == Filter(s.parameters.value, HasKey(ParamOrderKey, k))
  {
    if s.parameters.Some? then SortBy(s.parameters.value, ParamOrderKey) else []
  }

  /** The input group's test, on the raw tag. */
  predicate IsInputParam(p: Parameter) {
    JsString.StartsWith(p.paramType, "INPUT") || p.paramType == "CHECKBOX" || p.paramType == "SELECT"
  }

  /** The action group's test, on the raw tag. */
  predicate IsActionParam(p: Parameter) {
    p.paramType == "BUTTON" || p.paramType == "LINK"
  }

  predicate IsDisplayParam(p: Parameter) {
    !IsInputParam(p) && !IsActionParam(p)
  }

  function InputParams(sorted: seq<Parameter>): seq<Parameter> {
    Filter(sorted, IsInputParam)
  }

  function ActionParams(sorted: seq<Parameter>): seq<Parameter> {
    Filter(sorted, IsActionParam)
  }

  /** What is in neither of the other two groups, tested by membership in
      them as the code does. */
  function DisplayParams(sorted: seq<Parameter>): seq<Parameter> {
    var ins := InputParams(sorted);
    var acts := ActionParams(sorted);
    Filter(sorted, p => p !in ins && p !in acts)
  }

  /** No raw tag is both an input and an action tag. */
  lemma TestsAreExclusive(p: Parameter)
    ensures !(IsInputParam(p) && IsActionParam(p))
  {
    if IsActionParam(p) {
      assert p.paramType[0] != "INPUT"[0];
    }
  }

  /** The membership test the code uses for the display group is the
      complement of the other two tests. */
  lemma DisplayIsComplement(sorted: seq<Parameter>)
    ensures DisplayParams(sorted) == Filter(sorted, IsDisplayParam)
  {
    var ins := InputParams(sorted);
    var acts := ActionParams(sorted);
    forall i | 0 <= i < |sorted|
      ensures (sorted[i] !in ins && sorted[i] !in acts) == IsDisplayParam(sorted[i])
    {
      FilterMember(sorted, IsInputParam, sorted[i]);
      FilterMember(sorted, IsActionParam, sorted[i]);
    }
    FilterSameOn(sorted, p => p !in ins && p !in acts, IsDisplayParam);
  }

  /** The three groups: each is the sorted list restricted to its own test
      (so in the sorted order), no parameter satisfies two tests, and together
      they hold every parameter exactly once. */
  lemma GroupsPartition(sorted: seq<Parameter>)
    ensures DisplayParams(sorted) == Filter(sorted, IsDisplayParam)
    ensures forall p :: !(IsInputParam(p) && IsActionParam(p))
    ensures multiset(InputParams(sorted)) + multiset(ActionParams(sorted)) + multiset(DisplayParams(sorted))
      == multiset(sorted)
    ensures |InputParams(sorted)| + |ActionParams(sorted)| + |DisplayParams(sorted)| == |sorted|
  {
    DisplayIsComplement(sorted);
    forall p ensures !(IsInputParam(p) && IsActionParam(p)) {
      TestsAreExclusive(p);
    }
    FilterThreeWay(sorted, IsInputParam, IsActionParam, IsDisplayParam);
    var m := multiset(InputParams(sorted)) + multiset(ActionParams(sorted)) + multiset(DisplayParams(sorted));
    assert |m| == |multiset(sorted)|;
  }

  // ---------------------------------------------------------------------
  // Layout

  datatype Arrangement = GridArrangement | FlexArrangement | ContainerArrangement | ColumnArrangement

  /** The card (portrait) strategy, or a flat one with its arrangement. */
  datatype Strategy = CardStrategy | FlatStrategy(arrangement: Arrangement)

  /** The strategy the normalised layout tag selects; every tag other than the
      four named ones, `FULLWIDTH` among them, falls back to a single column. */
  function LayoutStrategy(layout: string): (st: Strategy)
    ensures st == CardStrategy <==> JsString.Normalize(layout) == "PORTRAIT"
    ensures st == FlatStrategy(GridArrangement) <==> JsString.Normalize(layout) == "GRID"
    ensures st == FlatStrategy(FlexArrangement) <==> JsString.Normalize(layout) == "FLEX"
    ensures st == FlatStrategy(ContainerArrangement) <==> JsString.Normalize(layout) == "CONTAINER"
    ensures st == FlatStrategy(ColumnArrangement) <==>
      JsString.Normalize(layout) !in {"PORTRAIT", "GRID", "FLEX", "CONTAINER"}
  {
    match ParseLayout(JsString.Normalize(layout))
    case Portrait => CardStrategy
    case Grid => FlatStrategy(GridArrangement)
    case Flex => FlatStrategy(FlexArrangement)
    case Container => FlatStrategy(ContainerArrangement)
    case _ => FlatStrategy(ColumnArrangement)
  }

  /** Layout tags that differ only in case or surrounding whitespace select the
      same strategy. */
  lemma LayoutSpellingInsensitive(w1: string, a: string, w2: string, b: string)
    requires JsString.AllWhitespace(w1) && JsString.AllWhitespace(w2)
    requires JsString.SameIgnoringCase(a, b)
    ensures LayoutStrategy(w1 + a + w2) == LayoutStrategy(b)
  {
    JsString.NormalizeIgnoresCaseAndPadding(w1, a, w2, b);
  }

  /** The heading block of a flat section. */
  datatype SectionHeader = SectionHeader(title: Option<string>, description: Option<string>)

  /** Emitted only when the section has a display name or a description; each
      line only when its text is non-empty. */
  function FlatHeader(s: Section): (h: Option<SectionHeader>)
    ensures h.None? <==> s.displayName == "" && s.description == ""
    ensures h.Some? ==> (h.value.title.Some? <==> s.displayName != "")
    ensures h.Some? ==> (h.value.description.Some? <==> s.description != "")
    ensures h.Some? && h.value.title.Some? ==> h.value.title.value == s.displayName
    ensures h.Some? && h.value.description.Some? ==> h.value.description.value == s.description
  {
    if s.displayName == "" && s.description == "" then None
    else Some(SectionHeader(
      if s.displayName != "" then Some(s.displayName) else None,
      if s.description != "" then Some(s.description) else None))
  }

  // ---------------------------------------------------------------------
  // Composition

  /** `formData[paramKey] || ''` */
  function FieldValue(formData: map<string, Value>, key: string): (v: Value)
    ensures !Nullish(v)
    ensures key in formData && Truthy(formData[key]) ==> v == formData[key]
    ensures !(key in formData && Truthy(formData[key])) ==> v == Str("")
  {
    Or(Get(formData, key), Str(""))
  }

  /** Where in a section a parameter is placed. */
  datatype Slot = HeaderSlot | FormSlot | FooterSlot | BodySlot

  /** What each place hands the dispatcher: the card header only the header
      flag, the card form the field value and both callbacks, the card footer
      both callbacks and no value, a flat body the field value and both
      callbacks. */
  function SlotWiring(slot: Slot, formData: map<string, Value>, p: Parameter): ParameterRenderer.Wiring {
    match slot
    case HeaderSlot => ParameterRenderer.Wiring(true, Undefined, false, false)
    case FormSlot => ParameterRenderer.Wiring(false, FieldValue(formData, p.paramKey), true, true)
    case FooterSlot => ParameterRenderer.Wiring(false, Undefined, true, true)
    case BodySlot => ParameterRenderer.Wiring(false, FieldValue(formData, p.paramKey), true, true)
  }

  /** A parameter as placed: keyed by its id, with the wiring it is handed. */
  datatype Placed = Placed(key: string, param: Parameter, wiring: ParameterRenderer.Wiring)

  /** What a placed parameter renders. */
  function Output(pl: Placed): ParameterRenderer.Rendered {
    ParameterRenderer.Render(pl.param, pl.wiring)
  }

  function PlaceAll(ps: seq<Parameter>, slot: Slot, formData: map<string, Value>): (r: seq<Placed>)
    ensures |r| == |ps|
    ensures forall i :: 0 <= i < |r| ==>
      r[i] == Placed(ps[i].id, ps[i], SlotWiring(slot, formData, ps[i]))
  {
    seq(|ps|, i requires 0 <= i < |ps| => Placed(ps[i].id, ps[i], SlotWiring(slot, formData, ps[i])))
  }

  /** The parameters of a sequence of placements, in order. */
  function Params(r: seq<Placed>): (ps: seq<Parameter>)
    ensures |ps| == |r|
    ensures forall i :: 0 <= i < |r| ==> ps[i] == r[i].param
  {
    seq(|r|, i requires 0 <= i < |r| => r[i].param)
  }

  /** Placing keeps the parameters and their order. */
  lemma ParamsOfPlaceAll(ps: seq<Parameter>, slot: Slot, formData: map<string, Value>)
    ensures Params(PlaceAll(ps, slot, formData)) == ps
  {
    var r := PlaceAll(ps, slot, formData);
    assert forall i :: 0 <= i < |ps| ==> Params(r)[i] == ps[i];
  }

  /** What a section renders. The card's header group and footer are shown
      only when non-empty. */
  datatype SectionView =
    | CardView(anchor: string, title: string, description: Option<string>,
               header: seq<Placed>, form: seq<Placed>, footer: seq<Placed>)
    | FlatView(anchor: string, arrangement: Arrangement, heading: Option<SectionHeader>, body: seq<Placed>)

  /** Every placement of a view, in document order. */
  function Placements(v: SectionView): seq<Placed> {
    match v
    case CardView(_, _, _, h, f, ft) => h + f + ft
    case FlatView(_, _, _, b) => b
  }

  function ComposeSection(s: Section, formData: map<string, Value>): (v: SectionView)
    ensures v.anchor == s.sectionKey
    ensures v.CardView? <==> LayoutStrategy(s.layout) == CardStrategy
    ensures v.CardView? ==> v.title == (if s.displayName != "" then s.displayName else "Welcome")
    ensures v.CardView? ==> (v.description.Some? <==> s.description != "")
    ensures v.CardView? && v.description.Some? ==> v.description.value == s.description
    ensures v.CardView? ==>
      Params(v.header) == DisplayParams(SortedParameters(s))
      && Params(v.form) == InputParams(SortedParameters(s))
      && Params(v.footer) == ActionParams(SortedParameters(s))
    ensures v.FlatView? ==> LayoutStrategy(s.layout) == FlatStrategy(v.arrangement)
    ensures v.FlatView? ==> v.heading == FlatHeader(s) && Params(v.body) == SortedParameters(s)
  {
    var sorted := SortedParameters(s);
    match LayoutStrategy(s.layout)
    case CardStrategy =>
      var v := CardView(s.sectionKey,
        if s.displayName != "" then s.displayName else "Welcome",
        if s.description != "" then Some(s.description) else None,
        PlaceAll(DisplayParams(sorted), HeaderSlot, formData),
        PlaceAll(InputParams(sorted), FormSlot, formData),
        PlaceAll(ActionParams(sorted), FooterSlot, formData));
      ParamsOfPlaceAll(DisplayParams(sorted), HeaderSlot, formData);
      ParamsOfPlaceAll(InputParams(sorted), FormSlot, formData);
      ParamsOfPlaceAll(ActionParams(sorted), FooterSlot, formData);
      v
    case FlatStrategy(arr) =>
      var v := FlatView(s.sectionKey, arr, FlatHeader(s), PlaceAll(sorted, BodySlot, formData));
      ParamsOfPlaceAll(sorted, BodySlot, formData);
      v
  }

  /** The card's three parts, placed from the three groups. */
  lemma CardParts(s: Section, formData: map<string, Value>)
    requires LayoutStrategy(s.layout) == CardStrategy
    ensures var v, sorted := ComposeSection(s, formData), SortedParameters(s);
      v.header == PlaceAll(DisplayParams(sorted), HeaderSlot, formData)
      && v.form == PlaceAll(InputParams(sorted), FormSlot, formData)
      && v.footer == PlaceAll(ActionParams(sorted), FooterSlot, formData)
  {
  }

  /** A flat section's body, placed from the whole sorted list. */
  lemma FlatBody(s: Section, formData: map<string, Value>)
    requires LayoutStrategy(s.layout) != CardStrategy
    ensures ComposeSection(s, formData).body == PlaceAll(SortedParameters(s), BodySlot, formData)
  {
  }

  lemma ParamsOfConcat(a: seq<Placed>, b: seq<Placed>, c: seq<Placed>)
    ensures Params(a + b + c) == Params(a) + Params(b) + Params(c)
  {
  }

  /** The card places every parameter exactly once: the display group in the
      header, the input group in the form, the action group in the footer. */
  lemma CardPlacesEachParameterOnce(s: Section, formData: map<string, Value>)
    requires LayoutStrategy(s.layout) == CardStrategy
    ensures multiset(Params(Placements(ComposeSection(s, formData)))) == multiset(SortedParameters(s))
  {
    var v := ComposeSection(s, formData);
    var sorted := SortedParameters(s);
    GroupsPartition(sorted);
    ParamsOfConcat(v.header, v.form, v.footer);
    assert Placements(v) == v.header + v.form + v.footer;
    var h, f, ft := Params(v.header), Params(v.form), Params(v.footer);
    assert multiset(h + f + ft) == multiset(h) + multiset(f) + multiset(ft);
  }

  /** No parameter in a card header receives a callback: whatever it renders,
      typing, leaving or clicking it forwards nothing. */
  lemma CardHeaderIsInert(s: Section, formData: map<string, Value>, text: string)
    requires LayoutStrategy(s.layout) == CardStrategy
    ensures forall pl :: pl in ComposeSection(s, formData).header ==>
      ParameterRenderer.Change(pl.param, pl.wiring, text) == None
      && ParameterRenderer.Blur(pl.param, pl.wiring) == None
      && ParameterRenderer.Click(pl.param, pl.wiring) == None
  {
    CardParts(s, formData);
  }

  /** A tag that upper-cases to `INPUT_TEXT` but is written with a lower-case
      first letter (`input_text`, say) is no input for the grouping, which
      tests the raw tag, yet the dispatcher, which tests the normalised one,
      renders an input: in a card it lands in the header, inert. */
  lemma LowerCaseInputGoesToHeader(p: Parameter)
    requires JsString.ToUpper(p.paramType) == "INPUT_TEXT" && 'a' <= p.paramType[0] <= 'z'
    ensures IsDisplayParam(p)
    ensures ParameterRenderer.TreatmentOf(p) == ParameterRenderer.InputTreatment
  {
    LowerCaseInputIsDisplay(p);
    LowerCaseInputNormalizes(p);
  }

  lemma LowerCaseInputIsDisplay(p: Parameter)
    requires JsString.ToUpper(p.paramType) == "INPUT_TEXT" && 'a' <= p.paramType[0] <= 'z'
    ensures IsDisplayParam(p)
  {
    var t := p.paramType;
    assert |t| == 10 by {
      assert |JsString.ToUpper(t)| == |t|;
    }
    assert !IsActionParam(p) && t != "CHECKBOX" && t != "SELECT";
    assert !JsString.StartsWith(t, "INPUT") by {
      assert t[0] != "INPUT"[0];
    }
  }

  lemma LowerCaseInputNormalizes(p: Parameter)
    requires JsString.ToUpper(p.paramType) == "INPUT_TEXT" && 'a' <= p.paramType[0] <= 'z'
    ensures NormalizedTag(p) == "INPUT_TEXT"
  {
    var t := p.paramType;
    assert JsString.UpperChar(t[9]) == 'T' by {
      assert JsString.ToUpper(t)[9] == "INPUT_TEXT"[9];
    }
    JsString.NormalizeUnpadded(t);
  }

  /** The fields bound to the form state: the card's form, or a flat body. */
  function BoundFields(v: SectionView): seq<Placed> {
    if v.CardView? then v.form else v.body
  }

  lemma PlacedFieldsAreBound(ps: seq<Parameter>, slot: Slot, formData: map<string, Value>)
    requires slot == FormSlot || slot == BodySlot
    ensures forall pl :: pl in PlaceAll(ps, slot, formData) ==> pl.wiring.value == FieldValue(formData, pl.param.paramKey)
  {
  }

  /** Every field of the card form and of a flat body is bound to the form
      state: it is wired with `formData[paramKey] || ''`. */
  lemma FieldsAreBoundToFormData(s: Section, formData: map<string, Value>)
    ensures forall pl :: pl in BoundFields(ComposeSection(s, formData)) ==>
      pl.wiring.value == FieldValue(formData, pl.param.paramKey)
  {
    if LayoutStrategy(s.layout) == CardStrategy {
      CardParts(s, formData);
      PlacedFieldsAreBound(InputParams(SortedParameters(s)), FormSlot, formData);
    } else {
      FlatBody(s, formData);
      PlacedFieldsAreBound(SortedParameters(s), BodySlot, formData);
    }
  }

  // ---------------------------------------------------------------------
  // Event routing

  /** What a controller method receives, one datatype per event. */
  datatype Invocation =
    | ChangeInvocation(methodName: string, paramKey: string, value: Value, path: Value, formData: map<string, Value>)
    | ClickInvocation(methodName: string, paramKey: string, eventCode: Value, config: Value, formData: map<string, Value>)

  /** `methodsConfig?.<event>` when it is truthy. */
  function Binding(methodsConfig: Value, event: string): (b: Option<Value>)
    ensures b.Some? <==> Truthy(OptField(methodsConfig, event))
    ensures b.Some? ==> Truthy(b.value) && b.value == OptField(methodsConfig, event)
  {
    var v := OptField(methodsConfig, event);
    if Truthy(v) then Some(v) else None
  }

  /** The property key `controller[binding.methodName]` looks up. */
  function MethodKey(binding: Value): string
    requires !Nullish(binding)
  {
    ToKey(Field(binding, "methodName"))
  }

  /** The call a change makes, given the updated form state: none unless the
      bindings hold an `onChange` whose named method the page's controller
      has. */
  function ChangeRoute(registry: Controllers.Registry, slug: string, paramKey: string, value: Value,
                       methodsConfig: Value, updated: map<string, Value>): (r: Option<Invocation>)
    ensures r.Some? <==> (Binding(methodsConfig, "onChange").Some?
      && Controllers.Resolve(registry, slug, MethodKey(Binding(methodsConfig, "onChange").value)).Some?)
    ensures r.Some? ==> r.value == ChangeInvocation(MethodKey(Binding(methodsConfig, "onChange").value),
      paramKey, value, Field(Binding(methodsConfig, "onChange").value, "path"), updated)
  {
    match Binding(methodsConfig, "onChange")
    case None => None
    case Some(b) =>
      var name := MethodKey(b);
      if Controllers.Resolve(registry, slug, name).Some? then
        Some(ChangeInvocation(name, paramKey, value, Field(b, "path"), updated))
      else None
  }

  /** The call a click makes: none unless the bindings hold an `onClick` whose
      named method the page's controller has; the controller then receives
      that `onClick` binding and the current form state. */
  function ClickRoute(registry: Controllers.Registry, slug: string, paramKey: string, eventCode: Value,
                      methodsConfig: Value, formData: map<string, Value>): (r: Option<Invocation>)
    ensures r.Some? <==> (Binding(methodsConfig, "onClick").Some?
      && Controllers.Resolve(registry, slug, MethodKey(Binding(methodsConfig, "onClick").value)).Some?)
    ensures r.Some? ==> r.value == ClickInvocation(MethodKey(Binding(methodsConfig, "onClick").value),
      paramKey, eventCode, Binding(methodsConfig, "onClick").value, formData)
  {
    match Binding(methodsConfig, "onClick")
    case None => None
    case Some(b) =>
      var name := MethodKey(b);
      if Controllers.Resolve(registry, slug, name).Some? then
        Some(ClickInvocation(name, paramKey, eventCode, b, formData))
      else None
  }

  /** A page without a registered controller routes nothing anywhere. */
  lemma UnregisteredSlugIsSilent(registry: Controllers.Registry, slug: string, paramKey: string,
                                 value: Value, methodsConfig: Value, formData: map<string, Value>)
    requires slug !in registry
    ensures ChangeRoute(registry, slug, paramKey, value, methodsConfig, formData) == None
    ensures ClickRoute(registry, slug, paramKey, value, methodsConfig, formData) == None
  {
  }

  /** The login page's button, bound to `executeClick` with the login event
      code, reaches the login controller with the current form state. */
  lemma LoginClickReachesController(p: Parameter, onClick: map<string, Value>, formData: map<string, Value>)
    requires onClick == map["methodName" := Str("executeClick"), "action" := Str("ON_LOGIN_SUBMIT")]
    requires Methods(p) == Obj(map["onClick" := Obj(onClick)])
    ensures ButtonParameter.OnClick(p, true) == Some(ButtonParameter.ClickCall(p.paramKey, Str("ON_LOGIN_SUBMIT"), Methods(p)))
    ensures ClickRoute(Controllers.AppRegistry, "login", p.paramKey, Str("ON_LOGIN_SUBMIT"), Methods(p), formData)
      == Some(ClickInvocation("executeClick", p.paramKey, Str("ON_LOGIN_SUBMIT"), Obj(onClick), formData))
  {
    assert Field(Obj(onClick), "methodName") == Str("executeClick");
  }

  /** One mounted section: its form state and the controller calls made so far. */
  class SectionInstance {
    const section: Section
    const slug: string
    const registry: Controllers.Registry
    var formData: map<string, Value>
    var invoked: seq<Invocation>

    /** A freshly mounted section holds an empty form state. */
    constructor(section: Section, pageSlug: string, registry: Controllers.Registry)
      ensures this.section == section && slug == pageSlug && this.registry == registry
      ensures formData == map[] && invoked == []
    {
      this.section := section;
      this.slug := pageSlug;
      this.registry := registry;
      formData := map[];
      invoked := [];
    }

    /** What the section shows for its current form state. */
    function View(): SectionView
      reads this
    {
      ComposeSection(section, formData)
    }

    /** `onInputChange`: records the value under its key, then calls the bound
        controller method, if any, with the updated state. */
    method OnInputChange(paramKey: string, value: Value, methodsConfig: Value)
      modifies this
      ensures formData == old(formData)[paramKey := value]
      ensures var r := ChangeRoute(registry, slug, paramKey, value, methodsConfig, formData);
        invoked == old(invoked) + (if r.Some? then [r.value] else [])
    {
      var updated := formData[paramKey := value];
      formData := updated;
      var r := ChangeRoute(registry, slug, paramKey, value, methodsConfig, updated);
      if r.Some? {
        invoked := invoked + [r.value];
      }
    }

    /** `onBtnClick`: calls the bound controller method, if any, with the
        current state, which it leaves as it is. */
    method OnBtnClick(paramKey: string, eventCode: Value, methodsConfig: Value)
      modifies this
      ensures formData == old(formData)
      ensures var r := ClickRoute(registry, slug, paramKey, eventCode, methodsConfig, formData);
        invoked == old(invoked) + (if r.Some? then [r.value] else [])
    {
      var r := ClickRoute(registry, slug, paramKey, eventCode, methodsConfig, formData);
      if r.Some? {
        invoked := invoked + [r.value];
      }
    }

    /** Text typed into a placed parameter: what it forwards, if anything, is
        handled by `OnInputChange`. */
    method TypeInto(pl: Placed, text: string)
      requires pl in Placements(View())
      modifies this
      ensures var c := ParameterRenderer.Change(pl.param, pl.wiring, text);
        (c.None? ==> formData == old(formData) && invoked == old(invoked))
        && (c.Some? ==> (formData == old(formData)[c.value.paramKey := Str(text)]
              && var r := ChangeRoute(registry, slug, c.value.paramKey, Str(text), c.value.methods, formData);
              invoked == old(invoked) + (if r.Some? then [r.value] else [])))
    {
      var c := ParameterRenderer.Change(pl.param, pl.wiring, text);
      if c.Some? {
        OnInputChange(c.value.paramKey, c.value.value, c.value.methods);
      }
    }

    /** A placed parameter losing focus. */
    method BlurOn(pl: Placed)
      requires pl in Placements(View())
      modifies this
      ensures var c := ParameterRenderer.Blur(pl.param, pl.wiring);
        (c.None? ==> formData == old(formData) && invoked == old(invoked))
        && (c.Some? ==> (formData == old(formData)[c.value.paramKey := pl.wiring.value]
              && var r := ChangeRoute(registry, slug, c.value.paramKey, pl.wiring.value, c.value.methods, formData);
              invoked == old(invoked) + (if r.Some? then [r.value] else [])))
    {
      var c := ParameterRenderer.Blur(pl.param, pl.wiring);
      if c.Some? {
        OnInputChange(c.value.paramKey, c.value.value, c.value.methods);
      }
    }

    /** A click on a placed parameter; the form state never changes. */
    method ClickOn(pl: Placed)
      requires pl in Placements(View())
      modifies this
      ensures formData == old(formData)
      ensures var c := ParameterRenderer.Click(pl.param, pl.wiring);
        (c.None? ==> invoked == old(invoked))
        && (c.Some? ==>
              var r := ClickRoute(registry, slug, c.value.paramKey, c.value.eventCode, c.value.methods, formData);
              invoked == old(invoked) + (if r.Some? then [r.value] else []))
    {
      var c := ParameterRenderer.Click(pl.param, pl.wiring);
      if c.Some? {
        OnBtnClick(c.value.paramKey, c.value.eventCode, c.value.methods);
      }
    }
  }

  /** The field is controlled: after a non-empty text is typed into a key, every
      input bound to that key is wired with, and shows, exactly that text. */
  lemma TypedTextIsShown(s: Section, formData: map<string, Value>, key: string, text: string)
    requires text != ""
    ensures forall pl :: pl in BoundFields(ComposeSection(s, formData[key := Str(text)])) && pl.param.paramKey == key ==>
        pl.wiring.value == Str(text)
        && (Output(pl).InputOut? ==> Output(pl).input.shown == Str(text))
  {
    var fd := formData[key := Str(text)];
    FieldsAreBoundToFormData(s, fd);
    assert FieldValue(fd, key) == Str(text);
    forall pl | pl in BoundFields(ComposeSection(s, fd)) && pl.param.paramKey == key
      ensures pl.wiring.value == Str(text)
      ensures Output(pl).InputOut? ==> Output(pl).input.shown == Str(text)
    {
      assert InputParameter.Shown(Str(text)) == Str(text);
    }
  }

  /** A keyed update changes that key and nothing else. */
  lemma FormUpdateIsLocal(formData: map<string, Value>, key: string, value: Value, other: string)
    requires other != key
    ensures Get(formData[key := value], key) == value
    ensures Get(formData[key := value], other) == Get(formData, other)
  {
  }
}
