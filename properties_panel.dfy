/** The properties panel: for the selected canvas element, the fields its raw
    type exposes with their current text, and the update and delete requests
    its edits send back to the builder. */
module PropertiesPanel {
  import opened JsValue
  import opened CanvasElement

  datatype FieldName = DisplayNameField | ActionUrlField | VariantField | PlaceholderField

  /** The prop key a props field edits. */
  function PropKey(f: FieldName): string
    requires f != DisplayNameField
  {
    match f
    case ActionUrlField => "actionUrl"
    case VariantField => "variant"
    case PlaceholderField => "placeholder"
  }

  /** The display name for every type; `actionUrl` and `variant` for a
      `BUTTON`; `placeholder` for an `INPUT`. The type is compared raw. */
  function FieldsFor(paramType: Value): (fs: seq<FieldName>)
    ensures |fs| > 0 && fs[0] == DisplayNameField
    ensures ActionUrlField in fs <==> paramType == Str("BUTTON")
    ensures VariantField in fs <==> paramType == Str("BUTTON")
    ensures PlaceholderField in fs <==> paramType == Str("INPUT")
  {
    if paramType == Str("BUTTON") then [DisplayNameField, ActionUrlField, VariantField]
    else if paramType == Str("INPUT") then [DisplayNameField, PlaceholderField]
    else [DisplayNameField]
  }

  /** The text a field shows: the element's value, `''` in place of a falsy one. */
  function FieldText(el: Element, f: FieldName): (v: Value)
    ensures Truthy(v) || v == Str("")
    ensures f == DisplayNameField && Truthy(Get(el, "displayName")) ==> v == Get(el, "displayName")
    ensures f == DisplayNameField && !Truthy(Get(el, "displayName")) ==> v == Str("")
    ensures f != DisplayNameField && Truthy(OptField(Get(el, "props"), PropKey(f))) ==>
      v == OptField(Get(el, "props"), PropKey(f))
    ensures f != DisplayNameField && !Truthy(OptField(Get(el, "props"), PropKey(f))) ==> v == Str("")
  {
    if f == DisplayNameField then Or(Get(el, "displayName"), Str(""))
    else Or(OptField(Get(el, "props"), PropKey(f)), Str(""))
  }

  datatype FieldView = FieldView(name: FieldName, text: Value)

  /** The placeholder when nothing is selected, otherwise the editor. */
  datatype PanelView = Placeholder | Editor(editing: Value, fields: seq<FieldView>)

  function Panel(selected: Option<Element>): (v: PanelView)
    ensures v.Placeholder? <==> selected.None?
    ensures v.Editor? ==> v.editing == Get(selected.value, "paramType")
    ensures v.Editor? ==> (
      var fs := FieldsFor(Get(selected.value, "paramType"));
      |v.fields| == |fs| && forall i :: 0 <= i < |fs| ==> v.fields[i] == FieldView(fs[i], FieldText(selected.value, fs[i])))
  {
    match selected
    case None => Placeholder
    case Some(el) =>
      var fs := FieldsFor(Get(el, "paramType"));
      Editor(Get(el, "paramType"), seq(|fs|, i requires 0 <= i < |fs| => FieldView(fs[i], FieldText(el, fs[i]))))
  }

  /** What the user does in the panel. */
  datatype PanelEvent = Edit(field: FieldName, text: string) | PressDelete

  /** What the panel sends to the builder. */
  datatype Request = UpdateRequest(id: Value, data: map<string, Value>) | DeleteRequest(id: Value)

  /** `handlePropChange(key, value)`: the element's props with one key set;
      a missing props object counts as empty. */
  function PropChange(el: Element, key: string, text: string): (r: Request)
    ensures r.UpdateRequest? && r.id == IdOf(el) && r.data.Keys == {"props"}
    ensures r.data["props"].Obj?
    ensures key in r.data["props"].fields && r.data["props"].fields[key] == Str(text)
    ensures forall k :: k in Spread(Get(el, "props")) && k != key ==> k in r.data["props"].fields && r.data["props"].fields[k] == Spread(Get(el, "props"))[k]
    ensures r.data["props"].fields.Keys == Spread(Get(el, "props")).Keys + {key}
  {
    UpdateRequest(IdOf(el), map["props" := Obj(Spread(Get(el, "props"))[key := Str(text)])])
  }

  /** The request an event sends: none without a selection or for a field the
      element's type does not show. */
  function Handle(selected: Option<Element>, ev: PanelEvent): (r: Option<Request>)
    ensures selected.None? ==> r.None?
    ensures selected.Some? && ev.PressDelete? ==> r == Some(DeleteRequest(IdOf(selected.value)))
    ensures selected.Some? && ev.Edit? && ev.field == DisplayNameField ==>
      r == Some(UpdateRequest(IdOf(selected.value), map["displayName" := Str(ev.text)]))
    ensures selected.Some? && ev.Edit? && ev.field != DisplayNameField ==>
      (r.Some? <==> ev.field in FieldsFor(Get(selected.value, "paramType")))
    ensures r.Some? && ev.Edit? && ev.field != DisplayNameField ==>
      r.value == PropChange(selected.value, PropKey(ev.field), ev.text)
  {
    match selected
    case None => None
    case Some(el) =>
      match ev
      case PressDelete => Some(DeleteRequest(IdOf(el)))
      case Edit(f, text) =>
        if f == DisplayNameField then Some(UpdateRequest(IdOf(el), map["displayName" := Str(text)]))
        else if f in FieldsFor(Get(el, "paramType")) then Some(PropChange(el, PropKey(f), text))
        else None
  }

  /** A dropped `BUTTON` shows its display name and two empty props fields. */
  lemma NewButtonPanel(now: nat)
    ensures Panel(Some(NewElement("BUTTON", now))) == Editor(Str("BUTTON"), [
      FieldView(DisplayNameField, Str("New BUTTON")),
      FieldView(ActionUrlField, Str("")),
      FieldView(VariantField, Str(""))])
  {
    var el := NewElement("BUTTON", now);
    var fs := FieldsFor(Get(el, "paramType"));
    assert fs == [DisplayNameField, ActionUrlField, VariantField];
    assert FieldText(el, DisplayNameField) == Str("New BUTTON") by {
      assert "New " + "BUTTON" == "New BUTTON";
    }
    assert FieldText(el, ActionUrlField) == Str("") by {
      assert Get(el, "props") == Obj(map[]);
    }
    assert FieldText(el, VariantField) == Str("") by {
      assert Get(el, "props") == Obj(map[]);
    }
    var v := Panel(Some(el));
    assert v.fields == [FieldView(DisplayNameField, Str("New BUTTON")), FieldView(ActionUrlField, Str("")), FieldView(VariantField, Str(""))];
  }
}
