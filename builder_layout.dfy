/** The page builder: a list of canvas elements and the id of the selected
    one, changed by drops, panel updates and deletes, and serialised into a
    one-section draft page. */
module BuilderLayout {
  import opened JsValue
  import opened Seqs
  import opened StableSort
  import opened CanvasElement
  import PropertiesPanel
  import SectionRenderer
  import ParameterRenderer
  import Schema
  import JsString

  /** The drop target id of the canvas. */
  const Dropzone: string := "canvas-dropzone"

  /** `el.id === id` */
  predicate HasId(el: Element, id: Value) {
    IdOf(el) == id
  }

  /** `prev.map(el => el.id === id ? { ...el, ...updatedData } : el)` */
  function UpdateElements(els: seq<Element>, id: Value, update: map<string, Value>): (r: seq<Element>)
    ensures |r| == |els|
    ensures forall i :: 0 <= i < |els| && !HasId(els[i], id) ==> r[i] == els[i]
    ensures forall i :: 0 <= i < |els| && HasId(els[i], id) ==> r[i] == els[i] + update
  {
    seq(|els|, i requires 0 <= i < |els| => if HasId(els[i], id) then els[i] + update else els[i])
  }

  /** A shallow merge takes every key of the update and keeps every other key. */
  lemma MergeIsShallow(el: Element, update: map<string, Value>, k: string)
    ensures k in update ==> Get(el + update, k) == update[k]
    ensures k !in update ==> Get(el + update, k) == Get(el, k)
    ensures (el + update).Keys == el.Keys + update.Keys
  {
  }

  /** `prev.filter(el => el.id !== id)` */
  function DeleteElements(els: seq<Element>, id: Value): (r: seq<Element>) {
    Filter(els, el => !HasId(el, id))
  }

  /** Deleting removes every element with the id, and exactly those. */
  lemma DeleteRemovesExactly(els: seq<Element>, id: Value, el: Element)
    ensures el in DeleteElements(els, id) <==> el in els && !HasId(el, id)
    ensures |DeleteElements(els, id)| == Count(els, e => !HasId(e, id))
  {
    FilterMember(els, e => !HasId(e, id), el);
    FilterLength(els, e => !HasId(e, id));
  }

  /** The index of the first element with the id, if there is one. */
  function FindIndex(els: seq<Element>, id: Value): (r: Option<nat>)
    ensures r.Some? ==> (r.value < |els| && HasId(els[r.value], id)
      && forall j :: 0 <= j < r.value ==> !HasId(els[j], id))
    ensures r.None? ==> forall j :: 0 <= j < |els| ==> !HasId(els[j], id)
    decreases |els|
  {
    if els == [] then None
    else if HasId(els[0], id) then Some(0)
    else
      match FindIndex(els[1..], id)
      case None => None
      case Some(j) => Some(j + 1)
  }

  /** `canvasElements.find(el => el.id === selectedElementId)` */
  function Find(els: seq<Element>, id: Value): (r: Option<Element>)
    ensures r.Some? <==> exists j :: 0 <= j < |els| && HasId(els[j], id)
    ensures r.Some? ==> FindIndex(els, id).Some? && r.value == els[FindIndex(els, id).value]
  {
    match FindIndex(els, id)
    case None => None
    case Some(j) => Some(els[j])
  }

  /** The draft page the save action writes out. */
  datatype SavedSection = SavedSection(sectionKey: string, layout: string, isVisible: bool, parameters: seq<Element>)
  datatype SavedPage = SavedPage(title: string, sections: seq<SavedSection>)

  /** Each element with its position, counted from 1, as its order index. */
  function NumberedElements(els: seq<Element>): (r: seq<Element>)
    ensures |r| == |els|
    ensures forall i :: 0 <= i < |els| ==> r[i] == els[i]["orderIndex" := Num(i + 1)]
  {
    seq(|els|, i requires 0 <= i < |els| => els[i]["orderIndex" := Num(i + 1)])
  }

  function SavePayload(els: seq<Element>): (p: SavedPage)
    ensures p.title == "Draft Page"
    ensures p.sections == [SavedSection("main-section", "FULLWIDTH", true, NumberedElements(els))]
  {
    SavedPage("Draft Page", [SavedSection("main-section", "FULLWIDTH", true, NumberedElements(els))])
  }

  function AsParameters(els: seq<Element>): (ps: seq<Schema.Parameter>)
    ensures |ps| == |els|
    ensures forall i :: 0 <= i < |els| ==> ps[i] == AsParameter(els[i])
  {
    seq(|els|, i requires 0 <= i < |els| => AsParameter(els[i]))
  }

  /** Read back by the section renderer, the saved parameters come out in
      canvas order: their order indices are already ascending. */
  lemma {:induction false} SavedOrderIsCanvasOrder(els: seq<Element>)
    ensures var ps := AsParameters(NumberedElements(els));
      SortBy(ps, SectionRenderer.ParamOrderKey) == ps
  {
    var ps := AsParameters(NumberedElements(els));
    forall i | 0 <= i < |ps| ensures SectionRenderer.ParamOrderKey(ps[i]) == i + 1 {
      assert Get(NumberedElements(els)[i], "orderIndex") == Num(i + 1);
    }
    SortByKeepsSortedInput(ps, SectionRenderer.ParamOrderKey);
  }

  /** The builder's state. */
  class Builder {
    var canvasElements: seq<Element>
    var selectedElementId: Value

    constructor()
      ensures canvasElements == [] && selectedElementId == Null
    {
      canvasElements := [];
      selectedElementId := Null;
    }

    /** The element the panel edits. */
    function SelectedElement(): Option<Element>
      reads this
    {
      Find(canvasElements, selectedElementId)
    }

    /** `handleDragEnd`: a drop outside the canvas changes nothing; a drop
        on it appends the new element and selects it. */
    method HandleDragEnd(activeId: string, overId: Option<string>, now: nat)
      modifies this
      ensures overId != Some(Dropzone) ==> canvasElements == old(canvasElements) && selectedElementId == old(selectedElementId)
      ensures overId == Some(Dropzone) ==>
        canvasElements == old(canvasElements) + [NewElement(activeId, now)]
        && selectedElementId == Str(NewId(now))
    {
      if overId.None? || overId.value != Dropzone {
        return;
      }
      var item := NewElement(activeId, now);
      canvasElements := canvasElements + [item];
      selectedElementId := IdOf(item);
    }

    /** `updateElement`; the selection is kept. */
    method UpdateElement(id: Value, update: map<string, Value>)
      modifies this
      ensures canvasElements == UpdateElements(old(canvasElements), id, update)
      ensures selectedElementId == old(selectedElementId)
    {
      canvasElements := UpdateElements(canvasElements, id, update);
    }

    /** `deleteElement`: removes the element and clears the selection. */
    method DeleteElement(id: Value)
      modifies this
      ensures canvasElements == DeleteElements(old(canvasElements), id)
      ensures selectedElementId == Null
    {
      canvasElements := DeleteElements(canvasElements, id);
      selectedElementId := Null;
    }

    /** A click on an element of the canvas selects it. */
    method SelectElement(id: Value)
      modifies this
      ensures selectedElementId == id && canvasElements == old(canvasElements)
    {
      selectedElementId := id;
    }

    /** An event in the properties panel, sent on to the update or delete
        handler. */
    method OnPanelEvent(ev: PropertiesPanel.PanelEvent)
      modifies this
      ensures var r := PropertiesPanel.Handle(old(SelectedElement()), ev);
        (r.None? ==> canvasElements == old(canvasElements) && selectedElementId == old(selectedElementId))
        && (r.Some? && r.value.UpdateRequest? ==>
              canvasElements == UpdateElements(old(canvasElements), r.value.id, r.value.data)
              && selectedElementId == old(selectedElementId))
        && (r.Some? && r.value.DeleteRequest? ==>
              canvasElements == DeleteElements(old(canvasElements), r.value.id) && selectedElementId == Null)
    {
      var r := PropertiesPanel.Handle(SelectedElement(), ev);
      if r.Some? {
        match r.value
        case UpdateRequest(id, data) => UpdateElement(id, data);
        case DeleteRequest(id) => DeleteElement(id);
      }
    }

    /** The payload `handleSave` writes out. */
    function Save(): SavedPage
      reads this
    {
      SavePayload(canvasElements)
    }
  }

  /** After a drop on the canvas, the panel edits the element just dropped. */
  lemma DroppedElementIsSelected(els: seq<Element>, activeId: string, now: nat)
    requires forall el :: el in els ==> !HasId(el, Str(NewId(now)))
    ensures Find(els + [NewElement(activeId, now)], Str(NewId(now))) == Some(NewElement(activeId, now))
  {
    var all := els + [NewElement(activeId, now)];
    assert HasId(all[|els|], Str(NewId(now)));
    assert forall j :: 0 <= j < |els| ==> all[j] == els[j];
  }

  /** Renaming the selected element through the panel changes that element's
      display name and nothing else on the canvas. */
  lemma RenameTouchesOnlySelected(els: seq<Element>, sel: Value, text: string, i: nat, k: string)
    requires Find(els, sel).Some? && i < |els|
    ensures var r := PropertiesPanel.Handle(Find(els, sel), PropertiesPanel.Edit(PropertiesPanel.DisplayNameField, text));
      r.Some? && r.value.UpdateRequest?
      && var after := UpdateElements(els, r.value.id, r.value.data);
      (HasId(els[i], sel) ==> (Get(after[i], "displayName") == Str(text)
        && (k != "displayName" ==> Get(after[i], k) == Get(els[i], k))))
      && (!HasId(els[i], sel) ==> after[i] == els[i])
  {
    var el := Find(els, sel).value;
    assert IdOf(el) == sel;
  }

  /** The palette's `INPUT` item is filed with the inputs by the section
      renderer's raw test, but the dispatcher has no `INPUT` case: once
      saved and rendered, a dropped input field shows nothing. */
  lemma {:induction false} PaletteInputRendersNothing(now: nat, w: ParameterRenderer.Wiring)
    ensures SectionRenderer.IsInputParam(AsParameter(NewElement("INPUT", now)))
    ensures ParameterRenderer.Render(AsParameter(NewElement("INPUT", now)), w) == ParameterRenderer.Nothing("INPUT")
  {
    var p := AsParameter(NewElement("INPUT", now));
    assert p.paramType == "INPUT";
    assert JsString.StartsWith(p.paramType, "INPUT");
    assert Schema.NormalizedTag(p) == "INPUT" by {
      JsString.NormalizeUnpadded(p.paramType);
      assert JsString.ToUpper("INPUT") == "INPUT";
    }
    ParameterRenderer.UnhandledTypesRenderNothing(p, w);
  }
}
