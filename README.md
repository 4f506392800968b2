# Universal page builder: render engine and builder state, in Dafny

This project models the schema-driven front end of a page builder. A page is an
ordered collection of sections, and a section is an ordered collection of
parameters. Each parameter carries a type tag, an order index and a free-form
`props` bag. The model covers these parts:

- **Page composition** (`PageRenderer`). A page without a section list shows
  "no content". Otherwise the section list is copied, explicitly hidden
  sections are dropped, and the rest are stably sorted by `orderIndex || 0`.
  Each section is mounted with its id as key and the page slug as its routing
  scope.
- **Section composition and event routing** (`SectionRenderer`).
  - The parameters are stably sorted, then split by their **raw** type tag
    into an input group, an action group and a display group.
  - The **trimmed, upper-cased** layout tag picks the layout. `PORTRAIT`
    gives a card: display parameters go in the header, inputs in the form,
    actions in the footer. Any other tag gives a flat layout with an
    optional heading.
  - Each section keeps its own form state keyed by `paramKey`.
  - Change and click events are routed to the page's controller, looked up
    first by slug, then by the binding's `methodName`. Controller calls are
    recorded as `Invocation` values.
- **Parameter dispatch** (`ParameterRenderer`). A closed switch over the
  trimmed, upper-cased tag chooses text, input or button treatment. Any other
  tag renders nothing.
- **Leaf treatments** (`TextParameter`, `InputParameter`, `ButtonParameter`).
  Each reads its props with JavaScript `||` and truthiness rules (module
  `JsValue`).
  - Inputs are controlled fields that forward change and blur.
  - Buttons check their variant against an allow-list and forward a click
    only when an `onClick` binding exists.
- **The drag-and-drop builder** (`BuilderLayout`, `PropertiesPanel`, with the
  element shape in `CanvasElement`).
  - The class `Builder` holds the canvas elements and the selected id.
  - A drop on the canvas appends and selects a new element. The panel's
    edits shallow-merge into the selected element, and its delete button
    removes it.
  - Save numbers the elements `1..n` into a one-section draft page.
- **The admin page form** (`AdminBuilderPage`). The class
  `BuilderDashboard` holds the modal's state:
  - the live slug check `^[a-z0-9-]+$`;
  - create and edit prefill;
  - the submit guard and the create or update request;
  - the outcome handling and the submit-disable predicate.

  It keeps the invariant `CreateFormConsistent`: while the modal is open in
  create mode, the slug error is shown exactly when the slug is non-empty
  and invalid. So an enabled create submit sends an empty or valid slug.

The shared modules are:

- `JsValue`: JavaScript values, truthiness, `||`, `?.`, `String(v)`;
- `JsString`: ECMAScript `trim` and ASCII `toUpperCase`, proved to commute,
  plus decimal rendering of naturals;
- `Seqs`: filter lemmas;
- `StableSort`: an insertion sort, proved sorted, a permutation and stable;
- `Schema`: the wire datatypes with closed enums plus `UnrecognisedType(raw)`;
- `Controllers`: the registry `slug -> set of method names`.

Points of the code's behaviour worth knowing:

- A change handler receives only the `onChange` binding's `path`
  (`components/renderer/SectionRenderer.tsx:24-26`). A click handler
  receives the `onClick` binding, not the whole methods object
  (`components/renderer/SectionRenderer.tsx:33-38`). Text typed into an
  input does pass the whole `methods` object to the section
  (`components/renderer/parameters/InputParameter.tsx:20`).
- The method lookup can reach `Object.prototype` (see Findings).
- The grouping tests the raw tag but the dispatcher tests the normalised
  one. So a lower-case `input_text` in a card lands in the header, where it
  renders as an input without a callback.
- The builder palette's `INPUT` item is grouped with the inputs, yet the
  dispatcher renders nothing for it.

## Model

| member | source | states |
|---|---|---|
| JsValue.Or | components/renderer/parameters/TextParameter.tsx:11-12 | `a \|\| b` is one of its operands, truthy iff either is, and never nullish when the fallback is not |
| JsValue.OptField | components/renderer/parameters/InputParameter.tsx:50 | `v?.k` on a nullish value is `undefined` and does not throw |
| JsValue.Get | components/renderer/SectionRenderer.tsx:126 | reading a missing key of a record gives `undefined` |
| JsString.TrimStart | components/renderer/ParameterRenderer.tsx:25 | the result is a suffix of the input, only whitespace was cut, and it does not start with whitespace |
| JsString.TrimEnd | components/renderer/ParameterRenderer.tsx:25 | the result is a prefix of the input, only whitespace was cut, and it does not end with whitespace |
| JsString.ToUpper | components/renderer/ParameterRenderer.tsx:25 | upper-casing keeps the length |
| JsString.TrimIgnoresPadding | components/renderer/ParameterRenderer.tsx:25 | surrounding whitespace does not change the trimmed text |
| JsString.UpperCommutesWithTrim | components/renderer/ParameterRenderer.tsx:25 | trimming then upper-casing equals upper-casing then trimming |
| JsString.NormalizeIgnoresCaseAndPadding | components/renderer/ParameterRenderer.tsx:25 | tags that differ only in ASCII case and surrounding whitespace normalise alike |
| JsString.NormalizeIsIdempotent | components/renderer/ParameterRenderer.tsx:25 | normalising twice is normalising once |
| JsString.TrimIsIdempotent | components/renderer/SectionRenderer.tsx:65 | trimming twice is trimming once |
| JsString.NatToString | components/builder/BuilderLayout.tsx:21 | the decimal text of a clock reading is non-empty and unsigned |
| JsString.DecimalRoundTrip | components/builder/BuilderLayout.tsx:21 | reading the decimal text back gives the number |
| JsString.NatToStringInjective | components/builder/BuilderLayout.tsx:21 | different numbers have different decimal texts |
| StableSort.SortBy | components/renderer/PageRenderer.tsx:20 | the sort's result is ordered by the key, a permutation of its input, and keeps input order among equal keys |
| StableSort.SortByKeepsSortedInput | components/renderer/SectionRenderer.tsx:47 | an input already ordered by the key is returned unchanged |
| Schema.ParseParamType | types/schema.ts:6-14 | the tag is `TEXT`, `INPUT_TEXT`, `INPUT_EMAIL`, `INPUT_PASSWORD` or `BUTTON` exactly when it parses to that type; an unknown tag keeps its raw text |
| Schema.ParseLayout | components/renderer/SectionRenderer.tsx:154-158 | each layout tag parses to its own case exactly when it is spelled so; any other keeps its raw text |
| Schema.UiProps | components/renderer/parameters/TextParameter.tsx:10 | `props \|\| {}` is never nullish and is the props themselves when truthy |
| Schema.Methods | components/renderer/parameters/ButtonParameter.tsx:11 | `uiProps.methods \|\| {}` is never nullish, so `methods.onClick` never throws |
| Controllers.TargetAsWritten | components/renderer/SectionRenderer.tsx:16 | as written, a lookup finds a bound method iff the slug's controller binds it, and otherwise reaches an inherited `Object.prototype` member iff the name is one |
| Controllers.UnregisteredSlugReachesPrototype | components/renderer/SectionRenderer.tsx:25-26 | for the unregistered slug `home`, the names `__proto__` and `toString` reach inherited members, and calling `__proto__` throws |
| Controllers.Resolve | lib/controllers/index.ts:11-14 | a method resolves iff the slug has a controller that itself binds that name |
| Controllers.UnregisteredSlugIsSilent | components/renderer/SectionRenderer.tsx:16 | a slug with no controller resolves no name |
| Controllers.ResolveAgreesAsWritten | components/renderer/SectionRenderer.tsx:25 | away from the inherited names, the corrected lookup and the code agree |
| TextParameter.TextVariant | components/renderer/parameters/TextParameter.tsx:11 | the variant is the truthy `variant` prop, else `p` |
| TextParameter.TextContent | components/renderer/parameters/TextParameter.tsx:12 | the content is the truthy `text` prop, else the display name |
| TextParameter.RenderText | components/renderer/parameters/TextParameter.tsx:15-24 | in a card header: a title iff the variant is `title`, else a description; elsewhere: h1 iff `h1`, h2 iff `h2`, else a paragraph; every element shows the content |
| TextParameter.BarePropsDefaults | components/renderer/parameters/TextParameter.tsx:10-24 | with no props, a text is a paragraph (a description in a header) showing its display name |
| TextParameter.VariantsDoNotCross | components/renderer/parameters/TextParameter.tsx:15-22 | `h1` in a header is a description, and `title` outside one is a paragraph |
| InputParameter.Kind | components/renderer/parameters/InputParameter.tsx:31-62 | the password branch iff the tag is `INPUT_PASSWORD`, `email` iff `INPUT_EMAIL`, text otherwise |
| InputParameter.Shown | components/renderer/parameters/InputParameter.tsx:63 | the field shows the supplied value when truthy, else `''` |
| InputParameter.Label | components/renderer/parameters/InputParameter.tsx:59 | the caption is the truthy `label` prop, else the display name |
| InputParameter.Required | components/renderer/parameters/InputParameter.tsx:67 | `required` iff the validation rules or the props ask for it |
| InputParameter.Forgot | components/renderer/parameters/InputParameter.tsx:37-41 | the forgot-password link exists iff the field is a password field with a truthy link, and its text defaults to `Forgot your password?` |
| InputParameter.RenderInput | components/renderer/parameters/InputParameter.tsx:31-70 | the field's id, kind, caption, link, shown value, placeholder and `required` are those of the rules above |
| InputParameter.OnChange | components/renderer/parameters/InputParameter.tsx:17-21 | a change is forwarded iff a callback exists, with the typed text and the whole bindings |
| InputParameter.OnBlur | components/renderer/parameters/InputParameter.tsx:24-29 | a blur is forwarded iff an `onBlur` binding and a callback exist, with the supplied value itself |
| InputParameter.Controlled | components/renderer/parameters/InputParameter.tsx:17-21 | a typed text goes out through the callback and, once supplied back, is shown as typed |
| InputParameter.FalsyShownEmpty | components/renderer/parameters/InputParameter.tsx:24-29 | a falsy value shows as `''` while a blur still forwards it unchanged |
| InputParameter.NoBindings | components/renderer/parameters/InputParameter.tsx:13 | with no props there is no blur, and a change carries an empty bindings object |
| ButtonParameter.SafeVariant | components/renderer/parameters/ButtonParameter.tsx:13-14 | the variant is on the allow-list: the prop when it is listed, else `default` |
| ButtonParameter.ButtonLabel | components/renderer/parameters/ButtonParameter.tsx:30 | the caption is the first truthy of alias and label, else the display name |
| ButtonParameter.RenderButton | components/renderer/parameters/ButtonParameter.tsx:16-32 | the button has the safe variant and the caption, and is full width iff `width` is `full` |
| ButtonParameter.EventCode | components/renderer/parameters/ButtonParameter.tsx:24 | the event code is the truthy `onClick.action`, else `DEFAULT_CLICK` |
| ButtonParameter.OnClick | components/renderer/parameters/ButtonParameter.tsx:20-28 | a click is forwarded iff an `onClick` binding and a callback exist, with the event code and the whole bindings object |
| ButtonParameter.BarePropsDefaults | components/renderer/parameters/ButtonParameter.tsx:10-30 | with no props, the button is a default fit-width button labelled with its display name, and its click does nothing |
| ButtonParameter.DefaultEventCode | components/renderer/parameters/ButtonParameter.tsx:24 | an `onClick` binding without `action` sends `DEFAULT_CLICK` |
| ParameterRenderer.Dispatch | components/renderer/ParameterRenderer.tsx:27-53 | text iff the tag is `TEXT`, input iff one of the three input tags, button iff `BUTTON`, nothing otherwise |
| ParameterRenderer.Render | components/renderer/ParameterRenderer.tsx:25-53 | each treatment renders with exactly its own part of the wiring; nothing records the normalised tag it warns about |
| ParameterRenderer.Change | components/renderer/ParameterRenderer.tsx:31-40 | only a rendered input with a change callback forwards a change |
| ParameterRenderer.Blur | components/renderer/ParameterRenderer.tsx:31-40 | only a rendered input with a change callback forwards a blur, with the wired value |
| ParameterRenderer.Click | components/renderer/ParameterRenderer.tsx:42-48 | only a rendered button with a click callback forwards a click |
| ParameterRenderer.WiringIsolation | components/renderer/ParameterRenderer.tsx:27-53 | a text depends only on the header flag, an input only on its value and change callback, a button only on its click callback |
| ParameterRenderer.SameNormalizedTagSameRender | components/renderer/ParameterRenderer.tsx:25 | parameters that differ only in a tag that normalises alike render alike |
| ParameterRenderer.SameText | components/renderer/ParameterRenderer.tsx:28-29 | the text treatment does not look at the tag |
| ParameterRenderer.SameInput | components/renderer/ParameterRenderer.tsx:31-40 | the input treatment sees the tag only through its normalised form |
| ParameterRenderer.SameButton | components/renderer/ParameterRenderer.tsx:42-48 | the button treatment does not look at the tag |
| ParameterRenderer.SpellingInsensitive | components/renderer/ParameterRenderer.tsx:25-27 | a tag re-spelled in another case with whitespace around it dispatches and renders identically |
| ParameterRenderer.UnhandledTypesRenderNothing | components/renderer/ParameterRenderer.tsx:50-52 | `LINK`, `CHECKBOX`, `SELECT`, `INPUT_NUMBER`, `IMAGE`, `INPUT` and the empty tag render nothing and forward nothing |
| SectionRenderer.SortedParameters | components/renderer/SectionRenderer.tsx:46-48 | no parameter list gives none; otherwise a stable ascending sort by `orderIndex \|\| 0` |
| SectionRenderer.TestsAreExclusive | components/renderer/SectionRenderer.tsx:51-58 | no raw tag passes both the input and the action test |
| SectionRenderer.DisplayIsComplement | components/renderer/SectionRenderer.tsx:61-63 | the display group, built by membership in the other two, is exactly what fails both tests |
| SectionRenderer.GroupsPartition | components/renderer/SectionRenderer.tsx:51-63 | the three groups keep the sorted order and together hold every parameter exactly once |
| SectionRenderer.LayoutStrategy | components/renderer/SectionRenderer.tsx:153-159 | card iff the normalised layout is `PORTRAIT`; grid, flex, container iff so spelled; a column for every other tag, `FULLWIDTH` included |
| SectionRenderer.LayoutSpellingInsensitive | components/renderer/SectionRenderer.tsx:65 | layout tags differing in case or surrounding whitespace pick the same strategy |
| SectionRenderer.FlatHeader | components/renderer/SectionRenderer.tsx:68-84 | the heading exists iff the name or the description is non-empty, and each line iff its text is |
| SectionRenderer.FieldValue | components/renderer/SectionRenderer.tsx:171 | a field's value is its truthy form-state entry, else `''` |
| SectionRenderer.PlaceAll | components/renderer/SectionRenderer.tsx:167-176 | each parameter is placed in order under its id with the wiring of its place |
| SectionRenderer.ComposeSection | components/renderer/SectionRenderer.tsx:86-180 | a card iff the strategy is the card one, titled with the name or `Welcome`, with the description text iff it is non-empty, with the display, input and action groups in header, form and footer; otherwise a flat view of the whole sorted list under the optional heading |
| SectionRenderer.CardParts | components/renderer/SectionRenderer.tsx:105-146 | a card's header, form and footer are the three groups, placed with their wirings |
| SectionRenderer.FlatBody | components/renderer/SectionRenderer.tsx:161-177 | a flat body places the whole sorted list |
| SectionRenderer.CardPlacesEachParameterOnce | components/renderer/SectionRenderer.tsx:105-146 | a card places every parameter of the section exactly once |
| SectionRenderer.CardHeaderIsInert | components/renderer/SectionRenderer.tsx:107-114 | nothing in a card header forwards a change, a blur or a click |
| SectionRenderer.LowerCaseInputGoesToHeader | components/renderer/SectionRenderer.tsx:51-63 | any tag that upper-cases to `INPUT_TEXT` but starts with a lower-case letter (`input_text`, say) is grouped for display yet dispatched as an input |
| SectionRenderer.PlacedFieldsAreBound | components/renderer/SectionRenderer.tsx:126 | every form or body placement is wired with its form-state value |
| SectionRenderer.FieldsAreBoundToFormData | components/renderer/SectionRenderer.tsx:121-130 | every field of a card form or flat body shows `formData[paramKey] \|\| ''` |
| SectionRenderer.Binding | components/renderer/SectionRenderer.tsx:23 | a binding is present iff `methodsConfig?.<event>` is truthy |
| SectionRenderer.ChangeRoute | components/renderer/SectionRenderer.tsx:23-27 | a change reaches the controller iff an `onChange` binding names a method the controller binds; the call carries key, value, `path` and the updated state |
| SectionRenderer.ClickRoute | components/renderer/SectionRenderer.tsx:32-41 | a click reaches the controller iff an `onClick` binding names a bound method; the call carries key, event code, the binding and the current state |
| SectionRenderer.UnregisteredSlugIsSilent | components/renderer/SectionRenderer.tsx:16-42 | a page with no controller routes no change and no click |
| SectionRenderer.LoginClickReachesController | lib/controllers/loginController.ts:5-11 | the login button bound to `executeClick` with `ON_LOGIN_SUBMIT` reaches the login controller with the form state |
| SectionRenderer.SectionInstance.constructor | components/renderer/SectionRenderer.tsx:13-16 | a mounted section starts with an empty form state and no calls |
| SectionRenderer.SectionInstance.OnInputChange | components/renderer/SectionRenderer.tsx:19-29 | the value is stored under its key, and the routed call, if any, is appended with the updated state |
| SectionRenderer.SectionInstance.OnBtnClick | components/renderer/SectionRenderer.tsx:31-43 | the form state is unchanged, and the routed call, if any, is appended |
| SectionRenderer.SectionInstance.TypeInto | components/renderer/SectionRenderer.tsx:121-130 | typing into a rendered, wired input stores the text and routes the change; elsewhere nothing changes |
| SectionRenderer.SectionInstance.BlurOn | components/renderer/parameters/InputParameter.tsx:24-29 | a forwarded blur on a rendered input stores the wired value again and routes it; elsewhere nothing changes |
| SectionRenderer.SectionInstance.ClickOn | components/renderer/SectionRenderer.tsx:134-146 | a click on a rendered placement never changes the form state and appends only the routed call |
| SectionRenderer.TypedTextIsShown | components/renderer/SectionRenderer.tsx:126 | after a text is typed under a key, every field bound to that key shows exactly that text |
| SectionRenderer.FormUpdateIsLocal | components/renderer/SectionRenderer.tsx:20 | a keyed update changes that key and no other |
| PageRenderer.VisibleSections | components/renderer/PageRenderer.tsx:18-20 | the result holds exactly the sections not hidden, as a stable ascending sort by `orderIndex \|\| 0` |
| PageRenderer.ComposePage | components/renderer/PageRenderer.tsx:10-31 | no content iff there is no page or no section list; otherwise one mount per visible section, keyed by id, under the page slug |
| PageRenderer.Mounted | components/renderer/PageRenderer.tsx:24-30 | the mounted sections, in order |
| PageRenderer.MountedAreVisibleSorted | components/renderer/PageRenderer.tsx:18-30 | a page with a section list mounts exactly its visible sections, sorted |
| PageRenderer.EmptyListIsNotNoContent | components/renderer/PageRenderer.tsx:10 | an empty section list gives an empty main, not "no content" |
| PageRenderer.MountedIffShown | components/renderer/PageRenderer.tsx:19 | a section is mounted iff it is in the list and not explicitly hidden |
| PageRenderer.MountsCarrySlug | components/renderer/PageRenderer.tsx:25-29 | every mount is keyed by its section's id and scoped by the page slug |
| PageRenderer.TiesKeepInputOrder | components/renderer/PageRenderer.tsx:20 | visible sections with equal order index keep their input order |
| CanvasElement.NewElement | components/builder/BuilderLayout.tsx:20-25 | a dropped element has the clock-based id, the palette type, `New <type>` as name, empty props and nothing else |
| CanvasElement.NewIdsDiffer | components/builder/BuilderLayout.tsx:21 | drops at different clock readings get different ids |
| CanvasElement.AsParameter | types/schema.ts:19-26 | an element read as a parameter keeps its string type, numeric order index and props |
| PropertiesPanel.FieldsFor | components/builder/PropertiesPanel.tsx:56-96 | the display name always; action URL and variant iff the raw type is `BUTTON`; placeholder iff it is `INPUT` |
| PropertiesPanel.FieldText | components/builder/PropertiesPanel.tsx:60-92 | a field shows the element's truthy value, else `''` |
| PropertiesPanel.Panel | components/builder/PropertiesPanel.tsx:17-96 | the placeholder iff nothing is selected; else the editor for the element's type with each field's text |
| PropertiesPanel.PropChange | components/builder/PropertiesPanel.tsx:26-30 | a props edit sends an update of `props` alone: the old entries with one key set |
| PropertiesPanel.Handle | components/builder/PropertiesPanel.tsx:48-96 | no request without a selection; delete sends the id; a name edit sends `displayName`; a props edit is sent iff its field is shown |
| PropertiesPanel.NewButtonPanel | components/builder/PropertiesPanel.tsx:56-85 | a dropped `BUTTON` shows `New BUTTON` and two empty props fields |
| BuilderLayout.UpdateElements | components/builder/BuilderLayout.tsx:32-36 | elements with the id are merged with the update; the others are kept as they are |
| BuilderLayout.MergeIsShallow | components/builder/BuilderLayout.tsx:34 | the merge takes every updated key and keeps every other key |
| BuilderLayout.DeleteRemovesExactly | components/builder/BuilderLayout.tsx:39-42 | an element survives a delete iff it was there and has another id |
| BuilderLayout.FindIndex | components/builder/BuilderLayout.tsx:93 | the index found holds the id and no earlier element does; none found iff no element holds it |
| BuilderLayout.Find | components/builder/BuilderLayout.tsx:93 | the selected element exists iff some element has the id, and it is the first such |
| BuilderLayout.NumberedElements | components/builder/BuilderLayout.tsx:54-57 | each saved element is the element with `orderIndex` set to its position from 1 |
| BuilderLayout.SavePayload | components/builder/BuilderLayout.tsx:45-60 | the draft page holds one visible `FULLWIDTH` section `main-section` with the numbered elements |
| BuilderLayout.AsParameters | components/builder/BuilderLayout.tsx:54-57 | the saved elements read as parameters, in order |
| BuilderLayout.SavedOrderIsCanvasOrder | components/builder/BuilderLayout.tsx:54-57 | read back, the saved parameters sort into canvas order |
| BuilderLayout.Builder.constructor | components/builder/BuilderLayout.tsx:13-14 | the canvas starts empty with nothing selected |
| BuilderLayout.Builder.HandleDragEnd | components/builder/BuilderLayout.tsx:16-29 | a drop elsewhere changes nothing; a drop on the canvas appends the new element and selects its id |
| BuilderLayout.Builder.UpdateElement | components/builder/BuilderLayout.tsx:32-36 | the canvas is merged by id and the selection is kept |
| BuilderLayout.Builder.DeleteElement | components/builder/BuilderLayout.tsx:39-42 | the element is removed and the selection cleared |
| BuilderLayout.Builder.SelectElement | components/builder/BuilderLayout.tsx:87 | a click on the canvas selects that id and leaves the elements |
| BuilderLayout.Builder.OnPanelEvent | components/builder/BuilderLayout.tsx:92-96 | a panel request is applied as an update or a delete; no request changes nothing |
| BuilderLayout.DroppedElementIsSelected | components/builder/BuilderLayout.tsx:27-28 | after a drop with a fresh id, the panel edits the dropped element |
| BuilderLayout.RenameTouchesOnlySelected | components/builder/PropertiesPanel.tsx:61 | a rename through the panel sets the display name of the selected elements and changes nothing else |
| BuilderLayout.PaletteInputRendersNothing | components/builder/ComponentPalette.tsx:18 | a dropped palette `INPUT` is grouped as an input yet renders nothing |
| AdminBuilderPage.JoinedSlugsMatch | app/admin/builder/page.tsx:56 | an illustration of the slug pattern: two valid slugs joined by a hyphen are valid |
| AdminBuilderPage.SlugExamples | app/admin/builder/page.tsx:56 | lower-case words, digits and hyphens pass; empty, upper case, `_` and space fail |
| AdminBuilderPage.WithField | app/admin/builder/page.tsx:53 | a change sets the named field and keeps the others |
| AdminBuilderPage.SlugErrorAfter | app/admin/builder/page.tsx:55-62 | for the slug, the error is set iff the value is non-empty and invalid, with the fixed message; other fields keep it |
| AdminBuilderPage.Prefill | app/admin/builder/page.tsx:67-72 | an edit opens with the page's fields, `LANDING` for a falsy type |
| AdminBuilderPage.RequestFor | app/admin/builder/page.tsx:95-107 | update iff editing, with title, type and description but never the slug; otherwise create with all four |
| AdminBuilderPage.EnabledSubmitPassesGuard | app/admin/builder/page.tsx:278 | an enabled submit passes the guard and has a title and a slug; in edit mode a slug error does not disable it |
| AdminBuilderPage.FailureText | app/admin/builder/page.tsx:117 | the error shown is the message, or `Failed to save page.` for an empty one |
| AdminBuilderPage.BuilderDashboard.constructor | app/admin/builder/page.tsx:18-31 | empty form with `LANDING`, no errors, create mode, modal closed |
| AdminBuilderPage.BuilderDashboard.HandleInputChange | app/admin/builder/page.tsx:51-63 | the field is set, the slug error recomputed, and the create-form invariant kept |
| AdminBuilderPage.BuilderDashboard.HandleEditClick | app/admin/builder/page.tsx:65-76 | edit mode with the prefilled form, both errors cleared, modal open |
| AdminBuilderPage.BuilderDashboard.HandleCreateClick | app/admin/builder/page.tsx:78-84 | create mode with the empty form, both errors cleared, modal open |
| AdminBuilderPage.BuilderDashboard.CloseModal | app/admin/builder/page.tsx:231 | the modal closes and edit mode ends; the form is kept |
| AdminBuilderPage.BuilderDashboard.HandleSubmit | app/admin/builder/page.tsx:86-108 | a blocked submit sends nothing and changes nothing; otherwise the request goes out with saving on and the error cleared; a create from a consistent form carries an empty or valid slug |
| AdminBuilderPage.SlugTypoAndFix | app/admin/builder/page.tsx:51-108 | a scenario: in create mode an invalid slug blocks the submit, which sends nothing; after the fix the submit sends the create request with the fixed slug |
| AdminBuilderPage.BuilderDashboard.CompleteSubmit | app/admin/builder/page.tsx:109-120 | success closes the modal, ends edit mode and resets the form; failure shows its message; saving ends either way |

## Left out

- Numbers are integers. Floating point, `NaN` and decimal rendering of numbers of 10^21 and above are not modelled.
- `toUpperCase` is modelled on ASCII letters only. The rest of Unicode case mapping is not.
- A `paramType` or layout that is not a string (the code applies `String(...)` to it) is modelled as a string. Missing text fields are `""`, which is falsy in both readings.
- Form-state keys and slugs that name `Object.prototype` members are not modelled in the form state or the slug lookup. Examples are a `paramKey` of `constructor`, or the slug `constructor` in `controllers[slug]`. The method-name lookup with its inherited members is modelled only by `Controllers.TargetAsWritten` (see Findings).
- SectionRenderer.ChangeRoute, SectionRenderer.ClickRoute: they route through the corrected lookup `Controllers.Resolve`. So they, and the `SectionInstance` methods built on them, differ from the code for a method name in `Controllers.ObjectPrototypeMembers`. For such a name the code calls the inherited member, or throws for `__proto__`. The model records no call.
- Spreading a string or an array into props is not modelled: `JsValue.Spread` gives no entries for either.
- `Object.prototype` property reads on props such as `props.constructor` are not modelled. Only the fixed keys the components read are used.
- React's batching, stale closures and re-render timing are not modelled. Each event is modelled as running after the previous one has re-rendered.
- Markup, CSS classes, icons, `console` output, `alert`, `confirm` and the Loader spinner are left out.
- The network is left out: the page list fetch, page delete and the `pageAPI` calls. A save outcome is passed to `CompleteSubmit` as a parameter.
- `Date.now()` is passed in as a natural number. dnd-kit ids are modelled as strings only.
- The JSON text of the save payload and its key order are not modelled; the payload is a value.
- `responsiveProps`, `createdAt`, `updatedAt`, `metaKeywords` and `ogImage` are not modelled because nothing in the core reads them.
- Schema.ParseParamType: there is no lemma that every declared type parses back from its spelling. The 35-way string match is too costly to prove here, so only the five tags the dispatcher uses are stated.
- JavaScript `===` on ids is compared structurally, which is the same as `===` for the string ids the builder creates.
- A card header and footer shown "only when non-empty" are modelled as possibly empty sequences of placements.
- The controller handlers' own behaviour is not part of this model, for example the login controller's API call. A call is recorded, not run.
- Missing `PageSummary` fields are modelled as `""`. An `editingPageId` of `""` counts as create mode, as in the code. Such a form is not covered by `CreateFormConsistent`, which assumes `editingPageId` is absent.

## Findings

| source | as written | input that shows it | evidently intended | confidence | as-written member | corrected member |
|---|---|---|---|---|---|---|
| components/renderer/SectionRenderer.tsx:16 | `(controllers[slug] \|\| {})[methodName]` reads a plain object literal. Its lookup also sees members inherited from `Object.prototype`. | A page `home` with no controller, and a button with `methods.onClick.methodName = "__proto__"`. The lookup finds `Object.prototype` (truthy), and calling it throws a TypeError. With `"toString"`, the inherited method is called. | A missing controller or method is a silent no-op, and the engine never throws. Only names the controller itself binds should resolve. | medium, not executed | Controllers.TargetAsWritten, Controllers.UnregisteredSlugReachesPrototype | Controllers.Resolve |
