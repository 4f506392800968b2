/** The admin dashboard's page form: a modal that creates a page or edits
    one, with a live slug check, a submit guard, a create or update request
    and the state the outcome of that request leaves behind. */
module AdminBuilderPage {
  import opened JsValue

  /** The form's named inputs. */
  datatype FieldName = TitleField | SlugField | PageTypeField | MetaDescriptionField

  datatype PageForm = PageForm(title: string, slug: string, pageType: string, metaDescription: string)

  /** Empty fields with page type `LANDING`. */
  const EmptyForm := PageForm("", "", "LANDING", "")

  const SlugErrorMessage := "Slug can only contain lowercase letters, numbers, and hyphens"
  const SaveFailedMessage := "Failed to save page."

  /** A character of the class `[a-z0-9-]`. */
  predicate SlugChar(c: char) {
    ('a' <= c <= 'z') || ('0' <= c <= '9') || c == '-'
  }

  /** `/^[a-z0-9-]+$/.test(s)`: one or more slug characters and nothing else
      (without the `m` flag, `$` matches only at the end of the input). */
  predicate SlugMatches(s: string) {
    |s| > 0 && forall i :: 0 <= i < |s| ==> SlugChar(s[i])
  }

  /** Two valid slugs joined by a hyphen make a valid slug. */
  lemma JoinedSlugsMatch(a: string, b: string)
    requires SlugMatches(a) && SlugMatches(b)
    ensures SlugMatches(a + "-" + b)
  {
    var s := a + "-" + b;
    forall i | 0 <= i < |s| ensures SlugChar(s[i]) {
      if i < |a| { assert s[i] == a[i]; }
      else if i > |a| { assert s[i] == b[i - |a| - 1]; }
    }
  }

  /** Upper case, underscores, spaces and the empty string are refused. */
  lemma SlugExamples()
    ensures SlugMatches("summer-sale") && SlugMatches("login") && SlugMatches("2024")
    ensures !SlugMatches("") && !SlugMatches("Summer") && !SlugMatches("summer_sale") && !SlugMatches("summer sale")
  {
    assert !SlugChar("Summer"[0]);
    assert !SlugChar("summer_sale"[6]);
    assert !SlugChar("summer sale"[6]);
  }

  /** A field's current value. */
  function FieldOf(form: PageForm, name: FieldName): string {
    match name
    case TitleField => form.title
    case SlugField => form.slug
    case PageTypeField => form.pageType
    case MetaDescriptionField => form.metaDescription
  }

  /** `{ ...formData, [name]: value }` */
  function WithField(form: PageForm, name: FieldName, value: string): (r: PageForm)
    ensures FieldOf(r, name) == value
    ensures forall other :: other != name ==> FieldOf(r, other) == FieldOf(form, other)
  {
    match name
    case TitleField => form.(title := value)
    case SlugField => form.(slug := value)
    case PageTypeField => form.(pageType := value)
    case MetaDescriptionField => form.(metaDescription := value)
  }

  /** The slug error after a change: recomputed for the slug field (set
      exactly for a non-empty value that is not a valid slug), kept for any
      other field. */
  function SlugErrorAfter(name: FieldName, value: string, current: string): (e: string)
    ensures name == SlugField ==> (e != "" <==> value != "" && !SlugMatches(value))
    ensures name == SlugField && e != "" ==> e == SlugErrorMessage
    ensures name != SlugField ==> e == current
  {
    if name != SlugField then current
    else if value != "" && !SlugMatches(value) then SlugErrorMessage
    else ""
  }

  /** `editingPageId` is truthy: present and not the empty string. */
  predicate IsEditing(editingPageId: Option<string>) {
    editingPageId.Some? && editingPageId.value != ""
  }

  /** A page of the dashboard's list, as the edit button passes it in; a
      missing `pageType` or `metaDescription` is the empty string. */
  datatype PageSummary = PageSummary(id: string, title: string, slug: string, pageType: string, metaDescription: string)

  /** The form an edit opens with: the page's fields, `LANDING` for a falsy
      type and `''` for a falsy description. */
  function Prefill(page: PageSummary): (f: PageForm)
    ensures f.title == page.title && f.slug == page.slug
    ensures f.pageType == (if page.pageType == "" then "LANDING" else page.pageType)
    ensures f.metaDescription == page.metaDescription
    ensures f.pageType != ""
  {
    PageForm(page.title, page.slug, if page.pageType == "" then "LANDING" else page.pageType, page.metaDescription)
  }

  /** The request a submit sends. */
  datatype PageRequest =
    | UpdatePage(id: string, body: map<string, string>)
    | CreatePage(body: map<string, string>)

  /** Update in edit mode, without the slug; create otherwise, with all four
      fields. */
  function RequestFor(form: PageForm, editingPageId: Option<string>): (r: PageRequest)
    ensures r.UpdatePage? <==> IsEditing(editingPageId)
    ensures r.UpdatePage? ==> r.id == editingPageId.value
    ensures r.UpdatePage? ==> r.body.Keys == {"title", "pageType", "metaDescription"} && "slug" !in r.body
    ensures r.CreatePage? ==> r.body.Keys == {"title", "slug", "pageType", "metaDescription"}
    ensures forall k :: k in r.body ==>
      r.body[k] == (if k == "title" then form.title else if k == "slug" then form.slug
                    else if k == "pageType" then form.pageType else form.metaDescription)
  {
    if IsEditing(editingPageId) then
      UpdatePage(editingPageId.value,
        map["title" := form.title, "pageType" := form.pageType, "metaDescription" := form.metaDescription])
    else
      CreatePage(map["title" := form.title, "slug" := form.slug, "pageType" := form.pageType,
        "metaDescription" := form.metaDescription])
  }

  /** `slugError && !editingPageId`: the one case in which a submit is
      dropped. */
  predicate SubmitBlocked(slugError: string, editingPageId: Option<string>) {
    slugError != "" && !IsEditing(editingPageId)
  }

  /** The submit button's `disabled`. */
  predicate SubmitDisabled(form: PageForm, slugError: string, editingPageId: Option<string>, isCreating: bool) {
    SubmitBlocked(slugError, editingPageId) || form.title == "" || form.slug == "" || isCreating
  }

  /** An enabled submit button never sends a blocked submit, and only with a
      title and a slug; in edit mode a slug error does not disable it. */
  lemma EnabledSubmitPassesGuard(form: PageForm, slugError: string, editingPageId: Option<string>, isCreating: bool)
    ensures !SubmitDisabled(form, slugError, editingPageId, isCreating) ==>
      !SubmitBlocked(slugError, editingPageId) && form.title != "" && form.slug != "" && !isCreating
    ensures IsEditing(editingPageId) && form.title != "" && form.slug != "" && !isCreating ==>
      !SubmitDisabled(form, slugError, editingPageId, isCreating)
  {
  }

  /** `error.message || "Failed to save page."` */
  function FailureText(message: string): (t: string)
    ensures t != ""
    ensures message != "" ==> t == message
    ensures message == "" ==> t == SaveFailedMessage
  {
    if message == "" then SaveFailedMessage else message
  }

  /** How the request ended. */
  datatype SaveOutcome = Saved | Failed(message: string)

  /** The dashboard's form state. */
  class BuilderDashboard {
    var formData: PageForm
    var slugError: string
    var apiError: string
    var editingPageId: Option<string>
    var isModalOpen: bool
    var isCreating: bool

    constructor()
      ensures formData == EmptyForm && slugError == "" && apiError == ""
      ensures editingPageId.None? && !isModalOpen && !isCreating
      ensures CreateFormConsistent()
    {
      formData := EmptyForm;
      slugError := "";
      apiError := "";
      editingPageId := None;
      isModalOpen := false;
      isCreating := false;
    }

    /** While the modal is open in create mode, the slug error is shown
        exactly when the slug is non-empty and invalid. */
    ghost predicate CreateFormConsistent()
      reads this
    {
      isModalOpen && editingPageId.None? ==> (slugError == "" <==> formData.slug == "" || SlugMatches(formData.slug))
    }

    /** `handleInputChange` */
    method HandleInputChange(name: FieldName, value: string)
      modifies this
      requires CreateFormConsistent()
      ensures formData == WithField(old(formData), name, value)
      ensures slugError == SlugErrorAfter(name, value, old(slugError))
      ensures apiError == old(apiError) && editingPageId == old(editingPageId)
      ensures isModalOpen == old(isModalOpen) && isCreating == old(isCreating)
      ensures CreateFormConsistent()
    {
      formData := WithField(formData, name, value);
      slugError := SlugErrorAfter(name, value, slugError);
    }

    /** `handleEditClick`: both errors are cleared and the modal opens. */
    method HandleEditClick(page: PageSummary)
      modifies this
      ensures editingPageId == Some(page.id) && formData == Prefill(page)
      ensures slugError == "" && apiError == "" && isModalOpen
      ensures isCreating == old(isCreating)
      ensures CreateFormConsistent()
    {
      editingPageId := Some(page.id);
      formData := Prefill(page);
      slugError := "";
      apiError := "";
      isModalOpen := true;
    }

    /** `handleCreateClick`: an empty form in create mode. */
    method HandleCreateClick()
      modifies this
      ensures editingPageId.None? && formData == EmptyForm
      ensures slugError == "" && apiError == "" && isModalOpen
      ensures isCreating == old(isCreating)
      ensures CreateFormConsistent()
    {
      editingPageId := None;
      formData := EmptyForm;
      slugError := "";
      apiError := "";
      isModalOpen := true;
    }

    /** The close and cancel buttons. */
    method CloseModal()
      modifies this
      ensures !isModalOpen && editingPageId.None?
      ensures formData == old(formData) && slugError == old(slugError) && apiError == old(apiError)
      ensures isCreating == old(isCreating)
      ensures CreateFormConsistent()
    {
      isModalOpen := false;
      editingPageId := None;
    }

    /** `handleSubmit` up to the request: a blocked submit changes nothing
        and sends nothing; otherwise the request goes out with the saving
        flag raised and the API error cleared. A create request sent from a
        consistent create form carries an empty or valid slug. */
    method HandleSubmit() returns (r: Option<PageRequest>)
      modifies this
      requires CreateFormConsistent()
      ensures old(SubmitBlocked(slugError, editingPageId)) ==>
        r.None? && isCreating == old(isCreating) && apiError == old(apiError)
      ensures !old(SubmitBlocked(slugError, editingPageId)) ==>
        r == Some(RequestFor(old(formData), old(editingPageId))) && isCreating && apiError == ""
      ensures formData == old(formData) && slugError == old(slugError)
      ensures editingPageId == old(editingPageId) && isModalOpen == old(isModalOpen)
      ensures r.Some? && r.value.CreatePage? && isModalOpen && editingPageId.None? ==>
        formData.slug == "" || SlugMatches(formData.slug)
      ensures CreateFormConsistent()
    {
      if SubmitBlocked(slugError, editingPageId) {
        return None;
      }
      isCreating := true;
      apiError := "";
      r := Some(RequestFor(formData, editingPageId));
    }

    /** The rest of `handleSubmit`: a saved page closes the modal, leaves
        edit mode and resets the form; a failure shows its message; the
        saving flag drops either way. */
    method CompleteSubmit(outcome: SaveOutcome)
      modifies this
      requires CreateFormConsistent()
      ensures !isCreating && slugError == old(slugError)
      ensures outcome.Saved? ==>
        !isModalOpen && editingPageId.None? && formData == EmptyForm && apiError == old(apiError)
      ensures outcome.Failed? ==>
        apiError == FailureText(outcome.message) && isModalOpen == old(isModalOpen)
        && editingPageId == old(editingPageId) && formData == old(formData)
      ensures CreateFormConsistent()
    {
      if outcome.Saved? {
        isModalOpen := false;
        editingPageId := None;
        formData := EmptyForm;
      } else {
        apiError := FailureText(outcome.message);
      }
      isCreating := false;
    }

    /** The submit button's state. */
    predicate SubmitButtonDisabled()
      reads this
    {
      SubmitDisabled(formData, slugError, editingPageId, isCreating)
    }
  }

  /** Typing an invalid slug in create mode disables the submit, so the
      submit sends nothing; fixing it enables the submit again for a form
      with a title, and the create request carries the fixed slug. */
  method SlugTypoAndFix(title: string) returns (blocked: Option<PageRequest>, sent: Option<PageRequest>)
    requires title != ""
    ensures blocked.None?
    ensures sent == Some(CreatePage(map["title" := title, "slug" := "summer-sale", "pageType" := "LANDING", "metaDescription" := ""]))
  {
    var d := new BuilderDashboard();
    d.HandleCreateClick();
    d.HandleInputChange(TitleField, title);
    d.HandleInputChange(SlugField, "Summer_Sale");
    SlugExamples();
    assert !SlugMatches("Summer_Sale") by { assert !SlugChar("Summer_Sale"[0]); }
    assert d.SubmitButtonDisabled();
    blocked := d.HandleSubmit();
    d.HandleInputChange(SlugField, "summer-sale");
    assert !d.SubmitButtonDisabled();
    sent := d.HandleSubmit();
  }
}
