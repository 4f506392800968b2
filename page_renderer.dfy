/** A page: "no content" when there is no page or no section list; otherwise
    the visible sections, stably sorted by order index, each mounted with the
    page's slug as its routing scope. */
module PageRenderer {
  import opened JsValue
  import opened Schema
  import opened Seqs
  import opened StableSort

  /** `section.isVisible !== false`: only an explicit `false` hides. */
  predicate IsShown(s: Section) {
    s.isVisible != Some(false)
  }

  /** `a.orderIndex || 0` for a section. */
  function SectionOrderKey(s: Section): int {
    OrderKey(s.orderIndex)
  }

  /** The visible sections of a copy of the list, stably sorted. */
  function VisibleSections(sections: seq<Section>): (r: seq<Section>)
    ensures forall i :: 0 <= i < |r| ==> IsShown(r[i])
    ensures multiset(r) == multiset(Filter(sections, IsShown))
    ensures |r| == Count(sections, IsShown)
    ensures SortedBy(r, SectionOrderKey)
    ensures forall k :: Filter(r, HasKey(SectionOrderKey, k)) == Filter(Filter(sections, IsShown), HasKey(SectionOrderKey, k))
  {
    var shown := Filter(sections, IsShown);
    FilterLength(sections, IsShown);
    var r := SortBy(shown, SectionOrderKey);
    forall i | 0 <= i < |r| ensures IsShown(r[i]) {
      assert r[i] in multiset(shown);
      FilterMember(sections, IsShown, r[i]);
    }
    r
  }

  /** A section exactly as the page mounts it: keyed by its id, under the
      page's slug. */
  datatype SectionMount = SectionMount(key: string, section: Section, pageSlug: string)

  datatype PageView = NoContent | PageMain(mounts: seq<SectionMount>)

  function ComposePage(page: Option<Page>): (v: PageView)
    ensures v.NoContent? <==> page.None? || page.value.sections.None?
    ensures v.PageMain? ==>
      var vs := VisibleSections(page.value.sections.value);
      |v.mounts| == |vs|
      && forall i :: 0 <= i < |vs| ==> v.mounts[i] == SectionMount(vs[i].id, vs[i], page.value.slug)
  {
    if page.None? || page.value.sections.None? then NoContent
    else
      var vs := VisibleSections(page.value.sections.value);
      PageMain(seq(|vs|, i requires 0 <= i < |vs| => SectionMount(vs[i].id, vs[i], page.value.slug)))
  }

  /** The sections a composed page mounts, in order. */
  function Mounted(v: PageView): (r: seq<Section>)
    ensures v.PageMain? ==> |r| == |v.mounts| && forall i :: 0 <= i < |r| ==> r[i] == v.mounts[i].section
    ensures v.NoContent? ==> r == []
  {
    if v.NoContent? then [] else seq(|v.mounts|, i requires 0 <= i < |v.mounts| => v.mounts[i].section)
  }

  /** A page whose list is present mounts its visible sections, sorted. */
  lemma MountedAreVisibleSorted(page: Page)
    requires page.sections.Some?
    ensures Mounted(ComposePage(Some(page))) == VisibleSections(page.sections.value)
  {
  }

  /** An empty section list is not "no content": it gives an empty main. */
  lemma EmptyListIsNotNoContent(page: Page)
    requires page.sections == Some([])
    ensures ComposePage(Some(page)) == PageMain([])
  {
  }

  /** A section is mounted exactly when it is in the list and not explicitly
      hidden; in particular a section with no visibility field is kept. */
  lemma {:induction false} MountedIffShown(page: Page, s: Section)
    requires page.sections.Some?
    ensures s in Mounted(ComposePage(Some(page))) <==> s in page.sections.value && IsShown(s)
  {
    var vs := VisibleSections(page.sections.value);
    MountedAreVisibleSorted(page);
    FilterMember(page.sections.value, IsShown, s);
    assert s in vs <==> s in multiset(vs);
    assert s in Filter(page.sections.value, IsShown) <==> s in multiset(Filter(page.sections.value, IsShown));
  }

  /** Every mounted section is scoped by the page's slug and keyed by its id. */
  lemma MountsCarrySlug(page: Page)
    requires page.sections.Some?
    ensures forall m :: m in ComposePage(Some(page)).mounts ==> m.pageSlug == page.slug && m.key == m.section.id
  {
  }

  /** Two visible sections with the same order index are mounted in their
      input order. */
  lemma TiesKeepInputOrder(page: Page, k: int)
    requires page.sections.Some?
    ensures Filter(Mounted(ComposePage(Some(page))), HasKey(SectionOrderKey, k))
      == Filter(Filter(page.sections.value, IsShown), HasKey(SectionOrderKey, k))
  {
    MountedAreVisibleSorted(page);
  }
}
