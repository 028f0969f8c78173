/** The PRD builder page: editing the PRD in memory, and the guarded save, download and copy actions. */
module PrdBuilder {
  import opened Optional
  import opened Text
  import opened Lists
  import opened PrdTypes
  import opened ExportUtils
  import opened PdfExport

  /** The new-feature form: a feature without its id. */
  datatype FeatureDraft = FeatureDraft(title: string, description: string, priority: Priority, status: FeatureStatus)

  /** The state the form is reset to: empty text, Medium, Should Have. */
  const BlankDraft := FeatureDraft("", "", Medium, ShouldHave)

  /** The PRD the page starts from: empty title and author, version 1.0, an empty text for every template section. */
  function InitialPrd(today: string): (st: PrdState)
    ensures st.title == "" && st.author == "" && st.date == today && st.version == "1.0" && st.features == []
    ensures forall i :: 0 <= i < |TemplateSections| ==> TemplateSections[i].id in st.sections
    ensures forall id :: id in st.sections ==> st.sections[id] == ""
  {
    PrdState("", "", today, "1.0", map i | 0 <= i < |TemplateSections| :: TemplateSections[i].id := "", [])
  }

  /** Every section panel starts expanded. */
  function InitialExpanded(): (m: map<string, bool>)
    ensures forall i :: 0 <= i < |TemplateSections| ==> TemplateSections[i].id in m
    ensures forall id :: id in m ==> m[id]
  {
    map i | 0 <= i < |TemplateSections| :: TemplateSections[i].id := true
  }

  function FeatureId(now: nat): string {
    StampId("feature", now)
  }

  /**
   * `addFeature`: a title that is blank after trimming changes nothing; otherwise the draft, with an id
   * from the clock reading `now`, is appended as the last feature and the form is reset.
   */
  function AddFeature(st: PrdState, draft: FeatureDraft, now: nat): (r: (PrdState, FeatureDraft))
    ensures IsBlank(draft.title) ==> r == (st, draft)
    ensures !IsBlank(draft.title) ==>
      r.1 == BlankDraft
      && r.0 == st.(features := r.0.features)
      && |r.0.features| == |st.features| + 1
      && r.0.features[..|st.features|] == st.features
      && r.0.features[|st.features|]
         == Feature(FeatureId(now), draft.title, draft.description, draft.priority, draft.status)
  {
    if Trim(draft.title) == "" then (st, draft)
    else
      var feature := Feature(FeatureId(now), draft.title, draft.description, draft.priority, draft.status);
      (st.(features := st.features + [feature]), BlankDraft)
  }

  function OtherFeature(id: string): Feature -> bool {
    (f: Feature) => f.id != id
  }

  /** `removeFeature`: drops every feature with the id and keeps the others, in order. */
  function RemoveFeature(st: PrdState, id: string): (r: PrdState)
    ensures r == st.(features := r.features)
    ensures forall i :: 0 <= i < |r.features| ==> r.features[i].id != id && r.features[i] in st.features
    ensures forall i :: 0 <= i < |st.features| && st.features[i].id != id ==> st.features[i] in r.features
  {
    st.(features := Filter(st.features, OtherFeature(id)))
  }

  lemma RemoveFeatureKeepsOrder(st: PrdState, id: string)
    ensures IsSubseq(RemoveFeature(st, id).features, st.features)
  {
    FilterIsSubseq(st.features, OtherFeature(id));
  }

  /** Removing a feature just added, under an id not used before, gives back the PRD as it was. */
  lemma AddThenRemove(st: PrdState, draft: FeatureDraft, now: nat)
    requires !IsBlank(draft.title)
    requires forall i :: 0 <= i < |st.features| ==> st.features[i].id != FeatureId(now)
    ensures RemoveFeature(AddFeature(st, draft, now).0, FeatureId(now)) == st
  {
    var p := OtherFeature(FeatureId(now));
    var feature := Feature(FeatureId(now), draft.title, draft.description, draft.priority, draft.status);
    BlankIffTrimEmpty(draft.title);
    assert AddFeature(st, draft, now).0.features == st.features + [feature];
    FilterAppend(st.features, [feature], p);
    FilterAll(st.features, p);
    assert Filter([feature], p) == [];
  }

  /** `handleSectionChange`: the one section takes the new text; nothing else in the PRD changes. */
  function HandleSectionChange(st: PrdState, id: string, content: string): (r: PrdState)
    ensures r.title == st.title && r.author == st.author && r.date == st.date && r.version == st.version
    ensures r.features == st.features
    ensures r.sections.Keys == st.sections.Keys + {id}
    ensures id in r.sections && r.sections[id] == content
    ensures forall k :: k in st.sections && k != id ==> r.sections[k] == st.sections[k]
  {
    st.(sections := st.sections[id := content])
  }

  /** After a change, the exported section shows the new text, or the placeholder when the text is empty. */
  lemma SectionChangeExported(st: PrdState, id: string, content: string, other: string)
    ensures SectionContent(HandleSectionChange(st, id, content), id) == if content == "" then NoContent else content
    ensures other != id ==> SectionContent(HandleSectionChange(st, id, content), other) == SectionContent(st, other)
  {
  }

  /** `!prev[id]`: a panel with no entry counts as collapsed, so its first toggle expands it. */
  function ToggleSection(m: map<string, bool>, id: string): (r: map<string, bool>)
    ensures r.Keys == m.Keys + {id}
    ensures id in r && r[id] == !(id in m && m[id])
    ensures forall k :: k in m && k != id ==> r[k] == m[k]
  {
    m[id := !(id in m && m[id])]
  }

  /** Toggling twice restores a panel that had an entry; one without an entry ends up with `false`. */
  lemma ToggleTwice(m: map<string, bool>, id: string)
    ensures id in m ==> ToggleSection(ToggleSection(m, id), id) == m
    ensures id !in m ==> ToggleSection(ToggleSection(m, id), id) == m[id := false]
  {
    if id in m {
      assert ToggleSection(ToggleSection(m, id), id) == m[id := m[id]];
    }
  }

  /** The title gate shared by save, download and PDF export: a title that is blank after trimming is refused. */
  predicate HasTitle(st: PrdState) {
    Trim(st.title) != ""
  }

  lemma HasTitleIffNotBlank(st: PrdState)
    ensures HasTitle(st) <==> !IsBlank(st.title)
  {
    BlankIffTrimEmpty(st.title);
  }

  /** `savePRD`: nothing without a title; otherwise the storage key made from the clock and the PRD stored under it. */
  function SavePrd(st: PrdState, now: nat): (r: Option<(string, PrdState)>)
    ensures r.None? <==> IsBlank(st.title)
    ensures r.Some? ==> r.value == ("prd-" + NatToString(now), st)
  {
    BlankIffTrimEmpty(st.title);
    if !HasTitle(st) then None else Some(("prd-" + NatToString(now), st))
  }

  /**
   * `downloadPRD`: nothing without a title; otherwise the Markdown text, which is the text
   * `createMarkdownContent` builds for the ten template sections, and the file name `slug-prd.md`.
   */
  method DownloadPrd(st: PrdState) returns (r: Option<(string, string)>)
    ensures r.None? <==> IsBlank(st.title)
    ensures r.Some? ==> r.value.0 == Markdown(st, TemplateSections)
    ensures r.Some? ==> r.value.1 == Slug(st.title) + "-prd.md"
  {
    BlankIffTrimEmpty(st.title);
    if !HasTitle(st) {
      return None;
    }
    var content := CreateMarkdownContent(st, TemplateSections);
    r := Some((content, ToLower(HyphenateSpaces(st.title)) + "-prd.md"));
  }

  /** `copyToClipboard`: the same text as the download, with no title check. */
  method CopyToClipboard(st: PrdState) returns (content: string)
    ensures content == Markdown(st, TemplateSections)
  {
    content := CreateMarkdownContent(st, TemplateSections);
  }

  /** `downloadPDF`: nothing without a title; otherwise the document `exportToPDF` lays out, and its file name. */
  method DownloadPdf(st: PrdState, wrap: string -> seq<string>) returns (r: Option<(PdfDoc, string)>)
    ensures r.None? <==> IsBlank(st.title)
    ensures r.Some? ==> fresh(r.value.0) && r.value.0.Valid() && r.value.0.ops == Layout(st, TemplateSections, wrap).ops
    ensures r.Some? ==> r.value.1 == Slug(st.title) + "-prd.pdf"
  {
    BlankIffTrimEmpty(st.title);
    if !HasTitle(st) {
      return None;
    }
    var doc, filename := ExportToPdf(st, TemplateSections, wrap);
    r := Some((doc, filename));
  }
}
