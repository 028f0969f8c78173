/** The PRD to Markdown serialiser (`createMarkdownContent`). */
module ExportUtils {
  import opened PrdTypes
  import opened Text

  const NoContent := "No content provided."
  const NoDescription := "No description provided."
  const NoFeatures := "No features defined.\n\n"

  /** `prdState.sections[section.id] || 'No content provided.'`: a missing or empty body gives the placeholder. */
  function SectionContent(st: PrdState, id: string): string {
    if id in st.sections && st.sections[id] != "" then st.sections[id] else NoContent
  }

  /** `feature.description || 'No description provided.'`. */
  function DescriptionText(f: Feature): string {
    if f.description != "" then f.description else NoDescription
  }

  /** Title line and the three metadata lines. */
  function HeaderMd(st: PrdState): string {
    "# " + st.title + "\n\n"
    + "**Author:** " + st.author + "\n"
    + "**Date:** " + st.date + "\n"
    + "**Version:** " + st.version + "\n\n"
  }

  function SectionHeading(sec: TemplateSection): string {
    "## " + sec.title + "\n\n"
  }

  function SectionBody(st: PrdState, sec: TemplateSection): string {
    SectionContent(st, sec.id) + "\n\n"
  }

  function SectionBlock(st: PrdState, sec: TemplateSection): string {
    SectionHeading(sec) + SectionBody(st, sec)
  }

  /** One block per template section, in template order. */
  function SectionBlocks(st: PrdState, ts: seq<TemplateSection>): seq<string> {
    seq(|ts|, k requires 0 <= k < |ts| => SectionBlock(st, ts[k]))
  }

  function SectionsMd(st: PrdState, ts: seq<TemplateSection>): string {
    Concat(SectionBlocks(st, ts))
  }

  function FeatureTitleLine(f: Feature): string {
    "### " + f.title + "\n\n"
  }

  function PriorityLine(f: Feature): string {
    "**Priority:** " + PriorityLabel(f.priority) + "\n"
  }

  function StatusLine(f: Feature): string {
    "**Status:** " + StatusLabel(f.status) + "\n\n"
  }

  function DescriptionLine(f: Feature): string {
    DescriptionText(f) + "\n\n"
  }

  function FeatureBlock(f: Feature): string {
    FeatureTitleLine(f) + PriorityLine(f) + StatusLine(f) + DescriptionLine(f)
  }

  /** One block per feature, in list order. */
  function FeatureBlocks(fs: seq<Feature>): seq<string> {
    Pieces(fs, FeatureBlock)
  }

  function FeaturesMd(fs: seq<Feature>): string {
    Concat(FeatureBlocks(fs))
  }

  /** The Feature List heading, then either the feature blocks or the no-features line. */
  function FeatureListMd(fs: seq<Feature>): string {
    "## Feature List\n\n" + (if |fs| > 0 then FeaturesMd(fs) else NoFeatures)
  }

  /** The whole document `createMarkdownContent` returns. */
  function Markdown(st: PrdState, ts: seq<TemplateSection>): string {
    HeaderMd(st) + SectionsMd(st, ts) + FeatureListMd(st.features)
  }

  /** `createMarkdownContent`: grows `content` section by section and feature by feature. */
  method CreateMarkdownContent(st: PrdState, ts: seq<TemplateSection>) returns (content: string)
    ensures content == Markdown(st, ts)
  {
    content := "# " + st.title + "\n\n";
    content := content + "**Author:** " + st.author + "\n";
    content := content + "**Date:** " + st.date + "\n";
    content := content + "**Version:** " + st.version + "\n\n";
    ghost var blocks := SectionBlocks(st, ts);
    for i := 0 to |ts|
      invariant content == HeaderMd(st) + Concat(blocks[..i])
    {
      ghost var done := Concat(blocks[..i]);
      content := content + SectionHeading(ts[i]);
      content := content + SectionBody(st, ts[i]);
      AppendAssoc(HeaderMd(st) + done, SectionHeading(ts[i]), SectionBody(st, ts[i]));
      AppendAssoc(HeaderMd(st), done, blocks[i]);
      ConcatSnoc(blocks, i);
    }
    assert blocks[..|ts|] == blocks;
    content := content + "## Feature List\n\n";
    var fs := st.features;
    if |fs| > 0 {
      ghost var fblocks := FeatureBlocks(fs);
      ghost var before := content;
      for j := 0 to |fs|
        invariant content == before + Concat(fblocks[..j])
      {
        ghost var done := before + Concat(fblocks[..j]);
        content := content + FeatureTitleLine(fs[j]);
        content := content + PriorityLine(fs[j]);
        AppendAssoc(done, FeatureTitleLine(fs[j]), PriorityLine(fs[j]));
        content := content + StatusLine(fs[j]);
        AppendAssoc(done, FeatureTitleLine(fs[j]) + PriorityLine(fs[j]), StatusLine(fs[j]));
        content := content + DescriptionLine(fs[j]);
        AppendAssoc(done, FeatureTitleLine(fs[j]) + PriorityLine(fs[j]) + StatusLine(fs[j]), DescriptionLine(fs[j]));
        AppendAssoc(before, Concat(fblocks[..j]), fblocks[j]);
        ConcatSnoc(fblocks, j);
      }
      assert fblocks[..|fs|] == fblocks;
      AppendAssoc(HeaderMd(st) + SectionsMd(st, ts), "## Feature List\n\n", FeaturesMd(fs));
    } else {
      content := content + NoFeatures;
      AppendAssoc(HeaderMd(st) + SectionsMd(st, ts), "## Feature List\n\n", NoFeatures);
    }
  }

  /** Section blocks of a concatenation of section lists are the concatenated blocks. */
  lemma SectionsMdAppend(st: PrdState, a: seq<TemplateSection>, b: seq<TemplateSection>)
    ensures SectionsMd(st, a + b) == SectionsMd(st, a) + SectionsMd(st, b)
  {
    assert SectionBlocks(st, a + b) == SectionBlocks(st, a) + SectionBlocks(st, b);
    ConcatAppend(SectionBlocks(st, a), SectionBlocks(st, b));
  }

  lemma FeaturesMdAppend(a: seq<Feature>, b: seq<Feature>)
    ensures FeaturesMd(a + b) == FeaturesMd(a) + FeaturesMd(b)
  {
    PiecesAppend(a, b, FeatureBlock);
  }

  /** The document opens with the title line, then the Author, Date and Version lines, in that order. */
  lemma MarkdownBeginsWithHeader(st: PrdState, ts: seq<TemplateSection>)
    ensures HeaderMd(st) <= Markdown(st, ts)
    ensures HeaderMd(st) == "# " + st.title + "\n\n" + "**Author:** " + st.author + "\n"
      + "**Date:** " + st.date + "\n" + "**Version:** " + st.version + "\n\n"
  {
    AppendAssoc(HeaderMd(st), SectionsMd(st, ts), FeatureListMd(st.features));
    PrefixOfAppend(HeaderMd(st), SectionsMd(st, ts) + FeatureListMd(st.features));
  }

  /**
   * Section `i` is emitted right after the blocks of sections `0..i-1` (which follow the header) and before
   * the blocks of the later sections; its body is the stored text, or the placeholder when it is missing or empty.
   */
  lemma SectionInOrder(st: PrdState, ts: seq<TemplateSection>, i: nat)
    requires i < |ts|
    ensures Markdown(st, ts)
      == HeaderMd(st) + (SectionsMd(st, ts[..i]) + SectionBlock(st, ts[i]) + SectionsMd(st, ts[i + 1..]))
         + FeatureListMd(st.features)
    ensures SectionBlock(st, ts[i]) == ("## " + ts[i].title + "\n\n")
      + ((if ts[i].id in st.sections && st.sections[ts[i].id] != "" then st.sections[ts[i].id] else "No content provided.")
         + "\n\n")
  {
    var blocks := SectionBlocks(st, ts);
    ConcatAt(blocks, i);
    assert blocks[..i] == SectionBlocks(st, ts[..i]);
    assert blocks[i + 1..] == SectionBlocks(st, ts[i + 1..]);
  }

  /**
   * With at least one feature, feature `j` is emitted after the Feature List heading and the blocks of
   * features `0..j-1`, and before the blocks of the later features.
   */
  lemma FeatureInOrder(st: PrdState, ts: seq<TemplateSection>, j: nat)
    requires j < |st.features|
    ensures Markdown(st, ts)
      == HeaderMd(st) + SectionsMd(st, ts)
         + ("## Feature List\n\n"
            + (FeaturesMd(st.features[..j]) + FeatureBlock(st.features[j]) + FeaturesMd(st.features[j + 1..])))
  {
    PiecesAt(st.features, FeatureBlock, j);
  }

  /** A feature block is its title, Priority, Status and description (or the placeholder) lines. */
  lemma FeatureBlockLines(f: Feature)
    ensures FeatureBlock(f) == ("### " + f.title + "\n\n")
      + ("**Priority:** " + PriorityLabel(f.priority) + "\n")
      + ("**Status:** " + StatusLabel(f.status) + "\n\n")
      + ((if f.description == "" then "No description provided." else f.description) + "\n\n")
  {
  }

  /** Without features the document ends with the Feature List heading and the no-features line, and nothing else. */
  lemma NoFeaturesEnding(st: PrdState, ts: seq<TemplateSection>)
    requires st.features == []
    ensures Markdown(st, ts) == HeaderMd(st) + SectionsMd(st, ts) + "## Feature List\n\nNo features defined.\n\n"
  {
  }
}
