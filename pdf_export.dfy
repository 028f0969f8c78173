/**
 * The PDF export (`exportToPDF`) as a cursor machine: a vertical position `y` in millimetres and a
 * document that records every text block drawn and every page added. Text wrapping
 * (`splitTextToSize(text, 180)`) belongs to the PDF library and is a parameter `wrap` giving the lines.
 */
module PdfExport {
  import opened Text
  import opened PrdTypes
  import opened ExportUtils

  const Margin := 15
  const TopY := 20
  const BottomY := 280
  const LineHeight := 7
  const ListLimit := 230
  const FeatureLimit := 250

  /** What a drawn block is, so that properties can speak about one kind of block at a time. */
  datatype Kind = Title | Meta | SectionHeading | SectionBody | ListHeading | FeatureTitle | FeatureMeta | FeatureBody

  datatype Op = NewPage | Draw(kind: Kind, lines: seq<string>, x: int, y: int)

  /** Number of page breaks in a run of operations. */
  function Breaks(ops: seq<Op>): nat {
    if ops == [] then 0 else Breaks(ops[..|ops| - 1]) + (if ops[|ops| - 1] == NewPage then 1 else 0)
  }

  /** The document being built: the operations issued so far and the number of pages. */
  class PdfDoc {
    var ops: seq<Op>
    var pages: nat

    ghost predicate Valid()
      reads this
    {
      pages == 1 + Breaks(ops)
    }

    constructor ()
      ensures Valid() && ops == [] && pages == 1
    {
      ops := [];
      pages := 1;
    }

    /** `doc.addPage()`. */
    method AddPage()
      requires Valid()
      modifies this
      ensures Valid()
      ensures ops == old(ops) + [NewPage] && pages == old(pages) + 1
    {
      assert (ops + [NewPage])[..|ops|] == ops;
      ops := ops + [NewPage];
      pages := pages + 1;
    }

    /** `doc.text(lines, x, y)`. */
    method DrawText(kind: Kind, lines: seq<string>, x: int, y: int)
      requires Valid()
      modifies this
      ensures Valid()
      ensures ops == old(ops) + [Draw(kind, lines, x, y)] && pages == old(pages)
    {
      assert (ops + [Draw(kind, lines, x, y)])[..|ops|] == ops;
      ops := ops + [Draw(kind, lines, x, y)];
    }
  }

  /** The position of the cursor together with the operations issued so far. */
  datatype Cursor = Cursor(y: int, ops: seq<Op>)

  /** Draw one block at the cursor, then move down by `advance`. */
  function Put(c: Cursor, kind: Kind, lines: seq<string>, advance: int): Cursor {
    Cursor(c.y + advance, c.ops + [Draw(kind, lines, Margin, c.y)])
  }

  /** Start a new page when the cursor is below `limit`. */
  function BreakIf(c: Cursor, limit: int): Cursor {
    if c.y > limit then Cursor(TopY, c.ops + [NewPage]) else c
  }

  /** A wrapped body: a new page first when its lines would pass the bottom, then the lines, then a gap. */
  function PutBody(c: Cursor, kind: Kind, lines: seq<string>, gap: int): Cursor {
    var top := if c.y + |lines| * LineHeight > BottomY then Cursor(TopY, c.ops + [NewPage]) else c;
    Put(top, kind, lines, |lines| * LineHeight + gap)
  }

  function HeaderRun(st: PrdState): Cursor {
    var c := Put(Cursor(TopY, []), Title, [st.title], 15);
    var c := Put(c, Meta, ["Author: " + st.author], 8);
    var c := Put(c, Meta, ["Date: " + st.date], 8);
    Put(c, Meta, ["Version: " + st.version], 15)
  }

  function SectionStep(c: Cursor, st: PrdState, sec: TemplateSection, wrap: string -> seq<string>): Cursor {
    PutBody(Put(c, SectionHeading, [sec.title], 10), SectionBody, wrap(SectionContent(st, sec.id)), 15)
  }

  function SectionsRun(c: Cursor, st: PrdState, ts: seq<TemplateSection>, wrap: string -> seq<string>): Cursor {
    if ts == [] then c else SectionStep(SectionsRun(c, st, ts[..|ts| - 1], wrap), st, ts[|ts| - 1], wrap)
  }

  /** A feature's title, priority and status lines, after a page break when the cursor is low. */
  function FeatureHead(c: Cursor, f: Feature): Cursor {
    var c := Put(BreakIf(c, FeatureLimit), FeatureTitle, [f.title], 8);
    var c := Put(c, FeatureMeta, ["Priority: " + PriorityLabel(f.priority)], 6);
    Put(c, FeatureMeta, ["Status: " + StatusLabel(f.status)], 8)
  }

  function FeatureStep(c: Cursor, f: Feature, wrap: string -> seq<string>): Cursor {
    PutBody(FeatureHead(c, f), FeatureBody, wrap(DescriptionText(f)), 10)
  }

  function FeaturesRun(c: Cursor, fs: seq<Feature>, wrap: string -> seq<string>): Cursor {
    if fs == [] then c else FeatureStep(FeaturesRun(c, fs[..|fs| - 1], wrap), fs[|fs| - 1], wrap)
  }

  /** The Feature List block, laid out only when there are features. */
  function FeatureListRun(c: Cursor, fs: seq<Feature>, wrap: string -> seq<string>): Cursor {
    if |fs| > 0 then FeaturesRun(Put(BreakIf(c, ListLimit), ListHeading, ["Feature List"], 10), fs, wrap) else c
  }

  /** The whole layout `exportToPDF` produces. */
  function Layout(st: PrdState, ts: seq<TemplateSection>, wrap: string -> seq<string>): Cursor {
    FeatureListRun(SectionsRun(HeaderRun(st), st, ts, wrap), st.features, wrap)
  }

  /** A wrapped text block: a new page when its lines would pass the bottom margin, the lines, then a gap. */
  method PlaceBody(doc: PdfDoc, y0: int, kind: Kind, lines: seq<string>, gap: int) returns (y: int)
    requires doc.Valid()
    modifies doc
    ensures doc.Valid()
    ensures Cursor(y, doc.ops) == PutBody(Cursor(y0, old(doc.ops)), kind, lines, gap)
  {
    y := y0;
    if y + |lines| * LineHeight > BottomY {
      doc.AddPage();
      y := TopY;
    }
    doc.DrawText(kind, lines, Margin, y);
    y := y + |lines| * LineHeight + gap;
  }

  /** The body of the section `forEach`: heading, optional page break, wrapped content. */
  method PlaceSection(doc: PdfDoc, y0: int, st: PrdState, sec: TemplateSection, wrap: string -> seq<string>)
    returns (y: int)
    requires doc.Valid()
    modifies doc
    ensures doc.Valid()
    ensures Cursor(y, doc.ops) == SectionStep(Cursor(y0, old(doc.ops)), st, sec, wrap)
  {
    y := y0;
    doc.DrawText(SectionHeading, [sec.title], Margin, y);
    y := y + 10;
    var splitText := wrap(SectionContent(st, sec.id));
    y := PlaceBody(doc, y, SectionBody, splitText, 15);
  }

  /** Optional page break, then the title, priority and status lines of a feature. */
  method PlaceFeatureHead(doc: PdfDoc, y0: int, f: Feature) returns (y: int)
    requires doc.Valid()
    modifies doc
    ensures doc.Valid()
    ensures Cursor(y, doc.ops) == FeatureHead(Cursor(y0, old(doc.ops)), f)
  {
    y := y0;
    if y > FeatureLimit {
      doc.AddPage();
      y := TopY;
    }
    doc.DrawText(FeatureTitle, [f.title], Margin, y);
    y := y + 8;
    doc.DrawText(FeatureMeta, ["Priority: " + PriorityLabel(f.priority)], Margin, y);
    y := y + 6;
    doc.DrawText(FeatureMeta, ["Status: " + StatusLabel(f.status)], Margin, y);
    y := y + 8;
  }

  /** The body of the feature `forEach`: optional page break, title, priority, status, wrapped description. */
  method PlaceFeature(doc: PdfDoc, y0: int, f: Feature, wrap: string -> seq<string>) returns (y: int)
    requires doc.Valid()
    modifies doc
    ensures doc.Valid()
    ensures Cursor(y, doc.ops) == FeatureStep(Cursor(y0, old(doc.ops)), f, wrap)
  {
    y := PlaceFeatureHead(doc, y0, f);
    var splitDesc := wrap(DescriptionText(f));
    y := PlaceBody(doc, y, FeatureBody, splitDesc, 10);
  }

  /** Title and metadata lines at the top of the first page. */
  method PlaceHeader(doc: PdfDoc, st: PrdState) returns (y: int)
    requires doc.Valid() && doc.ops == []
    modifies doc
    ensures doc.Valid()
    ensures Cursor(y, doc.ops) == HeaderRun(st)
  {
    y := TopY;
    doc.DrawText(Title, [st.title], Margin, y);
    y := y + 15;
    doc.DrawText(Meta, ["Author: " + st.author], Margin, y);
    y := y + 8;
    doc.DrawText(Meta, ["Date: " + st.date], Margin, y);
    y := y + 8;
    doc.DrawText(Meta, ["Version: " + st.version], Margin, y);
    y := y + 15;
  }

  /** The section `forEach`. */
  method PlaceSections(doc: PdfDoc, y0: int, st: PrdState, ts: seq<TemplateSection>, wrap: string -> seq<string>)
    returns (y: int)
    requires doc.Valid()
    modifies doc
    ensures doc.Valid()
    ensures Cursor(y, doc.ops) == SectionsRun(Cursor(y0, old(doc.ops)), st, ts, wrap)
  {
    y := y0;
    ghost var start := Cursor(y0, doc.ops);
    for i := 0 to |ts|
      invariant doc.Valid()
      invariant Cursor(y, doc.ops) == SectionsRun(start, st, ts[..i], wrap)
    {
      assert ts[..i + 1][..i] == ts[..i];
      y := PlaceSection(doc, y, st, ts[i], wrap);
    }
    assert ts[..|ts|] == ts;
  }

  /** The feature `forEach`. */
  method PlaceFeatures(doc: PdfDoc, y0: int, fs: seq<Feature>, wrap: string -> seq<string>) returns (y: int)
    requires doc.Valid()
    modifies doc
    ensures doc.Valid()
    ensures Cursor(y, doc.ops) == FeaturesRun(Cursor(y0, old(doc.ops)), fs, wrap)
  {
    y := y0;
    ghost var start := Cursor(y0, doc.ops);
    for j := 0 to |fs|
      invariant doc.Valid()
      invariant Cursor(y, doc.ops) == FeaturesRun(start, fs[..j], wrap)
    {
      assert fs[..j + 1][..j] == fs[..j];
      y := PlaceFeature(doc, y, fs[j], wrap);
    }
    assert fs[..|fs|] == fs;
  }

  /** The Feature List block: skipped without features, else an optional page break, the heading and the features. */
  method PlaceFeatureList(doc: PdfDoc, y0: int, fs: seq<Feature>, wrap: string -> seq<string>) returns (y: int)
    requires doc.Valid()
    modifies doc
    ensures doc.Valid()
    ensures Cursor(y, doc.ops) == FeatureListRun(Cursor(y0, old(doc.ops)), fs, wrap)
  {
    y := y0;
    if |fs| > 0 {
      if y > ListLimit {
        doc.AddPage();
        y := TopY;
      }
      doc.DrawText(ListHeading, ["Feature List"], Margin, y);
      y := y + 10;
      assert Cursor(y, doc.ops) == Put(BreakIf(Cursor(y0, old(doc.ops)), ListLimit), ListHeading, ["Feature List"], 10);
      y := PlaceFeatures(doc, y, fs, wrap);
    }
  }

  /** `exportToPDF`: the document it builds, and the file name it saves under. */
  method ExportToPdf(st: PrdState, ts: seq<TemplateSection>, wrap: string -> seq<string>)
    returns (doc: PdfDoc, filename: string)
    ensures fresh(doc) && doc.Valid()
    ensures doc.ops == Layout(st, ts, wrap).ops
    ensures filename == Slug(st.title) + "-prd.pdf"
  {
    doc := new PdfDoc();
    var y := PlaceHeader(doc, st);
    y := PlaceSections(doc, y, st, ts, wrap);
    y := PlaceFeatureList(doc, y, st.features, wrap);
    filename := ToLower(HyphenateSpaces(st.title)) + "-prd.pdf";
  }

  // ---------------------------------------------------------------------------------------------
  // Page rules

  /**
   * The rules operation `k` obeys: a new page is always followed by a block drawn at the top margin;
   * every block is drawn at the left margin and not above the top margin; the Feature List heading
   * starts no lower than 230 and a feature title no lower than 250; a wrapped body either ends by 280
   * or comes straight after a page break.
   */
  predicate Fits(ops: seq<Op>, k: int)
    requires 0 <= k < |ops|
  {
    match ops[k]
    case NewPage => k + 1 < |ops| && ops[k + 1].Draw? && ops[k + 1].y == TopY
    case Draw(kind, lines, x, y) =>
      x == Margin && y >= TopY
      && (kind == ListHeading ==> y <= ListLimit)
      && (kind == FeatureTitle ==> y <= FeatureLimit)
      && ((kind == SectionBody || kind == FeatureBody) ==>
            y + |lines| * LineHeight <= BottomY || (k > 0 && ops[k - 1] == NewPage))
  }

  predicate PageDiscipline(ops: seq<Op>) {
    forall k :: 0 <= k < |ops| ==> Fits(ops, k)
  }

  predicate Good(c: Cursor) {
    PageDiscipline(c.ops) && c.y >= TopY
  }

  lemma DrawKeeps(ops: seq<Op>, d: Op)
    requires PageDiscipline(ops) && Fits([d], 0) && d.Draw?
    ensures PageDiscipline(ops + [d])
  {
    var ops' := ops + [d];
    forall k | 0 <= k < |ops'|
      ensures Fits(ops', k)
    {
      if k < |ops| {
        assert Fits(ops, k);
        assert ops'[k] == ops[k];
        if k > 0 {
          assert ops'[k - 1] == ops[k - 1];
        }
        if ops[k] == NewPage {
          assert ops'[k + 1] == ops[k + 1];
        }
      } else {
        assert ops'[k] == [d][0];
      }
    }
  }

  lemma BreakKeeps(ops: seq<Op>, d: Op)
    requires PageDiscipline(ops) && Fits([NewPage, d], 1) && d.Draw? && d.y == TopY
    ensures PageDiscipline(ops + [NewPage] + [d])
  {
    var ops' := ops + [NewPage] + [d];
    forall k | 0 <= k < |ops'|
      ensures Fits(ops', k)
    {
      if k < |ops| {
        assert Fits(ops, k);
        assert ops'[k] == ops[k];
        if k > 0 {
          assert ops'[k - 1] == ops[k - 1];
        }
        if ops[k] == NewPage {
          assert ops'[k + 1] == ops[k + 1];
        }
      } else if k == |ops| {
        assert ops'[k] == NewPage && ops'[k + 1] == d;
      } else {
        assert ops'[k] == d && ops'[k - 1] == NewPage;
      }
    }
  }

  lemma PutGood(c: Cursor, kind: Kind, lines: seq<string>, advance: int)
    requires Good(c) && advance >= 0 && Fits([Draw(kind, lines, Margin, c.y)], 0)
    ensures Good(Put(c, kind, lines, advance))
  {
    DrawKeeps(c.ops, Draw(kind, lines, Margin, c.y));
  }

  /** A title, metadata line or heading placed after an optional break at `limit`. */
  lemma BrokenPutGood(c: Cursor, limit: int, kind: Kind, lines: seq<string>, advance: int)
    requires Good(c) && advance >= 0 && limit >= TopY
    requires kind != SectionBody && kind != FeatureBody
    requires kind == ListHeading ==> limit <= ListLimit
    requires kind == FeatureTitle ==> limit <= FeatureLimit
    ensures Good(Put(BreakIf(c, limit), kind, lines, advance))
  {
    if c.y > limit {
      BreakKeeps(c.ops, Draw(kind, lines, Margin, TopY));
    } else {
      DrawKeeps(c.ops, Draw(kind, lines, Margin, c.y));
    }
  }

  lemma PutBodyGood(c: Cursor, kind: Kind, lines: seq<string>, gap: int)
    requires Good(c) && gap >= 0 && (kind == SectionBody || kind == FeatureBody)
    ensures Good(PutBody(c, kind, lines, gap))
  {
    if c.y + |lines| * LineHeight > BottomY {
      BreakKeeps(c.ops, Draw(kind, lines, Margin, TopY));
    } else {
      DrawKeeps(c.ops, Draw(kind, lines, Margin, c.y));
    }
  }

  lemma HeaderGood(st: PrdState)
    ensures Good(HeaderRun(st))
  {
    var c0 := Cursor(TopY, []);
    PutGood(c0, Title, [st.title], 15);
    var c1 := Put(c0, Title, [st.title], 15);
    PutGood(c1, Meta, ["Author: " + st.author], 8);
    var c2 := Put(c1, Meta, ["Author: " + st.author], 8);
    PutGood(c2, Meta, ["Date: " + st.date], 8);
    var c3 := Put(c2, Meta, ["Date: " + st.date], 8);
    PutGood(c3, Meta, ["Version: " + st.version], 15);
  }

  lemma {:induction false} SectionsGood(c: Cursor, st: PrdState, ts: seq<TemplateSection>, wrap: string -> seq<string>)
    requires Good(c)
    ensures Good(SectionsRun(c, st, ts, wrap))
    decreases |ts|
  {
    if ts != [] {
      var sec := ts[|ts| - 1];
      var prev := SectionsRun(c, st, ts[..|ts| - 1], wrap);
      SectionsGood(c, st, ts[..|ts| - 1], wrap);
      PutGood(prev, SectionHeading, [sec.title], 10);
      PutBodyGood(Put(prev, SectionHeading, [sec.title], 10), SectionBody, wrap(SectionContent(st, sec.id)), 15);
    }
  }

  lemma FeatureGood(c: Cursor, f: Feature, wrap: string -> seq<string>)
    requires Good(c)
    ensures Good(FeatureStep(c, f, wrap))
  {
    BrokenPutGood(c, FeatureLimit, FeatureTitle, [f.title], 8);
    var c1 := Put(BreakIf(c, FeatureLimit), FeatureTitle, [f.title], 8);
    PutGood(c1, FeatureMeta, ["Priority: " + PriorityLabel(f.priority)], 6);
    var c2 := Put(c1, FeatureMeta, ["Priority: " + PriorityLabel(f.priority)], 6);
    PutGood(c2, FeatureMeta, ["Status: " + StatusLabel(f.status)], 8);
    var c3 := Put(c2, FeatureMeta, ["Status: " + StatusLabel(f.status)], 8);
    PutBodyGood(c3, FeatureBody, wrap(DescriptionText(f)), 10);
  }

  lemma {:induction false} FeaturesGood(c: Cursor, fs: seq<Feature>, wrap: string -> seq<string>)
    requires Good(c)
    ensures Good(FeaturesRun(c, fs, wrap))
    decreases |fs|
  {
    if fs != [] {
      FeaturesGood(c, fs[..|fs| - 1], wrap);
      FeatureGood(FeaturesRun(c, fs[..|fs| - 1], wrap), fs[|fs| - 1], wrap);
    }
  }

  /**
   * The whole layout obeys the page rules: check-before-write for every wrapped body, the 230 and 250
   * limits for the Feature List heading and feature titles, and the reset to 20 after every page break.
   */
  lemma LayoutPageDiscipline(st: PrdState, ts: seq<TemplateSection>, wrap: string -> seq<string>)
    ensures PageDiscipline(Layout(st, ts, wrap).ops)
  {
    HeaderGood(st);
    var c := SectionsRun(HeaderRun(st), st, ts, wrap);
    SectionsGood(HeaderRun(st), st, ts, wrap);
    if |st.features| > 0 {
      BrokenPutGood(c, ListLimit, ListHeading, ["Feature List"], 10);
      FeaturesGood(Put(BreakIf(c, ListLimit), ListHeading, ["Feature List"], 10), st.features, wrap);
    }
  }

  // ---------------------------------------------------------------------------------------------
  // What is drawn

  /** The line lists of the blocks of one kind, in drawing order. */
  function Written(ops: seq<Op>, kind: Kind): seq<seq<string>> {
    if ops == [] then []
    else
      var o := ops[|ops| - 1];
      Written(ops[..|ops| - 1], kind) + (if o.Draw? && o.kind == kind then [o.lines] else [])
  }

  lemma WrittenSnoc(ops: seq<Op>, o: Op, kind: Kind)
    ensures Written(ops + [o], kind) == Written(ops, kind) + (if o.Draw? && o.kind == kind then [o.lines] else [])
  {
    assert (ops + [o])[..|ops|] == ops;
  }

  function SectionTitles(ts: seq<TemplateSection>): seq<seq<string>> {
    seq(|ts|, k requires 0 <= k < |ts| => [ts[k].title])
  }

  function SectionBodies(st: PrdState, ts: seq<TemplateSection>, wrap: string -> seq<string>): seq<seq<string>> {
    seq(|ts|, k requires 0 <= k < |ts| => wrap(SectionContent(st, ts[k].id)))
  }

  function FeatureTitles(fs: seq<Feature>): seq<seq<string>> {
    seq(|fs|, k requires 0 <= k < |fs| => [fs[k].title])
  }

  function FeatureBodies(fs: seq<Feature>, wrap: string -> seq<string>): seq<seq<string>> {
    seq(|fs|, k requires 0 <= k < |fs| => wrap(DescriptionText(fs[k])))
  }

  /** What the sections draw, kind by kind. */
  function SectionsWritten(st: PrdState, ts: seq<TemplateSection>, wrap: string -> seq<string>, kind: Kind): seq<seq<string>> {
    if kind == SectionHeading then SectionTitles(ts)
    else if kind == SectionBody then SectionBodies(st, ts, wrap)
    else []
  }

  /** What the features draw, kind by kind (the priority and status lines are left unconstrained). */
  function FeaturesWritten(fs: seq<Feature>, wrap: string -> seq<string>, kind: Kind): seq<seq<string>> {
    if kind == FeatureTitle then FeatureTitles(fs)
    else if kind == FeatureBody then FeatureBodies(fs, wrap)
    else []
  }

  /** What drawing one block contributes to the blocks of kind `kind`. */
  function Drawn(blockKind: Kind, lines: seq<string>, kind: Kind): seq<seq<string>> {
    if blockKind == kind then [lines] else []
  }

  lemma PutWritten(c: Cursor, blockKind: Kind, lines: seq<string>, advance: int, kind: Kind)
    ensures Written(Put(c, blockKind, lines, advance).ops, kind) == Written(c.ops, kind) + Drawn(blockKind, lines, kind)
  {
    WrittenSnoc(c.ops, Draw(blockKind, lines, Margin, c.y), kind);
  }

  lemma BreakIfWritten(c: Cursor, limit: int, kind: Kind)
    ensures Written(BreakIf(c, limit).ops, kind) == Written(c.ops, kind)
  {
    if c.y > limit {
      WrittenSnoc(c.ops, NewPage, kind);
    }
  }

  lemma PutBodyWritten(c: Cursor, blockKind: Kind, lines: seq<string>, gap: int, kind: Kind)
    ensures Written(PutBody(c, blockKind, lines, gap).ops, kind) == Written(c.ops, kind) + Drawn(blockKind, lines, kind)
  {
    var top := if c.y + |lines| * LineHeight > BottomY then Cursor(TopY, c.ops + [NewPage]) else c;
    if c.y + |lines| * LineHeight > BottomY {
      WrittenSnoc(c.ops, NewPage, kind);
    }
    PutWritten(top, blockKind, lines, |lines| * LineHeight + gap, kind);
  }

  lemma SectionStepWritten(c: Cursor, st: PrdState, sec: TemplateSection, wrap: string -> seq<string>, kind: Kind)
    ensures Written(SectionStep(c, st, sec, wrap).ops, kind)
      == Written(c.ops, kind) + (Drawn(SectionHeading, [sec.title], kind) + Drawn(SectionBody, wrap(SectionContent(st, sec.id)), kind))
  {
    var h := Put(c, SectionHeading, [sec.title], 10);
    var lines := wrap(SectionContent(st, sec.id));
    PutWritten(c, SectionHeading, [sec.title], 10, kind);
    PutBodyWritten(h, SectionBody, lines, 15, kind);
    AppendAssoc(Written(c.ops, kind), Drawn(SectionHeading, [sec.title], kind), Drawn(SectionBody, lines, kind));
  }

  lemma SectionsWrittenSnoc(st: PrdState, ts: seq<TemplateSection>, wrap: string -> seq<string>, kind: Kind)
    requires ts != []
    ensures SectionsWritten(st, ts, wrap, kind)
      == SectionsWritten(st, ts[..|ts| - 1], wrap, kind)
         + (Drawn(SectionHeading, [ts[|ts| - 1].title], kind)
            + Drawn(SectionBody, wrap(SectionContent(st, ts[|ts| - 1].id)), kind))
  {
    var init, sec := ts[..|ts| - 1], ts[|ts| - 1];
    if kind == SectionHeading {
      assert SectionTitles(ts) == SectionTitles(init) + [[sec.title]];
    } else if kind == SectionBody {
      assert SectionBodies(st, ts, wrap) == SectionBodies(st, init, wrap) + [wrap(SectionContent(st, sec.id))];
    }
  }

  lemma {:induction false} SectionsRunWritten(c: Cursor, st: PrdState, ts: seq<TemplateSection>, wrap: string -> seq<string>, kind: Kind)
    ensures Written(SectionsRun(c, st, ts, wrap).ops, kind) == Written(c.ops, kind) + SectionsWritten(st, ts, wrap, kind)
    decreases |ts|
  {
    if ts == [] {
      assert SectionsWritten(st, ts, wrap, kind) == [];
    } else {
      var init, sec := ts[..|ts| - 1], ts[|ts| - 1];
      var step := Drawn(SectionHeading, [sec.title], kind) + Drawn(SectionBody, wrap(SectionContent(st, sec.id)), kind);
      SectionsRunWritten(c, st, init, wrap, kind);
      SectionStepWritten(SectionsRun(c, st, init, wrap), st, sec, wrap, kind);
      AppendAssoc(Written(c.ops, kind), SectionsWritten(st, init, wrap, kind), step);
      SectionsWrittenSnoc(st, ts, wrap, kind);
    }
  }

  lemma FeatureStepWritten(c: Cursor, f: Feature, wrap: string -> seq<string>, kind: Kind)
    requires kind != FeatureMeta
    ensures Written(FeatureStep(c, f, wrap).ops, kind)
      == Written(c.ops, kind) + (Drawn(FeatureTitle, [f.title], kind) + Drawn(FeatureBody, wrap(DescriptionText(f)), kind))
  {
    var pr := ["Priority: " + PriorityLabel(f.priority)];
    var sr := ["Status: " + StatusLabel(f.status)];
    var b := BreakIf(c, FeatureLimit);
    BreakIfWritten(c, FeatureLimit, kind);
    var c1 := Put(b, FeatureTitle, [f.title], 8);
    PutWritten(b, FeatureTitle, [f.title], 8, kind);
    var c2 := Put(c1, FeatureMeta, pr, 6);
    PutWritten(c1, FeatureMeta, pr, 6, kind);
    var c3 := Put(c2, FeatureMeta, sr, 8);
    PutWritten(c2, FeatureMeta, sr, 8, kind);
    var lines := wrap(DescriptionText(f));
    PutBodyWritten(c3, FeatureBody, lines, 10, kind);
    assert Drawn(FeatureMeta, pr, kind) == [] && Drawn(FeatureMeta, sr, kind) == [];
    AppendAssoc(Written(c.ops, kind), Drawn(FeatureTitle, [f.title], kind), Drawn(FeatureBody, lines, kind));
  }

  lemma FeaturesWrittenSnoc(fs: seq<Feature>, wrap: string -> seq<string>, kind: Kind)
    requires fs != []
    ensures FeaturesWritten(fs, wrap, kind)
      == FeaturesWritten(fs[..|fs| - 1], wrap, kind)
         + (Drawn(FeatureTitle, [fs[|fs| - 1].title], kind) + Drawn(FeatureBody, wrap(DescriptionText(fs[|fs| - 1])), kind))
  {
    var init, f := fs[..|fs| - 1], fs[|fs| - 1];
    if kind == FeatureTitle {
      assert FeatureTitles(fs) == FeatureTitles(init) + [[f.title]];
    } else if kind == FeatureBody {
      assert FeatureBodies(fs, wrap) == FeatureBodies(init, wrap) + [wrap(DescriptionText(f))];
    }
  }

  lemma {:induction false} FeaturesRunWritten(c: Cursor, fs: seq<Feature>, wrap: string -> seq<string>, kind: Kind)
    requires kind != FeatureMeta
    ensures Written(FeaturesRun(c, fs, wrap).ops, kind) == Written(c.ops, kind) + FeaturesWritten(fs, wrap, kind)
    decreases |fs|
  {
    if fs == [] {
      assert FeaturesWritten(fs, wrap, kind) == [];
    } else {
      var init, f := fs[..|fs| - 1], fs[|fs| - 1];
      var step := Drawn(FeatureTitle, [f.title], kind) + Drawn(FeatureBody, wrap(DescriptionText(f)), kind);
      FeaturesRunWritten(c, init, wrap, kind);
      FeatureStepWritten(FeaturesRun(c, init, wrap), f, wrap, kind);
      AppendAssoc(Written(c.ops, kind), FeaturesWritten(init, wrap, kind), step);
      FeaturesWrittenSnoc(fs, wrap, kind);
    }
  }

  lemma HeaderWritten(st: PrdState, kind: Kind)
    requires kind != Title && kind != Meta
    ensures Written(HeaderRun(st).ops, kind) == []
  {
    var c0 := Cursor(TopY, []);
    PutWritten(c0, Title, [st.title], 15, kind);
    var c1 := Put(c0, Title, [st.title], 15);
    PutWritten(c1, Meta, ["Author: " + st.author], 8, kind);
    var c2 := Put(c1, Meta, ["Author: " + st.author], 8);
    PutWritten(c2, Meta, ["Date: " + st.date], 8, kind);
    var c3 := Put(c2, Meta, ["Date: " + st.date], 8);
    PutWritten(c3, Meta, ["Version: " + st.version], 15, kind);
  }

  lemma FeatureListWritten(c: Cursor, fs: seq<Feature>, wrap: string -> seq<string>, kind: Kind)
    requires kind != FeatureMeta
    ensures Written(FeatureListRun(c, fs, wrap).ops, kind)
      == Written(c.ops, kind) + ((if kind == ListHeading && fs != [] then [["Feature List"]] else [])
         + FeaturesWritten(fs, wrap, kind))
  {
    if fs == [] {
      assert FeaturesWritten(fs, wrap, kind) == [];
    } else {
      var b := BreakIf(c, ListLimit);
      BreakIfWritten(c, ListLimit, kind);
      PutWritten(b, ListHeading, ["Feature List"], 10, kind);
      FeaturesRunWritten(Put(b, ListHeading, ["Feature List"], 10), fs, wrap, kind);
      AppendAssoc(Written(c.ops, kind), Drawn(ListHeading, ["Feature List"], kind), FeaturesWritten(fs, wrap, kind));
    }
  }

  lemma LayoutWritten(st: PrdState, ts: seq<TemplateSection>, wrap: string -> seq<string>, kind: Kind)
    requires kind != Title && kind != Meta && kind != FeatureMeta
    ensures Written(Layout(st, ts, wrap).ops, kind)
      == SectionsWritten(st, ts, wrap, kind)
         + ((if kind == ListHeading && st.features != [] then [["Feature List"]] else [])
            + FeaturesWritten(st.features, wrap, kind))
  {
    var h := HeaderRun(st);
    var c := SectionsRun(h, st, ts, wrap);
    var rest := (if kind == ListHeading && st.features != [] then [["Feature List"]] else [])
      + FeaturesWritten(st.features, wrap, kind);
    HeaderWritten(st, kind);
    SectionsRunWritten(h, st, ts, wrap, kind);
    assert Written(c.ops, kind) == SectionsWritten(st, ts, wrap, kind);
    FeatureListWritten(c, st.features, wrap, kind);
    assert Written(FeatureListRun(c, st.features, wrap).ops, kind) == Written(c.ops, kind) + rest;
  }

  /** Every section is drawn once, in template order: its title as a heading, then its wrapped content or placeholder. */
  lemma LayoutSectionText(st: PrdState, ts: seq<TemplateSection>, wrap: string -> seq<string>)
    ensures Written(Layout(st, ts, wrap).ops, SectionHeading) == SectionTitles(ts)
    ensures Written(Layout(st, ts, wrap).ops, SectionBody) == SectionBodies(st, ts, wrap)
  {
    LayoutWritten(st, ts, wrap, SectionHeading);
    LayoutWritten(st, ts, wrap, SectionBody);
  }

  /**
   * The Feature List heading is drawn once when there are features and never otherwise; every feature
   * is drawn once, in list order: its title, then its wrapped description or placeholder.
   */
  lemma LayoutFeatureText(st: PrdState, ts: seq<TemplateSection>, wrap: string -> seq<string>)
    ensures Written(Layout(st, ts, wrap).ops, ListHeading) == (if st.features != [] then [["Feature List"]] else [])
    ensures Written(Layout(st, ts, wrap).ops, FeatureTitle) == FeatureTitles(st.features)
    ensures Written(Layout(st, ts, wrap).ops, FeatureBody) == FeatureBodies(st.features, wrap)
  {
    LayoutWritten(st, ts, wrap, ListHeading);
    LayoutWritten(st, ts, wrap, FeatureTitle);
    LayoutWritten(st, ts, wrap, FeatureBody);
  }

  // ---------------------------------------------------------------------------------------------
  // Cursor arithmetic and break decisions, position by position

  /** `d` continues `c`: every operation `c` issued is still there, in place. */
  predicate Extends(c: Cursor, d: Cursor) {
    |c.ops| <= |d.ops| && forall k :: 0 <= k < |c.ops| ==> d.ops[k] == c.ops[k]
  }

  /** The header: title at 20, Author at 35, Date at 43, Version at 51, and the cursor left at 66. */
  lemma HeaderPositions(st: PrdState)
    ensures HeaderRun(st).ops
      == [Draw(Title, [st.title], Margin, 20), Draw(Meta, ["Author: " + st.author], Margin, 35),
          Draw(Meta, ["Date: " + st.date], Margin, 43), Draw(Meta, ["Version: " + st.version], Margin, 51)]
    ensures HeaderRun(st).y == 66
  {
  }

  /**
   * One section: the heading at the cursor and 10 below it the body, unless its `n` lines would pass
   * 280, in which case a new page comes first and the body is drawn at 20; the cursor ends 7n + 15
   * below the body's top.
   */
  lemma SectionStepPositions(c: Cursor, st: PrdState, sec: TemplateSection, wrap: string -> seq<string>)
    ensures var d := SectionStep(c, st, sec, wrap);
      var lines := wrap(SectionContent(st, sec.id));
      var n := |lines|;
      var k := |c.ops|;
      Extends(c, d) && |d.ops| > k && d.ops[k] == Draw(SectionHeading, [sec.title], Margin, c.y)
      && if c.y + 10 + n * 7 > 280 then
           |d.ops| == k + 3 && d.ops[k + 1] == NewPage && d.ops[k + 2] == Draw(SectionBody, lines, Margin, 20)
           && d.y == 20 + n * 7 + 15
         else
           |d.ops| == k + 2 && d.ops[k + 1] == Draw(SectionBody, lines, Margin, c.y + 10)
           && d.y == c.y + 10 + n * 7 + 15
  {
  }

  /**
   * One feature: a new page first exactly when the cursor is below 250; then the title at the top `t`,
   * Priority at t + 8, Status at t + 14, and the description at t + 22 unless its `m` lines would
   * pass 280, in which case a new page comes first and it is drawn at 20; the cursor ends 7m + 10
   * below the description's top.
   */
  lemma FeatureStepPositions(c: Cursor, f: Feature, wrap: string -> seq<string>)
    ensures var d := FeatureStep(c, f, wrap);
      var lines := wrap(DescriptionText(f));
      var m := |lines|;
      var t := if c.y > 250 then 20 else c.y;
      var i := if c.y > 250 then |c.ops| + 1 else |c.ops|;
      Extends(c, d) && |d.ops| > i + 3
      && (d.ops[|c.ops|] == NewPage <==> c.y > 250)
      && d.ops[i] == Draw(FeatureTitle, [f.title], Margin, t)
      && d.ops[i + 1] == Draw(FeatureMeta, ["Priority: " + PriorityLabel(f.priority)], Margin, t + 8)
      && d.ops[i + 2] == Draw(FeatureMeta, ["Status: " + StatusLabel(f.status)], Margin, t + 14)
      && if t + 22 + m * 7 > 280 then
           |d.ops| == i + 5 && d.ops[i + 3] == NewPage && d.ops[i + 4] == Draw(FeatureBody, lines, Margin, 20)
           && d.y == 20 + m * 7 + 10
         else
           |d.ops| == i + 4 && d.ops[i + 3] == Draw(FeatureBody, lines, Margin, t + 22)
           && d.y == t + 22 + m * 7 + 10
  {
  }

  lemma {:induction false} SectionsRunExtends(c: Cursor, st: PrdState, ts: seq<TemplateSection>, wrap: string -> seq<string>)
    ensures Extends(c, SectionsRun(c, st, ts, wrap))
    ensures ts != [] ==>
      |SectionsRun(c, st, ts, wrap).ops| > |c.ops|
      && SectionsRun(c, st, ts, wrap).ops[|c.ops|] == Draw(SectionHeading, [ts[0].title], Margin, c.y)
    decreases |ts|
  {
    if ts != [] {
      var init := ts[..|ts| - 1];
      var prev := SectionsRun(c, st, init, wrap);
      SectionsRunExtends(c, st, init, wrap);
      SectionStepPositions(prev, st, ts[|ts| - 1], wrap);
      if init != [] {
        assert init[0] == ts[0];
      }
    }
  }

  lemma {:induction false} FeaturesRunExtends(c: Cursor, fs: seq<Feature>, wrap: string -> seq<string>)
    ensures Extends(c, FeaturesRun(c, fs, wrap))
    ensures fs != [] ==> |FeaturesRun(c, fs, wrap).ops| > |c.ops| + 1
    decreases |fs|
  {
    if fs != [] {
      FeaturesRunExtends(c, fs[..|fs| - 1], wrap);
      FeatureStepPositions(FeaturesRun(c, fs[..|fs| - 1], wrap), fs[|fs| - 1], wrap);
    }
  }

  /**
   * The Feature List block: nothing at all without features; otherwise a new page first exactly when
   * the cursor is below 230, then the heading at the top of what remains.
   */
  lemma FeatureListPositions(c: Cursor, fs: seq<Feature>, wrap: string -> seq<string>)
    ensures fs == [] ==> FeatureListRun(c, fs, wrap) == c
    ensures fs != [] ==>
      var d := FeatureListRun(c, fs, wrap);
      var k := |c.ops|;
      Extends(c, d) && |d.ops| > k + 1
      && (d.ops[k] == NewPage <==> c.y > 230)
      && (if c.y > 230 then d.ops[k + 1] == Draw(ListHeading, ["Feature List"], Margin, 20)
          else d.ops[k] == Draw(ListHeading, ["Feature List"], Margin, c.y))
  {
    if fs != [] {
      FeaturesRunExtends(Put(BreakIf(c, ListLimit), ListHeading, ["Feature List"], 10), fs, wrap);
    }
  }

  /** The first section heading is drawn at 66, on the first page, right after the four header lines. */
  lemma FirstSectionAt66(st: PrdState, ts: seq<TemplateSection>, wrap: string -> seq<string>)
    requires ts != []
    ensures |Layout(st, ts, wrap).ops| > 4
    ensures Layout(st, ts, wrap).ops[4] == Draw(SectionHeading, [ts[0].title], Margin, 66)
    ensures NewPage !in Layout(st, ts, wrap).ops[..4]
  {
    var h := HeaderRun(st);
    HeaderPositions(st);
    SectionsRunExtends(h, st, ts, wrap);
    var c := SectionsRun(h, st, ts, wrap);
    FeatureListPositions(c, st.features, wrap);
    var l := Layout(st, ts, wrap).ops;
    assert l[..4] == h.ops;
  }
}
