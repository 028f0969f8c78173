/** Interview and survey templates: the template list, the question editor and the Markdown export. */
module SurveyTemplates {
  import opened Optional
  import opened Text
  import opened Lists

  datatype QuestionType = TextAnswer | MultipleChoice | Checkbox | Rating | OpenEnded

  datatype Question = Question(id: string, text: string, kind: QuestionType, options: Option<seq<string>>,
                               required: bool)

  datatype TemplateKind = Interview | Survey

  datatype Template = Template(id: string, title: string, description: string, kind: TemplateKind,
                               target: string, questions: seq<Question>, createdAt: string)

  /** The type names as stored (`'multiple_choice'`, …). */
  function TypeName(k: QuestionType): string {
    match k
    case TextAnswer => "text"
    case MultipleChoice => "multiple_choice"
    case Checkbox => "checkbox"
    case Rating => "rating"
    case OpenEnded => "open_ended"
  }

  // ---------------------------------------------------------------------------------------------
  // The template list

  function OfKind(k: TemplateKind): Template -> bool {
    (t: Template) => t.kind == k
  }

  /** `filteredTemplates`: every template on the 'all' tab (`None`), otherwise those of the tab's kind. */
  function FilteredTemplates(ts: seq<Template>, tab: Option<TemplateKind>): (r: seq<Template>)
    ensures tab.None? ==> r == ts
    ensures tab.Some? ==> forall i :: 0 <= i < |r| ==> r[i].kind == tab.value && r[i] in ts
    ensures tab.Some? ==> forall i :: 0 <= i < |ts| && ts[i].kind == tab.value ==> ts[i] in r
  {
    if tab.None? then ts else Filter(ts, OfKind(tab.value))
  }

  lemma FilteredTemplatesKeepOrder(ts: seq<Template>, tab: Option<TemplateKind>)
    ensures IsSubseq(FilteredTemplates(ts, tab), ts)
  {
    if tab.None? {
      FilterAll(ts, (t: Template) => true);
      FilterIsSubseq(ts, (t: Template) => true);
    } else {
      FilterIsSubseq(ts, OfKind(tab.value));
    }
  }

  /** The gate of `addNewTemplate` and `updateTemplate`: a title, a description and at least one question. */
  function TemplateAccepted(t: Template): (ok: bool)
    ensures ok <==> !IsBlank(t.title) && !IsBlank(t.description) && |t.questions| > 0
  {
    BlankIffTrimEmpty(t.title);
    BlankIffTrimEmpty(t.description);
    Trim(t.title) != "" && Trim(t.description) != "" && |t.questions| != 0
  }

  /** `handleCreateNew`: the empty template of the chosen kind that the add dialog starts from; the gate refuses it. */
  function CreateNew(k: TemplateKind): (t: Template)
    ensures t.kind == k
    ensures !TemplateAccepted(t)
  {
    Template("", "", "", k, "", [], "")
  }

  function TemplateId(now: nat): string {
    StampId("template", now)
  }

  /**
   * `addNewTemplate`: no template being edited, or one the gate refuses, changes nothing; otherwise the
   * edited template is appended with an id from the clock reading and today's date.
   */
  function AddNewTemplate(ts: seq<Template>, editing: Option<Template>, now: nat, today: string): (r: seq<Template>)
    ensures editing.None? || !TemplateAccepted(editing.value) ==> r == ts
    ensures editing.Some? && TemplateAccepted(editing.value) ==>
      |r| == |ts| + 1 && r[..|ts|] == ts
      && r[|ts|] == editing.value.(id := TemplateId(now), createdAt := today)
  {
    match editing
    case None => ts
    case Some(e) =>
      if !TemplateAccepted(e) then ts else ts + [e.(id := TemplateId(now), createdAt := today)]
  }

  /** Every template with the id of `e` replaced by `e`. */
  function ReplaceTemplate(ts: seq<Template>, e: Template): (r: seq<Template>)
    ensures |r| == |ts|
    ensures forall i :: 0 <= i < |ts| ==> (ts[i].id == e.id ==> r[i] == e) && (ts[i].id != e.id ==> r[i] == ts[i])
  {
    seq(|ts|, i requires 0 <= i < |ts| => if ts[i].id == e.id then e else ts[i])
  }

  /** `updateTemplate`: once the gate passes, every template with the edited template's id is replaced by it. */
  function UpdateTemplate(ts: seq<Template>, editing: Option<Template>): (r: seq<Template>)
    ensures editing.None? || !TemplateAccepted(editing.value) ==> r == ts
    ensures |r| == |ts|
    ensures editing.Some? && TemplateAccepted(editing.value) ==> forall i :: 0 <= i < |ts| ==>
      (ts[i].id == editing.value.id ==> r[i] == editing.value) && (ts[i].id != editing.value.id ==> r[i] == ts[i])
  {
    if editing.None? || !TemplateAccepted(editing.value) then ts else ReplaceTemplate(ts, editing.value)
  }

  function OtherTemplate(id: string): Template -> bool {
    (t: Template) => t.id != id
  }

  /** `deleteTemplate`: drops the templates with the id and keeps the rest, in order. */
  function DeleteTemplate(ts: seq<Template>, id: string): (r: seq<Template>)
    ensures forall i :: 0 <= i < |r| ==> r[i].id != id && r[i] in ts
    ensures forall i :: 0 <= i < |ts| && ts[i].id != id ==> ts[i] in r
  {
    Filter(ts, OtherTemplate(id))
  }

  lemma DeleteTemplateKeepsOrder(ts: seq<Template>, id: string)
    ensures IsSubseq(DeleteTemplate(ts, id), ts)
  {
    FilterIsSubseq(ts, OtherTemplate(id));
  }

  /** Deleting a template just created, under an id not used before, gives the list back. */
  lemma AddThenDeleteTemplate(ts: seq<Template>, e: Template, now: nat, today: string)
    requires TemplateAccepted(e)
    requires forall i :: 0 <= i < |ts| ==> ts[i].id != TemplateId(now)
    ensures DeleteTemplate(AddNewTemplate(ts, Some(e), now, today), TemplateId(now)) == ts
  {
    var added := e.(id := TemplateId(now), createdAt := today);
    FilterAppend(ts, [added], OtherTemplate(TemplateId(now)));
    FilterAll(ts, OtherTemplate(TemplateId(now)));
    assert Filter([added], OtherTemplate(TemplateId(now))) == [];
  }

  // ---------------------------------------------------------------------------------------------
  // The question editor, on the template being edited

  function QuestionId(now: nat): string {
    StampId("q", now)
  }

  /** The question `addQuestion` appends: empty text, open ended, optional, no option list. */
  function BlankQuestion(now: nat): Question {
    Question(QuestionId(now), "", OpenEnded, None, false)
  }

  /** `addQuestion`: one blank question goes last; nothing else changes. */
  function AddQuestion(t: Template, now: nat): (r: Template)
    ensures r == t.(questions := r.questions)
    ensures |r.questions| == |t.questions| + 1 && r.questions[..|t.questions|] == t.questions
    ensures r.questions[|t.questions|] == BlankQuestion(now)
  {
    t.(questions := t.questions + [BlankQuestion(now)])
  }

  /** The field `updateQuestion` writes, with its new value. */
  datatype QuestionField =
    | IdField(id: string)
    | TextField(text: string)
    | TypeField(kind: QuestionType)
    | OptionsField(options: Option<seq<string>>)
    | RequiredField(required: bool)

  function SetField(q: Question, f: QuestionField): Question {
    match f
    case IdField(v) => q.(id := v)
    case TextField(v) => q.(text := v)
    case TypeField(v) => q.(kind := v)
    case OptionsField(v) => q.(options := v)
    case RequiredField(v) => q.(required := v)
  }

  /** `updateQuestion`: the questions with the id get the field; other questions, and ids unless the field is the id, stay. */
  function UpdateQuestion(t: Template, qid: string, f: QuestionField): (r: Template)
    ensures r == t.(questions := r.questions) && |r.questions| == |t.questions|
    ensures forall i :: 0 <= i < |t.questions| && t.questions[i].id != qid ==> r.questions[i] == t.questions[i]
    ensures !f.IdField? ==> forall i :: 0 <= i < |t.questions| ==> r.questions[i].id == t.questions[i].id
    ensures f.TextField? ==> forall i :: 0 <= i < |t.questions| && t.questions[i].id == qid ==>
      r.questions[i] == t.questions[i].(text := f.text)
    ensures f.TypeField? ==> forall i :: 0 <= i < |t.questions| && t.questions[i].id == qid ==>
      r.questions[i] == t.questions[i].(kind := f.kind)
    ensures f.RequiredField? ==> forall i :: 0 <= i < |t.questions| && t.questions[i].id == qid ==>
      r.questions[i] == t.questions[i].(required := f.required)
    ensures f.OptionsField? ==> forall i :: 0 <= i < |t.questions| && t.questions[i].id == qid ==>
      r.questions[i] == t.questions[i].(options := f.options)
    ensures f.IdField? ==> forall i :: 0 <= i < |t.questions| && t.questions[i].id == qid ==>
      r.questions[i] == t.questions[i].(id := f.id)
  {
    t.(questions := seq(|t.questions|, i requires 0 <= i < |t.questions| =>
      if t.questions[i].id == qid then SetField(t.questions[i], f) else t.questions[i]))
  }

  /** Writing back the text a question had gives the template back. */
  lemma UpdateTextRoundTrip(t: Template, k: nat, text: string)
    requires k < |t.questions|
    requires forall i :: 0 <= i < |t.questions| && i != k ==> t.questions[i].id != t.questions[k].id
    ensures UpdateQuestion(UpdateQuestion(t, t.questions[k].id, TextField(text)), t.questions[k].id,
                           TextField(t.questions[k].text)) == t
  {
    var qid := t.questions[k].id;
    var twice := UpdateQuestion(UpdateQuestion(t, qid, TextField(text)), qid, TextField(t.questions[k].text));
    assert twice.questions == t.questions;
  }

  /** `addQuestionOption`: the questions with the id get one more, empty, option; a missing list is created. */
  function AddQuestionOption(t: Template, qid: string): (r: Template)
    ensures r == t.(questions := r.questions) && |r.questions| == |t.questions|
    ensures forall i :: 0 <= i < |t.questions| && t.questions[i].id != qid ==> r.questions[i] == t.questions[i]
    ensures forall i :: 0 <= i < |t.questions| && t.questions[i].id == qid ==>
      r.questions[i] == t.questions[i].(options := Some(t.questions[i].options.GetOr([]) + [""]))
  {
    t.(questions := seq(|t.questions|, i requires 0 <= i < |t.questions| =>
      var q := t.questions[i];
      if q.id == qid then q.(options := Some(q.options.GetOr([]) + [""])) else q))
  }

  predicate HasOptionList(q: Question, qid: string) {
    q.id == qid && q.options.Some?
  }

  /**
   * `updateQuestionOption`: in each question with the id that has an option list, a copy of the list
   * gets `value` at `index`; every other question is kept.
   */
  method UpdateQuestionOption(t: Template, qid: string, index: nat, value: string) returns (r: Template)
    requires forall i :: 0 <= i < |t.questions| && HasOptionList(t.questions[i], qid) ==>
      index < |t.questions[i].options.value|
    ensures r == t.(questions := r.questions) && |r.questions| == |t.questions|
    ensures forall i :: 0 <= i < |t.questions| && !HasOptionList(t.questions[i], qid) ==> r.questions[i] == t.questions[i]
    ensures forall i :: 0 <= i < |t.questions| && HasOptionList(t.questions[i], qid) ==>
      r.questions[i] == t.questions[i].(options := Some(t.questions[i].options.value[index := value]))
  {
    var qs: seq<Question> := [];
    for k := 0 to |t.questions|
      invariant |qs| == k
      invariant forall i :: 0 <= i < k && !HasOptionList(t.questions[i], qid) ==> qs[i] == t.questions[i]
      invariant forall i :: 0 <= i < k && HasOptionList(t.questions[i], qid) ==>
        qs[i] == t.questions[i].(options := Some(t.questions[i].options.value[index := value]))
    {
      var q := t.questions[k];
      if HasOptionList(q, qid) {
        var opts := AssignAt(q.options.value, index, value);
        assert opts == q.options.value[index := value];
        qs := qs + [q.(options := Some(opts))];
      } else {
        qs := qs + [q];
      }
    }
    r := t.(questions := qs);
  }

  /**
   * `removeQuestionOption`: in each question with the id that has an option list, a copy of the list
   * loses the entry at `index` (nothing, past the end); every other question is kept.
   */
  method RemoveQuestionOption(t: Template, qid: string, index: nat) returns (r: Template)
    ensures r == t.(questions := r.questions) && |r.questions| == |t.questions|
    ensures forall i :: 0 <= i < |t.questions| && !HasOptionList(t.questions[i], qid) ==> r.questions[i] == t.questions[i]
    ensures forall i :: 0 <= i < |t.questions| && HasOptionList(t.questions[i], qid) ==>
      r.questions[i] == t.questions[i].(options := Some(RemoveAt(t.questions[i].options.value, index)))
  {
    var qs: seq<Question> := [];
    for k := 0 to |t.questions|
      invariant |qs| == k
      invariant forall i :: 0 <= i < k && !HasOptionList(t.questions[i], qid) ==> qs[i] == t.questions[i]
      invariant forall i :: 0 <= i < k && HasOptionList(t.questions[i], qid) ==>
        qs[i] == t.questions[i].(options := Some(RemoveAt(t.questions[i].options.value, index)))
    {
      var q := t.questions[k];
      if HasOptionList(q, qid) {
        var opts := SpliceRemove(q.options.value, index);
        qs := qs + [q.(options := Some(opts))];
      } else {
        qs := qs + [q];
      }
    }
    r := t.(questions := qs);
  }

  /**
   * `addQuestionOption` followed by `removeQuestionOption` at the index of the option just added gives
   * the template back, when the id names one question and that question already has an option list
   * (a missing list comes back as an empty one).
   */
  method AddThenRemoveOption(t: Template, k: nat) returns (r: Template)
    requires k < |t.questions| && t.questions[k].options.Some?
    requires forall i :: 0 <= i < |t.questions| && i != k ==> t.questions[i].id != t.questions[k].id
    ensures r == t
  {
    var qid := t.questions[k].id;
    var opts := t.questions[k].options.value;
    var added := AddQuestionOption(t, qid);
    assert added.questions[k].options.value == opts + [""];
    r := RemoveQuestionOption(added, qid, |opts|);
    assert RemoveAt(opts + [""], |opts|) == opts;
    assert r.questions[k] == t.questions[k];
    assert r.questions == t.questions;
  }

  function OtherQuestion(qid: string): Question -> bool {
    (q: Question) => q.id != qid
  }

  /** `deleteQuestion`: drops the questions with the id and keeps the rest, in order. */
  function DeleteQuestion(t: Template, qid: string): (r: Template)
    ensures r == t.(questions := r.questions)
    ensures forall i :: 0 <= i < |r.questions| ==> r.questions[i].id != qid && r.questions[i] in t.questions
    ensures forall i :: 0 <= i < |t.questions| && t.questions[i].id != qid ==> t.questions[i] in r.questions
  {
    t.(questions := Filter(t.questions, OtherQuestion(qid)))
  }

  lemma DeleteQuestionKeepsOrder(t: Template, qid: string)
    ensures IsSubseq(DeleteQuestion(t, qid).questions, t.questions)
  {
    FilterIsSubseq(t.questions, OtherQuestion(qid));
  }

  /** Deleting the question just added, under an id not used before, gives the template back. */
  lemma AddThenDeleteQuestion(t: Template, now: nat)
    requires forall i :: 0 <= i < |t.questions| ==> t.questions[i].id != QuestionId(now)
    ensures DeleteQuestion(AddQuestion(t, now), QuestionId(now)) == t
  {
    FilterAppend(t.questions, [BlankQuestion(now)], OtherQuestion(QuestionId(now)));
    FilterAll(t.questions, OtherQuestion(QuestionId(now)));
    assert Filter([BlankQuestion(now)], OtherQuestion(QuestionId(now))) == [];
  }

  datatype Direction = Up | Down

  function HasQuestionId(qid: string): Question -> bool {
    (q: Question) => q.id == qid
  }

  /** Moving stops at the edges: up from the first place, down from the last. */
  predicate AtEdge(qs: seq<Question>, k: nat, dir: Direction) {
    (dir == Up && k == 0) || (dir == Down && k == |qs| - 1)
  }

  /** Where the question at `k` goes: one place up or down. */
  function Target(k: nat, dir: Direction): int {
    if dir == Up then k - 1 else k + 1
  }

  /** The elements at `k` and `n` trade places. */
  function Swap<T>(s: seq<T>, k: nat, n: nat): (r: seq<T>)
    requires k < |s| && n < |s|
    ensures |r| == |s| && r[n] == s[k] && r[k] == s[n]
    ensures forall i :: 0 <= i < |s| && i != k && i != n ==> r[i] == s[i]
  {
    s[k := s[n]][n := s[k]]
  }

  lemma SwapBack<T>(s: seq<T>, k: nat, n: nat)
    requires k < |s| && n < |s|
    ensures Swap(Swap(s, k, n), n, k) == s
  {
    assert forall i :: 0 <= i < |s| ==> Swap(Swap(s, k, n), n, k)[i] == s[i];
  }

  /** Taking out the element at `k` and putting it back at a neighbouring place swaps the two. */
  lemma RemoveInsertSwaps<T>(s: seq<T>, k: nat, n: nat)
    requires k < |s| && n < |s| && (n + 1 == k || n == k + 1)
    ensures InsertAt(RemoveAt(s, k), n, s[k]) == Swap(s, k, n)
  {
    var r := InsertAt(RemoveAt(s, k), n, s[k]);
    var w := Swap(s, k, n);
    forall i | 0 <= i < |s|
      ensures r[i] == w[i]
    {
    }
  }

  /**
   * The question order after `moveQuestion`, written the way the code does it: take the first question
   * with the id out and put it back one place up or down. The result is that question swapped with its
   * neighbour, or the list unchanged at an edge.
   */
  function MovedQuestions(qs: seq<Question>, qid: string, dir: Direction): (r: seq<Question>)
    requires exists i :: 0 <= i < |qs| && qs[i].id == qid
    ensures |r| == |qs| && multiset(r) == multiset(qs)
    ensures AtEdge(qs, FindIndex(qs, HasQuestionId(qid)), dir) ==> r == qs
    ensures !AtEdge(qs, FindIndex(qs, HasQuestionId(qid)), dir) ==>
      var k := FindIndex(qs, HasQuestionId(qid));
      0 <= Target(k, dir) < |qs| && r == Swap(qs, k, Target(k, dir))
  {
    var k := FindIndex(qs, HasQuestionId(qid));
    if AtEdge(qs, k, dir) then qs
    else
      var n := Target(k, dir);
      RemoveInsertSwaps(qs, k, n);
      var r := InsertAt(RemoveAt(qs, k), n, qs[k]);
      assert multiset(RemoveAt(qs, k)) + multiset{qs[k]} == multiset(qs);
      r
  }

  /** `moveQuestion`, on a copy of the question list, with the two `splice` calls of the code. */
  method MoveQuestion(t: Template, qid: string, dir: Direction) returns (r: Template)
    requires exists i :: 0 <= i < |t.questions| && t.questions[i].id == qid
    ensures r == t.(questions := MovedQuestions(t.questions, qid, dir))
  {
    var qs := t.questions;
    var k := FindIndex(qs, HasQuestionId(qid));
    if (dir == Up && k == 0) || (dir == Down && k == |qs| - 1) {
      return t;
    }
    var n := Target(k, dir);
    var question := qs[k];
    var removed := SpliceRemove(qs, k);
    var moved := SpliceInsert(removed, n, question);
    r := t.(questions := moved);
  }

  /** After a move up, the first question with the id sits one place higher. */
  lemma MovedUpIndex(qs: seq<Question>, qid: string)
    requires exists i :: 0 <= i < |qs| && qs[i].id == qid
    requires FindIndex(qs, HasQuestionId(qid)) > 0
    ensures FindIndex(MovedQuestions(qs, qid, Up), HasQuestionId(qid)) == FindIndex(qs, HasQuestionId(qid)) - 1
  {
    var k := FindIndex(qs, HasQuestionId(qid));
    assert MovedQuestions(qs, qid, Up) == Swap(qs, k, k - 1);
    SwapUpFindIndex(qs, HasQuestionId(qid), k);
  }

  /** Swapping the first match with its upper neighbour makes that neighbour's place the first match. */
  lemma SwapUpFindIndex<T>(s: seq<T>, p: T -> bool, k: nat)
    requires 0 < k < |s| && FindIndex(s, p) == k
    ensures FindIndex(Swap(s, k, k - 1), p) == k - 1
  {
    FindFirst(Swap(s, k, k - 1), p, k - 1);
  }

  /** Moving a question up and then down again restores the order. */
  lemma MoveUpThenDown(qs: seq<Question>, qid: string)
    requires exists i :: 0 <= i < |qs| && qs[i].id == qid
    requires FindIndex(qs, HasQuestionId(qid)) > 0
    ensures exists i :: 0 <= i < |MovedQuestions(qs, qid, Up)| && MovedQuestions(qs, qid, Up)[i].id == qid
    ensures MovedQuestions(MovedQuestions(qs, qid, Up), qid, Down) == qs
  {
    var k := FindIndex(qs, HasQuestionId(qid));
    var up := MovedQuestions(qs, qid, Up);
    assert up == Swap(qs, k, k - 1);
    assert up[k - 1].id == qid;
    MovedUpIndex(qs, qid);
    assert !AtEdge(up, k - 1, Down);
    assert MovedQuestions(up, qid, Down) == Swap(up, k - 1, k);
    SwapBack(qs, k, k - 1);
  }

  /** `findIndex` lands on the first index that matches. */
  lemma FindFirst<T>(s: seq<T>, p: T -> bool, k: nat)
    requires k < |s| && p(s[k])
    requires forall i :: 0 <= i < k ==> !p(s[i])
    ensures FindIndex(s, p) == k
  {
  }

  // ---------------------------------------------------------------------------------------------
  // Markdown export (`downloadTemplate`, `copyTemplateToClipboard`)

  function KindLabel(k: TemplateKind): string {
    if k == Interview then "Interview Script" else "Survey Template"
  }

  /** `question.type.replace('_', ' ')`. */
  function TypeLabel(k: QuestionType): string {
    ReplaceFirst(TypeName(k), '_', ' ')
  }

  /** Title, type, audience, creation date, description and the questions heading. */
  function TemplateHeader(t: Template): string {
    "# " + t.title + "\n\n"
    + "**Type:** " + KindLabel(t.kind) + "\n"
    + "**Target Audience:** " + t.target + "\n"
    + "**Created:** " + t.createdAt + "\n\n"
    + "## Description\n\n" + t.description + "\n\n"
    + "## Questions\n\n"
  }

  function RequiredMark(q: Question): string {
    if q.required then " *" else ""
  }

  /** The heading of the question at 0-based position `i`: numbered from 1. */
  function QuestionHeading(q: Question, i: nat): string {
    "### " + NatToString(i + 1) + ". " + q.text + RequiredMark(q) + "\n\n"
  }

  function QuestionTypeLine(q: Question): string {
    "Type: " + TypeLabel(q.kind) + "\n\n"
  }

  function OptionLine(option: string): string {
    "- " + option + "\n"
  }

  function OptionLines(opts: seq<string>): seq<string> {
    seq(|opts|, i requires 0 <= i < |opts| => OptionLine(opts[i]))
  }

  predicate ShowsOptions(q: Question) {
    q.options.Some? && |q.options.value| > 0
  }

  /** The options block, present only for a non-empty option list. */
  function OptionsMd(q: Question): string {
    if ShowsOptions(q) then "Options:\n" + Concat(OptionLines(q.options.value)) + "\n" else ""
  }

  function QuestionBlock(q: Question, i: nat): string {
    QuestionHeading(q, i) + QuestionTypeLine(q) + OptionsMd(q)
  }

  function QuestionBlocks(qs: seq<Question>): seq<string> {
    seq(|qs|, i requires 0 <= i < |qs| => QuestionBlock(qs[i], i))
  }

  /** The exported text: the header, then one block per question, in order. */
  function TemplateMd(t: Template): string {
    TemplateHeader(t) + Concat(QuestionBlocks(t.questions))
  }

  /** The options loop: `Options:`, one line per option, then a blank line. */
  method AppendOptions(content0: string, q: Question) returns (content: string)
    requires ShowsOptions(q)
    ensures content == content0 + OptionsMd(q)
  {
    var opts := q.options.value;
    content := content0 + "Options:\n";
    ghost var before := content;
    ghost var lines := OptionLines(opts);
    for k := 0 to |opts|
      invariant content == before + Concat(lines[..k])
    {
      content := content + OptionLine(opts[k]);
      ConcatSnoc(lines, k);
      AppendAssoc(before, Concat(lines[..k]), lines[k]);
    }
    assert lines[..|opts|] == lines;
    content := content + "\n";
    AppendAssoc(content0, "Options:\n", Concat(lines));
    AppendAssoc(content0, "Options:\n" + Concat(lines), "\n");
  }

  /** The text both export actions build, question by question. */
  method TemplateContent(t: Template) returns (content: string)
    ensures content == TemplateMd(t)
  {
    content := "# " + t.title + "\n\n";
    content := content + "**Type:** " + KindLabel(t.kind) + "\n";
    content := content + "**Target Audience:** " + t.target + "\n";
    content := content + "**Created:** " + t.createdAt + "\n\n";
    content := content + "## Description\n\n" + t.description + "\n\n";
    content := content + "## Questions\n\n";
    ghost var before := content;
    ghost var blocks := QuestionBlocks(t.questions);
    for j := 0 to |t.questions|
      invariant content == before + Concat(blocks[..j])
    {
      var q := t.questions[j];
      ghost var done := content;
      content := content + QuestionHeading(q, j);
      content := content + QuestionTypeLine(q);
      AppendAssoc(done, QuestionHeading(q, j), QuestionTypeLine(q));
      if ShowsOptions(q) {
        content := AppendOptions(content, q);
        AppendAssoc(done, QuestionHeading(q, j) + QuestionTypeLine(q), OptionsMd(q));
      } else {
        assert QuestionBlock(q, j) == QuestionHeading(q, j) + QuestionTypeLine(q);
      }
      assert blocks[j] == QuestionBlock(q, j);
      ConcatSnoc(blocks, j);
      AppendAssoc(before, Concat(blocks[..j]), blocks[j]);
    }
    assert blocks[..|t.questions|] == blocks;
  }

  /** `downloadTemplate`: the Markdown text and the file name `title.toLowerCase().replace(/\s+/g, '-') + '.md'`. */
  method DownloadTemplate(t: Template) returns (content: string, filename: string)
    ensures content == TemplateMd(t)
    ensures filename == Slug(t.title) + ".md"
  {
    content := TemplateContent(t);
    filename := HyphenateSpaces(ToLower(t.title)) + ".md";
    LowerThenHyphenate(t.title);
  }

  /** `copyTemplateToClipboard`: the same text as the download. */
  method CopyTemplateToClipboard(t: Template) returns (content: string)
    ensures content == TemplateMd(t)
  {
    content := TemplateContent(t);
  }

  /**
   * The block of question `i` follows the blocks of the questions before it; its heading carries the
   * number `i + 1`, and ends in ` *` exactly when the question is required.
   */
  lemma QuestionInOrder(t: Template, i: nat)
    requires i < |t.questions|
    ensures TemplateMd(t)
      == TemplateHeader(t) + (Concat(QuestionBlocks(t.questions)[..i]) + QuestionBlock(t.questions[i], i)
                              + Concat(QuestionBlocks(t.questions)[i + 1..]))
    ensures DecimalValue(NatToString(i + 1)) == i + 1
    ensures t.questions[i].required <==> RequiredMark(t.questions[i]) == " *"
    ensures !t.questions[i].required <==> RequiredMark(t.questions[i]) == ""
  {
    var blocks := QuestionBlocks(t.questions);
    ConcatAt(blocks, i);
    DecimalRoundTrip(i + 1);
  }

  /** An option list that is absent or empty prints nothing; otherwise option `k` has its line in order. */
  lemma OptionInOrder(q: Question, k: nat)
    requires ShowsOptions(q) && k < |q.options.value|
    ensures OptionsMd(q)
      == "Options:\n" + (Concat(OptionLines(q.options.value)[..k]) + ("- " + q.options.value[k] + "\n")
                         + Concat(OptionLines(q.options.value)[k + 1..])) + "\n"
  {
    ConcatAt(OptionLines(q.options.value), k);
  }

  lemma NoOptionsNoBlock(q: Question)
    ensures OptionsMd(q) == "" <==> !ShowsOptions(q)
  {
    if ShowsOptions(q) {
      assert |OptionsMd(q)| > 0;
    }
  }
}
