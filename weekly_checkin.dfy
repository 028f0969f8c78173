/** Weekly check-ins: the template list and editor, the pending check-in, and the copied texts. */
module WeeklyCheckin {
  import opened Optional
  import opened Text
  import opened Lists

  datatype Frequency = Daily | Weekly | Biweekly | Monthly

  datatype CheckInTemplate = CheckInTemplate(id: string, title: string, frequency: Frequency, questions: seq<string>)

  /** One question of a check-in with its answer; `questionId` is the question's index in its template. */
  datatype Answer = Answer(questionId: int, question: string, answer: string)

  datatype CheckInRecord = CheckInRecord(id: string, templateId: string, date: string, answers: seq<Answer>)

  /** The check-in being filled in: the template it was started from, if any, and its answers. */
  datatype Pending = Pending(templateId: Option<string>, answers: seq<Answer>)

  /** `getTemplateFrequencyText`: four distinct labels. */
  function FrequencyText(f: Frequency): (s: string)
    ensures s != ""
  {
    match f
    case Daily => "Daily"
    case Weekly => "Weekly"
    case Biweekly => "Every two weeks"
    case Monthly => "Monthly"
  }

  lemma FrequencyTextInjective(f: Frequency, g: Frequency)
    ensures FrequencyText(f) == FrequencyText(g) ==> f == g
  {
    if f != g {
      assert FrequencyText(f)[0] != FrequencyText(g)[0] || |FrequencyText(f)| != |FrequencyText(g)|;
    }
  }

  // ---------------------------------------------------------------------------------------------
  // Templates

  /** The gate of `handleAddTemplate` and `handleUpdateTemplate`: a title, and at least one question, none blank. */
  function TemplateAccepted(t: CheckInTemplate): (ok: bool)
    ensures ok <==> !IsBlank(t.title) && |t.questions| > 0 && forall i :: 0 <= i < |t.questions| ==> !IsBlank(t.questions[i])
  {
    BlankIffTrimEmpty(t.title);
    forall i | 0 <= i < |t.questions| ensures Trim(t.questions[i]) == "" <==> IsBlank(t.questions[i]) {
      BlankIffTrimEmpty(t.questions[i]);
    }
    Trim(t.title) != "" && !(|t.questions| == 0 || exists i :: 0 <= i < |t.questions| && Trim(t.questions[i]) == "")
  }

  function TemplateId(now: nat): string {
    StampId("template", now)
  }

  /** `handleAddTemplate`: an accepted template is appended with an id from the clock reading; otherwise nothing changes. */
  function AddTemplate(ts: seq<CheckInTemplate>, editing: Option<CheckInTemplate>, now: nat): (r: seq<CheckInTemplate>)
    ensures editing.None? || !TemplateAccepted(editing.value) ==> r == ts
    ensures editing.Some? && TemplateAccepted(editing.value) ==>
      |r| == |ts| + 1 && r[..|ts|] == ts && r[|ts|] == editing.value.(id := TemplateId(now))
  {
    if editing.None? || !TemplateAccepted(editing.value) then ts else ts + [editing.value.(id := TemplateId(now))]
  }

  function ReplaceTemplate(ts: seq<CheckInTemplate>, e: CheckInTemplate): (r: seq<CheckInTemplate>)
    ensures |r| == |ts|
    ensures forall i :: 0 <= i < |ts| ==> (ts[i].id == e.id ==> r[i] == e) && (ts[i].id != e.id ==> r[i] == ts[i])
  {
    seq(|ts|, i requires 0 <= i < |ts| => if ts[i].id == e.id then e else ts[i])
  }

  /** `handleUpdateTemplate`: an accepted template replaces every template with its id; otherwise nothing changes. */
  function UpdateTemplate(ts: seq<CheckInTemplate>, editing: Option<CheckInTemplate>): (r: seq<CheckInTemplate>)
    ensures editing.None? || !TemplateAccepted(editing.value) ==> r == ts
    ensures |r| == |ts|
    ensures editing.Some? && TemplateAccepted(editing.value) ==> forall i :: 0 <= i < |ts| ==>
      (ts[i].id == editing.value.id ==> r[i] == editing.value) && (ts[i].id != editing.value.id ==> r[i] == ts[i])
  {
    if editing.None? || !TemplateAccepted(editing.value) then ts else ReplaceTemplate(ts, editing.value)
  }

  function OtherTemplate(id: string): CheckInTemplate -> bool {
    (t: CheckInTemplate) => t.id != id
  }

  /** `handleDeleteTemplate`: drops the templates with the id and keeps the rest, in order. */
  function DeleteTemplate(ts: seq<CheckInTemplate>, id: string): (r: seq<CheckInTemplate>)
    ensures forall i :: 0 <= i < |r| ==> r[i].id != id && r[i] in ts
    ensures forall i :: 0 <= i < |ts| && ts[i].id != id ==> ts[i] in r
  {
    Filter(ts, OtherTemplate(id))
  }

  lemma DeleteTemplateKeepsOrder(ts: seq<CheckInTemplate>, id: string)
    ensures IsSubseq(DeleteTemplate(ts, id), ts)
  {
    FilterIsSubseq(ts, OtherTemplate(id));
  }

  /** Deleting a template just added, under an id not used before, gives the list back. */
  lemma AddThenDeleteTemplate(ts: seq<CheckInTemplate>, e: CheckInTemplate, now: nat)
    requires TemplateAccepted(e)
    requires forall i :: 0 <= i < |ts| ==> ts[i].id != TemplateId(now)
    ensures DeleteTemplate(AddTemplate(ts, Some(e), now), TemplateId(now)) == ts
  {
    var added := e.(id := TemplateId(now));
    FilterAppend(ts, [added], OtherTemplate(TemplateId(now)));
    FilterAll(ts, OtherTemplate(TemplateId(now)));
    assert Filter([added], OtherTemplate(TemplateId(now))) == [];
  }

  // ---------------------------------------------------------------------------------------------
  // The question editor, on the template being edited

  /** `addQuestion`: one empty question goes last. */
  function AddQuestion(t: CheckInTemplate): (r: CheckInTemplate)
    ensures r == t.(questions := r.questions)
    ensures r.questions == t.questions + [""]
    ensures !TemplateAccepted(r)
  {
    var r := t.(questions := t.questions + [""]);
    assert r.questions[|t.questions|] == "";
    r
  }

  /** `updateQuestion`: a copy of the question list gets `value` at `index`. */
  method UpdateQuestion(t: CheckInTemplate, index: nat, value: string) returns (r: CheckInTemplate)
    requires index < |t.questions|
    ensures r == t.(questions := t.questions[index := value])
  {
    var qs := AssignAt(t.questions, index, value);
    assert qs == t.questions[index := value];
    r := t.(questions := qs);
  }

  /** `deleteQuestion`: a copy of the question list loses the entry at `index` (nothing, past the end). */
  method DeleteQuestion(t: CheckInTemplate, index: nat) returns (r: CheckInTemplate)
    ensures r == t.(questions := RemoveAt(t.questions, index))
  {
    var qs := SpliceRemove(t.questions, index);
    r := t.(questions := qs);
  }

  /** Deleting the question just added gives the template back. */
  lemma AddThenDeleteQuestion(t: CheckInTemplate)
    ensures AddQuestion(t).(questions := RemoveAt(AddQuestion(t).questions, |t.questions|)) == t
  {
    assert (t.questions + [""])[..|t.questions|] == t.questions;
  }

  // ---------------------------------------------------------------------------------------------
  // The pending check-in

  function HasTemplateId(id: string): CheckInTemplate -> bool {
    (t: CheckInTemplate) => t.id == id
  }

  /** One unanswered entry per question, numbered by position. */
  function BlankAnswers(questions: seq<string>): (r: seq<Answer>)
    ensures |r| == |questions|
    ensures forall i :: 0 <= i < |r| ==> r[i] == Answer(i, questions[i], "")
  {
    seq(|questions|, i requires 0 <= i < |questions| => Answer(i, questions[i], ""))
  }

  /**
   * `handleStartNewCheckIn`: an unknown template id changes nothing; otherwise the first template with
   * the id gives the pending check-in one blank answer per question.
   */
  function StartNewCheckIn(ts: seq<CheckInTemplate>, p: Pending, templateId: string): (r: Pending)
    ensures (forall i :: 0 <= i < |ts| ==> ts[i].id != templateId) ==> r == p
    ensures (exists i :: 0 <= i < |ts| && ts[i].id == templateId) ==>
      var k := FindIndex(ts, HasTemplateId(templateId));
      k < |ts| && ts[k].id == templateId && (forall i :: 0 <= i < k ==> ts[i].id != templateId)
      && r.templateId == Some(templateId) && |r.answers| == |ts[k].questions|
      && forall i :: 0 <= i < |r.answers| ==> r.answers[i] == Answer(i, ts[k].questions[i], "")
  {
    var k := FindIndex(ts, HasTemplateId(templateId));
    if k == |ts| then p else Pending(Some(templateId), BlankAnswers(ts[k].questions))
  }

  predicate AllAnswered(answers: seq<Answer>) {
    forall i :: 0 <= i < |answers| ==> !IsBlank(answers[i].answer)
  }

  function CheckInId(now: nat): string {
    StampId("checkin", now)
  }

  /**
   * `handleSubmitCheckIn`: without a template id (none, or the empty one) or with a blank answer nothing
   * changes; otherwise a record with the answers goes first and the pending check-in is cleared.
   */
  function SubmitCheckIn(records: seq<CheckInRecord>, p: Pending, now: nat, today: string): (r: (seq<CheckInRecord>, Pending))
    ensures p.templateId.None? || p.templateId == Some("") || !AllAnswered(p.answers) ==> r == (records, p)
    ensures p.templateId.Some? && p.templateId.value != "" && AllAnswered(p.answers) ==>
      r.1 == Pending(None, []) && |r.0| == |records| + 1 && r.0[1..] == records
      && r.0[0] == CheckInRecord(CheckInId(now), p.templateId.value, today, p.answers)
  {
    forall i | 0 <= i < |p.answers| ensures Trim(p.answers[i].answer) == "" <==> IsBlank(p.answers[i].answer) {
      BlankIffTrimEmpty(p.answers[i].answer);
    }
    if p.templateId.None? || p.templateId.value == "" then (records, p)
    else if exists i :: 0 <= i < |p.answers| && Trim(p.answers[i].answer) == "" then (records, p)
    else ([CheckInRecord(CheckInId(now), p.templateId.value, today, p.answers)] + records, Pending(None, []))
  }

  /** A check-in just started from a template with questions cannot be submitted before it is answered. */
  lemma FreshCheckInNotSubmittable(ts: seq<CheckInTemplate>, p: Pending, templateId: string,
                                   records: seq<CheckInRecord>, now: nat, today: string)
    requires exists i :: 0 <= i < |ts| && ts[i].id == templateId && |ts[i].questions| > 0
    requires forall i, j :: 0 <= i < j < |ts| ==> ts[i].id != ts[j].id
    ensures SubmitCheckIn(records, StartNewCheckIn(ts, p, templateId), now, today).0 == records
  {
    var j :| 0 <= j < |ts| && ts[j].id == templateId && |ts[j].questions| > 0;
    var k := FindIndex(ts, HasTemplateId(templateId));
    assert k == j;
    var started := StartNewCheckIn(ts, p, templateId);
    assert started.answers[0].answer == "";
    assert !AllAnswered(started.answers);
  }

  /** `handleUpdateAnswer`: the entries with the question id take the answer; nothing else changes. */
  function UpdateAnswer(answers: seq<Answer>, questionId: int, answer: string): (r: seq<Answer>)
    ensures |r| == |answers|
    ensures forall i :: 0 <= i < |answers| ==>
      r[i].questionId == answers[i].questionId && r[i].question == answers[i].question
      && r[i].answer == (if answers[i].questionId == questionId then answer else answers[i].answer)
  {
    seq(|answers|, i requires 0 <= i < |answers| =>
      if answers[i].questionId == questionId then answers[i].(answer := answer) else answers[i])
  }

  /** Answering every question of a freshly started check-in with a non-blank text makes it submittable. */
  lemma AnsweringAllMakesSubmittable(questions: seq<string>, texts: seq<string>)
    requires |texts| == |questions|
    requires forall i :: 0 <= i < |texts| ==> !IsBlank(texts[i])
    ensures AllAnswered(AnswerAll(BlankAnswers(questions), texts, |texts|))
  {
    AnswerAllSets(BlankAnswers(questions), texts, |texts|);
  }

  /** Answers question ids `0 .. n - 1` with `texts[0 .. n - 1]`, one `handleUpdateAnswer` after another. */
  function AnswerAll(answers: seq<Answer>, texts: seq<string>, n: nat): seq<Answer>
    requires n <= |texts|
  {
    if n == 0 then answers else UpdateAnswer(AnswerAll(answers, texts, n - 1), n - 1, texts[n - 1])
  }

  lemma {:induction false} AnswerAllSets(answers: seq<Answer>, texts: seq<string>, n: nat)
    requires n <= |texts|
    ensures |AnswerAll(answers, texts, n)| == |answers|
    ensures forall i :: 0 <= i < |answers| ==>
      AnswerAll(answers, texts, n)[i].questionId == answers[i].questionId
      && AnswerAll(answers, texts, n)[i].answer
         == (if 0 <= answers[i].questionId < n then texts[answers[i].questionId] else answers[i].answer)
  {
    if n > 0 {
      AnswerAllSets(answers, texts, n - 1);
    }
  }

  // ---------------------------------------------------------------------------------------------
  // Copied texts

  /** The line of the question at 0-based position `i`: numbered from 1. */
  function EmailQuestionLine(i: nat, question: string): string {
    NatToString(i + 1) + ". " + question + "\n\n"
  }

  function EmailQuestionLines(questions: seq<string>): seq<string> {
    seq(|questions|, i requires 0 <= i < |questions| => EmailQuestionLine(i, questions[i]))
  }

  /** The e-mail text: the title, then each question numbered from 1, in order. */
  function EmailText(t: CheckInTemplate): string {
    t.title + "\n\n" + Concat(EmailQuestionLines(t.questions))
  }

  /** `copyTemplateToEmail`: the text handed to the clipboard. */
  method CopyTemplateToEmail(t: CheckInTemplate) returns (content: string)
    ensures content == EmailText(t)
  {
    content := t.title + "\n\n";
    ghost var before := content;
    ghost var lines := EmailQuestionLines(t.questions);
    for index := 0 to |t.questions|
      invariant content == before + Concat(lines[..index])
    {
      content := content + EmailQuestionLine(index, t.questions[index]);
      ConcatSnoc(lines, index);
      AppendAssoc(before, Concat(lines[..index]), lines[index]);
    }
    assert lines[..|t.questions|] == lines;
  }

  /** Question `i` has its line, after the questions before it, and that line carries the number `i + 1`. */
  lemma EmailQuestionInOrder(t: CheckInTemplate, i: nat)
    requires i < |t.questions|
    ensures EmailText(t)
      == t.title + "\n\n" + (Concat(EmailQuestionLines(t.questions)[..i]) + EmailQuestionLine(i, t.questions[i])
                             + Concat(EmailQuestionLines(t.questions)[i + 1..]))
    ensures DecimalValue(NatToString(i + 1)) == i + 1
  {
    ConcatAt(EmailQuestionLines(t.questions), i);
    DecimalRoundTrip(i + 1);
  }

  function HistoryEntry(a: Answer): string {
    "Q: " + a.question + "\nA: " + a.answer + "\n\n"
  }

  function HistoryEntries(answers: seq<Answer>): seq<string> {
    seq(|answers|, i requires 0 <= i < |answers| => HistoryEntry(answers[i]))
  }

  /** The copy of a past check-in: one `Q:`/`A:` pair per answer, joined in order. */
  function HistoryText(answers: seq<Answer>): string {
    Concat(HistoryEntries(answers))
  }

  /** The copy of two runs of answers is the copy of the first followed by the copy of the second. */
  lemma HistoryAppend(a: seq<Answer>, b: seq<Answer>)
    ensures HistoryText(a + b) == HistoryText(a) + HistoryText(b)
  {
    assert HistoryEntries(a + b) == HistoryEntries(a) + HistoryEntries(b);
    ConcatAppend(HistoryEntries(a), HistoryEntries(b));
  }

  /** Answer `i` has its pair, after the answers before it. */
  lemma HistoryInOrder(answers: seq<Answer>, i: nat)
    requires i < |answers|
    ensures HistoryText(answers)
      == HistoryText(answers[..i]) + ("Q: " + answers[i].question + "\nA: " + answers[i].answer + "\n\n")
         + HistoryText(answers[i + 1..])
  {
    var es := HistoryEntries(answers);
    ConcatAt(es, i);
    assert es[..i] == HistoryEntries(answers[..i]);
    assert es[i + 1..] == HistoryEntries(answers[i + 1..]);
  }
}
