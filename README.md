# Micro-PM tool logic in Dafny

This project models the deterministic core of the micro-PM starter kit, a set of small product-management
tools that run in the browser. It covers three groups of logic.

- **Markdown exporters.** The PRD exporter (`createMarkdownContent`, and the copies of it in `downloadPRD`
  and `copyToClipboard`) and the roadmap, persona, survey-template and check-in e-mail texts. Each is a
  method that appends to a `content` string in loops, as the code does. Each is proved equal to a
  specification function built from blocks (`Text.Concat` of a sequence of pieces). The check-in history
  text is built in the code by `map(...).join('')` with no loop, so it is the function
  `WeeklyCheckin.HistoryText`, a `Text.Concat` of one block per answer. Lemmas then state the order of
  the blocks, the placeholder texts and the separators.
- **PDF pagination** (`exportToPDF`). A `PdfDoc` class records the drawing and page-break operations and
  the page count. Methods move the cursor `y` through the header, the sections and the feature list with
  the code's constants: start 20, list break above 230, feature break above 250, bottom 280, line
  height 7. They are proved equal to a pure cursor fold. Lemmas state three things about that fold:
  - the page discipline: a break resets to 20, and a body is checked before it is written;
  - the exact positions of each block;
  - the text drawn, kind by kind, in order.
- **List editing and filtering** in the PRD builder, the roadmap board, the feedback inbox, the survey
  template editor, the persona editor and the weekly check-in. Each add, update and delete keeps the
  code's validation gate, where blank after trimming means rejected. Its contract states what changes,
  that nothing else changes, and that order is kept.
  - Adds and deletes have round-trip lemmas: add then delete restores the list.
  - Setting a status, a priority or a question text and then setting it back restores the list.
  - Adding a tag, an option or a list entry and then removing it restores the list.
  - Moving a question up then down restores the order.
  - Toggling a tag filter twice restores the filters.
  - The tab counts match the filtered lists.
  - The remaining updates (editing a roadmap item, a template, a persona, an option or a list entry)
    state their result element by element against the old list.

  Edits that work on plain values are functions. Where the code edits a copied array in place (`splice`,
  index assignment), the edit is a method. Those methods are the option and list-entry edits of the
  survey and persona editors and the question edits of the check-in. They build on the array methods
  `Lists.SpliceRemove`, `Lists.SpliceInsert` and `Lists.AssignAt`. These are proved equal to the sequence
  operations `RemoveAt`, `InsertAt` and `s[i := x]`.

Text is ASCII only. `trim` and the `\s` class are the ASCII whitespace characters (space, tab, line feed,
carriage return, vertical tab, form feed), and `toLowerCase` maps `A`–`Z`. The file-name "slug" replaces
each run of whitespace by `-` and lowercases (`Text.Slug`, stated run by run in `Text.SlugRun`). Both
orders the code uses, hyphenate then lowercase and lowercase then hyphenate, are proved to give the same
slug (`Text.LowerThenHyphenate`).
Clock readings (`Date.now()`, today's date) are parameters. jsPDF's `splitTextToSize` is a parameter
`wrap` that gives the wrapped lines of a text.

Modules:
- `Optional` and `Lists` are shared.
- `Text` holds the string helpers.
- `PrdTypes` holds the PRD records and the ten template sections.
- The others are `ExportUtils`, `PdfExport`, `PrdBuilder`, `RoadmapBoard`, `FeedbackInbox`,
  `SurveyTemplates`, `UserPersonas` and `WeeklyCheckin`.

## Model

| member | source | states |
|---|---|---|
| Text.Trim | src/pages/tools/PRDBuilder.tsx:152 | the trimmed text has no leading or trailing whitespace, and it is empty exactly when the text is blank |
| Text.BlankIffTrimEmpty | src/pages/tools/PRDBuilder.tsx:197 | the `!s.trim()` gate holds exactly when every character is whitespace |
| Text.ToLower | src/pages/tools/InterviewSurveyTemplates.tsx:389 | lowercasing keeps the length and maps each character through the ASCII lowercase map |
| Text.HyphenateSpaces | src/utils/pdfExport.ts:123 | `replace(/\s+/g, '-')` leaves no whitespace, is no longer than its input, and turns a non-empty blank text into `-` |
| Text.HyphenateNoSpace | src/utils/pdfExport.ts:123 | text without whitespace comes back unchanged |
| Text.HyphenateAppend | src/utils/pdfExport.ts:123 | a cut right after a non-space character splits no whitespace run, so each side is hyphenated on its own |
| Text.HyphenateRun | src/utils/pdfExport.ts:123 | a maximal whitespace run between two texts becomes exactly one `-`, with the text before and after it kept in order |
| Text.Slug | src/utils/pdfExport.ts:123 | a slug holds no whitespace and no uppercase letter and is no longer than the title |
| Text.SlugRun | src/utils/pdfExport.ts:123 | the slug of a title with a maximal whitespace run is the slug of the part before, `-`, and the slug of the part after; a part without whitespace is only lowercased |
| Text.LowerThenHyphenate | src/pages/tools/UserPersonas.tsx:308 | lowercasing then hyphenating gives the same slug as hyphenating then lowercasing |
| Text.TrimStartLower | src/pages/tools/UserPersonas.tsx:308 | trimming leading whitespace commutes with lowercasing |
| Text.Contains | src/pages/tools/FeedbackInbox.tsx:166-167 | `includes` is true exactly when the needle occurs at some position of the text |
| Text.IndexOf | src/pages/tools/InterviewSurveyTemplates.tsx:374 | the index of the first occurrence of a character, or the length when it is absent |
| Text.ReplaceFirst | src/pages/tools/InterviewSurveyTemplates.tsx:374 | `replace('_', ' ')` replaces only the first `_` and leaves a text without `_` unchanged |
| Text.ReplaceFirstSplit | src/pages/tools/InterviewSurveyTemplates.tsx:374 | with no `_` before the first one, exactly that one is replaced and the rest is kept |
| Text.NatToString | src/pages/tools/InterviewSurveyTemplates.tsx:372 | decimal digits, at least one, with no leading zero |
| Text.DecimalRoundTrip | src/pages/tools/WeeklyCheckin.tsx:336 | reading the printed number back gives the number |
| Text.NatToStringInjective | src/pages/tools/WeeklyCheckin.tsx:336 | different numbers print differently |
| Text.StampIdsDistinct | src/pages/tools/PRDBuilder.tsx:163 | ids stamped from different clock readings differ |
| Text.ConcatAppend | src/pages/tools/prd-builder/utils/exportUtils.ts:10-13 | the text of two runs of blocks is the text of the first followed by the text of the second |
| Text.ConcatAt | src/pages/tools/prd-builder/utils/exportUtils.ts:10-13 | block `i` sits between the blocks before it and the blocks after it |
| Text.PiecesAt | src/pages/tools/prd-builder/utils/exportUtils.ts:18-23 | the piece of element `j` sits between the pieces of the elements before and after it |
| Lists.Filter | src/pages/tools/PRDBuilder.tsx:187 | `filter` keeps exactly the elements that pass, and nothing else |
| Lists.FilterMultiset | src/pages/tools/PRDBuilder.tsx:187 | every copy of a passing element is kept and every copy of a failing one dropped, so repeated entries keep their multiplicity |
| Lists.FilterIsSubseq | src/pages/tools/PRDBuilder.tsx:187 | the filtered list is an order-preserving subsequence of the input |
| Lists.FilterAppend | src/pages/tools/PRDBuilder.tsx:187 | filtering distributes over concatenation |
| Lists.FilterAll | src/pages/tools/PRDBuilder.tsx:187 | a filter that every element passes returns the list unchanged |
| Lists.FindIndex | src/pages/tools/InterviewSurveyTemplates.tsx:328 | `findIndex` returns the first index that matches, or "not found" when none does |
| Lists.RemoveAt | src/pages/tools/InterviewSurveyTemplates.tsx:306-307 | `splice(i, 1)` drops exactly element `i` and shifts the rest down; an index past the end changes nothing |
| Lists.InsertAt | src/pages/tools/InterviewSurveyTemplates.tsx:341 | `splice(i, 0, x)` puts `x` at `i` and shifts the rest up; the multiset gains exactly `x` |
| Lists.InsertThenRemove | src/pages/tools/InterviewSurveyTemplates.tsx:340-341 | removing what was just inserted at the same place gives the list back |
| Lists.SpliceRemove | src/pages/tools/InterviewSurveyTemplates.tsx:306-307 | the in-place array splice equals `RemoveAt` |
| Lists.SpliceInsert | src/pages/tools/InterviewSurveyTemplates.tsx:341 | the in-place array insertion equals `InsertAt` |
| Lists.AssignAt | src/pages/tools/InterviewSurveyTemplates.tsx:275-276 | index assignment on a copy changes exactly that index |
| ExportUtils.CreateMarkdownContent | src/pages/tools/prd-builder/utils/exportUtils.ts:2-29 | the text built with `+=` in the two loops is the PRD Markdown (header, sections, feature list) |
| ExportUtils.MarkdownBeginsWithHeader | src/pages/tools/prd-builder/utils/exportUtils.ts:4-7 | the output starts with `# title`, then the Author, Date and Version lines in that order |
| ExportUtils.SectionInOrder | src/pages/tools/prd-builder/utils/exportUtils.ts:10-13 | section `i` appears after the sections before it and before those after it, as `## title`, then its body or `No content provided.` |
| ExportUtils.FeatureInOrder | src/pages/tools/prd-builder/utils/exportUtils.ts:16-23 | `## Feature List` follows the sections, and feature `j` appears in list order between the features before and after it |
| ExportUtils.FeatureBlockLines | src/pages/tools/prd-builder/utils/exportUtils.ts:19-22 | a feature block is its title, Priority line, Status line, and its description or `No description provided.` |
| ExportUtils.NoFeaturesEnding | src/pages/tools/prd-builder/utils/exportUtils.ts:16-26 | without features, the text ends with the Feature List heading followed by `No features defined.` |
| ExportUtils.SectionsMdAppend | src/pages/tools/prd-builder/utils/exportUtils.ts:10-13 | the section text of two runs of sections is the concatenation of their texts |
| ExportUtils.FeaturesMdAppend | src/pages/tools/prd-builder/utils/exportUtils.ts:18-23 | the feature text of two runs of features is the concatenation of their texts |
| PdfExport.PdfDoc.constructor | src/utils/pdfExport.ts:25 | a new document has no operations and one page |
| PdfExport.PdfDoc.AddPage | src/utils/pdfExport.ts:60 | `addPage` records a page break and adds one page; the page count stays 1 plus the number of breaks |
| PdfExport.PdfDoc.DrawText | src/utils/pdfExport.ts:64 | `text` records one drawn block and keeps the page count |
| PdfExport.PlaceHeader | src/utils/pdfExport.ts:26-40 | the title and three metadata lines are drawn as in the header fold |
| PdfExport.PlaceBody | src/utils/pdfExport.ts:59-65 | a wrapped body breaks the page first exactly when `y + 7n > 280`, then advances by `7n` plus the gap |
| PdfExport.PlaceSection | src/utils/pdfExport.ts:44-69 | one section step: heading, +10, then the wrapped body with gap 15 |
| PdfExport.PlaceSections | src/utils/pdfExport.ts:44-69 | the section loop equals the fold of section steps over the sections in order |
| PdfExport.PlaceFeatureHead | src/utils/pdfExport.ts:87-102 | a feature breaks the page when `y > 250`, then draws the title (+8), Priority (+6) and Status (+8) lines |
| PdfExport.PlaceFeature | src/utils/pdfExport.ts:85-119 | one feature step: head, then the wrapped description with gap 10 |
| PdfExport.PlaceFeatures | src/utils/pdfExport.ts:85-119 | the feature loop equals the fold of feature steps over the features in order |
| PdfExport.PlaceFeatureList | src/utils/pdfExport.ts:72-81 | the Feature List block is laid out only when there are features, after a break when `y > 230` |
| PdfExport.ExportToPdf | src/utils/pdfExport.ts:23-124 | the operations of the document equal the layout fold, and the file name is `slug(title)-prd.pdf` |
| PdfExport.LayoutPageDiscipline | src/utils/pdfExport.ts:59-61 | every break is followed by a block at y = 20; every block is at x = 15 and y ≥ 20; the list heading is at y ≤ 230 and each feature title at y ≤ 250; a body ends by 280 unless a break comes right before it |
| PdfExport.DrawKeeps | src/utils/pdfExport.ts:64 | drawing a block that fits keeps the page discipline |
| PdfExport.BreakKeeps | src/utils/pdfExport.ts:60-61 | a break followed by a block at the top keeps the page discipline |
| PdfExport.PutBodyGood | src/utils/pdfExport.ts:59-65 | a wrapped body placed by the check-before-write rule keeps the discipline |
| PdfExport.BrokenPutGood | src/utils/pdfExport.ts:74-80 | a block placed after the `y > limit` break rule keeps the discipline |
| PdfExport.SectionsGood | src/utils/pdfExport.ts:44-69 | the section loop keeps the discipline |
| PdfExport.FeaturesGood | src/utils/pdfExport.ts:85-119 | the feature loop keeps the discipline |
| PdfExport.HeaderPositions | src/utils/pdfExport.ts:26-40 | the header blocks are at 20, 35, 43 and 51, and the cursor ends at 66 |
| PdfExport.FirstSectionAt66 | src/utils/pdfExport.ts:26-47 | the first section heading is the fifth operation, drawn at 66 with no break before it |
| PdfExport.SectionStepPositions | src/utils/pdfExport.ts:47-65 | the section heading is drawn at y; the body goes at y+10 when it fits, else at 20 after one break; the cursor ends at start + 7n + 15 |
| PdfExport.FeatureStepPositions | src/utils/pdfExport.ts:87-115 | a feature breaks iff y > 250; title, Priority and Status are at t, t+8 and t+14; the description goes at t+22 or at 20 after a break; the cursor ends at start + 7m + 10 |
| PdfExport.FeatureListPositions | src/utils/pdfExport.ts:72-81 | no features means no operations; otherwise a break comes first iff y > 230, and the heading follows at 20 or at y |
| PdfExport.SectionsRunExtends | src/utils/pdfExport.ts:44-69 | the section loop only appends operations, and starts with the first heading at the current y |
| PdfExport.FeaturesRunExtends | src/utils/pdfExport.ts:85-119 | the feature loop only appends operations |
| PdfExport.LayoutWritten | src/utils/pdfExport.ts:44-119 | the blocks of each kind are drawn in the order of the sections and features |
| PdfExport.LayoutSectionText | src/utils/pdfExport.ts:44-69 | the section headings drawn are the section titles in order, and the bodies are their wrapped contents or the placeholder |
| PdfExport.LayoutFeatureText | src/utils/pdfExport.ts:72-119 | the list heading is drawn once iff there are features; the feature titles and wrapped descriptions are drawn in list order |
| PrdBuilder.InitialPrd | src/pages/tools/PRDBuilder.tsx:108-118 | a new PRD has empty fields, version 1.0, today's date, no features and an empty body for every template section |
| PrdBuilder.InitialExpanded | src/pages/tools/PRDBuilder.tsx:127-132 | every template section starts expanded |
| PrdBuilder.AddFeature | src/pages/tools/PRDBuilder.tsx:151-182 | a blank title changes nothing; otherwise exactly one feature with the clock id is appended and the form resets to Medium / Should Have |
| PrdBuilder.RemoveFeature | src/pages/tools/PRDBuilder.tsx:184-189 | every feature with the id is removed, every other feature is kept, and nothing else changes |
| PrdBuilder.RemoveFeatureKeepsOrder | src/pages/tools/PRDBuilder.tsx:187 | the remaining features keep their order |
| PrdBuilder.AddThenRemove | src/pages/tools/PRDBuilder.tsx:151-189 | removing the feature just added gives the PRD back |
| PrdBuilder.HandleSectionChange | src/pages/tools/PRDBuilder.tsx:134-142 | only the given section's body changes; title, metadata, features and other sections are unchanged |
| PrdBuilder.SectionChangeExported | src/pages/tools/PRDBuilder.tsx:134-142 | the exported body of the edited section is the new text or the placeholder, and other sections export as before |
| PrdBuilder.ToggleSection | src/pages/tools/PRDBuilder.tsx:144-149 | exactly one flag flips, and a missing flag becomes true |
| PrdBuilder.ToggleTwice | src/pages/tools/PRDBuilder.tsx:144-149 | toggling twice restores the map, and a flag that was missing ends up false |
| PrdBuilder.HasTitleIffNotBlank | src/pages/tools/PRDBuilder.tsx:197 | the title gate passes exactly when the title is not blank |
| PrdBuilder.SavePrd | src/pages/tools/PRDBuilder.tsx:196-213 | a blank title stores nothing; otherwise the PRD is stored under `prd-<clock>` |
| PrdBuilder.DownloadPrd | src/pages/tools/PRDBuilder.tsx:215-263 | a blank title downloads nothing; otherwise the text equals `createMarkdownContent`, under `slug(title)-prd.md` |
| PrdBuilder.CopyToClipboard | src/pages/tools/PRDBuilder.tsx:283-321 | with no title check, the copied text equals `createMarkdownContent`, the same text as the download |
| PrdBuilder.DownloadPdf | src/pages/tools/PRDBuilder.tsx:265-281 | a blank title exports nothing; otherwise the PDF layout for the ten sections |
| RoadmapBoard.StatusIndex | src/pages/tools/RoadmapBoard.tsx:151-155 | each status has its place in the order backlog, planned, in-progress, completed |
| RoadmapBoard.MoveStatus | src/pages/tools/RoadmapBoard.tsx:155-169 | right moves one step forward and left one step back; at either end nothing changes |
| RoadmapBoard.MoveRoundTrip | src/pages/tools/RoadmapBoard.tsx:150-173 | a move right then left, or left then right, away from the ends restores the status |
| RoadmapBoard.MoveItem | src/pages/tools/RoadmapBoard.tsx:150-173 | only the status of items with the id changes; the length and all other items stay |
| RoadmapBoard.AddItem | src/pages/tools/RoadmapBoard.tsx:86-116 | a blank title changes nothing; otherwise one item is appended and the form is reset |
| RoadmapBoard.EditItem | src/pages/tools/RoadmapBoard.tsx:118-139 | no item being edited, or a blank title, changes nothing; otherwise exactly the items with the edited id are replaced |
| RoadmapBoard.DeleteItem | src/pages/tools/RoadmapBoard.tsx:141-148 | the items with the id are removed and all others kept |
| RoadmapBoard.DeleteItemKeepsOrder | src/pages/tools/RoadmapBoard.tsx:142 | the remaining items keep their order |
| RoadmapBoard.AddThenDelete | src/pages/tools/RoadmapBoard.tsx:86-148 | deleting the item just added gives the list back |
| RoadmapBoard.Column | src/pages/tools/RoadmapBoard.tsx:185 | a status column holds exactly the items of that status |
| RoadmapBoard.ColumnsPartition | src/pages/tools/RoadmapBoard.tsx:182-218 | the four columns together hold as many items as the list, so every item is exported exactly once |
| RoadmapBoard.CountStatuses | src/pages/tools/RoadmapBoard.tsx:245-250 | the four counts are the column sizes and sum to the number of items |
| RoadmapBoard.AppendColumn | src/pages/tools/RoadmapBoard.tsx:184-191 | one column's loop appends its heading and its items' blocks |
| RoadmapBoard.DownloadRoadmap | src/pages/tools/RoadmapBoard.tsx:180-233 | the text is the title, then the four columns in the fixed order; the file is `product-roadmap.md` |
| RoadmapBoard.ItemUnderItsStatus | src/pages/tools/RoadmapBoard.tsx:184-218 | each item appears under its own status heading in list order, with `Not scheduled` and `Unassigned` for an empty quarter and assignee |
| FeedbackInbox.TabAdmitsIff | src/pages/tools/FeedbackInbox.tsx:160-162 | 'all' admits everything, 'archived' admits archived and rejected, and any other tab admits only its own status |
| FeedbackInbox.MatchesSearchIff | src/pages/tools/FeedbackInbox.tsx:165-167 | an empty term matches everything; otherwise an item matches iff the lowercased term occurs in its lowercased title or description |
| FeedbackInbox.FilteredFeedback | src/pages/tools/FeedbackInbox.tsx:158-177 | exactly the items the tab, search, type, priority, sentiment and tag filters admit |
| FeedbackInbox.FilteredKeepsOrder | src/pages/tools/FeedbackInbox.tsx:158 | the filtered list is an order-preserving subsequence |
| FeedbackInbox.ClearedFiltersOnlyTab | src/pages/tools/FeedbackInbox.tsx:327-335 | after clearing the filters, only the tab decides |
| FeedbackInbox.AllTags | src/pages/tools/FeedbackInbox.tsx:156 | the tag list has no duplicates and holds exactly the tags of some item |
| FeedbackInbox.Distinct | src/pages/tools/FeedbackInbox.tsx:156 | `new Set` keeps each element once and loses none |
| FeedbackInbox.CountTabs | src/pages/tools/FeedbackInbox.tsx:374-380 | 'all' is the list length; 'new', 'in_progress' and 'completed' count the items with that status; 'archived' counts rejected plus archived; the four status counts sum to 'all' |
| FeedbackInbox.StatusesPartition | src/pages/tools/FeedbackInbox.tsx:374-380 | new, in progress, completed, and rejected-or-archived partition the items |
| FeedbackInbox.ArchivedSplit | src/pages/tools/FeedbackInbox.tsx:379 | the archived count is the rejected count plus the archived count |
| FeedbackInbox.TabCountMatchesList | src/pages/tools/FeedbackInbox.tsx:374-380 | each of the five tab counts equals the length of that tab's list with cleared filters |
| FeedbackInbox.AddFeedback | src/pages/tools/FeedbackInbox.tsx:179-214 | a blank title or description changes nothing; otherwise one item with the clock id and today's date is prepended and the form is reset |
| FeedbackInbox.UpdateStatus | src/pages/tools/FeedbackInbox.tsx:216-231 | only the status of the items with the id changes |
| FeedbackInbox.UpdatePriority | src/pages/tools/FeedbackInbox.tsx:233-246 | only the priority of the items with the id changes |
| FeedbackInbox.StatusRoundTrip | src/pages/tools/FeedbackInbox.tsx:216-231 | setting a status and then setting back the old one restores the list when the id is unique |
| FeedbackInbox.PriorityRoundTrip | src/pages/tools/FeedbackInbox.tsx:233-246 | setting a priority and then setting back the old one restores the list when the id is unique |
| FeedbackInbox.DeleteFeedback | src/pages/tools/FeedbackInbox.tsx:248-259 | the items with the id are removed and all others kept |
| FeedbackInbox.DeleteKeepsOrder | src/pages/tools/FeedbackInbox.tsx:249 | the remaining items keep their order |
| FeedbackInbox.AddThenDeleteFeedback | src/pages/tools/FeedbackInbox.tsx:179-259 | deleting the item just added, under a fresh id, gives the inbox back |
| FeedbackInbox.AddTag | src/pages/tools/FeedbackInbox.tsx:261-285 | a blank tag changes nothing; otherwise the tag is appended to the target item's tags unless it is already there, and only the tags of that item change |
| FeedbackInbox.AddTagNoDuplicates | src/pages/tools/FeedbackInbox.tsx:261-272 | tag lists without duplicates stay without duplicates, and adding the same tag twice is the same as once |
| FeedbackInbox.RemoveTag | src/pages/tools/FeedbackInbox.tsx:287-309 | every occurrence of the tag leaves the target item, its other tags stay, no tag is added, and other items are unchanged |
| FeedbackInbox.RemoveTagKeepsOrder | src/pages/tools/FeedbackInbox.tsx:292 | the tags left on the target item keep their order |
| FeedbackInbox.AddThenRemoveTag | src/pages/tools/FeedbackInbox.tsx:261-309 | removing a tag just added gives the list back |
| FeedbackInbox.ToggleTagFilter | src/pages/tools/FeedbackInbox.tsx:311-325 | a selected tag is deselected and an unselected one is appended; other tags and filters are unchanged |
| FeedbackInbox.ToggleTagTwice | src/pages/tools/FeedbackInbox.tsx:311-325 | toggling an unselected tag twice restores the filters |
| SurveyTemplates.FilteredTemplates | src/pages/tools/InterviewSurveyTemplates.tsx:152-154 | 'all' gives every template; otherwise exactly the templates of the tab's kind |
| SurveyTemplates.FilteredTemplatesKeepOrder | src/pages/tools/InterviewSurveyTemplates.tsx:152-154 | the filtered templates keep their order |
| SurveyTemplates.CreateNew | src/pages/tools/InterviewSurveyTemplates.tsx:445-456 | the new empty template has the chosen kind, and the gate refuses it until it is filled in |
| SurveyTemplates.TemplateAccepted | src/pages/tools/InterviewSurveyTemplates.tsx:159-175 | the gate passes iff the title and description are not blank and there is at least one question |
| SurveyTemplates.AddNewTemplate | src/pages/tools/InterviewSurveyTemplates.tsx:156-191 | nothing to save, or a refused template, changes nothing; otherwise the template is appended with the clock id and today's date |
| SurveyTemplates.ReplaceTemplate | src/pages/tools/InterviewSurveyTemplates.tsx:213-215 | exactly the templates with the edited id are replaced |
| SurveyTemplates.UpdateTemplate | src/pages/tools/InterviewSurveyTemplates.tsx:193-224 | a refused template changes nothing; otherwise exactly the templates with its id are replaced |
| SurveyTemplates.DeleteTemplate | src/pages/tools/InterviewSurveyTemplates.tsx:226-237 | the templates with the id are removed and all others kept |
| SurveyTemplates.DeleteTemplateKeepsOrder | src/pages/tools/InterviewSurveyTemplates.tsx:227 | the remaining templates keep their order |
| SurveyTemplates.AddThenDeleteTemplate | src/pages/tools/InterviewSurveyTemplates.tsx:156-237 | deleting the template just added gives the list back |
| SurveyTemplates.AddQuestion | src/pages/tools/InterviewSurveyTemplates.tsx:239-253 | one empty, open-ended, optional question is appended and nothing else changes |
| SurveyTemplates.UpdateQuestion | src/pages/tools/InterviewSurveyTemplates.tsx:255-266 | each question with the id gets the written value in the given field (text, type, required, options or id) and keeps every other field; the other questions are unchanged |
| SurveyTemplates.UpdateTextRoundTrip | src/pages/tools/InterviewSurveyTemplates.tsx:255-266 | setting a question's text and then setting back the old text restores the template |
| SurveyTemplates.AddQuestionOption | src/pages/tools/InterviewSurveyTemplates.tsx:284-297 | an empty option is appended to the question, and a missing option list is created |
| SurveyTemplates.UpdateQuestionOption | src/pages/tools/InterviewSurveyTemplates.tsx:268-282 | only the option at the index of the matching question with options changes |
| SurveyTemplates.RemoveQuestionOption | src/pages/tools/InterviewSurveyTemplates.tsx:299-313 | only the option at the index is removed, and only from a matching question that has options |
| SurveyTemplates.AddThenRemoveOption | src/pages/tools/InterviewSurveyTemplates.tsx:284-313 | `addQuestionOption`, then `removeQuestionOption` at the index of the option just added, gives the template back when the id is unique and the question already has options |
| SurveyTemplates.DeleteQuestion | src/pages/tools/InterviewSurveyTemplates.tsx:315-322 | the questions with the id are removed and all others kept |
| SurveyTemplates.DeleteQuestionKeepsOrder | src/pages/tools/InterviewSurveyTemplates.tsx:318 | the remaining questions keep their order |
| SurveyTemplates.AddThenDeleteQuestion | src/pages/tools/InterviewSurveyTemplates.tsx:239-322 | deleting the question just added gives the template back |
| SurveyTemplates.Swap | src/pages/tools/InterviewSurveyTemplates.tsx:337-341 | two positions trade elements and every other position is unchanged |
| SurveyTemplates.SwapBack | src/pages/tools/InterviewSurveyTemplates.tsx:337-341 | swapping twice gives the list back |
| SurveyTemplates.RemoveInsertSwaps | src/pages/tools/InterviewSurveyTemplates.tsx:337-341 | taking an element out and putting it back next door swaps the two neighbours |
| SurveyTemplates.MovedQuestions | src/pages/tools/InterviewSurveyTemplates.tsx:324-347 | up from the top or down from the bottom changes nothing; otherwise the question swaps with its neighbour; the length and the multiset are kept |
| SurveyTemplates.MoveQuestion | src/pages/tools/InterviewSurveyTemplates.tsx:324-347 | the two `splice` calls on the copied array give the specified order |
| SurveyTemplates.MovedUpIndex | src/pages/tools/InterviewSurveyTemplates.tsx:328-341 | after a move up, the question is found one place higher |
| SurveyTemplates.MoveUpThenDown | src/pages/tools/InterviewSurveyTemplates.tsx:324-347 | moving a question up and then down restores the order |
| SurveyTemplates.FindFirst | src/pages/tools/InterviewSurveyTemplates.tsx:328 | `findIndex` lands on the first match |
| SurveyTemplates.AppendOptions | src/pages/tools/InterviewSurveyTemplates.tsx:376-382 | the options loop appends `Options:`, one `- option` line each, and a blank line |
| SurveyTemplates.TemplateContent | src/pages/tools/InterviewSurveyTemplates.tsx:361-383 | the text built in the loops is the template Markdown |
| SurveyTemplates.DownloadTemplate | src/pages/tools/InterviewSurveyTemplates.tsx:359-398 | the download text is the template Markdown, under `slug(title).md` |
| SurveyTemplates.CopyTemplateToClipboard | src/pages/tools/InterviewSurveyTemplates.tsx:400-438 | the copied text is the same Markdown as the download |
| SurveyTemplates.QuestionInOrder | src/pages/tools/InterviewSurveyTemplates.tsx:371-374 | question `i` appears in order, numbered `i+1`, with ` *` iff it is required |
| SurveyTemplates.OptionInOrder | src/pages/tools/InterviewSurveyTemplates.tsx:376-382 | option `k` appears as `- option`, in order |
| SurveyTemplates.NoOptionsNoBlock | src/pages/tools/InterviewSurveyTemplates.tsx:376 | the options block is empty iff the question has no options or an empty list |
| UserPersonas.SetList | src/pages/tools/UserPersonas.tsx:209-257 | the chosen list takes the new value, the other three lists are kept, and every scalar field is unchanged |
| UserPersonas.NonBlank | src/pages/tools/UserPersonas.tsx:134-137 | exactly the entries that are not blank are kept, each as many times as it occurs |
| UserPersonas.NonBlankKeepsOrder | src/pages/tools/UserPersonas.tsx:134-137 | the kept entries stay in order |
| UserPersonas.Cleaned | src/pages/tools/UserPersonas.tsx:134-137 | each of the four lists becomes its `NonBlank` list (blank entries dropped, repeated entries kept), and the other fields are unchanged |
| UserPersonas.CleanedIdempotent | src/pages/tools/UserPersonas.tsx:181-184 | cleaning an already cleaned persona changes nothing |
| UserPersonas.AddPersona | src/pages/tools/UserPersonas.tsx:121-164 | a blank name changes nothing; otherwise one cleaned persona with the clock id is appended and the form is reset |
| UserPersonas.UpdatePersona | src/pages/tools/UserPersonas.tsx:166-194 | no persona being edited, or a blank name, changes nothing; otherwise exactly the persona with its id is replaced by its cleaned version |
| UserPersonas.ReplacePersona | src/pages/tools/UserPersonas.tsx:178-186 | exactly the personas with the id are replaced |
| UserPersonas.DeletePersona | src/pages/tools/UserPersonas.tsx:196-207 | the personas with the id are removed and all others kept |
| UserPersonas.DeletePersonaKeepsOrder | src/pages/tools/UserPersonas.tsx:197 | the remaining personas keep their order |
| UserPersonas.AddThenDeletePersona | src/pages/tools/UserPersonas.tsx:121-207 | deleting the persona just added gives the list back |
| UserPersonas.AddListItem | src/pages/tools/UserPersonas.tsx:209-221 | an empty entry is appended to one list, and nothing else changes |
| UserPersonas.UpdateListItem | src/pages/tools/UserPersonas.tsx:223-239 | one entry of one list is set, and nothing else changes |
| UserPersonas.RemoveListItem | src/pages/tools/UserPersonas.tsx:241-257 | one entry of one list is removed, and nothing else changes |
| UserPersonas.AddThenRemoveListItem | src/pages/tools/UserPersonas.tsx:209-257 | removing the entry just added gives the persona back |
| UserPersonas.AppendBullets | src/pages/tools/UserPersonas.tsx:281-284 | a bullet loop appends its heading and one `- entry` line per entry |
| UserPersonas.AppendPersonaBody | src/pages/tools/UserPersonas.tsx:273-302 | the loops append the five metadata lines, the biography and the four bullet sections in that order |
| UserPersonas.DownloadPersona | src/pages/tools/UserPersonas.tsx:269-317 | the text is the persona Markdown, under `slug(name)-persona.md` |
| UserPersonas.CopyPersonaToClipboard | src/pages/tools/UserPersonas.tsx:377-410 | the copied text is the same as the download text |
| UserPersonas.AppendEntry | src/pages/tools/UserPersonas.tsx:323-359 | one persona's entry in the combined file, with the separator unless it is the last |
| UserPersonas.DownloadAllPersonas | src/pages/tools/UserPersonas.tsx:319-375 | the text is the combined Markdown, under `user-personas.md` |
| UserPersonas.BulletInOrder | src/pages/tools/UserPersonas.tsx:281-302 | entry `k` of a list appears as `- entry` in list order |
| UserPersonas.SeparatorsBetween | src/pages/tools/UserPersonas.tsx:323-360 | personas appear in order, each followed by `\n---\n\n` except the last |
| WeeklyCheckin.FrequencyText | src/pages/tools/WeeklyCheckin.tsx:322-330 | every frequency has a non-empty label |
| WeeklyCheckin.FrequencyTextInjective | src/pages/tools/WeeklyCheckin.tsx:322-330 | different frequencies have different labels |
| WeeklyCheckin.TemplateAccepted | src/pages/tools/WeeklyCheckin.tsx:157-173 | the gate passes iff the title is not blank and there is at least one question and no blank question |
| WeeklyCheckin.AddTemplate | src/pages/tools/WeeklyCheckin.tsx:154-188 | a refused template changes nothing; otherwise it is appended with the clock id |
| WeeklyCheckin.ReplaceTemplate | src/pages/tools/WeeklyCheckin.tsx:211-213 | exactly the templates with the id are replaced |
| WeeklyCheckin.UpdateTemplate | src/pages/tools/WeeklyCheckin.tsx:190-222 | a refused template changes nothing; otherwise exactly the templates with its id are replaced |
| WeeklyCheckin.DeleteTemplate | src/pages/tools/WeeklyCheckin.tsx:224-235 | the templates with the id are removed and all others kept |
| WeeklyCheckin.DeleteTemplateKeepsOrder | src/pages/tools/WeeklyCheckin.tsx:225 | the remaining templates keep their order |
| WeeklyCheckin.AddThenDeleteTemplate | src/pages/tools/WeeklyCheckin.tsx:154-235 | deleting the template just added gives the list back |
| WeeklyCheckin.AddQuestion | src/pages/tools/WeeklyCheckin.tsx:289-296 | an empty question is appended, which the gate then refuses |
| WeeklyCheckin.UpdateQuestion | src/pages/tools/WeeklyCheckin.tsx:298-308 | exactly one question is set |
| WeeklyCheckin.DeleteQuestion | src/pages/tools/WeeklyCheckin.tsx:310-320 | exactly one question is removed |
| WeeklyCheckin.AddThenDeleteQuestion | src/pages/tools/WeeklyCheckin.tsx:289-320 | deleting the question just added gives the template back |
| WeeklyCheckin.BlankAnswers | src/pages/tools/WeeklyCheckin.tsx:243-247 | one answer per question, with its index, the question text and an empty answer |
| WeeklyCheckin.StartNewCheckIn | src/pages/tools/WeeklyCheckin.tsx:237-250 | an unknown id changes nothing; otherwise the first template with the id gives one blank answer per question |
| WeeklyCheckin.SubmitCheckIn | src/pages/tools/WeeklyCheckin.tsx:252-281 | no template, or a blank answer, changes nothing; otherwise one record is prepended and the pending check-in is cleared |
| WeeklyCheckin.FreshCheckInNotSubmittable | src/pages/tools/WeeklyCheckin.tsx:237-262 | a check-in just started on a template with questions cannot be submitted |
| WeeklyCheckin.UpdateAnswer | src/pages/tools/WeeklyCheckin.tsx:283-287 | only the answers with the question id change, and only in their text |
| WeeklyCheckin.AnswerAllSets | src/pages/tools/WeeklyCheckin.tsx:283-287 | answering questions `0..n-1` in turn sets exactly those answers |
| WeeklyCheckin.AnsweringAllMakesSubmittable | src/pages/tools/WeeklyCheckin.tsx:255-262 | after every question gets a non-blank answer, the check-in can be submitted |
| WeeklyCheckin.CopyTemplateToEmail | src/pages/tools/WeeklyCheckin.tsx:332-337 | the loop's text is the title followed by `i+1. question` for each question |
| WeeklyCheckin.EmailQuestionInOrder | src/pages/tools/WeeklyCheckin.tsx:333-337 | question `i` appears in order, numbered `i+1` |
| WeeklyCheckin.HistoryAppend | src/pages/tools/WeeklyCheckin.tsx:750-752 | the history text of two runs of answers is the concatenation of their texts |
| WeeklyCheckin.HistoryInOrder | src/pages/tools/WeeklyCheckin.tsx:750-752 | answer `i` appears as `Q: question`, `A: answer` in order |

## Left out

- Side effects are not modelled: `localStorage` writes, Blob downloads (`downloadMarkdown` and the
  anchor-click sequences), the clipboard promise and its callbacks, and toasts. The model produces the
  strings, file names and state that these would receive. It does not model `savePersonas`,
  `saveTemplates` or `saveRoadmap`, which only write the list to storage under a clock key.
- jsPDF fonts, font sizes, bold and normal styles and `save` are not modelled. `splitTextToSize` is the
  parameter `wrap`. The PDF file name is returned, not saved.
- `Date.now()` and today's date are parameters. Distinct clock readings give distinct ids.
- `renderRating` (floating-point star arithmetic) and `renderSentimentIcon` are display only.
- Unicode is not modelled. Whitespace, `trim` and `toLowerCase` are restricted to ASCII.
- UI-only state is not modelled: dialog flags, active tabs, edit modes, `selectedFeedback`,
  `currentPersona`, `currentTemplate`, `currentCheckIn`, `handleEditClick`, and the sample data.
  Editor operations that start with `if (!x) return` take the edited value itself, or an `Option` when
  the result is stored in the list.
- The `Type:` line of a template export is stated generically (`ReplaceFirst` of the stored type name).
  The literal labels (`multiple choice`, `open ended`) are not stated one by one.
- The PRD download and copy repeat the Markdown loops inline. The model has each call the one
  `ExportUtils.CreateMarkdownContent` method. Both copies in the code build the same text.
- SurveyTemplates.MovedQuestions: requires that a question with the id is present, as MoveQuestion below.
- SurveyTemplates.MoveQuestion: requires that a question with the id is present. The editor only calls it
  for listed questions. With index -1 the code would `splice(-1, 1)` the last question; that case is not
  modelled.
- SurveyTemplates.UpdateQuestionOption: requires an index inside the option list. Assigning past the end
  of a JavaScript array would grow it; that case is not modelled.
- UserPersonas.UpdateListItem: requires an index inside the list, for the same reason.
- WeeklyCheckin.UpdateQuestion: requires an index inside the question list, for the same reason.
- PdfExport.LayoutWritten: speaks only of the title, heading and body kinds. The Priority and Status
  lines of features are pinned down by `PdfExport.FeatureStepPositions` instead.
- FeedbackInbox.AllTags: states membership and the absence of duplicates, not the first-occurrence order
  of `new Set`. The model keeps that order, but no lemma states it.
- The PDF discipline allows a body taller than a page (more than 37 lines) to run past 280 after its
  break, because the code cannot do better there. `PdfExport.LayoutPageDiscipline` states exactly this.
