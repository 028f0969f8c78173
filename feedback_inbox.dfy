/** The feedback inbox: the filter behind the list view, tab counts, and the per-item edits. */
module FeedbackInbox {
  import opened Optional
  import opened Text
  import opened Lists

  datatype FeedbackType = FeatureRequest | BugReport | Praise | Question | OtherType

  datatype FeedbackStatus = New | InProgress | Completed | Rejected | Archived

  datatype FeedbackPriority = Low | Medium | High

  datatype Sentiment = Positive | Neutral | Negative

  datatype Feedback = Feedback(
    id: string,
    source: string,
    kind: FeedbackType,
    status: FeedbackStatus,
    priority: FeedbackPriority,
    title: string,
    description: string,
    sentiment: Sentiment,
    rating: Option<int>,
    userEmail: Option<string>,
    userName: Option<string>,
    userRole: Option<string>,
    date: string,
    tags: seq<string>)

  /** The add-feedback form: a feedback item without its id and date. */
  datatype FeedbackDraft = FeedbackDraft(
    source: string,
    kind: FeedbackType,
    status: FeedbackStatus,
    priority: FeedbackPriority,
    title: string,
    description: string,
    sentiment: Sentiment,
    rating: Option<int>,
    userEmail: Option<string>,
    userName: Option<string>,
    userRole: Option<string>,
    tags: seq<string>)

  /** The state the form is reset to. */
  const BlankFeedbackDraft := FeedbackDraft("Manual entry", FeatureRequest, New, Medium, "", "", Neutral,
                                            None, None, None, None, [])

  datatype Tab = AllTab | NewTab | InProgressTab | CompletedTab | ArchivedTab

  /** The filter panel; `None` stands for the choice 'all'. */
  datatype Filters = Filters(
    searchTerm: string,
    kind: Option<FeedbackType>,
    priority: Option<FeedbackPriority>,
    sentiment: Option<Sentiment>,
    tags: seq<string>)

  /** The status whose name a tab other than 'all' carries. */
  function TabStatus(tab: Tab): FeedbackStatus
    requires tab != AllTab
  {
    match tab
    case NewTab => New
    case InProgressTab => InProgress
    case CompletedTab => Completed
    case ArchivedTab => Archived
  }

  /** The tab test as the list filter writes it: refuse when not 'all', not the tab's status, and not rejected under 'archived'. */
  predicate TabAdmits(tab: Tab, s: FeedbackStatus) {
    !(tab != AllTab && s != TabStatus(tab) && (tab != ArchivedTab || s != Rejected))
  }

  /** 'all' admits everything, 'archived' admits archived and rejected items, any other tab exactly its status. */
  lemma TabAdmitsIff(tab: Tab, s: FeedbackStatus)
    ensures tab == AllTab ==> TabAdmits(tab, s)
    ensures tab == ArchivedTab ==> (TabAdmits(tab, s) <==> s == Archived || s == Rejected)
    ensures tab == NewTab ==> (TabAdmits(tab, s) <==> s == New)
    ensures tab == InProgressTab ==> (TabAdmits(tab, s) <==> s == InProgress)
    ensures tab == CompletedTab ==> (TabAdmits(tab, s) <==> s == Completed)
  {
  }

  /** An empty term matches everything; otherwise the lower-cased term must occur in the lower-cased title or description. */
  predicate MatchesSearch(item: Feedback, term: string) {
    term == "" || Contains(ToLower(item.title), ToLower(term)) || Contains(ToLower(item.description), ToLower(term))
  }

  lemma MatchesSearchIff(item: Feedback, term: string)
    ensures MatchesSearch(item, term) <==>
      term == ""
      || (exists i :: OccursAt(ToLower(item.title), ToLower(term), i))
      || (exists i :: OccursAt(ToLower(item.description), ToLower(term), i))
  {
  }

  /** No selected tag, or at least one selected tag on the item. */
  predicate MatchesTags(item: Feedback, tags: seq<string>) {
    |tags| == 0 || exists j :: 0 <= j < |tags| && tags[j] in item.tags
  }

  predicate Admits(tab: Tab, f: Filters, item: Feedback) {
    TabAdmits(tab, item.status)
    && MatchesSearch(item, f.searchTerm)
    && (f.kind.None? || item.kind == f.kind.value)
    && (f.priority.None? || item.priority == f.priority.value)
    && (f.sentiment.None? || item.sentiment == f.sentiment.value)
    && MatchesTags(item, f.tags)
  }

  function Admit(tab: Tab, f: Filters): Feedback -> bool {
    (item: Feedback) => Admits(tab, f, item)
  }

  /** `filteredFeedback`: exactly the admitted items, in inbox order. */
  function FilteredFeedback(items: seq<Feedback>, tab: Tab, f: Filters): (r: seq<Feedback>)
    ensures |r| <= |items|
    ensures forall i :: 0 <= i < |r| ==> Admits(tab, f, r[i]) && r[i] in items
    ensures forall i :: 0 <= i < |items| && Admits(tab, f, items[i]) ==> items[i] in r
  {
    Filter(items, Admit(tab, f))
  }

  lemma FilteredKeepsOrder(items: seq<Feedback>, tab: Tab, f: Filters)
    ensures IsSubseq(FilteredFeedback(items, tab, f), items)
  {
    FilterIsSubseq(items, Admit(tab, f));
  }

  /** `clearFilters`. */
  const NoFilters := Filters("", None, None, None, [])

  /** With the filters cleared, the list shows every item the tab admits. */
  lemma ClearedFiltersOnlyTab(tab: Tab, item: Feedback)
    ensures Admits(tab, NoFilters, item) <==> TabAdmits(tab, item.status)
  {
  }

  /** Every tag of every item, in item order. */
  function AllItemTags(items: seq<Feedback>): (r: seq<string>)
    ensures forall t :: t in r <==> exists i :: 0 <= i < |items| && t in items[i].tags
  {
    if |items| == 0 then [] else AllItemTags(items[..|items| - 1]) + items[|items| - 1].tags
  }

  /** The first occurrence of each element, in order (a `Set` built from a list and spread back). */
  function Distinct(s: seq<string>): (r: seq<string>)
    ensures NoDuplicates(r)
    ensures forall t :: t in r <==> t in s
  {
    if |s| == 0 then []
    else
      var d := Distinct(s[..|s| - 1]);
      assert forall t :: t in s <==> t in s[..|s| - 1] || t == s[|s| - 1] by {
        assert s == s[..|s| - 1] + [s[|s| - 1]];
      }
      if s[|s| - 1] in d then d else d + [s[|s| - 1]]
  }

  /** `allTags`: the tag cloud offered as filters holds each tag used by some item, once. */
  function AllTags(items: seq<Feedback>): (r: seq<string>)
    ensures NoDuplicates(r)
    ensures forall t :: t in r <==> exists i :: 0 <= i < |items| && t in items[i].tags
  {
    Distinct(AllItemTags(items))
  }

  // ---------------------------------------------------------------------------------------------
  // Tab counts

  function StatusIs(s: FeedbackStatus): Feedback -> bool {
    (item: Feedback) => item.status == s
  }

  function RejectedOrArchived(): Feedback -> bool {
    (item: Feedback) => item.status == Rejected || item.status == Archived
  }

  datatype TabCounts = TabCounts(all: nat, newCount: nat, inProgress: nat, completed: nat, archived: nat)

  lemma {:induction false} StatusesPartition(items: seq<Feedback>)
    ensures Count(items, StatusIs(New)) + Count(items, StatusIs(InProgress)) + Count(items, StatusIs(Completed))
      + Count(items, RejectedOrArchived()) == |items|
  {
    if items != [] {
      StatusesPartition(items[1..]);
      assert items == [items[0]] + items[1..];
      FilterAppend([items[0]], items[1..], StatusIs(New));
      FilterAppend([items[0]], items[1..], StatusIs(InProgress));
      FilterAppend([items[0]], items[1..], StatusIs(Completed));
      FilterAppend([items[0]], items[1..], RejectedOrArchived());
    }
  }

  /** `tabCounts`: the four status tabs split the whole inbox between them. */
  function CountTabs(items: seq<Feedback>): (c: TabCounts)
    ensures c.all == |items|
    ensures c.newCount == Count(items, StatusIs(New))
    ensures c.inProgress == Count(items, StatusIs(InProgress))
    ensures c.completed == Count(items, StatusIs(Completed))
    ensures c.archived == Count(items, StatusIs(Rejected)) + Count(items, StatusIs(Archived))
    ensures c.newCount + c.inProgress + c.completed + c.archived == c.all
  {
    StatusesPartition(items);
    ArchivedSplit(items);
    TabCounts(|items|, Count(items, StatusIs(New)), Count(items, StatusIs(InProgress)),
              Count(items, StatusIs(Completed)), Count(items, RejectedOrArchived()))
  }

  lemma {:induction false} ArchivedSplit(items: seq<Feedback>)
    ensures Count(items, RejectedOrArchived()) == Count(items, StatusIs(Rejected)) + Count(items, StatusIs(Archived))
  {
    if items != [] {
      ArchivedSplit(items[1..]);
      assert items == [items[0]] + items[1..];
      FilterAppend([items[0]], items[1..], RejectedOrArchived());
      FilterAppend([items[0]], items[1..], StatusIs(Rejected));
      FilterAppend([items[0]], items[1..], StatusIs(Archived));
    }
  }

  /** Each tab's count is the length of the list that tab shows with the filters cleared. */
  lemma TabCountMatchesList(items: seq<Feedback>)
    ensures CountTabs(items).all == |FilteredFeedback(items, AllTab, NoFilters)|
    ensures CountTabs(items).newCount == |FilteredFeedback(items, NewTab, NoFilters)|
    ensures CountTabs(items).inProgress == |FilteredFeedback(items, InProgressTab, NoFilters)|
    ensures CountTabs(items).completed == |FilteredFeedback(items, CompletedTab, NoFilters)|
    ensures CountTabs(items).archived == |FilteredFeedback(items, ArchivedTab, NoFilters)|
  {
    FilterAll(items, Admit(AllTab, NoFilters));
    FilterExt(items, StatusIs(New), Admit(NewTab, NoFilters));
    FilterExt(items, StatusIs(InProgress), Admit(InProgressTab, NoFilters));
    FilterExt(items, StatusIs(Completed), Admit(CompletedTab, NoFilters));
    FilterExt(items, RejectedOrArchived(), Admit(ArchivedTab, NoFilters));
  }

  // ---------------------------------------------------------------------------------------------
  // Edits

  function FeedbackId(now: nat): string {
    StampId("feedback", now)
  }

  /**
   * `handleAddFeedback`: a blank title or a blank description changes nothing; otherwise the new item,
   * with an id from the clock reading and today's date, goes first and the form is reset.
   */
  function AddFeedback(items: seq<Feedback>, d: FeedbackDraft, now: nat, today: string): (r: (seq<Feedback>, FeedbackDraft))
    ensures IsBlank(d.title) || IsBlank(d.description) ==> r == (items, d)
    ensures !IsBlank(d.title) && !IsBlank(d.description) ==>
      r.1 == BlankFeedbackDraft && |r.0| == |items| + 1 && r.0[1..] == items
      && r.0[0] == Feedback(FeedbackId(now), d.source, d.kind, d.status, d.priority, d.title, d.description,
                            d.sentiment, d.rating, d.userEmail, d.userName, d.userRole, today, d.tags)
  {
    BlankIffTrimEmpty(d.title);
    BlankIffTrimEmpty(d.description);
    if Trim(d.title) == "" || Trim(d.description) == "" then (items, d)
    else
      var item := Feedback(FeedbackId(now), d.source, d.kind, d.status, d.priority, d.title, d.description,
                           d.sentiment, d.rating, d.userEmail, d.userName, d.userRole, today, d.tags);
      ([item] + items, BlankFeedbackDraft)
  }

  /** `updateFeedbackStatus`: the matching items take the status; nothing else changes. */
  function UpdateStatus(items: seq<Feedback>, id: string, s: FeedbackStatus): (r: seq<Feedback>)
    ensures |r| == |items|
    ensures forall i :: 0 <= i < |items| ==>
      r[i] == if items[i].id == id then items[i].(status := s) else items[i]
  {
    seq(|items|, i requires 0 <= i < |items| => if items[i].id == id then items[i].(status := s) else items[i])
  }

  /** `updateFeedbackPriority`: the matching items take the priority; nothing else changes. */
  function UpdatePriority(items: seq<Feedback>, id: string, p: FeedbackPriority): (r: seq<Feedback>)
    ensures |r| == |items|
    ensures forall i :: 0 <= i < |items| ==>
      r[i] == if items[i].id == id then items[i].(priority := p) else items[i]
  {
    seq(|items|, i requires 0 <= i < |items| => if items[i].id == id then items[i].(priority := p) else items[i])
  }

  /** Setting a status and then the one it replaced gives the inbox back, when the id is unique. */
  lemma StatusRoundTrip(items: seq<Feedback>, k: nat, s: FeedbackStatus)
    requires k < |items|
    requires forall i :: 0 <= i < |items| && i != k ==> items[i].id != items[k].id
    ensures UpdateStatus(UpdateStatus(items, items[k].id, s), items[k].id, items[k].status) == items
  {
    var once := UpdateStatus(items, items[k].id, s);
    var twice := UpdateStatus(once, items[k].id, items[k].status);
    assert forall i :: 0 <= i < |items| ==> twice[i] == items[i];
  }

  /** Setting a priority and then the one it replaced gives the inbox back, when the id is unique. */
  lemma PriorityRoundTrip(items: seq<Feedback>, k: nat, p: FeedbackPriority)
    requires k < |items|
    requires forall i :: 0 <= i < |items| && i != k ==> items[i].id != items[k].id
    ensures UpdatePriority(UpdatePriority(items, items[k].id, p), items[k].id, items[k].priority) == items
  {
    var once := UpdatePriority(items, items[k].id, p);
    var twice := UpdatePriority(once, items[k].id, items[k].priority);
    assert forall i :: 0 <= i < |items| ==> twice[i] == items[i];
  }

  function OtherFeedback(id: string): Feedback -> bool {
    (item: Feedback) => item.id != id
  }

  /** `deleteFeedback`: drops the items with the id and keeps the rest, in order. */
  function DeleteFeedback(items: seq<Feedback>, id: string): (r: seq<Feedback>)
    ensures forall i :: 0 <= i < |r| ==> r[i].id != id && r[i] in items
    ensures forall i :: 0 <= i < |items| && items[i].id != id ==> items[i] in r
  {
    Filter(items, OtherFeedback(id))
  }

  lemma DeleteKeepsOrder(items: seq<Feedback>, id: string)
    ensures IsSubseq(DeleteFeedback(items, id), items)
  {
    FilterIsSubseq(items, OtherFeedback(id));
  }

  /** Deleting the item just added, under an id not used before, gives the inbox back. */
  lemma AddThenDeleteFeedback(items: seq<Feedback>, d: FeedbackDraft, now: nat, today: string)
    requires !IsBlank(d.title) && !IsBlank(d.description)
    requires forall i :: 0 <= i < |items| ==> items[i].id != FeedbackId(now)
    ensures DeleteFeedback(AddFeedback(items, d, now, today).0, FeedbackId(now)) == items
  {
    var p := OtherFeedback(FeedbackId(now));
    var added := AddFeedback(items, d, now, today).0;
    assert added == [added[0]] + items;
    FilterAppend([added[0]], items, p);
    FilterAll(items, p);
    assert Filter([added[0]], p) == [];
  }

  predicate NoDuplicates(tags: seq<string>) {
    forall i, j :: 0 <= i < j < |tags| ==> tags[i] != tags[j]
  }

  /**
   * `addTag`: a blank tag changes nothing; otherwise the tag is appended to the matching items that do
   * not have it yet; other items are unchanged.
   */
  function AddTag(items: seq<Feedback>, id: string, tag: string): (r: seq<Feedback>)
    ensures IsBlank(tag) ==> r == items
    ensures |r| == |items|
    ensures forall i :: 0 <= i < |items| ==> r[i] == items[i].(tags := r[i].tags)
    ensures forall i :: 0 <= i < |items| && (items[i].id != id || IsBlank(tag)) ==> r[i] == items[i]
    ensures !IsBlank(tag) ==> forall i :: 0 <= i < |items| && items[i].id == id ==>
      tag in r[i].tags && (tag in items[i].tags ==> r[i].tags == items[i].tags)
      && (tag !in items[i].tags ==> r[i].tags == items[i].tags + [tag])
  {
    BlankIffTrimEmpty(tag);
    if Trim(tag) == "" then items
    else
      seq(|items|, i requires 0 <= i < |items| =>
        if items[i].id == id && tag !in items[i].tags then items[i].(tags := items[i].tags + [tag]) else items[i])
  }

  /** Adding a tag never creates a duplicate, and adding it twice is the same as adding it once. */
  lemma AddTagNoDuplicates(items: seq<Feedback>, id: string, tag: string)
    requires forall i :: 0 <= i < |items| ==> NoDuplicates(items[i].tags)
    ensures forall i :: 0 <= i < |items| ==> NoDuplicates(AddTag(items, id, tag)[i].tags)
    ensures AddTag(AddTag(items, id, tag), id, tag) == AddTag(items, id, tag)
  {
    var r := AddTag(items, id, tag);
    forall i | 0 <= i < |items|
      ensures NoDuplicates(r[i].tags)
    {
      var t := items[i].tags;
      if r[i].tags == t + [tag] {
        assert tag !in t;
        forall a, b | 0 <= a < b < |t| + 1
          ensures (t + [tag])[a] != (t + [tag])[b]
        {
          if b == |t| {
            assert (t + [tag])[a] == t[a];
          }
        }
      }
    }
  }

  function NotTag(tag: string): string -> bool {
    (t: string) => t != tag
  }

  /** `removeTag`: every copy of the tag leaves the matching items; other items are unchanged. */
  function RemoveTag(items: seq<Feedback>, id: string, tag: string): (r: seq<Feedback>)
    ensures |r| == |items|
    ensures forall i :: 0 <= i < |items| && items[i].id != id ==> r[i] == items[i]
    ensures forall i :: 0 <= i < |items| && items[i].id == id ==>
      r[i] == items[i].(tags := r[i].tags) && tag !in r[i].tags
      && (forall t :: t in items[i].tags && t != tag ==> t in r[i].tags)
      && (forall t :: t in r[i].tags ==> t in items[i].tags)
  {
    seq(|items|, i requires 0 <= i < |items| =>
      if items[i].id == id then items[i].(tags := Filter(items[i].tags, NotTag(tag))) else items[i])
  }

  /** The tags left on a matching item keep their order. */
  lemma RemoveTagKeepsOrder(items: seq<Feedback>, id: string, tag: string, i: nat)
    requires i < |items| && items[i].id == id
    ensures IsSubseq(RemoveTag(items, id, tag)[i].tags, items[i].tags)
  {
    FilterIsSubseq(items[i].tags, NotTag(tag));
  }

  /** Removing a tag just added gives the inbox back, when no matching item had the tag before. */
  lemma AddThenRemoveTag(items: seq<Feedback>, id: string, tag: string)
    requires forall i :: 0 <= i < |items| && items[i].id == id ==> tag !in items[i].tags
    ensures RemoveTag(AddTag(items, id, tag), id, tag) == items
  {
    var added := AddTag(items, id, tag);
    var r := RemoveTag(added, id, tag);
    forall i | 0 <= i < |items|
      ensures r[i] == items[i]
    {
      if items[i].id == id {
        var t := items[i].tags;
        FilterAll(t, NotTag(tag));
        if added[i].tags == t + [tag] {
          FilterAppend(t, [tag], NotTag(tag));
          assert Filter([tag], NotTag(tag)) == [];
        }
      }
    }
  }

  /** `toggleTagFilter`: a selected tag is unselected (every copy), an unselected one is appended. */
  function ToggleTagFilter(f: Filters, tag: string): (r: Filters)
    ensures r == f.(tags := r.tags)
    ensures tag in r.tags <==> tag !in f.tags
    ensures forall t :: t != tag ==> (t in r.tags <==> t in f.tags)
    ensures tag !in f.tags ==> r.tags == f.tags + [tag]
  {
    if tag in f.tags then f.(tags := Filter(f.tags, NotTag(tag))) else f.(tags := f.tags + [tag])
  }

  /** Toggling an unselected tag twice gives the filters back. */
  lemma ToggleTagTwice(f: Filters, tag: string)
    requires tag !in f.tags
    ensures ToggleTagFilter(ToggleTagFilter(f, tag), tag) == f
  {
    FilterAll(f.tags, NotTag(tag));
    FilterAppend(f.tags, [tag], NotTag(tag));
    assert Filter([tag], NotTag(tag)) == [];
  }
}
