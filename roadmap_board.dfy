/** The roadmap board: items in four status columns, moved left and right, and the Markdown export. */
module RoadmapBoard {
  import opened Optional
  import opened Text
  import opened Lists

  datatype Status = Backlog | Planned | InProgress | Completed

  datatype ItemPriority = HighPriority | MediumPriority | LowPriority

  /** A quarter, or none (the empty string in the form). */
  datatype Quarter = Q1 | Q2 | Q3 | Q4 | NoQuarter

  datatype Item = Item(
    id: string,
    title: string,
    description: string,
    status: Status,
    priority: ItemPriority,
    quarter: Quarter,
    assignee: string)

  /** The add-item form: an item without its id. */
  datatype ItemDraft = ItemDraft(
    title: string,
    description: string,
    status: Status,
    priority: ItemPriority,
    quarter: Quarter,
    assignee: string)

  /** The state the form is reset to: empty text, backlog, medium, no quarter. */
  const BlankItemDraft := ItemDraft("", "", Backlog, MediumPriority, NoQuarter, "")

  /** The left-to-right order of the columns. */
  const StatusOrder: seq<Status> := [Backlog, Planned, InProgress, Completed]

  /** `statusOrder.indexOf(status)`. */
  function StatusIndex(s: Status): (k: nat)
    ensures k < |StatusOrder| && StatusOrder[k] == s
  {
    match s
    case Backlog => 0
    case Planned => 1
    case InProgress => 2
    case Completed => 3
  }

  datatype Direction = Left | Right

  /** One step along the status order, or no change at either end. */
  function MoveStatus(s: Status, d: Direction): (r: Status)
    ensures d == Left && StatusIndex(s) > 0 ==> StatusIndex(r) == StatusIndex(s) - 1
    ensures d == Right && StatusIndex(s) < |StatusOrder| - 1 ==> StatusIndex(r) == StatusIndex(s) + 1
    ensures d == Left && s == Backlog ==> r == s
    ensures d == Right && s == Completed ==> r == s
  {
    var k := StatusIndex(s);
    if d == Left && k > 0 then StatusOrder[k - 1]
    else if d == Right && k < |StatusOrder| - 1 then StatusOrder[k + 1]
    else s
  }

  /** A step right undoes a step left, and the other way round, away from the ends. */
  lemma MoveRoundTrip(s: Status)
    ensures s != Completed ==> MoveStatus(MoveStatus(s, Right), Left) == s
    ensures s != Backlog ==> MoveStatus(MoveStatus(s, Left), Right) == s
  {
  }

  /** `moveItem`: every item with the id takes one step; nothing else changes. */
  function MoveItem(items: seq<Item>, id: string, d: Direction): (r: seq<Item>)
    ensures |r| == |items|
    ensures forall i :: 0 <= i < |items| && items[i].id != id ==> r[i] == items[i]
    ensures forall i :: 0 <= i < |items| && items[i].id == id ==>
      r[i] == items[i].(status := MoveStatus(items[i].status, d))
  {
    seq(|items|, i requires 0 <= i < |items| =>
      if items[i].id == id then items[i].(status := MoveStatus(items[i].status, d)) else items[i])
  }

  function ItemId(now: nat): string {
    StampId("item", now)
  }

  /**
   * `handleAddItem`: a title that is blank after trimming changes nothing; otherwise the draft, with an
   * id from the clock reading, is appended as the last item and the form is reset.
   */
  function AddItem(items: seq<Item>, draft: ItemDraft, now: nat): (r: (seq<Item>, ItemDraft))
    ensures IsBlank(draft.title) ==> r == (items, draft)
    ensures !IsBlank(draft.title) ==>
      r.1 == BlankItemDraft
      && |r.0| == |items| + 1 && r.0[..|items|] == items
      && r.0[|items|] == Item(ItemId(now), draft.title, draft.description, draft.status, draft.priority,
                              draft.quarter, draft.assignee)
  {
    BlankIffTrimEmpty(draft.title);
    if Trim(draft.title) == "" then (items, draft)
    else
      var item := Item(ItemId(now), draft.title, draft.description, draft.status, draft.priority,
                       draft.quarter, draft.assignee);
      (items + [item], BlankItemDraft)
  }

  /**
   * `handleEditItem`: with no item being edited, or a blank title, nothing changes; otherwise every item
   * with the edited item's id is replaced by it.
   */
  function EditItem(items: seq<Item>, editing: Option<Item>): (r: seq<Item>)
    ensures editing.None? || IsBlank(editing.value.title) ==> r == items
    ensures editing.Some? && !IsBlank(editing.value.title) ==>
      |r| == |items|
      && forall i :: 0 <= i < |items| ==> r[i] == if items[i].id == editing.value.id then editing.value else items[i]
  {
    match editing
    case None => items
    case Some(e) =>
      BlankIffTrimEmpty(e.title);
      if Trim(e.title) == "" then items
      else seq(|items|, i requires 0 <= i < |items| => if items[i].id == e.id then e else items[i])
  }

  function OtherItem(id: string): Item -> bool {
    (item: Item) => item.id != id
  }

  /** `handleDeleteItem`: drops the items with the id and keeps the rest, in order. */
  function DeleteItem(items: seq<Item>, id: string): (r: seq<Item>)
    ensures forall i :: 0 <= i < |r| ==> r[i].id != id && r[i] in items
    ensures forall i :: 0 <= i < |items| && items[i].id != id ==> items[i] in r
  {
    Filter(items, OtherItem(id))
  }

  lemma DeleteItemKeepsOrder(items: seq<Item>, id: string)
    ensures IsSubseq(DeleteItem(items, id), items)
  {
    FilterIsSubseq(items, OtherItem(id));
  }

  /** Deleting an item just added, under a fresh id, gives back the list as it was. */
  lemma AddThenDelete(items: seq<Item>, draft: ItemDraft, now: nat)
    requires !IsBlank(draft.title)
    requires forall i :: 0 <= i < |items| ==> items[i].id != ItemId(now)
    ensures DeleteItem(AddItem(items, draft, now).0, ItemId(now)) == items
  {
    var p := OtherItem(ItemId(now));
    var added := AddItem(items, draft, now).0;
    assert added == items + [added[|items|]];
    FilterAppend(items, [added[|items|]], p);
    FilterAll(items, p);
    assert Filter([added[|items|]], p) == [];
  }

  function HasStatus(s: Status): Item -> bool {
    (item: Item) => item.status == s
  }

  /** The items of one column, in list order. */
  function Column(items: seq<Item>, s: Status): (r: seq<Item>)
    ensures forall i :: 0 <= i < |r| ==> r[i].status == s && r[i] in items
    ensures forall i :: 0 <= i < |items| && items[i].status == s ==> items[i] in r
  {
    Filter(items, HasStatus(s))
  }

  datatype StatusCounts = StatusCounts(backlog: nat, planned: nat, inProgress: nat, completed: nat)

  /** Every item is in exactly one column, so the column sizes add up to the number of items. */
  lemma {:induction false} ColumnsPartition(items: seq<Item>)
    ensures |Column(items, Backlog)| + |Column(items, Planned)| + |Column(items, InProgress)|
      + |Column(items, Completed)| == |items|
  {
    if items != [] {
      ColumnsPartition(items[1..]);
      assert items == [items[0]] + items[1..];
      FilterAppend([items[0]], items[1..], HasStatus(Backlog));
      FilterAppend([items[0]], items[1..], HasStatus(Planned));
      FilterAppend([items[0]], items[1..], HasStatus(InProgress));
      FilterAppend([items[0]], items[1..], HasStatus(Completed));
    }
  }

  /** `statusCounts`: the size of each column; the four add up to the number of items. */
  function CountStatuses(items: seq<Item>): (c: StatusCounts)
    ensures c.backlog + c.planned + c.inProgress + c.completed == |items|
    ensures c.backlog == |Column(items, Backlog)| && c.planned == |Column(items, Planned)|
    ensures c.inProgress == |Column(items, InProgress)| && c.completed == |Column(items, Completed)|
  {
    ColumnsPartition(items);
    StatusCounts(|Column(items, Backlog)|, |Column(items, Planned)|, |Column(items, InProgress)|,
                 |Column(items, Completed)|)
  }

  // ---------------------------------------------------------------------------------------------
  // Markdown export

  function PriorityText(p: ItemPriority): string {
    match p
    case HighPriority => "high"
    case MediumPriority => "medium"
    case LowPriority => "low"
  }

  /** `item.quarter || 'Not scheduled'`. */
  function QuarterText(q: Quarter): string {
    match q
    case Q1 => "Q1"
    case Q2 => "Q2"
    case Q3 => "Q3"
    case Q4 => "Q4"
    case NoQuarter => "Not scheduled"
  }

  /** `item.assignee || 'Unassigned'`. */
  function AssigneeText(a: string): string {
    if a == "" then "Unassigned" else a
  }

  function StatusHeading(s: Status): string {
    match s
    case Backlog => "## Backlog\n\n"
    case Planned => "## Planned\n\n"
    case InProgress => "## In Progress\n\n"
    case Completed => "## Completed\n\n"
  }

  function ItemTitleLine(item: Item): string {
    "### " + item.title + "\n"
  }

  function ItemPriorityLine(item: Item): string {
    "- Priority: " + PriorityText(item.priority) + "\n"
  }

  function ItemQuarterLine(item: Item): string {
    "- Quarter: " + QuarterText(item.quarter) + "\n"
  }

  function ItemAssigneeLine(item: Item): string {
    "- Assignee: " + AssigneeText(item.assignee) + "\n\n"
  }

  function ItemDescriptionLine(item: Item): string {
    item.description + "\n\n"
  }

  function ItemBlock(item: Item): string {
    ItemTitleLine(item) + ItemPriorityLine(item) + ItemQuarterLine(item) + ItemAssigneeLine(item)
    + ItemDescriptionLine(item)
  }

  function ItemBlocks(items: seq<Item>): seq<string> {
    seq(|items|, i requires 0 <= i < |items| => ItemBlock(items[i]))
  }

  /** One column: its heading, then the block of each of its items, in list order. */
  function ColumnMd(items: seq<Item>, s: Status): string {
    StatusHeading(s) + Concat(ItemBlocks(Column(items, s)))
  }

  /** The whole roadmap: the title, then the four columns in status order. */
  function RoadmapMd(items: seq<Item>): string {
    "# Product Roadmap\n\n" + ColumnMd(items, Backlog) + ColumnMd(items, Planned) + ColumnMd(items, InProgress)
    + ColumnMd(items, Completed)
  }

  /** One of the four column loops of `downloadRoadmap`. */
  method AppendColumn(content0: string, items: seq<Item>, s: Status) returns (content: string)
    ensures content == content0 + ColumnMd(items, s)
  {
    content := content0 + StatusHeading(s);
    var column := Column(items, s);
    ghost var before := content;
    ghost var blocks := ItemBlocks(column);
    for j := 0 to |column|
      invariant content == before + Concat(blocks[..j])
    {
      var item := column[j];
      ghost var done := content;
      content := content + ItemTitleLine(item);
      content := content + ItemPriorityLine(item);
      AppendAssoc(done, ItemTitleLine(item), ItemPriorityLine(item));
      content := content + ItemQuarterLine(item);
      AppendAssoc(done, ItemTitleLine(item) + ItemPriorityLine(item), ItemQuarterLine(item));
      content := content + ItemAssigneeLine(item);
      AppendAssoc(done, ItemTitleLine(item) + ItemPriorityLine(item) + ItemQuarterLine(item), ItemAssigneeLine(item));
      content := content + ItemDescriptionLine(item);
      AppendAssoc(done, ItemTitleLine(item) + ItemPriorityLine(item) + ItemQuarterLine(item) + ItemAssigneeLine(item),
                  ItemDescriptionLine(item));
      AppendAssoc(before, Concat(blocks[..j]), blocks[j]);
      ConcatSnoc(blocks, j);
    }
    assert blocks[..|column|] == blocks;
    AppendAssoc(content0, StatusHeading(s), Concat(blocks));
  }

  /** `downloadRoadmap`: the Markdown text and the fixed file name. */
  method DownloadRoadmap(items: seq<Item>) returns (content: string, filename: string)
    ensures content == RoadmapMd(items)
    ensures filename == "product-roadmap.md"
  {
    content := "# Product Roadmap\n\n";
    content := AppendColumn(content, items, Backlog);
    content := AppendColumn(content, items, Planned);
    content := AppendColumn(content, items, InProgress);
    content := AppendColumn(content, items, Completed);
    filename := "product-roadmap.md";
  }

  /**
   * An item's block appears in the column of its own status, at the position given by the items of
   * that status before it, and its Quarter and Assignee lines carry the placeholders for empty values.
   */
  lemma ItemUnderItsStatus(items: seq<Item>, s: Status, j: nat)
    requires j < |Column(items, s)|
    ensures ColumnMd(items, s)
      == StatusHeading(s) + (Concat(ItemBlocks(Column(items, s))[..j]) + ItemBlock(Column(items, s)[j])
                             + Concat(ItemBlocks(Column(items, s))[j + 1..]))
    ensures Column(items, s)[j].status == s
    ensures Column(items, s)[j].quarter == NoQuarter ==> ItemQuarterLine(Column(items, s)[j]) == "- Quarter: " + "Not scheduled" + "\n"
    ensures Column(items, s)[j].assignee == "" ==> ItemAssigneeLine(Column(items, s)[j]) == "- Assignee: " + "Unassigned" + "\n\n"
  {
    var column := Column(items, s);
    var blocks := ItemBlocks(column);
    ConcatAt(blocks, j);
    assert blocks[j] == ItemBlock(column[j]);
  }
}
