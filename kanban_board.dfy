/**
 * The Kanban board (`KanbanBoardComponent`): five columns, each the stories
 * whose lower-cased state is in the column's list, and the drag-and-drop
 * handler that reorders within a column or moves a story to another column and
 * asks the server to change its state. The drop lists' arrays are objects the
 * handler changes in place; the reply of the update request is a parameter.
 */
module KanbanBoard {
  import opened JsText
  import opened JsValue
  import opened Seqs
  import opened WorkItems
  import opened WorkItemDomain
  import AzureApi

  datatype Column = ToDo | InProgress | Testing | Review | Done

  /** The lower-case states each column collects. */
  function StatesOf(c: Column): seq<string>
  {
    match c
    case ToDo => ["new", "to do", "para fazer", "novo"]
    case InProgress => ["active", "in progress", "em desenvolvimento"]
    case Testing => ["testing", "testes", "resolved", "resolvido"]
    case Review => ["review", "revisão"]
    case Done => ["closed", "fechado"]
  }

  /** The state a story dropped on the column is given. */
  function DropState(c: Column): string
  {
    match c
    case ToDo => "New"
    case InProgress => "Active"
    case Testing => "Testing"
    case Review => "Review"
    case Done => "Closed"
  }

  predicate InColumn(e: Entity, c: Column)
  {
    e.state.Str? && ToLower(e.state.s) in StatesOf(c)
  }

  /** `filterByState`: the stories of the column, in list order. */
  function ColumnOf(stories: seq<Entity>, c: Column): (r: seq<Entity>)
    ensures IsSubsequence(r, stories)
    ensures forall e :: e in r <==> e in stories && InColumn(e, c)
  {
    Filter(stories, (e: Entity) => InColumn(e, c))
  }

  /** The five state lists are pairwise disjoint. */
  lemma StateListsDisjoint(a: Column, b: Column, state: string)
    requires state in StatesOf(a) && state in StatesOf(b)
    ensures a == b
  {
  }

  /** No story is in two columns. */
  lemma NoStoryInTwoColumns(stories: seq<Entity>, e: Entity, a: Column, b: Column)
    requires e in ColumnOf(stories, a) && e in ColumnOf(stories, b)
    ensures a == b
  {
    StateListsDisjoint(a, b, ToLower(e.state.s));
  }

  /** A state in no list, such as Azure's `Removed`, puts the story in no column. */
  lemma RemovedIsInNoColumn(stories: seq<Entity>, e: Entity, c: Column)
    requires e.state == Str("Removed")
    ensures e !in ColumnOf(stories, c)
  {
    LowerOfCapitalized("Removed", "removed");
    var lower := "removed";
    assert |lower| == 7 && lower[2] == 'm';
    NoStateLikeRemoved(c);
  }

  /** No column's state is seven letters long with an `m` in third place, as `removed` is. */
  lemma NoStateLikeRemoved(c: Column)
    ensures forall x :: x in StatesOf(c) ==> |x| != 7 || x[2] != 'm'
  {
    match c
    case ToDo =>
    case InProgress =>
    case Testing => assert "testing"[2] == 's';
    case Review => assert "revisão"[2] == 'v';
    case Done => assert "fechado"[2] == 'c';
  }

  /** The lower case of a capitalised literal: its first letter lowered. */
  lemma LowerOfCapitalized(s: string, lower: string)
    requires |s| > 0 && forall i :: 1 <= i < |s| ==> !IsUpperLatin1(s[i])
    requires lower == [ToLowerChar(s[0])] + s[1..]
    ensures ToLower(s) == lower
  {
    ToLowerCapitalized(s);
  }

  /** A story given a column's drop state belongs to that column on the next filtering. */
  lemma DropStateLandsInColumn(c: Column)
    ensures ToLower(DropState(c)) in StatesOf(c)
  {
    match c
    case ToDo => LowerOfCapitalized("New", "new");
    case InProgress => LowerOfCapitalized("Active", "active");
    case Testing => LowerOfCapitalized("Testing", "testing");
    case Review => LowerOfCapitalized("Review", "review");
    case Done => LowerOfCapitalized("Closed", "closed");
  }

  // How the completed states of `isCompleted` spread over the board.

  /** A `Closed` story is in the done column. */
  lemma ClosedIsInDoneColumn(e: Entity)
    requires e.state == Str("Closed")
    ensures IsCompleted(e) && InColumn(e, Done)
  {
    LowerOfCapitalized("Closed", "closed");
  }

  /** `Resolved` and `Resolvido` stories are complete but still in the testing column. */
  lemma ResolvedIsInTestingColumn(e: Entity)
    requires e.state == Str("Resolved") || e.state == Str("Resolvido")
    ensures IsCompleted(e) && InColumn(e, Testing)
  {
    if e.state == Str("Resolved") {
      LowerOfCapitalized("Resolved", "resolved");
    } else {
      LowerOfCapitalized("Resolvido", "resolvido");
    }
  }

  /** A `Done` story is complete but in no column at all. */
  lemma DoneIsInNoColumn(e: Entity, c: Column)
    requires e.state == Str("Done")
    ensures IsCompleted(e) && !InColumn(e, c)
  {
    LowerOfCapitalized("Done", "done");
    var lower := "done";
    assert |lower| == 4 && lower[0] == 'd';
    NoStateLikeDone(c);
  }

  /** No column's state is four letters long and starts with `d`, as `done` does. */
  lemma NoStateLikeDone(c: Column)
    ensures forall x :: x in StatesOf(c) ==> |x| != 4 || x[0] != 'd'
  {
    match c
    case ToDo => assert "novo"[0] == 'n';
    case InProgress =>
    case Testing =>
    case Review =>
    case Done =>
  }

  /** The only operation a cross-column drop sends. */
  function StateOp(newState: string): (op: AzureApi.PatchOp)
    ensures op.op == "replace" && op.value == AzureApi.Plain(Str(newState))
    ensures AzureApi.FieldName(op.path) == StateField
  {
    var path := "/fields/" + StateField;
    assert StartsWith(path, AzureApi.FieldsPath);
    AzureApi.PatchOp("replace", path, AzureApi.Plain(Str(newState)))
  }

  /** Applied to a story's fields, the state operation sets the state and nothing else. */
  lemma StateOpSetsState(fields: map<string, Value>, newState: string)
    ensures AzureApi.Applied(fields, [StateOp(newState)]) == fields[StateField := Str(newState)]
  {
    assert [StateOp(newState)][..0] == [];
  }

  /** CDK's index clamp. */
  function Clamp(i: int, max: int): (r: int)
    ensures max >= 0 ==> 0 <= r <= max
    ensures 0 <= i <= max ==> r == i
  {
    if i < 0 || max < 0 then 0 else if i > max then max else i
  }

  /** `moveItemInArray`: the item at `from` is taken out and put back at `to` (both clamped). */
  function MoveItem(s: seq<Entity>, from: int, to: int): (r: seq<Entity>)
    ensures multiset(r) == multiset(s)
    ensures |r| == |s|
    ensures |s| > 0 ==> r[Clamp(to, |s| - 1)] == s[Clamp(from, |s| - 1)]
  {
    var f := Clamp(from, |s| - 1);
    var t := Clamp(to, |s| - 1);
    if |s| == 0 || f == t then s
    else
      var rest := s[..f] + s[f + 1..];
      assert s == s[..f] + [s[f]] + s[f + 1..];
      assert multiset(s) == multiset(s[..f]) + multiset{s[f]} + multiset(s[f + 1..]);
      assert rest == rest[..t] + rest[t..];
      assert multiset(rest) == multiset(rest[..t]) + multiset(rest[t..]);
      assert multiset(rest) == multiset(s[..f]) + multiset(s[f + 1..]);
      var r := rest[..t] + [s[f]] + rest[t..];
      assert multiset(r) == multiset(rest[..t]) + multiset{s[f]} + multiset(rest[t..]);
      assert multiset(r) == multiset(rest) + multiset{s[f]};
      r
  }

  /** `transferArrayItem`: the item at `from` leaves the source list and is inserted into the target at `to` (clamped). */
  function Transfer(src: seq<Entity>, dst: seq<Entity>, from: int, to: int): (r: (seq<Entity>, seq<Entity>))
    ensures multiset(r.0) + multiset(r.1) == multiset(src) + multiset(dst)
    ensures |src| > 0 ==> |r.0| == |src| - 1 && |r.1| == |dst| + 1
    ensures |src| > 0 ==> r.1[Clamp(to, |dst|)] == src[Clamp(from, |src| - 1)]
  {
    if |src| == 0 then (src, dst)
    else
      var f := Clamp(from, |src| - 1);
      var t := Clamp(to, |dst|);
      assert src == src[..f] + [src[f]] + src[f + 1..];
      assert dst == dst[..t] + dst[t..];
      (src[..f] + src[f + 1..], dst[..t] + [src[f]] + dst[t..])
  }

  /**
   * The lists after a cross-column drop: the item moves over, and when the
   * update succeeded it carries the new state.
   */
  function Dropped(src: seq<Entity>, dst: seq<Entity>, from: int, to: int, newState: string, updated: bool): (r: (seq<Entity>, seq<Entity>))
    requires 0 <= from < |src|
    ensures |r.0| == |src| - 1 && |r.1| == |dst| + 1
    ensures var moved := r.1[Clamp(to, |dst|)];
            moved.id == src[from].id && moved.rev == src[from].rev && moved.title == src[from].title
            && moved.state == (if updated then Str(newState) else src[from].state)
    ensures r.1[Clamp(to, |dst|)] == src[from].(state := if updated then Str(newState) else src[from].state)
    ensures r.0 == Transfer(src, dst, from, to).0
    ensures forall i :: 0 <= i < |r.1| && i != Clamp(to, |dst|) ==> r.1[i] == Transfer(src, dst, from, to).1[i]
  {
    var (rest, target) := Transfer(src, dst, from, to);
    var t := Clamp(to, |dst|);
    if updated then (rest, target[t := target[t].(state := Str(newState))]) else (rest, target)
  }

  /** A successful drop onto a column leaves the moved story in that column. */
  lemma SuccessfulDropJoinsColumn(src: seq<Entity>, dst: seq<Entity>, from: int, to: int, c: Column)
    requires 0 <= from < |src|
    ensures var r := Dropped(src, dst, from, to, DropState(c), true);
            r.1[Clamp(to, |dst|)] in ColumnOf(r.1, c)
  {
    DropStateLandsInColumn(c);
  }

  /** The array behind a drop list. */
  class DropList {
    var data: seq<Entity>

    constructor(data: seq<Entity>)
      ensures this.data == data
    {
      this.data := data;
    }
  }

  /**
   * `drop`: within one list the item is only moved and nothing is sent;
   * across lists exactly one state replacement is sent for the item, the item
   * moves over, and its state changes only when `updated` (the update
   * request's outcome) says it succeeded.
   */
  method Drop(previous: DropList, container: DropList, previousIndex: int, currentIndex: int, newState: string, updated: bool)
    returns (ops: seq<AzureApi.PatchOp>, updateId: int)
    requires 0 <= previousIndex < |previous.data|
    modifies previous, container
    ensures previous == container ==> ops == [] && container.data == MoveItem(old(container.data), previousIndex, currentIndex)
    ensures previous != container ==> ops == [StateOp(newState)] && updateId == old(previous.data[previousIndex]).id
    ensures previous != container ==>
              (previous.data, container.data) == Dropped(old(previous.data), old(container.data), previousIndex, currentIndex, newState, updated)
  {
    if previous == container {
      container.data := MoveItem(container.data, previousIndex, currentIndex);
      return [], 0;
    }
    var item := previous.data[previousIndex];
    ops := [StateOp(newState)];
    updateId := item.id;
    var t := Clamp(currentIndex, |container.data|);
    var moved := Transfer(previous.data, container.data, previousIndex, currentIndex);
    previous.data := moved.0;
    container.data := moved.1;
    if updated {
      container.data := container.data[t := container.data[t].(state := Str(newState))];
    }
  }
}
