/**
 * The raw work-item shape the Azure DevOps REST API returns (`src/types.ts`):
 * an id, a revision, a `fields` dictionary keyed by namespaced field names and
 * an optional list of relations whose URL ends in the target item's id.
 */
module WorkItems {
  import opened Wrappers
  import opened JsText
  import opened JsValue
  import opened Seqs

  datatype Relation = Relation(rel: string, url: string)

  datatype WorkItem = WorkItem(id: int, rev: int, fields: map<string, Value>, relations: Option<seq<Relation>>)

  const TitleField := "System.Title"
  const TypeField := "System.WorkItemType"
  const StateField := "System.State"
  const DescriptionField := "System.Description"
  const AcceptanceCriteriaField := "Microsoft.VSTS.Common.AcceptanceCriteria"
  const AssignedToField := "System.AssignedTo"
  const CompletedWorkField := "Microsoft.VSTS.Scheduling.CompletedWork"
  const StoryPointsField := "Microsoft.VSTS.Scheduling.StoryPoints"
  const EffortField := "Microsoft.VSTS.Scheduling.Effort"
  const StoryPointsHoursField := "Custom.StoryPointsHours"

  const HierarchyForward := "System.LinkTypes.Hierarchy-Forward"
  const HierarchyReverse := "System.LinkTypes.Hierarchy-Reverse"

  function Title(w: WorkItem): string { Text(w.fields, TitleField) }
  function TypeOf(w: WorkItem): string { Text(w.fields, TypeField) }
  function State(w: WorkItem): string { Text(w.fields, StateField) }

  predicate IsTask(w: WorkItem) { TypeOf(w) == "Task" }
  predicate IsUserStory(w: WorkItem) { TypeOf(w) == "User Story" }

  /** `w.relations ?? []`. */
  function RelationsOf(w: WorkItem): seq<Relation>
  {
    if w.relations.Some? then w.relations.value else []
  }

  /** `parseInt(url.split('/').pop(), 10)`: the id at the end of a relation URL, `None` for `NaN`. */
  function IdFromUrl(url: string): Option<int>
  {
    ParseInt(LastSegment(url, '/'))
  }

  /** The ids that parse out of the relations' URLs, in order; `NaN` results are dropped. */
  function ParsedIds(rels: seq<Relation>): (ids: seq<int>)
    ensures |ids| <= |rels|
  {
    if rels == [] then []
    else
      var head := match IdFromUrl(rels[0].url) case Some(n) => [n] case None => [];
      head + ParsedIds(rels[1..])
  }

  /** An id is parsed exactly when some relation's URL yields it. */
  lemma {:induction false} ParsedIdsMembers(rels: seq<Relation>, id: int)
    ensures id in ParsedIds(rels) <==> exists r :: r in rels && IdFromUrl(r.url) == Some(id)
  {
    if rels != [] {
      ParsedIdsMembers(rels[1..], id);
      assert forall r :: r in rels <==> r == rels[0] || r in rels[1..];
    }
  }

  /** Splitting at the last `/` of `prefix + "/" + x` gives `x` when `x` has no `/`. */
  lemma {:induction false} LastSegmentAfterSlash(prefix: string, x: string)
    requires '/' !in x
    ensures LastSegment(prefix + "/" + x, '/') == x
  {
    if x != [] {
      var s := prefix + "/" + x;
      assert s[..|s| - 1] == prefix + "/" + x[..|x| - 1];
      LastSegmentAfterSlash(prefix, x[..|x| - 1]);
    }
  }

  /** An item URL `<base>/workitems/<id>` yields its id back. */
  lemma IdFromItemUrl(prefix: string, id: int)
    ensures IdFromUrl(prefix + "/" + IntToString(id)) == Some(id)
  {
    var t := IntToString(id);
    assert '/' !in t by {
      if id < 0 {
        var digits := NatToString(-id);
        assert t == "-" + digits;
        assert forall i :: 1 <= i < |t| ==> t[i] == digits[i - 1];
      }
    }
    LastSegmentAfterSlash(prefix, t);
    ParseIntOfIntToString(id);
  }

  /** A URL ending in `/` carries no id. */
  lemma TrailingSlashHasNoId(url: string)
    ensures IdFromUrl(url + "/") == None
  {
    assert LastSegment(url + "/", '/') == [];
  }

  /** `fields[CompletedWork] || 0`: the hours booked on an item. */
  function CompletedWork(w: WorkItem): int
  {
    NumberOr0(Get(w.fields, CompletedWorkField))
  }

  /** `items.reduce((acc, t) => acc + (t.fields[CompletedWork] || 0), 0)`. */
  function SumCompleted(items: seq<WorkItem>): (total: int)
    ensures items == [] ==> total == 0
  {
    if items == [] then 0 else SumCompleted(items[..|items| - 1]) + CompletedWork(items[|items| - 1])
  }

  lemma {:induction false} SumCompletedAppend(a: seq<WorkItem>, b: seq<WorkItem>)
    ensures SumCompleted(a + b) == SumCompleted(a) + SumCompleted(b)
  {
    if b != [] {
      assert (a + b)[..|a + b| - 1] == a + b[..|b| - 1];
      SumCompletedAppend(a, b[..|b| - 1]);
    } else {
      assert a + b == a;
    }
  }

  /** Taking one item out of a list takes its hours out of the total. */
  lemma {:induction false} SumCompletedRemove(b: seq<WorkItem>, k: nat)
    requires k < |b|
    ensures SumCompleted(b) == SumCompleted(b[..k] + b[k + 1..]) + CompletedWork(b[k])
  {
    var c, x, d := b[..k], b[k], b[k + 1..];
    assert b == c + [x] + d;
    SumCompletedAppend(c + [x], d);
    SumCompletedAppend(c, [x]);
    SumCompletedAppend(c, d);
    assert SumCompleted([x]) == CompletedWork(x) by {
      assert [x][..0] == [];
    }
  }

  /** The total does not depend on the order of the items. */
  lemma {:induction false} SumCompletedPermutation(a: seq<WorkItem>, b: seq<WorkItem>)
    requires multiset(a) == multiset(b)
    ensures SumCompleted(a) == SumCompleted(b)
    decreases |a|
  {
    if a != [] {
      var n := |a| - 1;
      var x := a[n];
      assert x in multiset(b);
      var k :| 0 <= k < |b| && b[k] == x;
      MultisetRemoveAt(a, n);
      MultisetRemoveAt(b, k);
      assert a[..n] + a[n + 1..] == a[..n];
      SumCompletedPermutation(a[..n], b[..k] + b[k + 1..]);
      SumCompletedRemove(a, n);
      SumCompletedRemove(b, k);
    }
  }
}
