/**
 * The detail view of one user story (`DetailViewComponent`): the child tasks
 * it loads and sorts, the hours they add up to, the estimate it shows, and
 * the daily report the user composes from the story and its siblings. The
 * slug of the branch name and the tag rewriting live in `DetailText`, the
 * state colours in `StateColors`.
 */
module DetailView {
  import opened Wrappers
  import opened JsText
  import opened JsValue
  import opened Seqs
  import opened Http
  import opened WorkItems
  import opened AzureConfiguration
  import AzureApi
  import StoryList

  // ---------------------------------------------------------------------
  // Child tasks
  // ---------------------------------------------------------------------

  /** A relation `loadRealTasks` follows: a child link, or any link whose URL names a work item. */
  predicate IsTaskLink(r: Relation)
  {
    r.rel == HierarchyForward || Contains(r.url, "/workItems/")
  }

  /** The ids `loadRealTasks` asks for: those parsed from the followed relations, `NaN` dropped. */
  function TaskIds(wi: WorkItem): (ids: seq<int>)
    ensures forall id :: id in ids <==>
      exists r :: r in RelationsOf(wi) && IsTaskLink(r) && IdFromUrl(r.url) == Some(id)
  {
    var links := Filter(RelationsOf(wi), IsTaskLink);
    forall id ensures id in ParsedIds(links) <==> exists r :: r in links && IdFromUrl(r.url) == Some(id) {
      ParsedIdsMembers(links, id);
    }
    ParsedIds(links)
  }

  /** The detail view asks for every child the story list asks for (and possibly more). */
  lemma TaskIdsCoverChildIds(wi: WorkItem)
    ensures forall id :: id in StoryList.ChildIds(wi) ==> id in TaskIds(wi)
  {
  }

  predicate SortedById(s: seq<WorkItem>)
  {
    forall i, j :: 0 <= i < j < |s| ==> s[i].id <= s[j].id
  }

  /** One insertion step: `x` goes before the first item whose id is not smaller. */
  function InsertById(x: WorkItem, s: seq<WorkItem>): (r: seq<WorkItem>)
    requires SortedById(s)
    ensures SortedById(r)
    ensures |r| == |s| + 1
    ensures r[0] == x || (s != [] && r[0] == s[0])
  {
    if s == [] || x.id <= s[0].id then [x] + s
    else
      var rest := InsertById(x, s[1..]);
      assert s[0].id <= rest[0].id;
      [s[0]] + rest
  }

  /** Inserting adds exactly the one item. */
  lemma {:induction false} InsertByIdPermutes(x: WorkItem, s: seq<WorkItem>)
    requires SortedById(s)
    ensures multiset(InsertById(x, s)) == multiset(s) + multiset{x}
  {
    if s != [] && x.id > s[0].id {
      InsertByIdPermutes(x, s[1..]);
      assert s == [s[0]] + s[1..];
    }
  }

  /** `sort((a, b) => a.id - b.id)`: ordered by id, the same items. */
  function SortById(s: seq<WorkItem>): (r: seq<WorkItem>)
    ensures SortedById(r)
    ensures multiset(r) == multiset(s)
  {
    if s == [] then []
    else
      assert s == [s[0]] + s[1..];
      InsertByIdPermutes(s[0], SortById(s[1..]));
      InsertById(s[0], SortById(s[1..]))
  }

  /**
   * `realTasks` after `loadRealTasks(wi)` with the server's reply: the `Task`
   * items of the reply ordered by id; nothing when there is nothing to ask,
   * in demo mode, when the request fails or the headers cannot be built.
   */
  function RealTasksAfter(conf: AzureConfig, wi: WorkItem, reply: Result<seq<WorkItem>, HttpError>): (tasks: seq<WorkItem>)
    ensures SortedById(tasks)
    ensures forall t :: t in tasks ==> IsTask(t)
    ensures TaskIds(wi) == [] || conf.isDemoMode || AuthorizationOf(conf).None? || reply.Err? ==> tasks == []
    ensures AzureApi.WorkItemsByIdsPlan(conf, TaskIds(wi), false).Send? && reply.Ok? ==>
              multiset(tasks) == multiset(Filter(reply.value, IsTask))
  {
    match AzureApi.WorkItemsByIds(conf, TaskIds(wi), false, reply)
    case Ok(items) =>
      var tasks := SortById(Filter(items, IsTask));
      assert forall t :: t in tasks ==> t in multiset(Filter(items, IsTask));
      tasks
    case Err(_) => []
  }

  /** The request `loadRealTasks` makes for the task ids: none when there are none or in demo mode. */
  function TasksRequest(conf: AzureConfig, wi: WorkItem): (plan: AzureApi.Plan)
    ensures plan.NoRequest? <==> TaskIds(wi) == [] || conf.isDemoMode
    ensures plan.Send? ==> plan.req.verb == "GET" && plan.req.url == BaseUrlOf(conf) + "/workitems?ids=" + AzureApi.IdList(TaskIds(wi)) + "&$expand=all&api-version=7.0"
    ensures plan.Send? ==> "x-force-refresh" !in plan.req.headers
  {
    AzureApi.WorkItemsByIdsPlan(conf, TaskIds(wi), false)
  }

  /** The detail view's `totalHours` for a reply equals the hours the story list books for the same reply: sorting does not change the sum. */
  lemma TotalHoursAgreesWithList(conf: AzureConfig, wi: WorkItem, reply: Result<seq<WorkItem>, HttpError>)
    requires AzureApi.WorkItemsByIdsPlan(conf, TaskIds(wi), false).Send?
    ensures SumCompleted(RealTasksAfter(conf, wi, reply)) == StoryList.TaskHours(reply)
  {
    if reply.Ok? {
      SumCompletedPermutation(RealTasksAfter(conf, wi, reply), Filter(reply.value, IsTask));
    }
  }

  /** `totalEstimated`: story points, else effort, else 0, by truthiness. */
  function TotalEstimated(wi: WorkItem): (v: Value)
    ensures Truthy(Get(wi.fields, StoryPointsField)) ==> v == Get(wi.fields, StoryPointsField)
    ensures !Truthy(Get(wi.fields, StoryPointsField)) && Truthy(Get(wi.fields, EffortField)) ==> v == Get(wi.fields, EffortField)
    ensures !Truthy(Get(wi.fields, StoryPointsField)) && !Truthy(Get(wi.fields, EffortField)) ==> v == Num(0)
  {
    Or(Or(Get(wi.fields, StoryPointsField), Get(wi.fields, EffortField)), Num(0))
  }

  // ---------------------------------------------------------------------
  // Daily report
  // ---------------------------------------------------------------------

  /** One demand already added to the report. */
  datatype DailyReport = DailyReport(us: WorkItem, hours: int, notes: string)

  /** What the report reads from the view: the open story, the stories offered, and `totalHours`. */
  datatype DailyContext = DailyContext(workItem: WorkItem, stories: seq<WorkItem>, totalHours: int)

  /** `getUSRealHours`: the loaded tasks' total for the open story, the booked hours (or 0) for any other. */
  function RealHours(ctx: DailyContext, us: WorkItem): Value
  {
    if us.id == ctx.workItem.id then Num(ctx.totalHours) else Or(Get(us.fields, CompletedWorkField), Num(0))
  }

  /** `getUSEstimatedHours`: hour estimate, else effort, else 0. */
  function EstimatedHours(us: WorkItem): Value
  {
    Or(Or(Get(us.fields, StoryPointsHoursField), Get(us.fields, EffortField)), Num(0))
  }

  /** The three lines the report writes for one story. */
  const StoryLabel: string := "#US "
  const HoursLabel: string := "\nReal/ Est /Variação: "
  const NotesLabel: string := "h\nObservações: "
  const EntrySeparator: string := "\n\n"

  function EntryText(ctx: DailyContext, us: WorkItem, hours: int, notes: string): string
  {
    StoryLabel + IntToString(us.id) + " - " + ValueText(Get(us.fields, TitleField))
    + HoursLabel + ValueText(RealHours(ctx, us)) + "h / " + ValueText(EstimatedHours(us))
    + "h +" + IntToString(hours) + NotesLabel + notes
  }

  /** `stories.find(s => s.id === id)`: the first story with the id, if any. */
  function FindById(stories: seq<WorkItem>, id: int): (r: Option<WorkItem>)
    ensures r.None? <==> forall j :: 0 <= j < |stories| ==> stories[j].id != id
    ensures r.Some? ==> exists i :: 0 <= i < |stories| && stories[i] == r.value && r.value.id == id
                                    && forall j :: 0 <= j < i ==> stories[j].id != id
  {
    Find(stories, (s: WorkItem) => s.id == id)
  }

  /** The first story with the chosen id among those offered, else the open story. */
  function SelectedStory(ctx: DailyContext, usId: int): (us: WorkItem)
    ensures us == ctx.workItem || (us in ctx.stories && us.id == usId)
    ensures (forall j :: 0 <= j < |ctx.stories| ==> ctx.stories[j].id != usId) ==> us == ctx.workItem
    ensures (exists s :: s in ctx.stories && s.id == usId) ==>
              exists i :: 0 <= i < |ctx.stories| && ctx.stories[i] == us && us.id == usId
                          && forall j :: 0 <= j < i ==> ctx.stories[j].id != usId
  {
    match FindById(ctx.stories, usId)
    case Some(s) => s
    case None => ctx.workItem
  }

  function EntryTexts(ctx: DailyContext, reports: seq<DailyReport>): seq<string>
  {
    seq(|reports|, i requires 0 <= i < |reports| => EntryText(ctx, reports[i].us, reports[i].hours, reports[i].notes))
  }

  /** The body between header and footer: the added demands, then the entry being edited. */
  function DailyBody(ctx: DailyContext, reports: seq<DailyReport>, usId: int, hours: int, notes: string): string
  {
    var current := EntryText(ctx, SelectedStory(ctx, usId), hours, notes);
    if |reports| > 0 then Join(EntryTexts(ctx, reports), EntrySeparator) + EntrySeparator + current else current
  }

  const ReportTitle: string := "Relatório Diário - "
  const PlanningHeading: string := "\n#### Planejamento do Dia\n\n"
  const PendingHeading: string := "\n\n#### Pendências ou Bloqueios:\n"
  const NoPending: string := "Nenhuma."

  /** The footer: the pending items, or `Nenhuma.` when none were written. */
  function Footer(pending: string): (f: string)
    ensures pending == "" ==> EndsWith(f, NoPending)
    ensures pending != "" ==> EndsWith(f, pending)
  {
    var tail := if pending == "" then NoPending else pending;
    assert (PendingHeading + tail)[|PendingHeading|..] == tail;
    PendingHeading + tail
  }

  /**
   * `getDailyPreview`, with `today` the formatted date: the header, the added
   * demands and the entry being edited separated by blank lines, and the footer.
   */
  function DailyPreview(today: string, ctx: DailyContext, reports: seq<DailyReport>, usId: int, hours: int, notes: string, pending: string): (text: string)
    ensures text == ReportTitle + today + PlanningHeading
                    + Join(EntryTexts(ctx, reports) + [EntryText(ctx, SelectedStory(ctx, usId), hours, notes)], EntrySeparator)
                    + Footer(pending)
    ensures StartsWith(text, ReportTitle + today)
    ensures pending == "" ==> EndsWith(text, NoPending)
    ensures pending != "" ==> EndsWith(text, pending)
  {
    var body := DailyBody(ctx, reports, usId, hours, notes);
    DailyBodyIsJoin(ctx, reports, usId, hours, notes);
    FramedText(ReportTitle + today, PlanningHeading, body, Footer(pending), if pending == "" then NoPending else pending);
    ReportTitle + today + PlanningHeading + body + Footer(pending)
  }

  /** Text framed by a head and a footer starts with the head and ends as the footer does. */
  lemma FramedText(head: string, heading: string, body: string, footer: string, tail: string)
    requires EndsWith(footer, tail)
    ensures StartsWith(head + heading + body + footer, head) && EndsWith(head + heading + body + footer, tail)
  {
    EndsWithConcat(head + heading + body, footer, tail);
    assert (head + heading + body + footer)[..|head|] == head;
  }

  /** The body is every entry, the one being edited last, joined by blank lines. */
  lemma DailyBodyIsJoin(ctx: DailyContext, reports: seq<DailyReport>, usId: int, hours: int, notes: string)
    ensures DailyBody(ctx, reports, usId, hours, notes)
            == Join(EntryTexts(ctx, reports) + [EntryText(ctx, SelectedStory(ctx, usId), hours, notes)], EntrySeparator)
  {
    var current := EntryText(ctx, SelectedStory(ctx, usId), hours, notes);
    if |reports| > 0 {
      JoinSnoc(EntryTexts(ctx, reports), current, EntrySeparator);
    } else {
      assert EntryTexts(ctx, reports) + [current] == [current];
    }
  }

  lemma EntryTextsSnoc(ctx: DailyContext, reports: seq<DailyReport>, r: DailyReport)
    ensures EntryTexts(ctx, reports + [r]) == EntryTexts(ctx, reports) + [EntryText(ctx, r.us, r.hours, r.notes)]
  {
  }

  /**
   * `addDemand` freezes the entry being edited into the history and starts a
   * blank one for the same story: the body grows by exactly that blank entry.
   */
  lemma AddDemandAppendsBlankEntry(ctx: DailyContext, reports: seq<DailyReport>, usId: int, hours: int, notes: string)
    ensures var us := SelectedStory(ctx, usId);
            DailyBody(ctx, reports + [DailyReport(us, hours, notes)], usId, 0, "")
            == DailyBody(ctx, reports, usId, hours, notes) + EntrySeparator + EntryText(ctx, us, 0, "")
  {
    var us := SelectedStory(ctx, usId);
    var r := DailyReport(us, hours, notes);
    EntryTextsSnoc(ctx, reports, r);
    if |reports| > 0 {
      JoinSnoc(EntryTexts(ctx, reports), EntryText(ctx, us, hours, notes), EntrySeparator);
    } else {
      assert EntryTexts(ctx, reports + [r]) == [EntryText(ctx, us, hours, notes)];
    }
  }

  /** The open story's entry reports the loaded tasks' total as its real hours. */
  lemma OpenStoryReportsTotalHours(ctx: DailyContext, hours: int, notes: string)
    ensures var t := EntryText(ctx, ctx.workItem, hours, notes);
            t == StoryLabel + IntToString(ctx.workItem.id) + " - " + ValueText(Get(ctx.workItem.fields, TitleField))
                 + HoursLabel + IntToString(ctx.totalHours) + "h / " + ValueText(EstimatedHours(ctx.workItem))
                 + "h +" + IntToString(hours) + NotesLabel + notes
  {
  }

  // ---------------------------------------------------------------------
  // The component
  // ---------------------------------------------------------------------

  class DetailViewComponent {
    var workItem: WorkItem
    var availableStories: seq<WorkItem>
    var realTasks: seq<WorkItem>
    var showDailyModal: bool
    var dailyHoursToday: int
    var dailyNotes: string
    var dailyPending: string
    var dailyUSId: int
    var dailyReports: seq<DailyReport>

    /** `totalHours`: the completed work of the loaded tasks. */
    function TotalHours(): int
      reads this`realTasks
    {
      SumCompleted(realTasks)
    }

    function Context(): DailyContext
      reads this`workItem, this`availableStories, this`realTasks
    {
      DailyContext(workItem, availableStories, TotalHours())
    }

    /** The report body as shown: the added demands and the entry being edited. */
    function Body(): string
      reads this`workItem, this`availableStories, this`realTasks, this`dailyReports, this`dailyUSId, this`dailyHoursToday, this`dailyNotes
    {
      DailyBody(Context(), dailyReports, dailyUSId, dailyHoursToday, dailyNotes)
    }

    function Preview(today: string): string
      reads this
    {
      DailyPreview(today, Context(), dailyReports, dailyUSId, dailyHoursToday, dailyNotes, dailyPending)
    }

    /** The component for a story: the first run of the `workItem` effect loads its tasks. */
    constructor(workItem: WorkItem, availableStories: seq<WorkItem>, conf: AzureConfig, reply: Result<seq<WorkItem>, HttpError>)
      ensures this.workItem == workItem && this.availableStories == availableStories
      ensures realTasks == RealTasksAfter(conf, workItem, reply)
      ensures !showDailyModal && dailyReports == [] && dailyHoursToday == 0 && dailyNotes == "" && dailyPending == "" && dailyUSId == 0
    {
      this.workItem := workItem;
      this.availableStories := availableStories;
      realTasks := RealTasksAfter(conf, workItem, reply);
      showDailyModal := false;
      dailyHoursToday := 0;
      dailyNotes := "";
      dailyPending := "";
      dailyUSId := 0;
      dailyReports := [];
    }

    /**
     * `loadRealTasks`: the request it makes (none without task ids or in
     * demo mode) and the tasks it keeps from the reply; nothing else changes.
     */
    method LoadRealTasks(conf: AzureConfig, wi: WorkItem, reply: Result<seq<WorkItem>, HttpError>) returns (plan: AzureApi.Plan)
      modifies this`realTasks
      ensures plan == TasksRequest(conf, wi)
      ensures realTasks == RealTasksAfter(conf, wi, reply)
    {
      realTasks := [];
      var ids := TaskIds(wi);
      plan := TasksRequest(conf, wi);
      if |ids| > 0 {
        realTasks := RealTasksAfter(conf, wi, reply);
      }
    }

    /** The `workItem` effect: a new story is shown and its tasks are loaded; the daily report is left as it was. */
    method ShowStory(wi: WorkItem, conf: AzureConfig, reply: Result<seq<WorkItem>, HttpError>)
      modifies this`workItem, this`realTasks
      ensures workItem == wi && realTasks == RealTasksAfter(conf, wi, reply)
    {
      workItem := wi;
      var _ := LoadRealTasks(conf, wi, reply);
    }

    /** `openDailyModal`: a fresh report on the open story, shown. */
    method OpenDailyModal()
      modifies this`dailyHoursToday, this`dailyNotes, this`dailyPending, this`dailyUSId, this`dailyReports, this`showDailyModal
      ensures showDailyModal && dailyReports == [] && dailyUSId == workItem.id
      ensures dailyHoursToday == 0 && dailyNotes == "" && dailyPending == ""
      ensures SelectedStory(Context(), dailyUSId).id == workItem.id
      ensures Body() == EntryText(Context(), SelectedStory(Context(), dailyUSId), 0, "")
    {
      dailyHoursToday := 0;
      dailyNotes := "";
      dailyPending := "";
      dailyUSId := workItem.id;
      dailyReports := [];
      showDailyModal := true;
    }

    /** `onUSChange`: another story chosen, its hours and notes blank. */
    method OnUSChange(newId: int)
      modifies this`dailyUSId, this`dailyHoursToday, this`dailyNotes
      ensures dailyUSId == newId && dailyHoursToday == 0 && dailyNotes == ""
    {
      dailyUSId := newId;
      dailyHoursToday := 0;
      dailyNotes := "";
    }

    /** `addDemand`: the entry being edited joins the history and a blank one for the same story follows it. */
    method AddDemand()
      modifies this`dailyReports, this`dailyHoursToday, this`dailyNotes
      ensures dailyReports == old(dailyReports) + [DailyReport(SelectedStory(Context(), dailyUSId), old(dailyHoursToday), old(dailyNotes))]
      ensures dailyHoursToday == 0 && dailyNotes == ""
      ensures Body() == old(Body()) + EntrySeparator + EntryText(Context(), SelectedStory(Context(), dailyUSId), 0, "")
    {
      var ctx := Context();
      var us := SelectedStory(ctx, dailyUSId);
      ghost var reports, usId, hours, notes := dailyReports, dailyUSId, dailyHoursToday, dailyNotes;
      ghost var before := Body();
      assert before == DailyBody(ctx, reports, usId, hours, notes);
      dailyReports := dailyReports + [DailyReport(us, dailyHoursToday, dailyNotes)];
      dailyHoursToday := 0;
      dailyNotes := "";
      assert Context() == ctx && dailyUSId == usId;
      assert SelectedStory(Context(), dailyUSId) == us;
      assert dailyReports == reports + [DailyReport(us, hours, notes)];
      assert Body() == DailyBody(ctx, reports + [DailyReport(us, hours, notes)], usId, 0, "");
      AddDemandAppendsBlankEntry(ctx, reports, usId, hours, notes);
    }
  }
}
