/**
 * The root component (`AppComponent`): the story list with its id search and
 * state filters, the refresh chain that loads the developer's user stories and
 * books the hours of their child tasks on them, and the error banner. Replies
 * of the network calls are parameters: the WIQL query, the details request and,
 * per list of child ids, the task request.
 */
module StoryList {
  import opened Wrappers
  import opened JsText
  import opened JsValue
  import opened Seqs
  import opened Http
  import opened WorkItems
  import opened AzureConfiguration
  import opened ResponseCache
  import Base64
  import AzureApi
  import CacheInterception

  // ---------------------------------------------------------------------
  // State filters
  // ---------------------------------------------------------------------

  /** The status filters selected at start, which are also the categories of `activeStories`. */
  const DefaultFilters: seq<string> := ["testes", "em desenvolvimento", "revisão", "para fazer"]

  /** The statuses the filter bar offers. */
  const AvailableStatus: seq<string> := ["para fazer", "em desenvolvimento", "revisão", "testes", "resolvido", "fechado", "novo", "ativo"]

  /** The lower-cased state of a story. */
  function LowerState(s: WorkItem): string
  {
    ToLower(State(s))
  }

  /** Whether a lower-cased state passes the status filter `f` of the filter bar, with its English aliases. */
  predicate StatusMatches(state: string, f: string)
  {
    if f == "para fazer" then state == "new" || state == "to do" || state == "para fazer"
    else if f == "em desenvolvimento" then state == "active" || state == "in progress" || state == "em desenvolvimento"
    else if f == "revisão" then state == "review" || state == "revisão"
    else if f == "testes" then state == "testing" || state == "testes"
    else if f == "resolvido" then state == "resolved" || state == "resolvido"
    else if f == "fechado" then state == "closed" || state == "fechado"
    else state == f
  }

  /** `filters.some(...)`. */
  predicate MatchesAny(state: string, filters: seq<string>)
  {
    exists i :: 0 <= i < |filters| && StatusMatches(state, filters[i])
  }

  /** The category test of `activeStories`, which knows only the four active categories. */
  predicate ActiveMatches(state: string, f: string)
  {
    if f == "para fazer" then state == "new" || state == "to do" || state == "para fazer"
    else if f == "em desenvolvimento" then state == "active" || state == "in progress" || state == "em desenvolvimento"
    else if f == "revisão" then state == "review" || state == "revisão"
    else if f == "testes" then state == "testing" || state == "testes"
    else state == f
  }

  predicate IsActiveState(state: string)
  {
    exists i :: 0 <= i < |DefaultFilters| && ActiveMatches(state, DefaultFilters[i])
  }

  /** The lower-cased states `activeStories` keeps. */
  const ActiveStateNames: set<string> :=
    {"new", "to do", "para fazer", "active", "in progress", "em desenvolvimento", "review", "revisão", "testing", "testes"}

  /** The active categories, spelled out: exactly ten lower-case states are active. */
  lemma ActiveStatesSpelledOut(state: string)
    ensures IsActiveState(state) <==> state in ActiveStateNames
  {
    if state in ActiveStateNames {
      if state in {"new", "to do", "para fazer"} {
        assert ActiveMatches(state, DefaultFilters[3]);
      } else if state in {"active", "in progress", "em desenvolvimento"} {
        assert ActiveMatches(state, DefaultFilters[1]);
      } else if state in {"review", "revisão"} {
        assert ActiveMatches(state, DefaultFilters[2]);
      } else {
        assert ActiveMatches(state, DefaultFilters[0]);
      }
    }
  }

  /** `activeStories`: the stories in one of the four active categories, in list order. */
  function ActiveOf(stories: seq<WorkItem>): (r: seq<WorkItem>)
    ensures IsSubsequence(r, stories)
    ensures forall s :: s in r <==> s in stories && LowerState(s) in ActiveStateNames
  {
    forall s ensures IsActiveState(LowerState(s)) <==> LowerState(s) in ActiveStateNames {
      ActiveStatesSpelledOut(LowerState(s));
    }
    Filter(stories, (s: WorkItem) => IsActiveState(LowerState(s)))
  }

  /** Resolved and closed stories, in either language, are never active. */
  lemma ActiveExcludesFinished(stories: seq<WorkItem>, s: WorkItem)
    requires LowerState(s) in {"resolved", "resolvido", "closed", "fechado"}
    ensures s !in ActiveOf(stories)
  {
    assert LowerState(s) !in ActiveStateNames;
  }

  /** The predicate of the id search: the decimal id contains the query. */
  function IdMatches(q: string): WorkItem -> bool
  {
    (s: WorkItem) => Contains(IntToString(s.id), q)
  }

  /** The predicate of the status filter. */
  function StatusFilter(filters: seq<string>): WorkItem -> bool
  {
    (s: WorkItem) => MatchesAny(LowerState(s), filters)
  }

  /**
   * `filteredStories`: the stories whose id contains the trimmed query (no
   * test for an empty query) and whose state passes one of the selected
   * filters (no test when none is selected), in list order.
   */
  function FilterStories(stories: seq<WorkItem>, query: string, filters: seq<string>): (r: seq<WorkItem>)
    ensures IsSubsequence(r, stories)
    ensures forall s :: s in r <==> s in stories && Contains(IntToString(s.id), Trim(query))
                                    && (filters == [] || MatchesAny(LowerState(s), filters))
  {
    var q := Trim(query);
    assert forall s: WorkItem :: q == "" ==> OccursAt(IntToString(s.id), q, 0);
    SubsequenceOfSelf(stories);
    var byId := if q != "" then Filter(stories, IdMatches(q)) else stories;
    if |filters| > 0 then
      FilterFilter(stories, IdMatches(q), StatusFilter(filters));
      Filter(byId, StatusFilter(filters))
    else byId
  }

  /** With an empty search, the start-up filters show exactly the active stories. */
  lemma DefaultViewIsActive(stories: seq<WorkItem>, query: string)
    requires Trim(query) == ""
    ensures FilterStories(stories, query, DefaultFilters) == ActiveOf(stories)
  {
    assert FilterStories(stories, query, DefaultFilters) == Filter(stories, StatusFilter(DefaultFilters));
    forall s | s in stories
      ensures StatusFilter(DefaultFilters)(s) == IsActiveState(LowerState(s))
    {
      DefaultFiltersMatchActive(LowerState(s));
    }
    FilterCongruent(stories, StatusFilter(DefaultFilters), (s: WorkItem) => IsActiveState(LowerState(s)));
  }

  /** Under the start-up filters the status filter and the active test agree on every state. */
  lemma DefaultFiltersMatchActive(state: string)
    ensures MatchesAny(state, DefaultFilters) == IsActiveState(state)
  {
    if MatchesAny(state, DefaultFilters) {
      var i :| 0 <= i < |DefaultFilters| && StatusMatches(state, DefaultFilters[i]);
      assert ActiveMatches(state, DefaultFilters[i]);
    }
    if IsActiveState(state) {
      var i :| 0 <= i < |DefaultFilters| && ActiveMatches(state, DefaultFilters[i]);
      assert StatusMatches(state, DefaultFilters[i]);
    }
  }

  /**
   * The demo stories are in the states `Ativo`, `Novo` and `Resolvido`, none of
   * which the aliases know: with the start-up filters the demo list is empty.
   */
  lemma DemoStoriesHiddenByDefault()
    ensures FilterStories(AzureApi.MockStories(), "", DefaultFilters) == []
  {
    var mocks := AzureApi.MockStories();
    assert forall i :: 0 <= i < |mocks| ==> IsDemoState(State(mocks[i]));
    HiddenByDefault(mocks);
  }

  /** The states of the demo stories. */
  predicate IsDemoState(state: string)
  {
    state == "Ativo" || state == "Novo" || state == "Resolvido"
  }

  /** Stories whose states are all demo states are hidden by the start-up filters. */
  lemma HiddenByDefault(stories: seq<WorkItem>)
    requires forall i :: 0 <= i < |stories| ==> IsDemoState(State(stories[i]))
    ensures FilterStories(stories, "", DefaultFilters) == []
  {
    forall i | 0 <= i < |stories| ensures LowerState(stories[i]) !in ActiveStateNames {
      DemoStateInactive(State(stories[i]));
    }
    NoneActive(stories);
    DefaultViewIsActive(stories, "");
  }

  /** A list with no story in an active state has no active stories. */
  lemma NoneActive(stories: seq<WorkItem>)
    requires forall i :: 0 <= i < |stories| ==> LowerState(stories[i]) !in ActiveStateNames
    ensures ActiveOf(stories) == []
  {
  }

  /** The lower-cased demo states are none of the active ones. */
  lemma DemoStateInactive(state: string)
    requires IsDemoState(state)
    ensures ToLower(state) !in ActiveStateNames
  {
    var lower := ToLower(state);
    assert |lower| == 4 || |lower| == 9 || (|lower| == 5 && lower[0] == 'a');
    assert forall a :: a in ActiveStateNames ==> |a| != 4 && |a| != 9 && (|a| == 5 ==> a[0] == 't');
  }

  /** `toggleStatusFilter`: remove a selected status, or append an unselected one at the end. */
  function Toggled(current: seq<string>, status: string): (r: seq<string>)
    ensures status in current ==> status !in r && IsSubsequence(r, current)
    ensures status in current ==> forall x :: x in r <==> x in current && x != status
    ensures status !in current ==> r == current + [status]
  {
    if status in current then Filter(current, (x: string) => x != status) else current + [status]
  }

  /** Toggling an unselected status twice gives the original selection back. */
  lemma ToggleTwiceRestores(current: seq<string>, status: string)
    requires status !in current
    ensures Toggled(Toggled(current, status), status) == current
  {
    var keep := (x: string) => x != status;
    FilterAppend(current, [status], keep);
    FilterAll(current, keep);
    assert Filter([status], keep) == [];
  }

  // ---------------------------------------------------------------------
  // Errors
  // ---------------------------------------------------------------------

  const UnauthorizedMessage: string := "Unauthorized. Check your PAT."
  const NotFoundMessage: string := "Project/Org not found."
  const ConnectionFailedMessage: string := "Connection failed. Likely CORS or Network error."
  const MissingConfigurationMessage: string := "Missing configuration."

  /** The banner text `handleError` shows for an error with this status. */
  function ErrorMessage(status: Option<int>): (m: string)
    ensures status == Some(401) <==> m == UnauthorizedMessage
    ensures status == Some(404) <==> m == NotFoundMessage
    ensures status != Some(401) && status != Some(404) <==> m == ConnectionFailedMessage
  {
    if status == Some(401) then UnauthorizedMessage
    else if status == Some(404) then NotFoundMessage
    else ConnectionFailedMessage
  }

  // ---------------------------------------------------------------------
  // Hours of child tasks
  // ---------------------------------------------------------------------

  /** The reply to the task request for a list of child ids. */
  type TaskFetch = seq<int> -> Result<seq<WorkItem>, HttpError>

  /** The ids of a story's children: Hierarchy-Forward relations only, unparseable URLs dropped. */
  function ChildIds(us: WorkItem): (ids: seq<int>)
    ensures forall id :: id in ids <==>
      exists r :: r in RelationsOf(us) && r.rel == HierarchyForward && IdFromUrl(r.url) == Some(id)
  {
    var links := Filter(RelationsOf(us), (r: Relation) => r.rel == HierarchyForward);
    forall id ensures id in ParsedIds(links) <==> exists r :: r in links && IdFromUrl(r.url) == Some(id) {
      ParsedIdsMembers(links, id);
    }
    ParsedIds(links)
  }

  /** The hours a task reply books: the completed work of its `Task` items, 0 when the request fails. */
  function TaskHours(reply: Result<seq<WorkItem>, HttpError>): (hours: int)
    ensures reply.Err? ==> hours == 0
    ensures reply.Ok? ==> hours == SumCompleted(Filter(reply.value, IsTask))
  {
    match reply
    case Ok(items) => SumCompleted(Filter(items, IsTask))
    case Err(_) => 0
  }

  /** Items that are not tasks add nothing to the booked hours. */
  lemma TaskHoursIgnoreOthers(items: seq<WorkItem>, others: seq<WorkItem>)
    requires forall w :: w in others ==> !IsTask(w)
    ensures TaskHours(Ok(items + others)) == TaskHours(Ok(items))
  {
    FilterAppend(items, others, IsTask);
    FilterNone(others, IsTask);
    assert Filter(items, IsTask) + [] == Filter(items, IsTask);
  }

  /** A story with its `CompletedWork` replaced by the hours of its child tasks (0 without children). */
  function WithHours(us: WorkItem, tasksFor: TaskFetch): (w: WorkItem)
    ensures w.id == us.id && w.rev == us.rev && w.relations == us.relations
    ensures w.fields.Keys == us.fields.Keys + {CompletedWorkField}
    ensures forall k | k in us.fields && k != CompletedWorkField :: w.fields[k] == us.fields[k]
    ensures ChildIds(us) == [] ==> CompletedWork(w) == 0
    ensures ChildIds(us) != [] ==> CompletedWork(w) == TaskHours(tasksFor(ChildIds(us)))
  {
    var ids := ChildIds(us);
    var hours := if ids == [] then 0 else TaskHours(tasksFor(ids));
    us.(fields := us.fields[CompletedWorkField := Num(hours)])
  }

  /** Booking hours keeps a story's type, so the list stays one of user stories. */
  lemma WithHoursKeepsType(us: WorkItem, tasksFor: TaskFetch)
    ensures TypeOf(WithHours(us, tasksFor)) == TypeOf(us) && State(WithHours(us, tasksFor)) == State(us)
  {
  }

  function AllWithHours(stories: seq<WorkItem>, tasksFor: TaskFetch): (r: seq<WorkItem>)
    ensures |r| == |stories| && forall i :: 0 <= i < |r| ==> r[i] == WithHours(stories[i], tasksFor)
  {
    seq(|stories|, i requires 0 <= i < |stories| => WithHours(stories[i], tasksFor))
  }

  // ---------------------------------------------------------------------
  // Refresh
  // ---------------------------------------------------------------------

  /**
   * How a refresh ends: the list it loads, an HTTP failure with its status,
   * the missing-configuration stop, or the exception `btoa` throws on a token
   * with a character above U+00FF.
   */
  datatype Fetched = Loaded(items: seq<WorkItem>) | Failed(status: Option<int>) | MissingConfiguration | HeaderThrows

  /** A configuration `refresh` can send requests with: not demo, all three connection fields set, a Latin-1 token. */
  predicate Connected(conf: AzureConfig)
  {
    !conf.isDemoMode && conf.organization != "" && conf.project != "" && conf.pat != "" && Base64.IsLatin1(":" + conf.pat)
  }

  /** The outcome of `refresh` for the given replies. */
  function RefreshOutcome(conf: AzureConfig, wiql: Result<seq<int>, HttpError>, details: Result<seq<WorkItem>, HttpError>, tasksFor: TaskFetch): (o: Fetched)
    ensures conf.isDemoMode ==> o == Loaded(AzureApi.MockStories())
    ensures o == MissingConfiguration <==> !conf.isDemoMode && (conf.organization == "" || conf.project == "" || conf.pat == "")
    ensures o == HeaderThrows <==> !conf.isDemoMode && conf.organization != "" && conf.project != "" && conf.pat != "" && !Base64.IsLatin1(":" + conf.pat)
    ensures Connected(conf) && wiql.Err? ==> o == Failed(wiql.error.status)
    ensures Connected(conf) && wiql.Ok? && wiql.value != [] && details.Err? ==> o == Failed(details.error.status)
    ensures Connected(conf) && wiql.Ok? && wiql.value != [] && details.Ok? ==>
              o == Loaded(AllWithHours(Filter(details.value, IsUserStory), tasksFor))
    ensures o.Loaded? && !conf.isDemoMode ==> forall i :: 0 <= i < |o.items| ==> IsUserStory(o.items[i])
    ensures o.Loaded? && !conf.isDemoMode && details.Ok? ==> |o.items| <= |details.value|
    ensures wiql == Ok([]) && o.Loaded? ==> conf.isDemoMode || o.items == []
    ensures Connected(conf) && wiql == Ok([]) ==> o == Loaded([])
  {
    if conf.isDemoMode then Loaded(AzureApi.MockStories())
    else if conf.organization == "" || conf.project == "" || conf.pat == "" then MissingConfiguration
    else if !Base64.IsLatin1(":" + conf.pat) then HeaderThrows
    else match wiql
      case Err(e) => Failed(e.status)
      case Ok(ids) =>
        if ids == [] then Loaded([])
        else match details
          case Err(e) => Failed(e.status)
          case Ok(items) =>
            var stories := Filter(items, IsUserStory);
            forall i | 0 <= i < |stories| ensures IsUserStory(WithHours(stories[i], tasksFor)) {
              assert stories[i] in stories;
              WithHoursKeepsType(stories[i], tasksFor);
            }
            Loaded(AllWithHours(stories, tasksFor))
  }

  /**
   * Every user story of the details reply is loaded, with its hours booked,
   * and nothing that was not a user story of the reply is.
   */
  lemma RefreshLoadsEveryUserStory(conf: AzureConfig, wiql: Result<seq<int>, HttpError>, details: Result<seq<WorkItem>, HttpError>, tasksFor: TaskFetch, s: WorkItem)
    requires Connected(conf) && wiql.Ok? && wiql.value != [] && details.Ok?
    ensures var o := RefreshOutcome(conf, wiql, details, tasksFor);
            o.Loaded? && (s in details.value && IsUserStory(s) ==> WithHours(s, tasksFor) in o.items)
    ensures var o := RefreshOutcome(conf, wiql, details, tasksFor);
            forall w :: w in o.items ==> exists u :: u in details.value && IsUserStory(u) && w == WithHours(u, tasksFor)
  {
    var stories := Filter(details.value, IsUserStory);
    var items := AllWithHours(stories, tasksFor);
    if s in details.value && IsUserStory(s) {
      assert s in stories;
      var i :| 0 <= i < |stories| && stories[i] == s;
      assert items[i] == WithHours(s, tasksFor);
    }
    forall w | w in items
      ensures exists u :: u in details.value && IsUserStory(u) && w == WithHours(u, tasksFor)
    {
      var i :| 0 <= i < |items| && items[i] == w;
      assert stories[i] in stories;
    }
  }

  /** The WIQL query of `refresh` is a POST to a `/wiql` URL on Azure DevOps, so the cache serves it. */
  lemma WiqlQueryIsCached(conf: AzureConfig, body: string, headers: map<string, string>)
    ensures CacheInterception.IsCacheable(HttpRequest("POST", BaseUrlOf(conf) + "/wiql?api-version=7.0", "", body, headers))
  {
    var base := BaseUrlOf(conf);
    var url := base + "/wiql?api-version=7.0";
    AzureApi.UnderBaseUrl(conf, "/wiql?api-version=7.0");
    assert url[|base|..|base| + 5] == "/wiql";
    assert OccursAt(url, "/wiql", |base|);
  }

  /** The story `selectStory` shows: the fetched item, or the list's copy when the fetch failed. */
  function ShownSelection(r: Result<WorkItem, AzureApi.Failure>, item: WorkItem): (w: WorkItem)
    ensures r.Ok? ==> w == r.value
    ensures r.Err? ==> w == item
  {
    if r.Ok? then r.value else item
  }

  class AppComponent {
    const cache: CacheService
    var showSettings: bool
    var stories: seq<WorkItem>
    var selectedStory: Option<WorkItem>
    var searchQuery: string
    var statusFilters: seq<string>
    var isLoading: bool
    var errorMessage: string

    /** The list, spinner and banner a refresh outcome leaves on screen. */
    predicate Shows(o: Fetched)
      reads this
    {
      match o
      case Loaded(items) => stories == items && !isLoading && errorMessage == ""
      case Failed(status) => stories == [] && !isLoading && errorMessage == ErrorMessage(status)
      case MissingConfiguration => stories == [] && !isLoading && errorMessage == MissingConfigurationMessage
      case HeaderThrows => stories == [] && isLoading && errorMessage == ""
    }

    /** Without a token outside demo mode the settings open; otherwise the stories load. */
    constructor(cache: CacheService, conf: AzureConfig, wiql: Result<seq<int>, HttpError>, details: Result<seq<WorkItem>, HttpError>, tasksFor: TaskFetch)
      ensures this.cache == cache
      ensures searchQuery == "" && statusFilters == DefaultFilters && selectedStory.None?
      ensures showSettings <==> conf.pat == "" && !conf.isDemoMode
      ensures showSettings ==> stories == [] && !isLoading && errorMessage == ""
      ensures !showSettings ==> Shows(RefreshOutcome(conf, wiql, details, tasksFor))
    {
      this.cache := cache;
      stories := [];
      selectedStory := None;
      searchQuery := "";
      statusFilters := DefaultFilters;
      isLoading := false;
      errorMessage := "";
      showSettings := conf.pat == "" && !conf.isDemoMode;
      new;
      if !showSettings {
        Refresh(conf, wiql, details, tasksFor);
      }
    }

    function FilteredStories(): (r: seq<WorkItem>)
      reads this
      ensures r == FilterStories(stories, searchQuery, statusFilters)
    {
      FilterStories(stories, searchQuery, statusFilters)
    }

    function ActiveStories(): (r: seq<WorkItem>)
      reads this
      ensures r == ActiveOf(stories)
    {
      ActiveOf(stories)
    }

    method ToggleStatusFilter(status: string)
      modifies this
      ensures statusFilters == Toggled(old(statusFilters), status)
      ensures stories == old(stories) && searchQuery == old(searchQuery)
    {
      if status in statusFilters {
        statusFilters := Filter(statusFilters, (x: string) => x != status);
      } else {
        statusFilters := statusFilters + [status];
      }
    }

    method HandleError(status: Option<int>)
      modifies this
      ensures !isLoading && errorMessage == ErrorMessage(status)
      ensures stories == old(stories) && selectedStory == old(selectedStory)
      ensures statusFilters == old(statusFilters) && searchQuery == old(searchQuery) && showSettings == old(showSettings)
    {
      isLoading := false;
      if status == Some(401) {
        errorMessage := UnauthorizedMessage;
      } else if status == Some(404) {
        errorMessage := NotFoundMessage;
      } else {
        errorMessage := ConnectionFailedMessage;
      }
    }

    method Refresh(conf: AzureConfig, wiql: Result<seq<int>, HttpError>, details: Result<seq<WorkItem>, HttpError>, tasksFor: TaskFetch)
      modifies this
      ensures Shows(RefreshOutcome(conf, wiql, details, tasksFor))
      ensures selectedStory.None?
      ensures statusFilters == old(statusFilters) && searchQuery == old(searchQuery) && showSettings == old(showSettings)
    {
      isLoading := true;
      errorMessage := "";
      stories := [];
      selectedStory := None;
      if conf.isDemoMode {
        stories := AzureApi.MockStories();
        isLoading := false;
        return;
      }
      if conf.organization == "" || conf.project == "" || conf.pat == "" {
        errorMessage := MissingConfigurationMessage;
        isLoading := false;
        return;
      }
      if !Base64.IsLatin1(":" + conf.pat) {
        return;
      }
      if wiql.Err? {
        HandleError(wiql.error.status);
        return;
      }
      if wiql.value == [] {
        isLoading := false;
        return;
      }
      if details.Err? {
        HandleError(details.error.status);
        return;
      }
      var userStories := Filter(details.value, IsUserStory);
      stories := AllWithHours(userStories, tasksFor);
      isLoading := false;
    }

    method CloseSettings(conf: AzureConfig, wiql: Result<seq<int>, HttpError>, details: Result<seq<WorkItem>, HttpError>, tasksFor: TaskFetch)
      modifies this
      ensures !showSettings && Shows(RefreshOutcome(conf, wiql, details, tasksFor))
    {
      showSettings := false;
      Refresh(conf, wiql, details, tasksFor);
    }

    /** `refreshAll`: empty the cache, then refresh. */
    method RefreshAll(conf: AzureConfig, wiql: Result<seq<int>, HttpError>, details: Result<seq<WorkItem>, HttpError>, tasksFor: TaskFetch)
      modifies this, cache
      ensures cache.storage == Without(old(cache.storage), AllEntries)
      ensures Shows(RefreshOutcome(conf, wiql, details, tasksFor))
    {
      cache.Clear();
      Refresh(conf, wiql, details, tasksFor);
    }

    /**
     * `selectStory`: show the freshly fetched item, or the list's copy when the
     * fetch fails. When the header cannot be built the exception leaves the
     * spinner on and the selection as it was.
     */
    method SelectStory(item: WorkItem, conf: AzureConfig, reply: Result<WorkItem, HttpError>)
      modifies this`isLoading, this`selectedStory
      ensures AzureApi.GetWorkItem(conf, item.id, false, reply) == Err(AzureApi.InvalidCharacter) ==> isLoading && selectedStory == old(selectedStory)
      ensures AzureApi.GetWorkItem(conf, item.id, false, reply) != Err(AzureApi.InvalidCharacter) ==>
                !isLoading && selectedStory == Some(ShownSelection(AzureApi.GetWorkItem(conf, item.id, false, reply), item))
      ensures stories == old(stories)
    {
      isLoading := true;
      var r := AzureApi.GetWorkItem(conf, item.id, false, reply);
      if r == Err(AzureApi.InvalidCharacter) {
        return;
      }
      selectedStory := Some(ShownSelection(r, item));
      isLoading := false;
    }
  }
}
