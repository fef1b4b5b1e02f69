# Azure DevOps user-story manager: a verified model of its core logic

The application is an Angular client for Azure DevOps. It lists user stories and their task hours, shows a story's details, builds a daily report, moves stories across a Kanban board, and creates and updates work items through the Azure DevOps REST API. It has a demo mode with three built-in stories.

This project models the logic that sits under the user interface:

- **`ResponseCache`**: the `localStorage` response cache.
  - Keys are prefixed and built from the URL and a Base64 form of the body.
  - Entries expire after a time-to-live.
  - `get` removes an entry lazily once it has expired.
  - Construction sweeps out stale and unparseable entries.
  - A failed write clears the whole cache.
- **`CacheInterception`**: the HTTP interceptor. It decides whether a request is cacheable, whether it is forced to the network, and what is written back.
- **`AzureConfiguration`**: the connection settings service. It saves and loads the settings and derives the base URL and the Basic authorization header.
- **`AzureApi`**: the REST service's read calls, demo branches and mock data. It also builds the JSON-Patch operations for creating a work item and applies `/fields/` operations in demo mode.
- **`StoryList`**: the root component's story pipeline.
  - Active-state and status filters, and status-filter toggling.
  - Error messages.
  - Child-id parsing and task-hour totals inside `refresh`.
  - Story selection.
- **`DetailView`** and **`DetailText`**: the detail view.
  - Task loading, sorting and hour totals.
  - The estimate.
  - The daily report: opening it, switching stories, appending entries and the preview text.
  - The branch-name slug.
  - The HTML-tag rewriting applied before Markdown rendering.
- **`KanbanBoard`**: column partitioning and the drag-and-drop handler.
- **`CreateWorkItem`**: the use case that builds the fields of a new work item.
- **`Settings`**: the settings form. It covers the demo switch that disables the connection fields and the save decision.
- **`WorkItemDomain`**: the domain entity with `isCompleted`, and the REST-to-domain mapper.
- **`StateColors`**: the state-to-colour classification.

Supporting modules:

- `JsText`: JavaScript string operations.
  - `toLowerCase` on ASCII and Latin-1.
  - `trim` with JavaScript's whitespace set.
  - `includes`, `split`, `join` and `parseInt`.
- `JsValue`: dynamically typed field values, JavaScript truthiness and `||`.
- `Base64`: section 4 of RFC 4648, with `btoa`'s Latin-1 restriction.
- `Utf8`: the UTF-8 encoding.
- `Seqs`: filter and sub-sequence.
- `Http`: request, response and event shapes.
- `Wrappers`: `Option` and `Result`.

Sources of nondeterminism and the outside world become explicit inputs:

- the clock (`now`);
- a failing storage write (`quotaExceeded`);
- `Math.random` (`roll`);
- the date text;
- every network reply, as a `Result`.

## Model

| member | source | states |
|---|---|---|
| ResponseCache.CreateKeyAsWritten | src/services/cache.service.ts:15-27 | the key as written starts with the prefix and the request's URL with parameters |
| ResponseCache.CreateKeyAsWrittenCollides | src/services/cache.service.ts:23-26 | two WIQL bodies that differ in one non-Latin-1 character get the same key under the length fallback |
| ResponseCache.CreateKey | src/services/cache.service.ts:15-27 | the key is prefix plus URL with parameters; a suffix is added exactly when there is a body |
| ResponseCache.CreateKeyInjective | src/services/cache.service.ts:15-27 | for the same URL, equal keys mean equal bodies, so one key never serves two different queries |
| ResponseCache.CreateKeyAgreesOnAscii | src/services/cache.service.ts:20-22 | on ASCII bodies the corrected key is exactly the key `btoa` gives |
| ResponseCache.EntryOf | src/services/cache.service.ts:31-37 | the stored entry expires at the write time plus the maximum age |
| ResponseCache.ResponseOf | src/services/cache.service.ts:64-69 | the response rebuilt from an entry stores back as the same entry, so body, status, status text and URL survive |
| ResponseCache.AfterPut | src/services/cache.service.ts:29-45 | a successful write stores the entry under its key; a failed write clears every cache key; keys of other services are kept |
| ResponseCache.Lookup | src/services/cache.service.ts:47-74 | a hit happens iff the key holds an entry whose expiry is not before now; on a hit storage is unchanged; otherwise at most this key is removed |
| ResponseCache.Without | src/services/cache.service.ts:76-115 | a removal pass keeps exactly the keys it does not select, with their values |
| ResponseCache.PutThenGet | src/services/cache.service.ts:29-69 | after `put` at time t, `get` at any t' <= t + maxAge returns the stored response and changes nothing |
| ResponseCache.PutThenGetExpired | src/services/cache.service.ts:56-62 | after the expiry has passed, `get` misses and removes the key |
| ResponseCache.DefaultTimeToLive | src/services/cache.service.ts:9 | with the default age a response is served until t + 1800000 ms and not after |
| ResponseCache.LookupMisses | src/services/cache.service.ts:49-53 | a missing key or an empty value is a miss that changes nothing; unparseable text is a miss that removes the key |
| ResponseCache.PutWithFullStorage | src/services/cache.service.ts:39-44 | a failed write leaves no cache key, the new one included, and keeps every other key |
| ResponseCache.DeletePrefixIsClear | src/services/cache.service.ts:76-96 | `delete` with the prefix removes what `clear` removes |
| ResponseCache.SweepIdempotent | src/services/cache.service.ts:98-115 | a second sweep at the same time removes nothing more |
| ResponseCache.SweepMonotone | src/services/cache.service.ts:98-115 | sweeping later keeps a subset of what sweeping earlier keeps |
| ResponseCache.SweptLookupIsPure | src/services/cache.service.ts:11-13 | after the constructor's sweep, a `get` at the same time never removes anything |
| ResponseCache.CacheService.constructor | src/services/cache.service.ts:11-13 | construction leaves storage swept of expired and unparseable cache entries |
| ResponseCache.CacheService.Put | src/services/cache.service.ts:29-45 | the new storage is the result of the write, or of clearing the cache when the write fails |
| ResponseCache.CacheService.Get | src/services/cache.service.ts:47-74 | returns and leaves storage as `Lookup` says |
| ResponseCache.CacheService.Delete | src/services/cache.service.ts:76-85 | removes exactly the prefixed keys that contain the pattern |
| ResponseCache.CacheService.Clear | src/services/cache.service.ts:87-96 | removes exactly the prefixed keys |
| ResponseCache.CacheService.CleanExpired | src/services/cache.service.ts:98-115 | removes exactly the prefixed keys holding expired or unparseable values |
| ResponseCache.CacheService.CollectKeys | src/services/cache.service.ts:77-83 | the index loop collects exactly the keys the pass selects |
| ResponseCache.CacheService.RemoveAll | src/services/cache.service.ts:84 | removing the collected keys leaves every other key and its value |
| CacheInterception.IsCacheable | src/services/cache.interceptor.ts:12 | a GET, or a POST whose URL contains `/wiql`, to a URL containing `dev.azure.com` |
| CacheInterception.WriteBack | src/services/cache.interceptor.ts:28-33 | every `HttpResponse` among the events is put into the cache in order; other events write nothing |
| CacheInterception.OnlyReadsAreCacheable | src/services/cache.interceptor.ts:12 | PATCH and other verbs, a POST without `/wiql`, and URLs outside `dev.azure.com` are never cacheable |
| CacheInterception.Intercepted | src/services/cache.interceptor.ts:10-35 | a forwarded request yields the upstream events unchanged; a served one yields one cached response and leaves storage alone |
| CacheInterception.NotCacheablePassesThrough | src/services/cache.interceptor.ts:14-16 | a request that is not cacheable is forwarded and the cache is neither read nor written |
| CacheInterception.HitIsServedFromCache | src/services/cache.interceptor.ts:21-26 | a live entry without the force flag is returned without forwarding |
| CacheInterception.ForceRefreshOverwrites | src/services/cache.interceptor.ts:19-33 | with `x-force-refresh: true` the request is forwarded and the network's response replaces the entry |
| CacheInterception.NoResponseNoWrite | src/services/cache.interceptor.ts:28-33 | events that are not `HttpResponse` are never written back |
| CacheInterception.LastResponseWins | src/services/cache.interceptor.ts:28-33 | the last response written back is the stored entry |
| CacheInterception.TrailingEventsKeepEntry | src/services/cache.interceptor.ts:28-33 | a response followed only by other events stays the stored entry |
| CacheInterception.WriteBackSnoc | src/services/cache.interceptor.ts:29-33 | each further event writes back only if it is a response |
| CacheInterception.MissThenHit | src/services/cache.interceptor.ts:21-33 | after a miss is fetched and written back, the same request is served from cache within the default age |
| CacheInterception.CacheInterceptor.constructor | src/services/cache.interceptor.ts:8 | the interceptor holds the shared cache service |
| CacheInterception.CacheInterceptor.Intercept | src/services/cache.interceptor.ts:10-35 | the events, the forwarding decision and the new cache storage are those of `Intercepted` |
| CacheInterception.CacheInterceptor.StoreResponses | src/services/cache.interceptor.ts:28-33 | the `tap` loop leaves the cache as the write-back of the upstream events |
| AzureConfiguration.LoadConfig | src/app/core/config/azure-config.service.ts:23-32 | with nothing stored every field is empty and demo mode is off; otherwise the stored record is returned |
| AzureConfiguration.BaseUrlOf | src/app/core/config/azure-config.service.ts:45-50 | the base URL starts with `https://dev.azure.com/` and ends with `/_apis/wit` |
| AzureConfiguration.AuthorizationOf | src/app/core/config/azure-config.service.ts:40-43 | a header exists only in the form `Basic ...` |
| AzureConfiguration.AuthorizationDecodes | src/app/core/config/azure-config.service.ts:40-43 | the header exists iff the token is Latin-1, and then its Base64 part decodes to `":" + pat` (section 2 of RFC 7617, empty user-id) |
| AzureConfiguration.SaveThenLoad | src/app/core/config/azure-config.service.ts:23-38 | a saved configuration loads back unchanged |
| AzureConfiguration.ConfigSurvivesCacheClear | src/app/core/config/azure-config.service.ts:15 | the settings key is not a cache key, so clearing the cache keeps the configuration |
| AzureConfiguration.AzureConfigService.constructor | src/app/core/config/azure-config.service.ts:17-32 | the configuration is what `loadConfig` reads from storage |
| AzureConfiguration.AzureConfigService.SaveConfig | src/app/core/config/azure-config.service.ts:34-38 | storage and the current configuration both become the new record, and a fresh load returns it |
| AzureConfiguration.AzureConfigService.IsDemoMode | src/app/core/config/azure-config.service.ts:21 | demo mode is the configuration's flag |
| AzureConfiguration.AzureConfigService.BaseUrl | src/app/core/config/azure-config.service.ts:45-50 | the base URL of the current configuration |
| AzureConfiguration.AzureConfigService.AuthorizationHeader | src/app/core/config/azure-config.service.ts:40-43 | the authorization header of the current configuration |
| AzureApi.MockFields | src/services/azure.service.ts:190-225 | each mock story is a `User Story` with its title and state |
| AzureApi.MockStories | src/services/azure.service.ts:190-225 | three user stories 101, 102 and 103 at revision 1, in states Ativo, Novo and Resolvido |
| AzureApi.MockStory | src/services/azure.service.ts:103-105 | a mock is found exactly for ids 101-103, and it carries that id |
| AzureApi.HeadersFor | src/services/azure.service.ts:20-26 | headers exist iff the authorization header can be built; they hold content type and authorization, and `x-force-refresh: true` exactly when forcing |
| AzureApi.IdListRoundTrip | src/services/azure.service.ts:88 | the id list in the details URL splits on `,` back into the ids, in order |
| AzureApi.WorkItemsByIdsPlan | src/services/azure.service.ts:84-100 | no request iff the id list is empty or demo mode is on; otherwise a GET of the details URL with the base headers |
| AzureApi.WorkItemsByIds | src/services/azure.service.ts:84-100 | an empty id list or demo mode yields `[]`; a sent request yields the reply, or `[]` when it fails; outside demo mode with ids, the header exception iff the authorization header cannot be built |
| AzureApi.UnderBaseUrl | src/app/core/config/azure-config.service.ts:45-50 | every URL under the base URL names `dev.azure.com` |
| AzureApi.ReadRequestsAreCacheable | src/services/azure.service.ts:84-100 | the details request is cacheable, and it is forced exactly when `forceRefresh` is set |
| AzureApi.GetUnderBaseUrlIsCacheable | src/services/azure.service.ts:88-92 | a GET under the base URL with the service's headers is cacheable and forced iff asked |
| AzureApi.HostKeptByAppending | src/services/azure.service.ts:88 | appending to a URL that starts at `https://dev.azure.com/` keeps the host in it |
| AzureApi.WorkItemPlan | src/services/azure.service.ts:102-118 | no request iff demo mode is on; otherwise a GET of the item URL, forced iff asked |
| AzureApi.WorkItemDemo | src/services/azure.service.ts:103-105 | demo `getWorkItem` returns the mock with that id, or mock 101 when none matches |
| AzureApi.GetWorkItem | src/services/azure.service.ts:102-118 | demo mode yields the demo item; outside demo mode the header exception when the authorization header cannot be built, otherwise the reply, with an HTTP error passed on |
| AzureApi.ToObject | src/services/azure.service.ts:159-163 | the object's keys are exactly the listed keys |
| AzureApi.ToObjectLookup | src/services/azure.service.ts:159-163 | a key holds the value of its last entry in the list |
| AzureApi.ParentLink | src/services/azure.service.ts:165-177 | the parent operation adds to `/relations/-` a `Hierarchy-Reverse` link with its comment |
| AzureApi.ItemUrl | src/services/azure.service.ts:171 | the parent's URL ends in a segment that parses back to the parent id |
| AzureApi.CreateOperations | src/services/azure.service.ts:159-177 | one `add /fields/key` per field in key order, then one parent link exactly when a truthy parent id is given |
| AzureApi.FieldName | src/services/azure.service.ts:125 | the field name is the path after `/fields/`; a path without it is kept whole |
| AzureApi.Applied | src/services/azure.service.ts:124-127 | the operations applied in order, each writing its value under its path with `/fields/` removed |
| AzureApi.AppliedLastWriteWins | src/services/azure.service.ts:124-127 | a field takes the value of its last operation |
| AzureApi.AppliedKeepsOthers | src/services/azure.service.ts:124-127 | fields no operation names keep their values |
| AzureApi.AppliedCreateOperations | src/services/azure.service.ts:159-163 | applying the create operations to empty fields rebuilds the fields object |
| AzureApi.AddOperationWritesField | src/services/azure.service.ts:160-162 | an `add /fields/key` operation writes that key with that value |
| AzureApi.AppliedSnoc | src/services/azure.service.ts:124-127 | one more operation sets exactly its field |
| AzureApi.ApplyOperations | src/services/azure.service.ts:124-127 | the `forEach` loop leaves the fields as the operations applied in order |
| AzureApi.UpdateWorkItemDemo | src/services/azure.service.ts:121-131 | a known id returns that mock with the operations applied; an unknown id returns the first mock unchanged |
| AzureApi.DemoUpdatesAreNotKept | src/services/azure.service.ts:103-105 | a later demo read of a mock returns it as built, without earlier updates |
| AzureApi.CreateWorkItemDemo | src/services/azure.service.ts:145-157 | id in [200, 1199], revision 1; type and state `New` unless the caller's fields override them; every caller field kept |
| StoryList.ActiveStatesSpelledOut | src/app.component.ts:183-195 | a state is active iff it is one of the ten spelled-out Portuguese and English names |
| Seqs.Filter | src/app.component.ts:337 | `Array.prototype.filter`: an order-preserving sub-sequence holding exactly the elements that pass, each as many times as in the input |
| StoryList.ActiveOf | src/app.component.ts:183-195 | `activeStories` is the order-preserving sub-list of stories in an active state |
| StoryList.ActiveExcludesFinished | src/app.component.ts:183-195 | resolved and closed stories never appear among the active ones |
| StoryList.FilterStories | src/app.component.ts:202-228 | the order-preserving sub-list passing the id-substring filter (trimmed query) and the state-alias filter (skipped when none selected) |
| StoryList.DefaultViewIsActive | src/app.component.ts:199-228 | with the default filters and an empty query the list shows exactly the active stories |
| StoryList.DemoStoriesHiddenByDefault | src/app.component.ts:199 | under the default filters none of the demo stories is shown |
| StoryList.HiddenByDefault | src/app.component.ts:199-228 | stories whose states are all demo-like are hidden by the default filters |
| StoryList.NoneActive | src/app.component.ts:183-195 | no story in an active state means no active stories |
| StoryList.DemoStateInactive | src/app.component.ts:183-195 | the demo states are not active states |
| StoryList.Toggled | src/app.component.ts:256-262 | a present status is removed, keeping the order; an absent one is appended at the end |
| StoryList.ToggleTwiceRestores | src/app.component.ts:256-262 | toggling an absent status twice restores the list |
| StoryList.ErrorMessage | src/app.component.ts:405-415 | 401 iff the unauthorized message, 404 iff the not-found message, anything else iff the connection-failed message |
| StoryList.ChildIds | src/app.component.ts:341-347 | the child ids are exactly the parsed last segments of `Hierarchy-Forward` relations, NaN dropped |
| StoryList.TaskHours | src/app.component.ts:349-366 | a failed child fetch gives 0; otherwise the completed work summed over the `Task` items |
| StoryList.TaskHoursIgnoreOthers | src/app.component.ts:357-359 | items that are not tasks add nothing |
| StoryList.WithHours | src/app.component.ts:349-366 | only `CompletedWork` changes: 0 without child ids, otherwise the tasks' total |
| StoryList.WithHoursKeepsType | src/app.component.ts:349-366 | writing the hours keeps type and state |
| StoryList.AllWithHours | src/app.component.ts:349-366 | every story gets its hours, in order |
| StoryList.RefreshOutcome | src/app.component.ts:286-382 | demo yields the mock stories; the missing-configuration message iff a connection field is empty; the header exception iff the token is not Latin-1; a failed WIQL or details call yields `Failed` with its status; an empty WIQL result yields an empty list; otherwise the user stories of the reply, in order, each with its task hours |
| StoryList.Connected | src/app.component.ts:293-322 | the configuration gets past the demo branch, the missing-field check and the header build |
| StoryList.RefreshLoadsEveryUserStory | src/app.component.ts:327-371 | on a successful reply every user story of the reply is listed with its hours, and every listed item is such a story |
| StoryList.StatusMatches | src/app.component.ts:214-222 | the status filter's alias table: each of the six Portuguese filters accepts its own name and its English states; any other filter accepts only itself |
| StoryList.WiqlQueryIsCached | src/app.component.ts:318 | the WIQL POST is a cacheable request |
| StoryList.ShownSelection | src/app.component.ts:392-401 | the fetched item replaces the selection, or the clicked item stays when the fetch fails |
| StoryList.AppComponent.constructor | src/app.component.ts:232-240 | settings open iff the token is missing outside demo mode; otherwise the refresh outcome is shown |
| StoryList.AppComponent.FilteredStories | src/app.component.ts:202-228 | the shown list is the filter of the stories by query and status filters |
| StoryList.AppComponent.ActiveStories | src/app.component.ts:183-195 | the active list of the current stories |
| StoryList.AppComponent.ToggleStatusFilter | src/app.component.ts:256-262 | the filters become the toggled list; nothing else changes |
| StoryList.AppComponent.HandleError | src/app.component.ts:405-415 | loading ends and the message is the one for the status; nothing else changes |
| StoryList.AppComponent.Refresh | src/app.component.ts:286-382 | the component shows the refresh outcome and clears the selection |
| StoryList.AppComponent.CloseSettings | src/app.component.ts:242-245 | settings close and the list is refreshed |
| StoryList.AppComponent.RefreshAll | src/app.component.ts:247-250 | the cache is cleared and the list is refreshed |
| StoryList.AppComponent.SelectStory | src/app.component.ts:384-403 | the item is selected and loading ends, with the fetched item when the fetch succeeds; a header exception leaves loading on |
| StateColors.StateColor | src/app.component.ts:417-429 | closed/fechado in any case iff the green-800 classes; an uncoloured state iff the gray default |
| StateColors.ColorOfLower | src/app.component.ts:417-429 | the colour table over the lower-cased state: closed, testing, to-do, active and review groups, else the gray default |
| StateColors.StateColorIgnoresCase | src/components/detail-view.component.ts:663-675 | only the lower-case form of the state matters |
| StateColors.ResolvedColors | src/app.component.ts:417-429 | `resolved` gets the testing colour while `resolvido` falls back to the default |
| DetailView.TaskIds | src/components/detail-view.component.ts:625-631 | the ids are the parsed last segments of relations that are child links or name `/workItems/`, NaN dropped |
| DetailView.TaskIdsCoverChildIds | src/components/detail-view.component.ts:625-631 | the detail view asks for every child the story list asks for |
| DetailView.InsertById | src/components/detail-view.component.ts:637 | inserting into an id-sorted list keeps it sorted and adds one item |
| DetailView.InsertByIdPermutes | src/components/detail-view.component.ts:637 | insertion adds exactly that item |
| DetailView.SortById | src/components/detail-view.component.ts:637 | the sort is ascending by id and a permutation |
| DetailView.RealTasksAfter | src/components/detail-view.component.ts:623-641 | realTasks is empty when there is nothing to fetch, in demo mode, when the headers cannot be built or when the fetch fails; otherwise the fetched `Task` items sorted by id |
| DetailView.TasksRequest | src/components/detail-view.component.ts:633-634 | no request without task ids or in demo mode; otherwise an unforced GET of the details URL |
| DetailView.TotalHoursAgreesWithList | src/components/detail-view.component.ts:424-426 | the detail view's total equals the story list's task hours for the same reply |
| DetailView.TotalEstimated | src/components/detail-view.component.ts:428-430 | StoryPoints if truthy, else Effort if truthy, else 0 |
| DetailView.FindById | src/components/detail-view.component.ts:561 | `find`: the first story with that id; none iff no story has it |
| DetailView.SelectedStory | src/components/detail-view.component.ts:576 | the first listed story with that id when there is one, else the open item |
| DetailView.Footer | src/components/detail-view.component.ts:574 | the footer ends with the pending text, or `Nenhuma.` when it is empty |
| DetailView.DailyPreview | src/components/detail-view.component.ts:571-590 | the preview is the dated header, the planning heading, the entry texts of the reports and of the current story joined by a blank line, and the footer; so it starts with the dated header and ends with the pending text or `Nenhuma.` |
| DetailView.DailyBodyIsJoin | src/components/detail-view.component.ts:579-587 | the two branches of the content build one join of the reports' entries and the current entry |
| DetailView.FramedText | src/components/detail-view.component.ts:589 | text framed by a head and a footer starts with the head and ends as the footer does |
| DetailView.RealHours | src/components/detail-view.component.ts:592-595 | the open story's real hours are the loaded tasks' total; another story's are its completed work or 0 |
| DetailView.EstimatedHours | src/components/detail-view.component.ts:597-599 | story-points hours if truthy, else effort if truthy, else 0 |
| DetailView.EntryText | src/components/detail-view.component.ts:577 | one entry: id, title, real and estimated hours, today's hours and notes |
| DetailView.DetailViewComponent.TotalHours | src/components/detail-view.component.ts:424-426 | the completed work summed over realTasks; equal to the story list's total by `TotalHoursAgreesWithList` |
| DetailView.EntryTextsSnoc | src/components/detail-view.component.ts:581-583 | one more report adds one more entry text |
| DetailView.AddDemandAppendsBlankEntry | src/components/detail-view.component.ts:560-590 | after `addDemand` the body is the old body plus a blank line and a blank entry for the same story |
| DetailView.OpenStoryReportsTotalHours | src/components/detail-view.component.ts:571-599 | the open story's entry reports the loaded tasks' total as its real hours |
| DetailView.DetailViewComponent.constructor | src/components/detail-view.component.ts:417-441 | the daily state starts empty and realTasks is loaded for the item |
| DetailView.DetailViewComponent.LoadRealTasks | src/components/detail-view.component.ts:623-641 | issues the tasks request and sets realTasks as `RealTasksAfter` says |
| DetailView.DetailViewComponent.ShowStory | src/components/detail-view.component.ts:433-441 | a new item reloads its tasks |
| DetailView.DetailViewComponent.OpenDailyModal | src/components/detail-view.component.ts:525-532 | the modal opens on the current story with no reports and blank hours, notes and pending text |
| DetailView.DetailViewComponent.OnUSChange | src/components/detail-view.component.ts:534-538 | the selected story changes and hours and notes are reset |
| DetailView.DetailViewComponent.AddDemand | src/components/detail-view.component.ts:560-569 | appends exactly one `{us, hours, notes}` and resets hours and notes; the body grows by one blank entry |
| DetailText.Unaccent | src/components/detail-view.component.ts:512-513 | each character is mapped to its base letter; ASCII is unchanged |
| DetailText.KeepAllowed | src/components/detail-view.component.ts:514 | only `[a-z0-9-]` and whitespace remain |
| DetailText.HyphenateRuns | src/components/detail-view.component.ts:516 | no whitespace remains |
| DetailText.CollapseHyphens | src/components/detail-view.component.ts:517 | no two hyphens are adjacent |
| DetailText.Hyphenated | src/components/detail-view.component.ts:514-517 | only `[a-z0-9-]` remains |
| DetailText.TrimKeepsCharacters | src/components/detail-view.component.ts:515 | trimming only removes characters |
| DetailText.Slug | src/components/detail-view.component.ts:510-517 | the slug holds only `[a-z0-9-]` and no two adjacent hyphens |
| DetailText.SlugOfSlug | src/components/detail-view.component.ts:510-517 | slugging a slug changes nothing |
| DetailText.BranchName | src/components/detail-view.component.ts:519 | the branch name starts with `feature/` |
| DetailText.ReplaceTagsLeavesNoTag | src/components/detail-view.component.ts:609-614 | replacing tags with text free of `<` leaves no `<...>` span |
| DetailText.ReplaceTagsOfTagFree | src/components/detail-view.component.ts:609-614 | text without tags is unchanged |
| DetailText.StripTags | src/components/detail-view.component.ts:496 | the result has no `<...>` span |
| DetailText.StripTagsIdempotent | src/components/detail-view.component.ts:496 | stripping twice is stripping once |
| DetailText.MarkdownTag | src/components/detail-view.component.ts:609-614 | `<br` and `</p` become a newline; otherwise `<li` becomes a newline and a list dash; any other tag becomes nothing |
| DetailText.MarkdownSource | src/components/detail-view.component.ts:607-614 | empty content gives ''; the text given to the Markdown renderer has no tags |
| DetailText.IsTag | src/components/detail-view.component.ts:609 | one match of `<[^>]*>`: `<`, no `>`, then `>` |
| DetailText.ReplaceTagsAfterPlain | src/components/detail-view.component.ts:609-614 | text without `<` passes through the rewrite unchanged, in front of whatever follows |
| DetailText.ReplaceTagsOfLeadingTag | src/components/detail-view.component.ts:609-614 | a whole tag at the front is replaced by its replacement and the rest is rewritten after it |
| DetailText.MarkdownSourceOfOneTag | src/components/detail-view.component.ts:607-614 | for any text without `<`, any one tag and any tag-free text, only the tag is rewritten: `a + t + b` becomes `a + MarkdownTag(t) + b` |
| DetailText.MarkdownSourceExample | src/components/detail-view.component.ts:607-614 | `a<br>b` becomes `a`, a newline, `b` |
| KanbanBoard.ColumnOf | src/app/ui/features/dashboard/kanban-board/kanban-board.component.ts:86-96 | a column is the order-preserving sub-list of stories whose lower-cased state is in its list |
| KanbanBoard.StateListsDisjoint | src/app/ui/features/dashboard/kanban-board/kanban-board.component.ts:92-96 | a state belongs to at most one column's list |
| KanbanBoard.NoStoryInTwoColumns | src/app/ui/features/dashboard/kanban-board/kanban-board.component.ts:92-96 | no story is in two columns |
| KanbanBoard.RemovedIsInNoColumn | src/app/ui/features/dashboard/kanban-board/kanban-board.component.ts:92-96 | a `Removed` story is in no column |
| KanbanBoard.DropStateLandsInColumn | src/app/ui/features/dashboard/kanban-board/kanban-board.component.ts:17-96 | each column's drop state puts a story back into that column |
| KanbanBoard.ClosedIsInDoneColumn | src/app/ui/features/dashboard/kanban-board/kanban-board.component.ts:96 | a `Closed` story is complete and in the done column |
| KanbanBoard.ResolvedIsInTestingColumn | src/app/ui/features/dashboard/kanban-board/kanban-board.component.ts:94 | `Resolved` and `Resolvido` stories are complete but in the testing column |
| KanbanBoard.DoneIsInNoColumn | src/app/ui/features/dashboard/kanban-board/kanban-board.component.ts:92-96 | a `Done` story is complete but in no column |
| KanbanBoard.StateOp | src/app/ui/features/dashboard/kanban-board/kanban-board.component.ts:105 | the drop operation is a `replace` of `/fields/System.State` with the new state |
| KanbanBoard.StateOpSetsState | src/app/ui/features/dashboard/kanban-board/kanban-board.component.ts:105 | applied, it sets the state and nothing else |
| KanbanBoard.Clamp | src/app/ui/features/dashboard/kanban-board/kanban-board.component.ts:100 | the index is clamped into range and kept when already in range |
| KanbanBoard.MoveItem | src/app/ui/features/dashboard/kanban-board/kanban-board.component.ts:99-100 | a move within a list is a permutation of the same length that puts the item from the clamped source index at the clamped target index |
| KanbanBoard.Transfer | src/app/ui/features/dashboard/kanban-board/kanban-board.component.ts:116-121 | one item leaves the source and lands at the clamped target index; together the two lists keep their items |
| KanbanBoard.Dropped | src/app/ui/features/dashboard/kanban-board/kanban-board.component.ts:106-121 | the moved item lands at the clamped target index equal to the source item, with the new state exactly when the update succeeded; every other position is as `Transfer` leaves it |
| KanbanBoard.SuccessfulDropJoinsColumn | src/app/ui/features/dashboard/kanban-board/kanban-board.component.ts:98-123 | after a successful drop the moved story belongs to the target column |
| KanbanBoard.DropList.constructor | src/app/ui/features/dashboard/kanban-board/kanban-board.component.ts:98 | a drop list holds its array |
| KanbanBoard.Drop | src/app/ui/features/dashboard/kanban-board/kanban-board.component.ts:98-123 | within one list: reorder only and no operation; across lists: one state replacement for the item, which moves over and takes the state only on success |
| CreateWorkItem.AssigneeOf | src/app/domains/work-item/application/use-cases/create-work-item.use-case.ts:25-30 | the user's e-mail if set, else the developer e-mail if it contains `@`, else none |
| CreateWorkItem.Execute | src/app/domains/work-item/application/use-cases/create-work-item.use-case.ts:14-33 | the fields hold the title, the description iff non-empty and the assignee iff there is one, and nothing else; type and parent pass unchanged |
| CreateWorkItem.FieldsOfExecute | src/app/domains/work-item/application/use-cases/create-work-item.use-case.ts:15-30 | the fields object built in that order holds exactly those keys and values |
| CreateWorkItem.AssignedToDeveloperOnlyWithAt | src/app/domains/work-item/application/use-cases/create-work-item.use-case.ts:25-30 | without a user e-mail, the developer e-mail is assigned iff it contains `@` |
| CreateWorkItem.DemoCreatedItem | src/services/azure.service.ts:145-157 | a demo-created item carries the title, the type, state `New` and the description iff one was given |
| CreateWorkItem.DemoItemOfFields | src/services/azure.service.ts:145-157 | the same for any fields object holding only title, description and assignee |
| Settings.SaveDecision | src/components/settings.component.ts:107-126 | demo on stores the record with every connection field emptied; demo off with a complete form stores the form; an incomplete form stores nothing |
| Settings.SavedConfigurationIsUsable | src/components/settings.component.ts:107-126 | a saved configuration never leaves the story list on the missing-configuration message |
| Settings.SettingsComponent.constructor | src/components/settings.component.ts:79-105 | the form starts from the current configuration, with the fields disabled in demo mode |
| Settings.SettingsComponent.SetDemoMode | src/components/settings.component.ts:84-96 | demo on disables the four connection fields and demo off enables them |
| Settings.SettingsComponent.Edit | src/components/settings.component.ts:71-77 | typing changes only the form values |
| Settings.SettingsComponent.Save | src/components/settings.component.ts:107-126 | stores what the decision picks, or nothing, and emits close exactly once |
| Settings.ReopenAfterSave | src/components/settings.component.ts:99-104 | reopening after a save shows what was saved |
| WorkItemDomain.NewEntity | src/app/domains/work-item/domain/entities/work-item.entity.ts:1-11 | the constructor keeps its arguments; relations default to `[]` |
| WorkItemDomain.IsCompleted | src/app/domains/work-item/domain/entities/work-item.entity.ts:13-16 | the state is one of Closed, Done, Resolvido and Resolved, compared exactly |
| WorkItemDomain.CompletedIsCaseSensitive | src/app/domains/work-item/domain/entities/work-item.entity.ts:13-16 | exactly Closed, Done, Resolvido and Resolved complete an item; other spellings and `Fechado` do not |
| WorkItemDomain.ToDomain | src/app/domains/work-item/infrastructure/mappers/work-item.mapper.ts:4-15 | id and revision are copied; the five named fields are read from their keys; missing relations become `[]` |
| WorkItemDomain.ToDomainAgreesWithAccessors | src/app/domains/work-item/infrastructure/mappers/work-item.mapper.ts:8-10 | the mapped title, type and state agree with the REST accessors |
| WorkItemDomain.ToDomainIgnoresOtherFields | src/app/domains/work-item/infrastructure/mappers/work-item.mapper.ts:4-15 | other fields do not affect the entity |
| WorkItemDomain.ToDomainList | src/app/domains/work-item/infrastructure/mappers/work-item.mapper.ts:17-19 | same length, and element i is `toDomain` of element i |
| WorkItemDomain.ToDomainListAppend | src/app/domains/work-item/infrastructure/mappers/work-item.mapper.ts:17-19 | mapping a concatenation maps each part |
| WorkItems.IdFromUrl | src/app.component.ts:344-345 | `parseInt` of the last `/`-separated segment of the URL |
| WorkItems.ParsedIds | src/app.component.ts:343-347 | the parsed ids of the relations, in order, NaN dropped; never more ids than relations |
| WorkItems.SumCompleted | src/components/detail-view.component.ts:424-426 | the completed work of the items summed from 0 |
| WorkItems.ParsedIdsMembers | src/app.component.ts:341-347 | an id is parsed iff some relation's URL has it as its last segment |
| WorkItems.IdFromItemUrl | src/services/azure.service.ts:171 | the last segment of `prefix/id` parses back to the id |
| WorkItems.TrailingSlashHasNoId | src/components/detail-view.component.ts:628-631 | a URL ending in `/` yields no id |
| WorkItems.SumCompletedAppend | src/components/detail-view.component.ts:424-426 | the hour total of a concatenation is the sum of the totals |
| WorkItems.SumCompletedPermutation | src/components/detail-view.component.ts:424-426 | the hour total does not depend on order, so sorting keeps it |
| Base64.DecodeEncode | src/services/cache.service.ts:20-22 | the Base64 encoding (section 4 of RFC 4648) decodes back to its bytes |
| Base64.EncodeInjective | src/services/cache.service.ts:20-22 | different byte strings get different encodings |
| Base64.EncodeAlphabet | src/services/cache.service.ts:20-22 | only alphabet characters appear, and `=` only in the last two places |
| Base64.Btoa | src/app/core/config/azure-config.service.ts:42 | `btoa` fails iff a character is above U+00FF; otherwise the output has length 4 * ceil(n / 3) |
| Base64.BtoaRoundTrip | src/app/core/config/azure-config.service.ts:42 | `btoa` of a Latin-1 string decodes to its Latin-1 bytes |
| Utf8.EncodeInjective | src/services/cache.service.ts:15-27 | different strings get different UTF-8 encodings, which keeps the corrected key injective |
| Utf8.AsciiEncodesAsLatin1 | src/services/cache.service.ts:20-22 | on ASCII, UTF-8 and Latin-1 bytes coincide |
| JsValue.Or | src/components/detail-view.component.ts:429 | JavaScript's `or` of two field values is one of the two, and is truthy iff either is |
| JsValue.NumberOr0 | src/components/detail-view.component.ts:425 | a value or 0 is 0 for falsy values and the number itself for numbers |

## Left out

- JSON text is not modelled.
  - Storage holds structured slots. A slot is a cache entry, or raw text that does not parse.
  - A request body is taken as its JSON text already.
  - Text that parses as JSON but is not an entry, such as `123`, counts as unparseable. In JavaScript, `get` would instead return a response with undefined parts.
- The enumeration order of `localStorage` keys is not modelled: the removal passes are stated on the set of keys.
- Dynamically typed fields.
  - Hours and estimates are integers. A truthy hours value that is not a number counts as 0. JavaScript would concatenate it as a string.
  - A title, type or state that is not a string reads as `""` in the string accessors. JavaScript would carry `undefined` or throw on `toLowerCase`.
  - Kanban filtering puts a story whose state is not a string in no column. JavaScript would throw.
- JavaScript number semantics are not modelled: no doubles, no 32-bit limits, no `NaN` beyond `parseInt` failing. Numbers are unbounded integers.
- Unicode.
  - `toLowerCase` is modelled on ASCII and Latin-1 only.
  - `normalize('NFD')` with diacritic removal is modelled by a table of Latin-1 accented letters.
- Aliasing and in-place mutation of shared objects are modelled as values:
  - `Object.assign` in `refreshDetails`;
  - `us.fields[...] =` in `refresh`;
  - `item.state =` in the Kanban drop.
- `userEmail` in the create use case is a parameter (`""` means absent), because it is not part of the stored configuration.
- The non-demo HTTP calls of `updateWorkItem` and `createWorkItem` are not modelled beyond the operations they send. Their replies pass through untouched.
- The AI services and everything depending on their output are left out. They call an external model whose output cannot be predicted:
  - `generateTasks`;
  - `refineStory`;
  - `generateSummary`.
  - `StripTags` models the tag-stripping regular expression these methods apply.
- `marked.parse`, the clipboard and the toast messages are left out. `MarkdownSource` is the text handed to `marked.parse`.
- The Electron shell, templates, theme and sidebar toggles, and the modal component are left out. They are presentation.
- `getSelectedUSHours` and `getSelectedUSEstimatedPoints` are left out. They are template helpers that no modelled operation uses.
- `toLocaleDateString` is a `today` parameter, and `Math.random` is `roll` in 0..999.
- The CDK helpers `moveItemInArray` and `transferArrayItem` are modelled by what they do (`MoveItem`, `Transfer`), not by their code.
- `DetailView.DetailViewComponent.OnUSChange`: the `+newId` conversion of a text value is not modelled. The id arrives as a number.
- `DetailView.SortById`: stability of `Array.prototype.sort` is not proved. Only ascending order and permutation are.
- The `triggerDaily` effect only calls `openDailyModal` and is not modelled separately.
- `searchUserStories` and `fetchStories` (src/services/azure.service.ts:33-81) are left out outside demo mode: `refresh` does not call them then and runs its own WIQL and details chain. In demo mode `refresh` calls `searchUserStories`, whose demo branch returns the mock stories; `RefreshOutcome` models that branch as those stories.
- Observables, subscriptions and asynchrony are not modelled. Each network reply is an input and each call completes at once.
- `forkJoin` over all stories is the sequence of per-story results.
- A reply that never arrives is not modelled.
- ResponseCache.CacheService.Put, ResponseCache.CacheService.Get, CacheInterception.WriteBack, CacheInterception.Intercepted and the cache lemmas built on them (`PutThenGet`, `MissThenHit`, `ForceRefreshOverwrites` and the rest): the service uses the corrected key of "## Findings" (`CreateKey`), not the program's `CreateKeyAsWritten`. The two agree on ASCII bodies (`CreateKeyAgreesOnAscii`). A WIQL body embeds the configured developer e-mail, so a non-Latin-1 address would make the program's keys collide where the model's do not.
- StoryList.AppComponent.constructor: when the token is not Latin-1 outside demo mode, the program's constructor calls `refresh`, whose `btoa` throws out of the constructor, so no component is created. The model creates the component showing the `HeaderThrows` outcome instead.
- AzureApi.CreateOperations: the fields arrive as a list of entries rather than an object. For a list that repeats a key it sends one operation per entry, where the program's `Object.keys` gives one per key. Applying the operations gives the same fields either way (`AppliedCreateOperations`), and the only list the model builds (`CreateWorkItem.Execute`) has distinct keys.
- CreateWorkItem.DemoCreatedItem: assumes that `repository.create` is `AzureService.createWorkItem`. The repository bound in src/app/app.config.ts:8-11, `AzureWorkItemRepository`, has no `create` method, so in the program as bound the use case's call has no implementation. The model states what `createWorkItem`'s demo branch would return for the use case's fields.

## Findings

| source | as written | input that shows it | evidently intended | confidence | as-written member | corrected member |
|---|---|---|---|---|---|---|
| src/services/cache.service.ts:23-26 | when `btoa` throws on a body with a character above U+00FF, the key suffix is `'_' + body.length`, so different bodies of equal length share one key and one cached response | two WIQL POSTs to the same URL with bodies `"ā"` and `"ē"` (both 3 characters long) | distinct request bodies give distinct cache keys, e.g. by Base64 of the body's UTF-8 bytes | not executed | ResponseCache.CreateKeyAsWrittenCollides | ResponseCache.CreateKeyInjective |
