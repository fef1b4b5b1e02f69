/**
 * The Azure DevOps client (`AzureService`): the requests it builds for reading
 * work items, the JSON-Patch operations it builds for creating one, and its
 * demo-mode answers over three mock user stories. The configuration is the
 * value of the configuration signal at the time of the call; replies from the
 * network are parameters.
 */
module AzureApi {
  import opened Wrappers
  import opened JsText
  import opened JsValue
  import opened Seqs
  import opened Http
  import opened WorkItems
  import opened AzureConfiguration
  import CacheInterception

  // ---------------------------------------------------------------------
  // Mock data
  // ---------------------------------------------------------------------

  /** The fields of a mock user story. */
  function MockFields(title: string, state: string, description: string): (f: map<string, Value>)
    ensures TypeField in f && f[TypeField] == Str("User Story")
    ensures StateField in f && f[StateField] == Str(state)
    ensures TitleField in f && f[TitleField] == Str(title)
  {
    map[TitleField := Str(title), TypeField := Str("User Story"), StateField := Str(state), DescriptionField := Str(description)]
  }

  // The long texts of the mock stories.
  const Description101: string := "<div>Como desenvolvedor, eu quero integrar a API do Gemini para que eu possa gerar respostas de IA.</div>"
  const Description102: string := "<div>Como usuário, eu quero um dashboard limpo para visualizar meus itens de trabalho.</div>"
  const Description103: string := "<div>Proteger o app com OAuth2.</div>"
  const AcceptanceCriteria101: string := "<div>- Chave da API está segura<br>- Resposta é processada corretamente</div>"

  /** `getMockStories`: a fresh list on every call. Only the first story has a relations list, and it is empty. */
  function MockStories(): (s: seq<WorkItem>)
    ensures |s| == 3 && s[0].id == 101 && s[1].id == 102 && s[2].id == 103
    ensures forall i :: 0 <= i < 3 ==> s[i].rev == 1 && IsUserStory(s[i])
    ensures State(s[0]) == "Ativo" && State(s[1]) == "Novo" && State(s[2]) == "Resolvido"
  {
    var first := MockFields("Integrar API do Google Gemini", "Ativo",
      Description101);
    [
      WorkItem(101, 1, first[AcceptanceCriteriaField := Str(AcceptanceCriteria101)], Some([])),
      WorkItem(102, 1, MockFields("Design da UI do Dashboard", "Novo",
        Description102), None),
      WorkItem(103, 1, MockFields("Implementar Autenticação", "Resolvido", Description103), None)
    ]
  }

  /** The mock story with the given id, if there is one. */
  function MockStory(id: int): (r: Option<WorkItem>)
    ensures r.Some? <==> id == 101 || id == 102 || id == 103
    ensures r.Some? ==> r.value.id == id && r.value in MockStories()
  {
    Find(MockStories(), (s: WorkItem) => s.id == id)
  }

  // ---------------------------------------------------------------------
  // Requests
  // ---------------------------------------------------------------------

  /**
   * `getHeaders`, plus `x-force-refresh: true` when asked to skip the cache.
   * `None` when the authorization header cannot be built (`btoa` throws).
   */
  function HeadersFor(c: AzureConfig, forceRefresh: bool): (h: Option<map<string, string>>)
    ensures h.Some? <==> AuthorizationOf(c).Some?
    ensures h.Some? ==> "content-type" in h.value && h.value["content-type"] == "application/json"
    ensures h.Some? ==> "authorization" in h.value && h.value["authorization"] == AuthorizationOf(c).value
    ensures h.Some? ==> ("x-force-refresh" in h.value <==> forceRefresh)
    ensures h.Some? && forceRefresh ==> h.value["x-force-refresh"] == "true"
  {
    match AuthorizationOf(c)
    case None => None
    case Some(auth) =>
      var base := map["content-type" := "application/json", "authorization" := auth];
      Some(if forceRefresh then base["x-force-refresh" := "true"] else base)
  }

  /** `ids.join(',')`. */
  function IdList(ids: seq<int>): string
  {
    Join(seq(|ids|, i requires 0 <= i < |ids| => IntToString(ids[i])), ",")
  }

  /** The id list in the details URL reads back as the ids, in the given order. */
  lemma IdListRoundTrip(ids: seq<int>)
    requires ids != []
    ensures var parts := Split(IdList(ids), ',');
            |parts| == |ids| && forall i :: 0 <= i < |ids| ==> ParseInt(parts[i]) == Some(ids[i])
  {
    var texts := seq(|ids|, i requires 0 <= i < |ids| => IntToString(ids[i]));
    forall i | 0 <= i < |texts| ensures ',' !in texts[i] {
      assert forall j :: 0 <= j < |texts[i]| ==> IsDigit(texts[i][j]) || texts[i][j] == '-';
    }
    SplitJoin(texts, ',');
    forall i | 0 <= i < |ids| ensures ParseInt(texts[i]) == Some(ids[i]) {
      ParseIntOfIntToString(ids[i]);
    }
  }

  /** What a read call does before any reply: nothing, send a request, or throw while building the headers. */
  datatype Plan = NoRequest | Send(req: HttpRequest) | HeaderFailure

  /** `getWorkItemsByIds`, up to the request: none for an empty id list or in demo mode. */
  function WorkItemsByIdsPlan(c: AzureConfig, ids: seq<int>, forceRefresh: bool): (p: Plan)
    ensures p.NoRequest? <==> ids == [] || c.isDemoMode
    ensures p.HeaderFailure? ==> AuthorizationOf(c).None?
    ensures p.Send? ==> (p.req.verb == "GET" && p.req.body == "" &&
      p.req.url == BaseUrlOf(c) + "/workitems?ids=" + IdList(ids) + "&$expand=all&api-version=7.0")
    ensures p.Send? ==> HeadersFor(c, forceRefresh) == Some(p.req.headers)
  {
    if |ids| == 0 || c.isDemoMode then NoRequest
    else match HeadersFor(c, forceRefresh)
      case None => HeaderFailure
      case Some(h) => Send(HttpRequest("GET", BaseUrlOf(c) + "/workitems?ids=" + IdList(ids) + "&$expand=all&api-version=7.0", "", "", h))
  }

  /** How a call ends: it emits a value, or fails with the header exception or the HTTP error. */
  datatype Failure = InvalidCharacter | Rejected(error: HttpError)

  /**
   * `getWorkItemsByIds` with the network's reply: the fetched list, or `[]`
   * when there is nothing to fetch or the request fails.
   */
  function WorkItemsByIds(c: AzureConfig, ids: seq<int>, forceRefresh: bool, reply: Result<seq<WorkItem>, HttpError>): (r: Result<seq<WorkItem>, Failure>)
    ensures ids == [] || c.isDemoMode ==> r == Ok([])
    ensures r.Err? ==> r.error == InvalidCharacter && AuthorizationOf(c).None?
    ensures !c.isDemoMode && ids != [] && AuthorizationOf(c).None? ==> r == Err(InvalidCharacter)
    ensures WorkItemsByIdsPlan(c, ids, forceRefresh).Send? ==> r == Ok(if reply.Ok? then reply.value else [])
  {
    match WorkItemsByIdsPlan(c, ids, forceRefresh)
    case NoRequest => Ok([])
    case HeaderFailure => Err(InvalidCharacter)
    case Send(_) => if reply.Ok? then Ok(reply.value) else Ok([])
  }

  /** Any URL under the API root names the Azure DevOps host. */
  lemma UnderBaseUrl(c: AzureConfig, rest: string)
    ensures Contains(BaseUrlOf(c) + rest, "dev.azure.com")
  {
    var base := BaseUrlOf(c);
    var url := base + rest;
    assert url[8..21] == base[8..21];
    assert OccursAt(url, "dev.azure.com", 8);
  }

  /** Every read of the details goes through the cache, and skips the cache read exactly when asked to. */
  lemma ReadRequestsAreCacheable(c: AzureConfig, ids: seq<int>, forceRefresh: bool)
    requires WorkItemsByIdsPlan(c, ids, forceRefresh).Send?
    ensures var req := WorkItemsByIdsPlan(c, ids, forceRefresh).req;
            CacheInterception.IsCacheable(req) && (CacheInterception.ForceRefresh(req) <==> forceRefresh)
  {
    GetUnderBaseUrlIsCacheable(c, WorkItemsByIdsPlan(c, ids, forceRefresh).req, "/workitems?ids=", IdList(ids), "&$expand=all&api-version=7.0", forceRefresh);
  }

  /** A GET under the API root with the headers built for `forceRefresh` goes through the cache. */
  lemma GetUnderBaseUrlIsCacheable(c: AzureConfig, req: HttpRequest, path: string, query: string, tail: string, forceRefresh: bool)
    requires req.verb == "GET" && req.url == BaseUrlOf(c) + path + query + tail
    requires HeadersFor(c, forceRefresh) == Some(req.headers)
    ensures CacheInterception.IsCacheable(req) && (CacheInterception.ForceRefresh(req) <==> forceRefresh)
  {
    HostKeptByAppending(BaseUrlOf(c), path, query, tail);
  }

  /** Appending to a URL that starts with the Azure DevOps host keeps the host in it. */
  lemma HostKeptByAppending(base: string, path: string, query: string, tail: string)
    requires StartsWith(base, "https://dev.azure.com/")
    ensures Contains(base + path + query + tail, "dev.azure.com")
  {
    var url := base + path + query + tail;
    assert url[8..21] == base[8..21];
    assert OccursAt(url, "dev.azure.com", 8);
  }

  /** `getWorkItem`, up to the request. */
  function WorkItemPlan(c: AzureConfig, id: int, forceRefresh: bool): (p: Plan)
    ensures p.NoRequest? <==> c.isDemoMode
    ensures p.Send? ==> (p.req.verb == "GET" &&
      p.req.url == ItemUrl(BaseUrlOf(c), id) + "?$expand=all&api-version=7.0")
    ensures p.Send? ==> ("x-force-refresh" in p.req.headers <==> forceRefresh)
  {
    if c.isDemoMode then NoRequest
    else match HeadersFor(c, forceRefresh)
      case None => HeaderFailure
      case Some(h) => Send(HttpRequest("GET", ItemUrl(BaseUrlOf(c), id) + "?$expand=all&api-version=7.0", "", "", h))
  }

  /** Demo `getWorkItem`: the mock story with that id, otherwise the first mock (101). */
  function WorkItemDemo(id: int): (w: WorkItem)
    ensures id == 101 || id == 102 || id == 103 ==> w.id == id
    ensures !(id == 101 || id == 102 || id == 103) ==> w == MockStories()[0]
    ensures w in MockStories()
  {
    match MockStory(id)
    case Some(s) => s
    case None => MockStories()[0]
  }

  /** `getWorkItem` with the network's reply; an HTTP error is rethrown. */
  function GetWorkItem(c: AzureConfig, id: int, forceRefresh: bool, reply: Result<WorkItem, HttpError>): (r: Result<WorkItem, Failure>)
    ensures c.isDemoMode ==> r == Ok(WorkItemDemo(id))
    ensures !c.isDemoMode && AuthorizationOf(c).None? ==> r == Err(InvalidCharacter)
    ensures !c.isDemoMode && AuthorizationOf(c).Some? ==>
      (r.Ok? <==> reply.Ok?) && (reply.Ok? ==> r.value == reply.value) && (reply.Err? ==> r.error == Rejected(reply.error))
  {
    match WorkItemPlan(c, id, forceRefresh)
    case NoRequest => Ok(WorkItemDemo(id))
    case HeaderFailure => Err(InvalidCharacter)
    case Send(_) => if reply.Ok? then Ok(reply.value) else Err(Rejected(reply.error))
  }

  // ---------------------------------------------------------------------
  // Patch operations
  // ---------------------------------------------------------------------

  /** The value of a patch operation: a field value, or a relation object with its comment. */
  datatype PatchValue = Plain(value: Value) | Link(rel: string, url: string, comment: string)

  /** One `{op, path, value}` entry of a JSON-Patch document. */
  datatype PatchOp = PatchOp(op: string, path: string, value: PatchValue)

  const FieldsPath: string := "/fields/"
  const RelationsAppendPath: string := "/relations/-"
  const ParentLinkComment: string := "Vinculado via AI Manager"

  /** A `fields` object, as its keys in insertion order with their values. */
  type FieldList = seq<(string, Value)>

  /** The object a field list stands for. */
  function ToObject(fields: FieldList): (obj: map<string, Value>)
    ensures forall k :: k in obj <==> exists i :: 0 <= i < |fields| && fields[i].0 == k
  {
    if fields == [] then map[]
    else
      var last := fields[|fields| - 1];
      ToObject(fields[..|fields| - 1])[last.0 := last.1]
  }

  /** A key written by no later entry keeps the value its entry gives it. */
  lemma {:induction false} ToObjectLookup(fields: FieldList, i: nat)
    requires i < |fields|
    requires forall j :: i < j < |fields| ==> fields[j].0 != fields[i].0
    ensures fields[i].0 in ToObject(fields) && ToObject(fields)[fields[i].0] == fields[i].1
  {
    if i < |fields| - 1 {
      ToObjectLookup(fields[..|fields| - 1], i);
    }
  }

  /** `if (parentId)`: an absent parent and parent 0 are falsy. */
  predicate ParentGiven(parentId: Option<int>)
  {
    parentId.Some? && parentId.value != 0
  }

  /** The link operation that makes the new item a child of `parentId`. */
  function ParentLink(baseUrl: string, parentId: int): (op: PatchOp)
    ensures op.op == "add" && op.path == RelationsAppendPath
    ensures op.value.Link? && op.value.rel == HierarchyReverse && op.value.comment == ParentLinkComment
  {
    PatchOp("add", RelationsAppendPath, Link(HierarchyReverse, ItemUrl(baseUrl, parentId), ParentLinkComment))
  }

  /** `${base}/workitems/${id}`. */
  function ItemUrl(baseUrl: string, id: int): (url: string)
    ensures IdFromUrl(url) == Some(id)
  {
    var prefix := baseUrl + "/workitems";
    IdFromItemUrl(prefix, id);
    prefix + "/" + IntToString(id)
  }

  /**
   * The operation list of `createWorkItem`: one `add` per field, in key order,
   * then the parent link when a parent is given.
   */
  method CreateOperations(baseUrl: string, fields: FieldList, parentId: Option<int>) returns (ops: seq<PatchOp>)
    ensures |ops| == |fields| + (if ParentGiven(parentId) then 1 else 0)
    ensures forall i :: 0 <= i < |fields| ==> ops[i] == PatchOp("add", FieldsPath + fields[i].0, Plain(fields[i].1))
    ensures ParentGiven(parentId) ==> ops[|fields|] == ParentLink(baseUrl, parentId.value)
  {
    ops := [];
    var i := 0;
    while i < |fields|
      invariant 0 <= i <= |fields|
      invariant |ops| == i
      invariant forall j :: 0 <= j < i ==> ops[j] == PatchOp("add", FieldsPath + fields[j].0, Plain(fields[j].1))
    {
      ops := ops + [PatchOp("add", FieldsPath + fields[i].0, Plain(fields[i].1))];
      i := i + 1;
    }
    if ParentGiven(parentId) {
      ops := ops + [ParentLink(baseUrl, parentId.value)];
    }
  }

  /** The field a demo update writes: the path with its first `/fields/` removed. */
  function FieldName(path: string): (name: string)
    ensures StartsWith(path, FieldsPath) ==> name == path[|FieldsPath|..]
    ensures !Contains(path, FieldsPath) ==> name == path
  {
    ReplaceFirst(path, FieldsPath, "")
  }

  /** What a demo update stores for an operation's value; a relation object is an opaque object. */
  function StoredValue(v: PatchValue): Value
  {
    match v
    case Plain(x) => x
    case Link(_, _, _) => Other
  }

  /** The fields after the demo update has applied `ops` in order. */
  function Applied(fields: map<string, Value>, ops: seq<PatchOp>): map<string, Value>
  {
    if ops == [] then fields
    else
      var last := ops[|ops| - 1];
      Applied(fields, ops[..|ops| - 1])[FieldName(last.path) := StoredValue(last.value)]
  }

  /** The operation that writes a field last decides its value. */
  lemma {:induction false} AppliedLastWriteWins(fields: map<string, Value>, ops: seq<PatchOp>, j: nat)
    requires j < |ops|
    requires forall k :: j < k < |ops| ==> FieldName(ops[k].path) != FieldName(ops[j].path)
    ensures var r := Applied(fields, ops);
            FieldName(ops[j].path) in r && r[FieldName(ops[j].path)] == StoredValue(ops[j].value)
  {
    if j < |ops| - 1 {
      AppliedLastWriteWins(fields, ops[..|ops| - 1], j);
    }
  }

  /** A field no operation names keeps its value, and no field disappears. */
  lemma {:induction false} AppliedKeepsOthers(fields: map<string, Value>, ops: seq<PatchOp>, key: string)
    requires forall k :: 0 <= k < |ops| ==> FieldName(ops[k].path) != key
    ensures fields.Keys <= Applied(fields, ops).Keys
    ensures key in fields ==> key in Applied(fields, ops) && Applied(fields, ops)[key] == fields[key]
  {
    if ops != [] {
      AppliedKeepsOthers(fields, ops[..|ops| - 1], key);
    }
  }

  /** Applying the field operations `createWorkItem` builds to an empty item yields exactly the fields object. */
  lemma {:induction false} AppliedCreateOperations(fields: FieldList, ops: seq<PatchOp>)
    requires |ops| == |fields|
    requires forall i :: 0 <= i < |fields| ==> ops[i] == PatchOp("add", FieldsPath + fields[i].0, Plain(fields[i].1))
    ensures Applied(map[], ops) == ToObject(fields)
  {
    if fields != [] {
      var n := |fields| - 1;
      AddOperationWritesField(fields[n], ops[n]);
      var init, front := fields[..n], ops[..n];
      assert forall i :: 0 <= i < |init| ==> front[i] == ops[i] && init[i] == fields[i];
      AppliedCreateOperations(init, front);
    }
  }

  /** An `add` of a field entry writes that entry's value under its key. */
  lemma AddOperationWritesField(entry: (string, Value), op: PatchOp)
    requires op == PatchOp("add", FieldsPath + entry.0, Plain(entry.1))
    ensures FieldName(op.path) == entry.0 && StoredValue(op.value) == entry.1
  {
    assert StartsWith(op.path, FieldsPath);
    assert op.path[|FieldsPath|..] == entry.0;
  }

  /**
   * Demo `updateWorkItem`: the operations are applied in order to a fresh copy
   * of the mock story; an unknown id returns the first mock untouched.
   */
  method UpdateWorkItemDemo(id: int, operations: seq<PatchOp>) returns (w: WorkItem)
    ensures MockStory(id).Some? ==> w == MockStory(id).value.(fields := Applied(MockStory(id).value.fields, operations))
    ensures MockStory(id).None? ==> w == MockStories()[0]
  {
    var story := MockStory(id);
    if story.None? {
      return MockStories()[0];
    }
    var fields := ApplyOperations(story.value.fields, operations);
    w := story.value.(fields := fields);
  }

  /** The demo update's loop: each operation in turn writes its value under its field name. */
  method ApplyOperations(fields: map<string, Value>, operations: seq<PatchOp>) returns (r: map<string, Value>)
    ensures r == Applied(fields, operations)
  {
    r := fields;
    var i := 0;
    while i < |operations|
      invariant 0 <= i <= |operations|
      invariant r == Applied(fields, operations[..i])
    {
      var op := operations[i];
      assert operations[..i + 1] == operations[..i] + [op];
      AppliedSnoc(fields, operations[..i], op);
      r := r[FieldName(op.path) := StoredValue(op.value)];
      i := i + 1;
    }
    assert operations[..|operations|] == operations;
  }

  /** One more operation writes its value over the fields the earlier ones left. */
  lemma AppliedSnoc(fields: map<string, Value>, ops: seq<PatchOp>, op: PatchOp)
    ensures Applied(fields, ops + [op]) == Applied(fields, ops)[FieldName(op.path) := StoredValue(op.value)]
  {
    assert (ops + [op])[..|ops|] == ops;
  }

  /** Demo updates work on a fresh copy: a later demo read sees the original story. */
  lemma DemoUpdatesAreNotKept(id: int)
    requires id == 101 || id == 102 || id == 103
    ensures WorkItemDemo(id) == MockStory(id).value
  {
  }

  /**
   * Demo `createWorkItem`: `roll` is `Math.floor(Math.random() * 1000)`. The
   * item has revision 1 and the caller's fields spread over a title, the type
   * and state `New`.
   */
  function CreateWorkItemDemo(workItemType: string, fields: FieldList, roll: int): (w: WorkItem)
    requires 0 <= roll < 1000
    ensures 200 <= w.id <= 1199 && w.rev == 1 && w.relations.None?
    ensures w.fields.Keys == ToObject(fields).Keys + {TitleField, TypeField, StateField}
    ensures w.fields[StateField] == if StateField in ToObject(fields) then ToObject(fields)[StateField] else Str("New")
    ensures w.fields[TypeField] == if TypeField in ToObject(fields) then ToObject(fields)[TypeField] else Str(workItemType)
    ensures forall k | k in ToObject(fields) :: k in w.fields && w.fields[k] == ToObject(fields)[k]
  {
    var obj := ToObject(fields);
    var base := map[TitleField := Get(obj, TitleField), TypeField := Str(workItemType), StateField := Str("New")];
    WorkItem(roll + 200, 1, base + obj, None)
  }
}
