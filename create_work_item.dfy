/**
 * The create use case (`CreateWorkItemUseCase.execute`): it builds the fields
 * object of a new work item (title, description when given, assignee when one
 * is known) and hands it to the repository with the type and parent unchanged.
 * The fields object is kept as its entries in insertion order, the order in
 * which `createWorkItem` turns them into operations.
 */
module CreateWorkItem {
  import opened Wrappers
  import opened JsText
  import opened JsValue
  import opened WorkItems
  import opened AzureConfiguration
  import AzureApi

  /** The arguments `repository.create` receives. */
  datatype CreateCall = CreateCall(workItemType: string, fields: AzureApi.FieldList, parentId: Option<int>)

  /**
   * `config.userEmail || (config.devEmail && config.devEmail.includes('@') ? config.devEmail : null)`,
   * with the empty string standing for an absent value.
   */
  function AssigneeOf(userEmail: string, devEmail: string): (a: Option<string>)
    ensures userEmail != "" ==> a == Some(userEmail)
    ensures userEmail == "" && Contains(devEmail, "@") ==> a == Some(devEmail)
    ensures userEmail == "" && !Contains(devEmail, "@") ==> a.None?
  {
    if userEmail != "" then Some(userEmail)
    else if devEmail != "" && Contains(devEmail, "@") then Some(devEmail)
    else None
  }

  /**
   * `execute`. `userEmail` is the configuration's `userEmail` entry, which the
   * configuration record does not declare; the empty string stands for its
   * absence. `description` is empty when none is given.
   */
  function Execute(conf: AzureConfig, userEmail: string, workItemType: string, title: string, description: string, parentId: Option<int>): (call: CreateCall)
    ensures call.workItemType == workItemType && call.parentId == parentId
    ensures var obj := AzureApi.ToObject(call.fields);
            TitleField in obj && obj[TitleField] == Str(title)
            && (DescriptionField in obj <==> description != "")
            && (description != "" ==> obj[DescriptionField] == Str(description))
            && (AssignedToField in obj <==> AssigneeOf(userEmail, conf.devEmail).Some?)
            && (AssignedToField in obj ==> obj[AssignedToField] == Str(AssigneeOf(userEmail, conf.devEmail).value))
            && obj.Keys <= {TitleField, DescriptionField, AssignedToField}
  {
    var titled: AzureApi.FieldList := [(TitleField, Str(title))];
    var described := if description != "" then titled + [(DescriptionField, Str(description))] else titled;
    var assignee := AssigneeOf(userEmail, conf.devEmail);
    var fields := if assignee.Some? then described + [(AssignedToField, Str(assignee.value))] else described;
    FieldsOfExecute(fields, title, description, assignee);
    CreateCall(workItemType, fields, parentId)
  }

  /** The object the built entry list stands for. */
  lemma FieldsOfExecute(fields: AzureApi.FieldList, title: string, description: string, assignee: Option<string>)
    requires fields == (if description != "" then [(TitleField, Str(title))] + [(DescriptionField, Str(description))] else [(TitleField, Str(title))])
                       + (if assignee.Some? then [(AssignedToField, Str(assignee.value))] else [])
    ensures var obj := AzureApi.ToObject(fields);
            TitleField in obj && obj[TitleField] == Str(title)
            && (DescriptionField in obj <==> description != "")
            && (description != "" ==> obj[DescriptionField] == Str(description))
            && (AssignedToField in obj <==> assignee.Some?)
            && (assignee.Some? ==> obj[AssignedToField] == Str(assignee.value))
            && obj.Keys <= {TitleField, DescriptionField, AssignedToField}
  {
    AzureApi.ToObjectLookup(fields, 0);
    if description != "" {
      AzureApi.ToObjectLookup(fields, 1);
    }
    if assignee.Some? {
      AzureApi.ToObjectLookup(fields, |fields| - 1);
    }
  }

  /**
   * With the stored configuration, which carries no `userEmail`, the item is
   * assigned to the developer exactly when the developer e-mail contains `@`.
   */
  lemma AssignedToDeveloperOnlyWithAt(conf: AzureConfig, workItemType: string, title: string, description: string, parentId: Option<int>)
    ensures var obj := AzureApi.ToObject(Execute(conf, "", workItemType, title, description, parentId).fields);
            (AssignedToField in obj <==> Contains(conf.devEmail, "@"))
            && (AssignedToField in obj ==> obj[AssignedToField] == Str(conf.devEmail))
  {
  }

  /**
   * In demo mode the created item carries the title, the requested type, the
   * state `New` and the description exactly when one was given.
   */
  lemma DemoCreatedItem(conf: AzureConfig, userEmail: string, workItemType: string, title: string, description: string, parentId: Option<int>, roll: int)
    requires 0 <= roll < 1000
    ensures var w := AzureApi.CreateWorkItemDemo(workItemType, Execute(conf, userEmail, workItemType, title, description, parentId).fields, roll);
            Title(w) == title && TypeOf(w) == workItemType && State(w) == "New"
            && (DescriptionField in w.fields <==> description != "")
  {
    var call := Execute(conf, userEmail, workItemType, title, description, parentId);
    DemoItemOfFields(workItemType, call.fields, title, description, roll);
  }

  /** The demo item built from any fields object holding only title, description and assignee. */
  lemma DemoItemOfFields(workItemType: string, fields: AzureApi.FieldList, title: string, description: string, roll: int)
    requires 0 <= roll < 1000
    requires var obj := AzureApi.ToObject(fields);
             TitleField in obj && obj[TitleField] == Str(title)
             && (DescriptionField in obj <==> description != "")
             && obj.Keys <= {TitleField, DescriptionField, AssignedToField}
    ensures var w := AzureApi.CreateWorkItemDemo(workItemType, fields, roll);
            Title(w) == title && TypeOf(w) == workItemType && State(w) == "New"
            && (DescriptionField in w.fields <==> description != "")
  {
    var obj := AzureApi.ToObject(fields);
    assert StateField !in obj && TypeField !in obj;
  }
}
