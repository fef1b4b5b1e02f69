/**
 * The settings form (`SettingsComponent`): four required connection fields
 * and the demo switch. Switching demo on disables the four fields, switching
 * it off enables them again; saving picks the record to store and always
 * closes the dialog. The form's values are kept as a configuration record.
 */
module Settings {
  import opened Wrappers
  import opened AzureConfiguration
  import StoryList
  import AzureApi
  import Http
  import WorkItems

  /** `Validators.required` on the four connection fields: none may be empty. */
  predicate FormComplete(form: AzureConfig)
  {
    form.organization != "" && form.project != "" && form.pat != "" && form.devEmail != ""
  }

  /** The record demo mode stores: every connection field emptied. */
  const DemoConfig: AzureConfig := AzureConfig("", "", "", "", true)

  /** What `save` stores: the demo record, the form's values, or nothing for an incomplete form. */
  function SaveDecision(form: AzureConfig): (saved: Option<AzureConfig>)
    ensures form.isDemoMode ==> saved == Some(DemoConfig)
    ensures !form.isDemoMode && FormComplete(form) ==> saved == Some(form)
    ensures !form.isDemoMode && !FormComplete(form) ==> saved.None?
  {
    if form.isDemoMode then Some(DemoConfig)
    else if FormComplete(form) then Some(form.(isDemoMode := false))
    else None
  }

  /** A saved configuration never leaves the story list on the missing-configuration message. */
  lemma SavedConfigurationIsUsable(form: AzureConfig, wiql: Result<seq<int>, Http.HttpError>,
                                   details: Result<seq<WorkItems.WorkItem>, Http.HttpError>, tasksFor: StoryList.TaskFetch)
    requires SaveDecision(form).Some?
    ensures StoryList.RefreshOutcome(SaveDecision(form).value, wiql, details, tasksFor) != StoryList.MissingConfiguration
    ensures form.isDemoMode ==> StoryList.RefreshOutcome(SaveDecision(form).value, wiql, details, tasksFor) == StoryList.Loaded(AzureApi.MockStories())
    ensures !(SaveDecision(form).value.pat == "" && !SaveDecision(form).value.isDemoMode)
  {
  }

  class SettingsComponent {
    const azure: AzureConfigService
    var form: AzureConfig
    var organizationEnabled: bool
    var projectEnabled: bool
    var patEnabled: bool
    var devEmailEnabled: bool
    /** How many times `close` was emitted. */
    var closeCount: nat

    /** The four connection fields are enabled exactly when demo mode is off. */
    predicate Valid()
      reads this
    {
      organizationEnabled == !form.isDemoMode && projectEnabled == !form.isDemoMode
      && patEnabled == !form.isDemoMode && devEmailEnabled == !form.isDemoMode
    }

    /** The form starts from the current configuration, fields disabled in demo mode. */
    constructor(azure: AzureConfigService)
      ensures this.azure == azure && form == azure.config && closeCount == 0
      ensures Valid()
    {
      this.azure := azure;
      form := azure.config;
      closeCount := 0;
      organizationEnabled := true;
      projectEnabled := true;
      patEnabled := true;
      devEmailEnabled := true;
      new;
      if form.isDemoMode {
        organizationEnabled := false;
        projectEnabled := false;
        patEnabled := false;
        devEmailEnabled := false;
      }
    }

    /** The demo switch's `valueChanges` subscription. */
    method SetDemoMode(on: bool)
      modifies this
      ensures form == old(form).(isDemoMode := on) && closeCount == old(closeCount)
      ensures Valid()
    {
      form := form.(isDemoMode := on);
      if on {
        organizationEnabled := false;
        projectEnabled := false;
        patEnabled := false;
        devEmailEnabled := false;
      } else {
        organizationEnabled := true;
        projectEnabled := true;
        patEnabled := true;
        devEmailEnabled := true;
      }
    }

    /** Typing into the connection fields. */
    method Edit(organization: string, project: string, pat: string, devEmail: string)
      modifies this
      ensures form == old(form).(organization := organization, project := project, pat := pat, devEmail := devEmail)
      ensures closeCount == old(closeCount) && Valid() == old(Valid())
    {
      form := form.(organization := organization, project := project, pat := pat, devEmail := devEmail);
    }

    /** `save`: store what the decision picks, if anything, and close exactly once. */
    method Save()
      requires Valid()
      modifies this, azure
      ensures closeCount == old(closeCount) + 1 && form == old(form)
      ensures SaveDecision(old(form)).Some? ==> azure.stored == SaveDecision(old(form)) && azure.config == SaveDecision(old(form)).value
      ensures SaveDecision(old(form)).None? ==> azure.stored == old(azure.stored) && azure.config == old(azure.config)
    {
      if form.isDemoMode {
        azure.SaveConfig(AzureConfig("", "", "", "", true));
      } else if organizationEnabled && form.organization != "" && form.project != "" && form.pat != "" && form.devEmail != "" {
        azure.SaveConfig(AzureConfig(form.organization, form.project, form.pat, form.devEmail, false));
      }
      closeCount := closeCount + 1;
    }
  }

  /** Reopening the settings after a save shows what was saved. */
  method ReopenAfterSave(azure: AzureConfigService, form: AzureConfig) returns (reopened: SettingsComponent)
    requires SaveDecision(form).Some?
    modifies azure
    ensures reopened.form == SaveDecision(form).value && reopened.Valid()
  {
    azure.SaveConfig(SaveDecision(form).value);
    reopened := new SettingsComponent(azure);
  }
}
