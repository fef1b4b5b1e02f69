/**
 * The connection settings (`AzureConfigService`): organization, project,
 * personal access token, developer e-mail and the demo switch, kept in
 * `localStorage` under `azure_config` and in a signal. The stored value is
 * modelled as the record its JSON text decodes to.
 */
module AzureConfiguration {
  import opened Wrappers
  import opened JsText
  import Base64
  import ResponseCache

  datatype AzureConfig = AzureConfig(organization: string, project: string, pat: string, devEmail: string, isDemoMode: bool)

  const StorageKey: string := "azure_config"

  /** The configuration when nothing has been saved yet. */
  const EmptyConfig: AzureConfig := AzureConfig("", "", "", "", false)

  /** `loadConfig`: the stored record, or the empty one when the key is absent. */
  function LoadConfig(stored: Option<AzureConfig>): (c: AzureConfig)
    ensures stored.None? ==> c.organization == "" && c.project == "" && c.pat == "" && c.devEmail == "" && !c.isDemoMode
    ensures stored.Some? ==> c == stored.value
  {
    match stored
      case None => EmptyConfig
      case Some(saved) => saved
  }

  /** `getBaseUrl`: the work-item-tracking API root of the configured project. */
  function BaseUrlOf(c: AzureConfig): (url: string)
    ensures StartsWith(url, "https://dev.azure.com/")
    ensures Contains(url, "dev.azure.com")
    ensures url[|url| - 10..] == "/_apis/wit"
  {
    var url := "https://dev.azure.com/" + c.organization + "/" + c.project + "/_apis/wit";
    assert OccursAt(url, "dev.azure.com", 8);
    url
  }

  /**
   * `getAuthorizationHeader`: HTTP Basic credentials with an empty user-id and
   * the token as password. `None` stands for the exception `btoa` throws on a
   * token with a character above U+00FF.
   */
  function AuthorizationOf(c: AzureConfig): (h: Option<string>)
    ensures h.Some? ==> StartsWith(h.value, "Basic ")
  {
    match Base64.Btoa(":" + c.pat)
      case Some(encoded) => Some("Basic " + encoded)
      case None => None
  }

  /**
   * The header decodes to the user-pass form of section 2 of RFC 7617 with an
   * empty user-id, `":" + pat`, and it exists exactly when the token is Latin-1.
   */
  lemma AuthorizationDecodes(c: AzureConfig)
    ensures AuthorizationOf(c).Some? <==> Base64.IsLatin1(c.pat)
    ensures Base64.IsLatin1(c.pat) ==>
      var h := AuthorizationOf(c).value;
      Base64.IsLatin1(":" + c.pat) && Base64.Decode(h[6..]) == Some(Base64.Latin1Bytes(":" + c.pat))
  {
    var userPass := ":" + c.pat;
    assert forall i :: 0 <= i < |c.pat| ==> c.pat[i] == userPass[i + 1];
    if Base64.IsLatin1(c.pat) {
      assert Base64.IsLatin1(userPass);
      Base64.BtoaRoundTrip(userPass);
      var h := AuthorizationOf(c).value;
      assert h[6..] == Base64.Btoa(userPass).value;
    } else {
      assert !Base64.IsLatin1(userPass);
    }
  }

  /** A configuration saved and read back is the same configuration. */
  lemma SaveThenLoad(c: AzureConfig)
    ensures LoadConfig(Some(c)) == c
  {
  }

  /** The settings key is not a cache key, so clearing the cache never drops the configuration. */
  lemma ConfigSurvivesCacheClear(m: ResponseCache.Storage)
    requires StorageKey in m
    ensures var r := ResponseCache.Without(m, ResponseCache.AllEntries);
            StorageKey in r && r[StorageKey] == m[StorageKey]
  {
    assert StorageKey[6] != ResponseCache.Prefix[6];
  }

  class AzureConfigService {
    /** The value under `azure_config`, decoded. */
    var stored: Option<AzureConfig>
    /** The configuration signal. */
    var config: AzureConfig

    constructor(stored: Option<AzureConfig>)
      ensures this.stored == stored && config == LoadConfig(stored)
    {
      this.stored := stored;
      config := LoadConfig(stored);
    }

    method SaveConfig(newConfig: AzureConfig)
      modifies this
      ensures stored == Some(newConfig) && config == newConfig
      ensures LoadConfig(stored) == config
    {
      stored := Some(newConfig);
      config := newConfig;
    }

    /** The computed `isDemoMode` signal. */
    function IsDemoMode(): (b: bool)
      reads this
      ensures b <==> config.isDemoMode
    {
      config.isDemoMode
    }

    function BaseUrl(): (url: string)
      reads this
      ensures url == BaseUrlOf(config)
    {
      BaseUrlOf(config)
    }

    function AuthorizationHeader(): (h: Option<string>)
      reads this
      ensures h == AuthorizationOf(config)
    {
      AuthorizationOf(config)
    }
  }
}
