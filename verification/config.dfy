/** Startup configuration, resolved once from the WWWHISPER_URL and WWWHISPER_DISABLE settings.
    A resolved configuration always has a backend URL or is disabled; any other combination
    makes startup fail. */
module Config {
  import opened Wrappers
  import opened Text

  datatype Config = Disabled | Enabled(backendUrl: string)

  /** The two settings, as the startup error names them. */
  const BothSettings := "WWWHISPER_URL nor WWWHISPER_DISABLE"
  const MissingSettingsMessage := "Neither " + BothSettings + " set"

  /** A setting counts as given when it is present and not empty. */
  predicate IsGiven(setting: Option<string>) {
    setting.Some? && setting.value != ""
  }

  /** Resolves the two settings. A given URL enables the gateway, whatever the disable flag
      says; without a URL the disable flag turns the gateway off; with neither, startup fails. */
  function Startup(url: Option<string>, disable: Option<string>): (r: Result<Config, string>)
    ensures r.Failure? <==> !IsGiven(url) && !IsGiven(disable)
    ensures r.Failure? ==> Mentions(r.error, BothSettings)
    ensures IsGiven(url) ==> r == Success(Enabled(url.value))
    ensures r == Success(Disabled) <==> IsGiven(disable) && !IsGiven(url)
    ensures r.Success? && r.value.Enabled? ==> url == Some(r.value.backendUrl) && r.value.backendUrl != ""
  {
    if IsGiven(url) then Success(Enabled(url.value))
    else if IsGiven(disable) then Success(Disabled)
    else
      MessageNamesSettings();
      Failure(MissingSettingsMessage)
  }

  lemma MessageNamesSettings()
    ensures OccursAt(MissingSettingsMessage, BothSettings, 8)
  {
    var lead := "Neither ";
    assert MissingSettingsMessage[|lead|..|lead| + |BothSettings|] == BothSettings;
  }
}
