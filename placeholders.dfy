/**
 * The runtime environment file (env.js) and the three placeholder rules the
 * services apply to it: the analysis service rejects keys starting with
 * `__VITE` or `YOUR_`, the settings dialog values starting with `__VITE`,
 * and the authentication client values holding `__VITE` anywhere.
 */
module Placeholders {
  import opened Wrappers
  import opened Text
  import opened Browser
  import GeminiService
  import SupabaseClient
  import SettingsModal

  /** The table env.js installs when nothing has replaced its sample values. */
  const EnvJsDefaults: Env := map[
    "VITE_API_KEY" := "__VITE_API_KEY__",
    "VITE_OPENAI_API_KEY" := "__VITE_OPENAI_API_KEY__",
    "VITE_OPENROUTER_API_KEY" := "__VITE_OPENROUTER_API_KEY__",
    "VITE_PERPLEXITY_API_KEY" := "__VITE_PERPLEXITY_API_KEY__",
    "SUPABASE_URL" := "__VITE_SUPABASE_URL__",
    "SUPABASE_ANON_KEY" := "__VITE_SUPABASE_ANON_KEY__"
  ]

  /** env.js keeps whatever the environment table held and sets its own entries over it. */
  function InstallEnvJs(existing: Env): (env: Env)
    ensures forall name | name in EnvJsDefaults :: name in env && env[name] == EnvJsDefaults[name]
    ensures forall name | name !in EnvJsDefaults :: Lookup(env, name) == Lookup(existing, name)
  {
    existing + EnvJsDefaults
  }

  /**
   * With the sample values of env.js in place, the file itself configures no
   * service. An analysis key exists exactly when `API_KEY` is set to a
   * non-placeholder value; there is no authentication client; and the
   * settings dialog loads an empty key for a provider exactly when local
   * storage holds none and the build supplies no usable one.
   */
  lemma EnvJsDefaultsConfigureNothing(existing: Env, storage: map<string, string>, buildEnv: Env, provider: string)
    requires provider in SettingsModal.KeyMapping
    ensures GeminiService.GetApiKey(InstallEnvJs(existing)).Some? <==>
      Filled(Lookup(existing, "API_KEY")) && !GeminiService.IsPlaceholderKey(existing["API_KEY"])
    ensures SupabaseClient.Supabase(InstallEnvJs(existing)).None?
    ensures var v := SettingsModal.KeyMapping[provider];
      SettingsModal.LoadedKeys(storage, InstallEnvJs(existing), buildEnv)[provider] == "" <==>
        !Filled(Lookup(storage, v)) && !SettingsModal.Usable(Lookup(buildEnv, v))
  {
    var env := InstallEnvJs(existing);
    assert StartsWith(env["VITE_API_KEY"], "__VITE");
    assert OccursAt(env["SUPABASE_URL"], "__VITE", 0);
    assert SettingsModal.IsBuildPlaceholder(env[SettingsModal.KeyMapping[provider]]);
  }

  /**
   * The three rules disagree: a key starting with `YOUR_` is refused by the
   * analysis service but accepted by the settings dialog, and a value holding
   * `__VITE` after its start is refused only by the authentication client.
   */
  lemma PlaceholderRulesDiffer()
    ensures GeminiService.IsPlaceholderKey("YOUR_KEY") && !SettingsModal.IsBuildPlaceholder("YOUR_KEY")
    ensures SupabaseClient.IsPlaceholderValue("x__VITE")
    ensures !GeminiService.IsPlaceholderKey("x__VITE") && !SettingsModal.IsBuildPlaceholder("x__VITE")
  {
    assert OccursAt("x__VITE", "__VITE", 1);
    assert "YOUR_KEY"[0] != "__VITE"[0];
    assert "x__VITE"[0] != "__VITE"[0] && "x__VITE"[0] != "YOUR_"[0];
  }
}
