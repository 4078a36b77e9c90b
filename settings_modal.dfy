/**
 * The API-key settings dialog (components/SettingsModal.js). Opening it loads
 * one key per provider from local storage, the runtime environment or the
 * build environment; saving writes every non-empty key to local storage,
 * removes every emptied one, and schedules a page reload.
 */
module SettingsModal {
  import opened Wrappers
  import opened Text
  import opened Browser

  /** `KEY_MAPPING`: the environment variable (and storage key) of each provider's key. */
  const KeyMapping: map<string, string> := map[
    "gemini" := "VITE_API_KEY",
    "openai" := "VITE_OPENAI_API_KEY",
    "openrouter" := "VITE_OPENROUTER_API_KEY",
    "perplexity" := "VITE_PERPLEXITY_API_KEY"
  ]

  /** `Object.keys(KEY_MAPPING)`, in insertion order. */
  const ProviderIds: seq<string> := ["gemini", "openai", "openrouter", "perplexity"]

  /** An entry of the dialog's `PROVIDERS` list. */
  datatype ProviderEntry = ProviderEntry(id: string, name: string, desc: string)

  /** `PROVIDERS`: the fields the dialog shows, in order. */
  const Providers: seq<ProviderEntry> := [
    ProviderEntry("gemini", "Google Gemini", "Required for default analysis"),
    ProviderEntry("openai", "OpenAI (GPT-4)", "Advanced reasoning"),
    ProviderEntry("openrouter", "OpenRouter", "Access to Claude, Llama, etc."),
    ProviderEntry("perplexity", "Perplexity", "Real-time web search capability")
  ]

  /** The status line shown once the keys are saved. */
  const SavedStatus := "Saved! Reloading..."

  /** The dialog shows one field per mapped provider, in mapping order. */
  lemma ProvidersMatchMapping()
    ensures forall p :: p in KeyMapping <==> p in ProviderIds
    ensures forall i, j | 0 <= i < j < |ProviderIds| :: ProviderIds[i] != ProviderIds[j]
    ensures |Providers| == |ProviderIds| && forall k | 0 <= k < |Providers| :: Providers[k].id == ProviderIds[k]
  {
  }

  /** No two providers share a variable, so writing one provider's key never touches another's. */
  lemma VariablesDistinct(p: string, q: string)
    requires p in KeyMapping && q in KeyMapping && p != q
    ensures KeyMapping[p] != KeyMapping[q]
  {
  }

  /** A value the build left unsubstituted. */
  predicate IsBuildPlaceholder(v: string) {
    StartsWith(v, "__VITE")
  }

  /** An environment value the dialog accepts: truthy and not a placeholder. */
  predicate Usable(v: Option<string>) {
    Filled(v) && !IsBuildPlaceholder(v.value)
  }

  /**
   * The key loaded for one provider: the stored value if truthy, else the
   * runtime value, else the build value, each only if usable, else "".
   * A stored value is taken even when it looks like a placeholder.
   */
  function LoadKey(stored: Option<string>, runtimeVal: Option<string>, buildVal: Option<string>): (r: string)
    ensures Filled(stored) ==> r == stored.value
    ensures !Filled(stored) && Usable(runtimeVal) ==> r == runtimeVal.value
    ensures r != "" ==> Some(r) == stored || (!IsBuildPlaceholder(r) && (Some(r) == runtimeVal || Some(r) == buildVal))
    ensures r == "" <==> !Filled(stored) && !Usable(runtimeVal) && !Usable(buildVal)
  {
    if Filled(stored) then stored.value
    else if Usable(runtimeVal) then runtimeVal.value
    else if Usable(buildVal) then buildVal.value
    else ""
  }

  /** The key loaded for `provider` from the three sources. */
  function LoadKeyFor(storage: map<string, string>, runtimeEnv: Env, buildEnv: Env, provider: string): string
    requires provider in KeyMapping
  {
    var v := KeyMapping[provider];
    LoadKey(Lookup(storage, v), Lookup(runtimeEnv, v), Lookup(buildEnv, v))
  }

  /** `loadedKeys`: one entry per mapped provider. */
  function LoadedKeys(storage: map<string, string>, runtimeEnv: Env, buildEnv: Env): map<string, string> {
    map p | p in KeyMapping :: LoadKeyFor(storage, runtimeEnv, buildEnv, p)
  }

  /** What saving one provider's entry does to the store. */
  function SaveEntry(store: map<string, string>, keys: map<string, string>, provider: string): map<string, string>
    requires provider in KeyMapping
  {
    if provider !in keys then store
    else if keys[provider] != "" then store[KeyMapping[provider] := keys[provider]]
    else store - {KeyMapping[provider]}
  }

  /** Saving the entries of `providers` one after the other. */
  function SaveAll(store: map<string, string>, keys: map<string, string>, providers: seq<string>): map<string, string>
    requires forall k | 0 <= k < |providers| :: providers[k] in KeyMapping
  {
    if providers == [] then store
    else SaveEntry(SaveAll(store, keys, providers[..|providers| - 1]), keys, providers[|providers| - 1])
  }

  /** The store after `handleSave`. */
  function AfterSave(store: map<string, string>, keys: map<string, string>): map<string, string> {
    SaveAll(store, keys, ProviderIds)
  }

  /**
   * After saving `providers`, the variable of a provider among them whose key
   * is in `keys` holds that key, or is gone if the key is empty; the variable
   * of any other provider is as it was.
   */
  lemma {:induction false} SaveAllAt(store: map<string, string>, keys: map<string, string>, providers: seq<string>, p: string)
    requires forall k | 0 <= k < |providers| :: providers[k] in KeyMapping
    requires p in KeyMapping
    ensures var r := SaveAll(store, keys, providers);
      var v := KeyMapping[p];
      if p in providers && p in keys then
        if keys[p] != "" then v in r && r[v] == keys[p] else v !in r
      else
        (v in r <==> v in store) && (v in r ==> r[v] == store[v])
  {
    if providers != [] {
      var n := |providers| - 1;
      var init := providers[..n];
      SaveAllAt(store, keys, init, p);
      if providers[n] != p {
        VariablesDistinct(providers[n], p);
        assert p in providers <==> p in init by {
          assert providers == init + [providers[n]];
        }
      }
    }
  }

  /** Saving never touches a store entry that is no provider's variable. */
  lemma {:induction false} SaveAllElsewhere(store: map<string, string>, keys: map<string, string>, providers: seq<string>, v: string)
    requires forall k | 0 <= k < |providers| :: providers[k] in KeyMapping
    requires forall p | p in KeyMapping :: KeyMapping[p] != v
    ensures var r := SaveAll(store, keys, providers);
      (v in r <==> v in store) && (v in r ==> r[v] == store[v])
  {
    if providers != [] {
      SaveAllElsewhere(store, keys, providers[..|providers| - 1], v);
    }
  }

  /** The store after `handleSave`, provider by provider and elsewhere. */
  lemma AfterSaveEffect(store: map<string, string>, keys: map<string, string>, p: string, v: string)
    requires p in KeyMapping && p in keys
    requires forall q | q in KeyMapping :: KeyMapping[q] != v
    ensures var r := AfterSave(store, keys);
      && (keys[p] != "" ==> KeyMapping[p] in r && r[KeyMapping[p]] == keys[p])
      && (keys[p] == "" ==> KeyMapping[p] !in r)
      && (v in r <==> v in store) && (v in r ==> r[v] == store[v])
  {
    ProvidersMatchMapping();
    SaveAllAt(store, keys, ProviderIds, p);
    SaveAllElsewhere(store, keys, ProviderIds, v);
  }

  /**
   * Saving and reopening the dialog shows each saved non-empty key again; an
   * emptied key is loaded from the environments as if it had never been stored.
   */
  lemma SaveThenReopen(store: map<string, string>, keys: map<string, string>, runtimeEnv: Env, buildEnv: Env, p: string)
    requires p in KeyMapping && p in keys
    ensures var reopened := LoadedKeys(AfterSave(store, keys), runtimeEnv, buildEnv);
      && p in reopened
      && (keys[p] != "" ==> reopened[p] == keys[p])
      && (keys[p] == "" ==> reopened[p] == LoadKey(None, Lookup(runtimeEnv, KeyMapping[p]), Lookup(buildEnv, KeyMapping[p])))
  {
    ProvidersMatchMapping();
    SaveAllAt(store, keys, ProviderIds, p);
  }

  /** The dialog's state. */
  class Dialog {
    /** `keys`: the key typed or loaded for each provider. */
    var keys: map<string, string>
    /** `status`: the line shown beside the save button. */
    var status: string
    /** The one-second timer that reloads the page after a save. */
    var reloadScheduled: bool

    /** The dialog only ever holds entries for mapped providers. */
    predicate Valid()
      reads this
    {
      keys.Keys <= KeyMapping.Keys
    }

    /** The initial state: no keys, no status. */
    constructor ()
      ensures Valid() && keys == map[] && status == "" && !reloadScheduled
    {
      keys := map[];
      status := "";
      reloadScheduled := false;
    }

    /** The effect run when the dialog opens: load every provider's key and clear the status. */
    method Open(storage: LocalStorage, runtimeEnv: Env, buildEnv: Env)
      modifies this
      ensures Valid()
      ensures keys == LoadedKeys(storage.entries, runtimeEnv, buildEnv)
      ensures status == "" && reloadScheduled == old(reloadScheduled)
    {
      ProvidersMatchMapping();
      var loaded: map<string, string> := map[];
      var i := 0;
      while i < |ProviderIds|
        invariant 0 <= i <= |ProviderIds|
        invariant forall k | 0 <= k < i :: ProviderIds[k] in loaded
        invariant forall p | p in loaded :: p in KeyMapping && loaded[p] == LoadKeyFor(storage.entries, runtimeEnv, buildEnv, p)
      {
        var provider := ProviderIds[i];
        var envVar := KeyMapping[provider];
        var val := LoadKey(storage.GetItem(envVar), Lookup(runtimeEnv, envVar), Lookup(buildEnv, envVar));
        loaded := loaded[provider := val];
        i := i + 1;
      }
      assert loaded.Keys == KeyMapping.Keys;
      keys := loaded;
      status := "";
    }

    /** Typing into a provider's field. */
    method SetKey(provider: string, value: string)
      requires Valid() && provider in KeyMapping
      modifies this
      ensures Valid()
      ensures keys == old(keys)[provider := value]
      ensures status == old(status) && reloadScheduled == old(reloadScheduled)
    {
      keys := keys[provider := value];
    }

    /**
     * `handleSave`: store every non-empty key, remove every empty one, show
     * the saved status and schedule the reload. The entries are visited in
     * mapping order; as no two providers share a variable, any order gives
     * the same store.
     */
    method Save(storage: LocalStorage)
      requires Valid()
      modifies this, storage
      ensures Valid() && keys == old(keys)
      ensures storage.entries == AfterSave(old(storage.entries), keys)
      ensures status == SavedStatus && reloadScheduled
    {
      var i := 0;
      while i < |ProviderIds|
        invariant 0 <= i <= |ProviderIds|
        invariant keys == old(keys)
        invariant storage.entries == SaveAll(old(storage.entries), keys, ProviderIds[..i])
      {
        var provider := ProviderIds[i];
        if provider in keys {
          var envVar := KeyMapping[provider];
          var val := keys[provider];
          if val != "" {
            storage.SetItem(envVar, val);
          } else {
            storage.RemoveItem(envVar);
          }
        }
        assert ProviderIds[..i + 1][..i] == ProviderIds[..i];
        i := i + 1;
      }
      assert ProviderIds[..i] == ProviderIds;
      status := SavedStatus;
      reloadScheduled := true;
    }
  }
}
