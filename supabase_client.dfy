/**
 * The authentication back-end client (services/supabaseClient.js): a client
 * exists only when both the project URL and the anonymous key are set and
 * neither still holds the build's `__VITE` placeholder marker.
 */
module SupabaseClient {
  import opened Wrappers
  import opened Text
  import opened Browser

  /** The marker an unsubstituted build variable carries. */
  const PlaceholderMarker := "__VITE"

  /** A value that still holds the placeholder marker anywhere, not only at its start. */
  predicate IsPlaceholderValue(v: string) {
    Contains(v, PlaceholderMarker)
  }

  /** `isConfigured`: both values truthy and free of the placeholder marker. */
  predicate IsConfigured(env: Env) {
    var url := Lookup(env, "SUPABASE_URL");
    var key := Lookup(env, "SUPABASE_ANON_KEY");
    Filled(url) && Filled(key) && !IsPlaceholderValue(url.value) && !IsPlaceholderValue(key.value)
  }

  /** The client `createClient(supabaseUrl, supabaseAnonKey)` makes. */
  datatype Client = Client(url: string, anonKey: string)

  /** `supabase`: the client when configured, `null` (here `None`) otherwise. */
  function Supabase(env: Env): (r: Option<Client>)
    ensures r.Some? <==> IsConfigured(env)
    ensures r.Some? ==>
      && Lookup(env, "SUPABASE_URL") == Some(r.value.url)
      && Lookup(env, "SUPABASE_ANON_KEY") == Some(r.value.anonKey)
  {
    if IsConfigured(env) then Some(Client(env["SUPABASE_URL"], env["SUPABASE_ANON_KEY"])) else None
  }

  /** A client's URL and key are non-empty and hold no placeholder marker. */
  lemma ClientValuesAreReal(env: Env)
    requires Supabase(env).Some?
    ensures var c := Supabase(env).value;
      c.url != "" && c.anonKey != "" && !IsPlaceholderValue(c.url) && !IsPlaceholderValue(c.anonKey)
  {
  }

  /**
   * The marker anywhere in either value disables the client, even after a
   * real-looking prefix.
   */
  lemma MarkerAnywhereDisables(env: Env, before: string, after: string)
    requires Lookup(env, "SUPABASE_URL") == Some(before + PlaceholderMarker + after)
          || Lookup(env, "SUPABASE_ANON_KEY") == Some(before + PlaceholderMarker + after)
    ensures Supabase(env).None?
  {
    var v := before + PlaceholderMarker + after;
    assert OccursAt(v, PlaceholderMarker, |before|) by {
      assert v[|before|..|before| + |PlaceholderMarker|] == PlaceholderMarker;
    }
  }
}
