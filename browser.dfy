/**
 * The browser and build-tool surfaces the application reads and writes:
 * environment tables (`process.env`, `window.process.env`,
 * `import.meta.env`) and `localStorage`.
 */
module Browser {
  import opened Wrappers

  /** An environment table; a name it does not hold reads as `undefined`. */
  type Env = map<string, string>

  /** `env[name]` */
  function Lookup(env: Env, name: string): Option<string> {
    if name in env then Some(env[name]) else None
  }

  /** A string value that is present and non-empty, i.e. truthy. */
  predicate Filled(v: Option<string>) {
    v.Some? && v.value != ""
  }

  /** `a || b` on two possibly missing strings: the first truthy one, else `b`. */
  function Or(a: Option<string>, b: Option<string>): (r: Option<string>)
    ensures Filled(r) <==> Filled(a) || Filled(b)
    ensures Filled(a) ==> r == a
    ensures !Filled(a) ==> r == b
  {
    if Filled(a) then a else b
  }

  /** The browser's `localStorage`: a string-to-string table updated in place. */
  class LocalStorage {
    var entries: map<string, string>

    constructor (initial: map<string, string>)
      ensures entries == initial
    {
      entries := initial;
    }

    /** `localStorage.getItem(key)`: `null` (here `None`) when absent. */
    function GetItem(key: string): Option<string>
      reads this
    {
      if key in entries then Some(entries[key]) else None
    }

    /** `localStorage.setItem(key, value)` */
    method SetItem(key: string, value: string)
      modifies this
      ensures entries == old(entries)[key := value]
    {
      entries := entries[key := value];
    }

    /** `localStorage.removeItem(key)` */
    method RemoveItem(key: string)
      modifies this
      ensures entries == old(entries) - {key}
    {
      entries := entries - {key};
    }
  }
}
