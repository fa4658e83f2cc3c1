/** The process-wide named registry: repositories created lazily by name, each
    a key/value map. Its implementation lives outside the modelled files; the
    core only reads and writes entries, so it is modelled as a map of maps. */
module Registry {
  import opened JsValue

  type Store = map<string, map<string, Value>>

  /** `Registry.getRepository(name)`: the existing repository, or a fresh empty one. */
  function Repository(s: Store, name: string): (repo: map<string, Value>)
    ensures name in s ==> repo == s[name]
    ensures name !in s ==> repo == map[]
  {
    if name in s then s[name] else map[]
  }

  /** `getRepository(name).get(key)`: the stored value, `undefined` when never set. */
  function Get(s: Store, name: string, key: string): (v: Value)
    ensures name in s && key in s[name] ==> v == s[name][key]
    ensures (name !in s || key !in s[name]) ==> v == VUndef
  {
    var repo := Repository(s, name);
    if key in repo then repo[key] else VUndef
  }

  /** `getRepository(name).set(key, v)`: that one entry changes; every other
      entry of every repository, and of this one, is kept. */
  function Set(s: Store, name: string, key: string, v: Value): (s': Store)
    ensures Get(s', name, key) == v
    ensures forall n, k :: (n != name || k != key) ==> Get(s', n, k) == Get(s, n, k)
    ensures s'.Keys == s.Keys + {name}
  {
    s[name := Repository(s, name)[key := v]]
  }
}
