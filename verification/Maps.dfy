/** Maps that are built key by key. */
module Maps {
  /** The map with these keys that agrees with f. */
  ghost function MapOf<K, V>(keys: set<K>, f: K --> V): (m: map<K, V>)
    requires forall k :: k in keys ==> f.requires(k)
    ensures m.Keys == keys && forall k :: k in keys ==> m[k] == f(k)
  {
    if keys == {} then map[] else
    var k :| k in keys;
    MapOf(keys - {k}, f)[k := f(k)]
  }
}
