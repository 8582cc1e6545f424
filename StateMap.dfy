/** The `useMap` hook: a `Map` held in React state, with `put` and `del`.
    Both first change the current `Map` object in place (`set`, `delete`)
    and then store a fresh copy of it as the new state, so the object the
    last render handed out sees the change too. */
module StateMap {

  /** A JavaScript `Map`, seen as its entries. */
  class JsMap<K(==), V> {
    var entries: map<K, V>

    constructor (entries: map<K, V>)
      ensures this.entries == entries
    {
      this.entries := entries;
    }

    /** `map.set(key, value)`: last write wins. */
    method Set(key: K, value: V)
      modifies this
      ensures entries == old(entries)[key := value]
    {
      entries := entries[key := value];
    }

    /** `map.delete(key)`. */
    method Delete(key: K)
      modifies this
      ensures entries == old(entries) - {key}
    {
      entries := entries - {key};
    }
  }

  /** The hook's state cell. */
  class UseMap<K(==), V> {
    var state: JsMap<K, V>

    constructor ()
      ensures fresh(state) && state.entries == map[]
    {
      state := new JsMap(map[]);
    }

    /** `put(key, value)`: `setMap(new Map(map.set(key, value)))`. */
    method Put(key: K, value: V)
      modifies this, state
      ensures fresh(state)
      ensures state.entries == old(state.entries)[key := value]
      ensures key in state.entries && state.entries[key] == value
      ensures forall k :: k != key && k in old(state.entries) ==> k in state.entries && state.entries[k] == old(state.entries)[k]
      ensures old(state).entries == state.entries
    {
      state.Set(key, value);
      state := new JsMap(state.entries);
    }

    /** `del(key)`: `setMap(new Map((map.delete(key), map.entries())))`. */
    method Del(key: K)
      modifies this, state
      ensures fresh(state)
      ensures state.entries == old(state.entries) - {key}
      ensures key !in state.entries
      ensures forall k :: k != key && k in old(state.entries) ==> k in state.entries && state.entries[k] == old(state.entries)[k]
      ensures old(state).entries == state.entries
    {
      state.Delete(key);
      state := new JsMap(state.entries);
    }
  }
}
