/** The agent's key-value scratch store. */
module AgentMemory {
  import opened Wrappers
  import opened Values
  import opened Dicts

  class Memory {
    var store: Dict<Value>

    ghost predicate Valid()
      reads this
    {
      store.Valid()
    }

    /** A new, empty store. */
    constructor ()
      ensures Valid() && store.keys == [] && store.entries == map[]
    {
      store := Empty();
    }

    /** `set(key, value)`: a new key goes last; an existing key keeps its place. */
    method Set(key: string, value: Value)
      requires Valid()
      modifies this
      ensures Valid()
      ensures store == old(store).Put(key, value)
      ensures Get(key) == value
    {
      store := store.Put(key, value);
    }

    /** `get(key, default)`: the stored value, or `default` for a key never set or deleted. */
    function Get(key: string, default: Value := VNull): (v: Value)
      reads this
      ensures key in store.entries ==> v == store.entries[key]
      ensures key !in store.entries ==> v == default
    {
      store.Get(key).GetOr(default)
    }

    /** `delete(key)`: removes the key if present; a missing key is not an error. */
    method Delete(key: string)
      requires Valid()
      modifies this
      ensures Valid()
      ensures store == old(store).Remove(key)
      ensures forall d :: Get(key, d) == d
    {
      store := store.Remove(key);
    }

    /** `clear()`: forgets every key. */
    method Clear()
      modifies this
      ensures Valid() && store.keys == [] && store.entries == map[]
    {
      store := Empty();
    }

    /** `keys()`: every stored key once, in first-insertion order. */
    function Keys(): (ks: seq<string>)
      reads this
      requires Valid()
      ensures ks == store.keys
      ensures forall k :: k in ks <==> k in store.entries
      ensures Distinct(ks)
    {
      store.keys
    }
  }
}
