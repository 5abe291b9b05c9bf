/**
 * Python's `dict[str, V]`: a map that remembers the order in which its keys
 * were first inserted. Overwriting a key keeps its position; `pop` removes it.
 * The tool registry and the agent memory both keep one.
 */
module Dicts {
  import opened Wrappers

  /** Keys in first-insertion order, and the entries themselves. */
  datatype Dict<V> = Dict(keys: seq<string>, entries: map<string, V>) {

    /** The keys are listed once each, and exactly the keys with entries are listed. */
    ghost predicate Valid() {
      && Distinct(keys)
      && (forall k :: k in entries <==> k in keys)
    }

    /** `d.get(k)`: never raises. */
    function Get(k: string): (r: Option<V>)
      ensures r.Some? <==> k in entries
      ensures r.Some? ==> r.value == entries[k]
    {
      if k in entries then Some(entries[k]) else None
    }

    /** `d[k] = v`: a new key goes last; an existing key is overwritten in place. */
    function Put(k: string, v: V): (d: Dict<V>)
      requires Valid()
      ensures d.Valid()
      ensures d.entries == entries[k := v]
      ensures k in entries ==> d.keys == keys
      ensures k !in entries ==> d.keys == keys + [k]
    {
      Dict(if k in entries then keys else keys + [k], entries[k := v])
    }

    /** `d.pop(k, None)`: removes `k` if present; a missing key changes nothing. */
    function Remove(k: string): (d: Dict<V>)
      requires Valid()
      ensures d.Valid()
      ensures d.entries == entries - {k}
      ensures k !in entries ==> d == this
      ensures k in entries ==> exists p :: 0 <= p < |keys| && keys[p] == k && d.keys == keys[..p] + keys[p + 1..]
    {
      RemoveSpec(this, k);
      Dict(Without(keys, k), entries - {k})
    }

    /** `list(d.values())`: one value per key, in key order. */
    function Values(): (vs: seq<V>)
      requires Valid()
      ensures |vs| == |keys|
      ensures forall i :: 0 <= i < |keys| ==> vs[i] == entries[keys[i]]
    {
      seq(|keys|, i requires 0 <= i < |keys| && Valid() => entries[keys[i]])
    }
  }

  /** An empty dict. */
  function Empty<V>(): (d: Dict<V>)
    ensures d.Valid() && d.keys == [] && d.entries == map[]
  {
    Dict([], map[])
  }

  /** `ks` with every occurrence of `k` dropped, the rest in order. */
  function Without(ks: seq<string>, k: string): seq<string>
    decreases |ks|
  {
    if ks == [] then []
    else if ks[0] == k then Without(ks[1..], k)
    else [ks[0]] + Without(ks[1..], k)
  }

  /** No key is listed twice. */
  ghost predicate Distinct(ks: seq<string>) {
    forall i, j :: 0 <= i < j < |ks| ==> ks[i] != ks[j]
  }

  /** A list with one more key is duplicate-free exactly when the list was and the key is new. */
  lemma DistinctSnoc(ks: seq<string>, k: string)
    ensures Distinct(ks + [k]) <==> Distinct(ks) && k !in ks
  {
    if Distinct(ks + [k]) {
      assert forall i :: 0 <= i < |ks| ==> (ks + [k])[i] == ks[i];
      assert k !in ks by {
        forall i | 0 <= i < |ks| ensures ks[i] != k {
          assert (ks + [k])[i] == ks[i] && (ks + [k])[|ks|] == k;
        }
      }
    }
  }

  /** Dropping a key keeps every other key and nothing else. */
  lemma {:induction false} WithoutMembers(ks: seq<string>, k: string)
    ensures forall x :: x in Without(ks, k) <==> x in ks && x != k
    decreases |ks|
  {
    if ks != [] {
      WithoutMembers(ks[1..], k);
      assert ks == [ks[0]] + ks[1..];
    }
  }

  /** Dropping a key from a duplicate-free list leaves it duplicate-free. */
  lemma {:induction false} WithoutDistinct(ks: seq<string>, k: string)
    requires Distinct(ks)
    ensures Distinct(Without(ks, k))
    decreases |ks|
  {
    if ks != [] {
      var tl := ks[1..];
      assert Distinct(tl) by {
        forall i, j | 0 <= i < j < |tl| ensures tl[i] != tl[j] {
          assert tl[i] == ks[i + 1] && tl[j] == ks[j + 1];
        }
      }
      WithoutDistinct(tl, k);
      WithoutMembers(tl, k);
      if ks[0] != k {
        assert ks[0] !in tl by {
          forall j | 0 <= j < |tl| ensures tl[j] != ks[0] {
            assert tl[j] == ks[j + 1];
          }
        }
        var w := Without(tl, k);
        assert Without(ks, k) == [ks[0]] + w;
        forall i, j | 0 <= i < j < |[ks[0]] + w| ensures ([ks[0]] + w)[i] != ([ks[0]] + w)[j] {
          if i > 0 {
            assert ([ks[0]] + w)[i] == w[i - 1];
          }
          assert ([ks[0]] + w)[j] == w[j - 1];
        }
      }
    }
  }

  /** Dropping a key that is absent changes nothing. */
  lemma {:induction false} WithoutAbsent(ks: seq<string>, k: string)
    requires k !in ks
    ensures Without(ks, k) == ks
    decreases |ks|
  {
    if ks != [] {
      WithoutAbsent(ks[1..], k);
      assert ks == [ks[0]] + ks[1..];
    }
  }

  /** Dropping a key listed once removes exactly its slot. */
  lemma {:induction false} WithoutSlot(ks: seq<string>, k: string, p: nat)
    requires Distinct(ks) && p < |ks| && ks[p] == k
    ensures Without(ks, k) == ks[..p] + ks[p + 1..]
    decreases |ks|
  {
    if p == 0 {
      assert k !in ks[1..];
      WithoutAbsent(ks[1..], k);
    } else {
      WithoutSlot(ks[1..], k, p - 1);
      assert ks[..p] == [ks[0]] + ks[1..][..p - 1];
      assert ks[p + 1..] == ks[1..][p..];
    }
  }

  /** What `Remove` promises, about the dict it builds. */
  lemma RemoveSpec<V>(d: Dict<V>, k: string)
    requires d.Valid()
    ensures Dict(Without(d.keys, k), d.entries - {k}).Valid()
    ensures k !in d.entries ==> Dict(Without(d.keys, k), d.entries - {k}) == d
    ensures k in d.entries ==> exists p :: 0 <= p < |d.keys| && d.keys[p] == k && Without(d.keys, k) == d.keys[..p] + d.keys[p + 1..]
  {
    var r := Dict(Without(d.keys, k), d.entries - {k});
    WithoutSpec(d.keys, k);
    assert forall x :: x in r.entries <==> x in r.keys;
    if k !in d.entries {
      assert r.entries == d.entries;
    }
  }

  /** Everything `Remove` needs about `Without`. */
  lemma WithoutSpec(ks: seq<string>, k: string)
    requires Distinct(ks)
    ensures forall x :: x in Without(ks, k) <==> x in ks && x != k
    ensures Distinct(Without(ks, k))
    ensures k !in ks ==> Without(ks, k) == ks
    ensures k in ks ==> exists p :: 0 <= p < |ks| && ks[p] == k && Without(ks, k) == ks[..p] + ks[p + 1..]
  {
    WithoutMembers(ks, k);
    WithoutDistinct(ks, k);
    if k !in ks {
      WithoutAbsent(ks, k);
    } else {
      var p :| 0 <= p < |ks| && ks[p] == k;
      WithoutSlot(ks, k, p);
    }
  }
}
