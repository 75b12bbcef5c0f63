/**
 * The `objectAssign` polyfill of `Object.assign`: the own properties of each source are copied
 * onto the target, source after source, so a later source overwrites an earlier one.  A JavaScript
 * object is modelled by the map from its own property keys to their values; the key type is a
 * parameter so that a caller may name a fixed set of properties by a datatype.
 */
module Objects {
  import opened Wrappers

  type Object<K, V> = map<K, V>

  datatype TypeError = TypeError(message: string)

  const NullTargetMessage := "Object.assign cannot be called with null or undefined"

  /** `Object(source)`: a `null` or `undefined` source converts to an object without own properties. */
  function OwnProperties<K, V>(source: Option<Object<K, V>>): Object<K, V>
  {
    source.GetOr(map[])
  }

  /** The object that copying `sources`, in order, onto `to` produces. */
  function AssignAll<K, V>(to: Object<K, V>, sources: seq<Option<Object<K, V>>>): Object<K, V>
    decreases |sources|
  {
    if sources == [] then to
    else AssignAll(to, sources[..|sources| - 1]) + OwnProperties(sources[|sources| - 1])
  }

  /** `objectAssign(target, ...sources)`; a `null` or `undefined` target raises a `TypeError`. */
  method Assign<K, V>(target: Option<Object<K, V>>, sources: seq<Option<Object<K, V>>>)
    returns (r: Result<Object<K, V>, TypeError>)
    ensures target.None? ==> r == Failure(TypeError(NullTargetMessage))
    ensures target.Some? ==> r == Success(AssignAll(target.value, sources))
  {
    if target.None? {
      return Failure(TypeError(NullTargetMessage));
    }
    var to := target.value;
    var s := 0;
    while s < |sources|
      invariant 0 <= s <= |sources|
      invariant to == AssignAll(target.value, sources[..s])
    {
      var from := OwnProperties(sources[s]);
      var keys := from.Keys;
      ghost var before := to;
      while keys != {}
        invariant keys <= from.Keys
        invariant to == before + (from - keys)
        decreases keys
      {
        var key :| key in keys;
        to := to[key := from[key]];
        keys := keys - {key};
      }
      assert from - keys == from;
      assert sources[..s + 1][..s] == sources[..s];
      s := s + 1;
    }
    assert sources[..s] == sources;
    return Success(to);
  }

  /** `objectAssign({}, a, b)` is `b` laid over `a`. */
  lemma AssignAllOfTwo<K, V>(a: Object<K, V>, b: Object<K, V>)
    ensures AssignAll(map[], [Some(a), Some(b)]) == a + b
  {
    var to: Object<K, V> := map[];
    assert [Some(a), Some(b)][..1] == [Some(a)];
    assert [Some(a)][..0] == [];
    assert AssignAll(to, [Some(a)]) == to + a;
    assert to + a == a;
  }

  /** The result has exactly the keys of the target and of the sources. */
  lemma {:induction false} AssignAllKeys<K, V>(to: Object<K, V>, sources: seq<Option<Object<K, V>>>, k: K)
    ensures k in AssignAll(to, sources) <==>
            k in to || exists i :: 0 <= i < |sources| && k in OwnProperties(sources[i])
    decreases |sources|
  {
    if sources != [] {
      var n := |sources| - 1;
      AssignAllKeys(to, sources[..n], k);
      if exists i :: 0 <= i < |sources| && k in OwnProperties(sources[i]) {
        var i :| 0 <= i < |sources| && k in OwnProperties(sources[i]);
        if i < n {
          assert sources[..n][i] == sources[i];
        }
      }
      if exists i :: 0 <= i < n && k in OwnProperties(sources[..n][i]) {
        var i :| 0 <= i < n && k in OwnProperties(sources[..n][i]);
        assert sources[i] == sources[..n][i];
      }
    }
  }

  /** A key owned by source `i` and by no later source carries source `i`'s value. */
  lemma {:induction false} AssignAllLastWins<K, V>(to: Object<K, V>, sources: seq<Option<Object<K, V>>>, i: nat, k: K)
    requires i < |sources| && k in OwnProperties(sources[i])
    requires forall j :: i < j < |sources| ==> k !in OwnProperties(sources[j])
    ensures k in AssignAll(to, sources)
    ensures AssignAll(to, sources)[k] == OwnProperties(sources[i])[k]
    decreases |sources|
  {
    var n := |sources| - 1;
    if i < n {
      assert k !in OwnProperties(sources[n]);
      forall j | i < j < n
        ensures k !in OwnProperties(sources[..n][j])
      {
        assert sources[..n][j] == sources[j];
      }
      assert sources[..n][i] == sources[i];
      AssignAllLastWins(to, sources[..n], i, k);
    }
  }

  /** A key that no source owns keeps the target's value, or stays absent. */
  lemma {:induction false} AssignAllUntouched<K, V>(to: Object<K, V>, sources: seq<Option<Object<K, V>>>, k: K)
    requires forall j :: 0 <= j < |sources| ==> k !in OwnProperties(sources[j])
    ensures k in AssignAll(to, sources) <==> k in to
    ensures k in to ==> AssignAll(to, sources)[k] == to[k]
    decreases |sources|
  {
    if sources != [] {
      var n := |sources| - 1;
      assert k !in OwnProperties(sources[n]);
      forall j | 0 <= j < n
        ensures k !in OwnProperties(sources[..n][j])
      {
        assert sources[..n][j] == sources[j];
      }
      AssignAllUntouched(to, sources[..n], k);
    }
  }
}
