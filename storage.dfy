/**
 * The key/value contract every cache tier keeps, whatever backend holds it:
 * an insert overwrites, a retrieve after an insert hands the value back, and
 * a key never inserted is reported as not found.
 */
module Storage {
  import opened Wrappers

  /** The one way a retrieve fails in this model: the key is absent. */
  datatype StorageError = ErrNotFound

  /** Looks `key` up: its value, or ErrNotFound (with no value) when absent. */
  function Retrieve<V>(tier: map<string, V>, key: string): (r: Result<V, StorageError>)
    ensures r.Ok? <==> key in tier
    ensures r.Ok? ==> r.value == tier[key]
    ensures r.Err? ==> r.error == ErrNotFound
  {
    if key in tier then Ok(tier[key]) else Err(ErrNotFound)
  }

  /** The number of entries the tier holds. */
  function Len<V>(tier: map<string, V>): (n: nat) {
    |tier|
  }

  /**
   * Stores `value` under `key`, replacing any earlier entry: a retrieve of
   * `key` then yields `value`, every other key is unaffected, and the count
   * grows only when the key is new.
   */
  function Insert<V>(tier: map<string, V>, key: string, value: V): (t: map<string, V>)
    ensures Retrieve(t, key) == Ok(value)
    ensures forall k :: k != key ==> Retrieve(t, k) == Retrieve(tier, k)
    ensures Len(t) == if key in tier then Len(tier) else Len(tier) + 1
  {
    tier[key := value]
  }

  /** Inserts `keys[i] -> values[i]` for each `i`, in order. */
  function InsertAll<V>(tier: map<string, V>, keys: seq<string>, values: seq<V>): (t: map<string, V>)
    requires |keys| == |values|
    decreases |keys|
  {
    if keys == [] then tier
    else InsertAll(Insert(tier, keys[0], values[0]), keys[1..], values[1..])
  }

  /** No key occurs twice. */
  predicate Distinct(keys: seq<string>) {
    forall i, j :: 0 <= i < j < |keys| ==> keys[i] != keys[j]
  }

  /** Inserting other keys leaves what a key retrieves alone. */
  lemma {:induction false} InsertAllOthers<V>(tier: map<string, V>, keys: seq<string>, values: seq<V>, k: string)
    requires |keys| == |values|
    requires k !in keys
    ensures Retrieve(InsertAll(tier, keys, values), k) == Retrieve(tier, k)
    decreases |keys|
  {
    if keys != [] {
      assert k !in keys[1..];
      InsertAllOthers(Insert(tier, keys[0], values[0]), keys[1..], values[1..], k);
    }
  }

  /**
   * Inserting distinct new keys one after another: each key then retrieves
   * the value inserted under it, and the count grows by the number of keys.
   */
  lemma {:induction false} InsertAllRetrievable<V>(tier: map<string, V>, keys: seq<string>, values: seq<V>)
    requires |keys| == |values|
    requires Distinct(keys)
    requires forall i :: 0 <= i < |keys| ==> keys[i] !in tier
    ensures Len(InsertAll(tier, keys, values)) == Len(tier) + |keys|
    ensures forall i :: 0 <= i < |keys| ==> Retrieve(InsertAll(tier, keys, values), keys[i]) == Ok(values[i])
    decreases |keys|
  {
    if keys != [] {
      var t := Insert(tier, keys[0], values[0]);
      assert forall i :: 0 <= i < |keys| - 1 ==> keys[1..][i] == keys[i + 1];
      InsertAllRetrievable(t, keys[1..], values[1..]);
      assert keys[0] !in keys[1..] by {
        forall i | 0 <= i < |keys[1..]| ensures keys[1..][i] != keys[0] {
          assert keys[1..][i] == keys[i + 1];
        }
      }
      InsertAllOthers(t, keys[1..], values[1..], keys[0]);
    }
  }
}
