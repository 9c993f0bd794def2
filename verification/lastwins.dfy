/** Storing a list of records into a dict one after the other, the way
    `for x in data: d[key(x)] = val(x)` does: every key of the list ends up
    in the dict, a later record with the same key overwrites an earlier one,
    and keys the list does not mention keep their old values. */
module LastWins {

  /** `items[i]` is the last record carrying its key. */
  ghost predicate IsLast<T, K>(items: seq<T>, key: T -> K, i: int) {
    && 0 <= i < |items|
    && forall j :: i < j < |items| ==> key(items[j]) != key(items[i])
  }

  /** No record of `items` carries key `k`. */
  ghost predicate Untouched<T, K>(items: seq<T>, key: T -> K, k: K) {
    forall i :: 0 <= i < |items| ==> key(items[i]) != k
  }

  /** The keys the records of `items` carry. */
  ghost function KeysOf<T, K>(items: seq<T>, key: T -> K): set<K> {
    set i | 0 <= i < |items| :: key(items[i])
  }

  /** The dict after storing every record of `items` into `m`. */
  function InsertAll<T, K, V>(m: map<K, V>, items: seq<T>, key: T -> K, val: T -> V): (r: map<K, V>)
    ensures r.Keys == m.Keys + KeysOf(items, key)
    decreases |items|
  {
    if |items| == 0 then m
    else
      var n := |items| - 1;
      var r0 := InsertAll(m, items[..n], key, val);
      assert KeysOf(items, key) == KeysOf(items[..n], key) + {key(items[n])} by {
        assert forall i :: 0 <= i < n ==> items[..n][i] == items[i];
      }
      r0[key(items[n]) := val(items[n])]
  }

  /** The last record with a given key is the one the dict keeps. */
  lemma {:induction false} InsertAllLast<T, K, V>(m: map<K, V>, items: seq<T>, key: T -> K, val: T -> V, i: int)
    requires IsLast(items, key, i)
    ensures key(items[i]) in InsertAll(m, items, key, val)
    ensures InsertAll(m, items, key, val)[key(items[i])] == val(items[i])
    decreases |items|
  {
    var n := |items| - 1;
    if i < n {
      assert IsLast(items[..n], key, i) by {
        assert forall j :: 0 <= j < n ==> items[..n][j] == items[j];
      }
      InsertAllLast(m, items[..n], key, val, i);
    }
  }

  /** Keys the records do not carry keep their old value. */
  lemma {:induction false} InsertAllUntouched<T, K, V>(m: map<K, V>, items: seq<T>, key: T -> K, val: T -> V, k: K)
    requires k in m && Untouched(items, key, k)
    ensures k in InsertAll(m, items, key, val)
    ensures InsertAll(m, items, key, val)[k] == m[k]
    decreases |items|
  {
    if |items| > 0 {
      var n := |items| - 1;
      assert Untouched(items[..n], key, k) by {
        assert forall j :: 0 <= j < n ==> items[..n][j] == items[j];
      }
      InsertAllUntouched(m, items[..n], key, val, k);
    }
  }

  /** Storing `a` and then `b` is the same as storing `a + b`. */
  lemma {:induction false} InsertAllAppend<T, K, V>(m: map<K, V>, a: seq<T>, b: seq<T>, key: T -> K, val: T -> V)
    ensures InsertAll(InsertAll(m, a, key, val), b, key, val) == InsertAll(m, a + b, key, val)
    decreases |b|
  {
    if |b| == 0 {
      assert a + b == a;
    } else {
      var n := |b| - 1;
      InsertAllAppend(m, a, b[..n], key, val);
      assert (a + b)[..|a + b| - 1] == a + b[..n];
      assert (a + b)[|a + b| - 1] == b[n];
    }
  }
}
