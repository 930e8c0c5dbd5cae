/** Tables of rows as the services query them: the key column of a table,
    uniqueness of a key (a primary key or a unique index), and
    `FirstOrDefault` on a key, which picks the first matching row. */
module Tables {
  import opened Common

  /** The key column of a table. */
  function Keys<T, K>(rows: seq<T>, key: T -> K): (r: seq<K>)
    ensures |r| == |rows|
    ensures forall i :: 0 <= i < |rows| ==> r[i] == key(rows[i])
  {
    seq(|rows|, i requires 0 <= i < |rows| => key(rows[i]))
  }

  /** No key value occurs twice. */
  predicate NoDuplicates<K(==)>(ks: seq<K>) {
    forall i, j :: 0 <= i < j < |ks| ==> ks[i] != ks[j]
  }

  /** The position of the first occurrence of `k`, if any. */
  function IndexOf<K(==)>(ks: seq<K>, k: K): (r: Option<nat>)
    ensures r.None? <==> k !in ks
    ensures r.Some? ==> r.value < |ks| && ks[r.value] == k
    ensures r.Some? ==> forall j :: 0 <= j < r.value ==> ks[j] != k
    decreases |ks|
  {
    if ks == [] then None
    else if ks[0] == k then Some(0)
    else
      match IndexOf(ks[1..], k)
      case None => None
      case Some(i) => Some(i + 1)
  }

  /** With unique keys the first match is the only match. */
  lemma IndexOfUnique<K>(ks: seq<K>, i: nat)
    requires NoDuplicates(ks) && i < |ks|
    ensures IndexOf(ks, ks[i]) == Some(i)
  {
  }

  /** The key column of a table with one more row. */
  lemma KeysAppend<T, K>(rows: seq<T>, key: T -> K, row: T)
    ensures Keys(rows + [row], key) == Keys(rows, key) + [key(row)]
  {
    assert Keys(rows + [row], key) == Keys(rows, key) + [key(row)];
  }

  /** Adding a row whose key is not yet present keeps the keys unique. */
  lemma AppendFresh<T, K>(rows: seq<T>, key: T -> K, row: T)
    requires NoDuplicates(Keys(rows, key)) && key(row) !in Keys(rows, key)
    ensures Keys(rows + [row], key) == Keys(rows, key) + [key(row)]
    ensures NoDuplicates(Keys(rows + [row], key))
  {
    assert Keys(rows + [row], key) == Keys(rows, key) + [key(row)];
  }

  /** Replacing a row by one with the same key leaves the key column unchanged. */
  lemma ReplaceKeepingKey<T, K>(rows: seq<T>, key: T -> K, i: nat, row: T)
    requires i < |rows| && key(row) == key(rows[i])
    ensures Keys(rows[i := row], key) == Keys(rows, key)
  {
  }
}
