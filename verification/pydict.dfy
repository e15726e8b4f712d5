/** Python dictionaries as the calculator sees them: a finite map whose keys
    are also kept in insertion order, because `for k, v in d.items()` visits
    them in that order. */
module PyDict {

  /** No element occurs twice. */
  predicate Distinct<K(==)>(ks: seq<K>) {
    forall i, j :: 0 <= i < j < |ks| ==> ks[i] != ks[j]
  }

  /** A Python `dict`: the key/value entries and the order `.items()` visits
      the keys in. */
  datatype Dict<K(==), V> = Dict(order: seq<K>, entries: map<K, V>)

  /** The order lists every key of the entries exactly once, and nothing else,
      as it always does for a real dict. */
  predicate WellFormed<K(==), V>(d: Dict<K, V>) {
    && Distinct(d.order)
    && (forall k :: k in d.order ==> k in d.entries)
    && (forall k :: k in d.entries ==> k in d.order)
  }

  /** Removing position i of a distinct sequence keeps it distinct and drops
      exactly the element that stood there. */
  lemma DistinctRemove<K>(ks: seq<K>, i: nat)
    requires Distinct(ks)
    requires i < |ks|
    ensures Distinct(ks[..i] + ks[i + 1..])
    ensures forall k :: k in ks[..i] + ks[i + 1..] <==> k in ks && k != ks[i]
  {
    var rest := ks[..i] + ks[i + 1..];
    assert |rest| == |ks| - 1;
    assert forall j :: 0 <= j < |rest| ==> rest[j] == if j < i then ks[j] else ks[j + 1];
    forall k | k in ks && k != ks[i]
      ensures k in rest
    {
      var j :| 0 <= j < |ks| && ks[j] == k;
      if j < i {
        assert rest[j] == k;
      } else {
        assert rest[j - 1] == k;
      }
    }
  }
}
