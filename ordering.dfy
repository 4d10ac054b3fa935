/**
 * Lexicographic keys (primary value, insertion number) and the search for the
 * entry with the smallest key. The event scheduler orders pending events by
 * (time, insertion number); the priority resource orders waiting requests by
 * (priority, request number). Both pick their next entry with `Earliest`.
 */
module Ordering {

  /** A sort key: a primary value, ties broken by a unique insertion number. */
  datatype Key = Key(major: real, seqno: nat)

  /** `a` strictly precedes `b`: smaller primary value, or equal and inserted earlier. */
  predicate Precedes(a: Key, b: Key) {
    a.major < b.major || (a.major == b.major && a.seqno < b.seqno)
  }

  /** No two entries of `m` share an insertion number. */
  ghost predicate DistinctSeqnos<K>(m: map<K, Key>) {
    forall a, b :: a in m && b in m && a != b ==> m[a].seqno != m[b].seqno
  }

  /** Every insertion number in `m` is below `bound`. */
  ghost predicate SeqnosBelow<K>(m: map<K, Key>, bound: nat) {
    forall a :: a in m ==> m[a].seqno < bound
  }

  /** `k` is the entry of `m` whose key precedes every other key in `m`. */
  ghost predicate IsEarliest<K>(m: map<K, Key>, k: K) {
    k in m && forall v :: v in m && v != k ==> Precedes(m[k], m[v])
  }

  /** Adding an entry with a fresh, larger insertion number keeps the numbers distinct and bounded. */
  lemma AddFresh<K>(m: map<K, Key>, k: K, major: real, bound: nat)
    requires DistinctSeqnos(m) && SeqnosBelow(m, bound) && k !in m
    ensures DistinctSeqnos(m[k := Key(major, bound)])
    ensures SeqnosBelow(m[k := Key(major, bound)], bound + 1)
  {
  }

  /** Finds the entry with the smallest key; keys are a strict total order because insertion numbers are distinct. */
  method Earliest<K(==)>(m: map<K, Key>) returns (k: K)
    requires m != map[]
    requires DistinctSeqnos(m)
    ensures IsEarliest(m, k)
  {
    var keys := m.Keys;
    assert exists some :: some in keys by {
      var some :| some in m;
      assert some in keys;
    }
    k :| k in keys;
    var rest := keys - {k};
    while rest != {}
      invariant rest <= keys && k in keys && k !in rest
      invariant forall v :: v in keys && v !in rest && v != k ==> Precedes(m[k], m[v])
      decreases rest
    {
      var v :| v in rest;
      if Precedes(m[v], m[k]) {
        k := v;
      }
      rest := rest - {v};
    }
  }
}
