/** Facts about Go maps used when a program ranges over one. */
module Maps {
  /** Some element of a non-empty set, as `range` over a map picks its next key. */
  method PickKey<K>(s: set<K>) returns (k: K)
    requires s != {}
    ensures k in s
  {
    k :| k in s;
  }

  /** Every value of a map is stored under some key. */
  lemma ValueHasKey<K, V>(m: map<K, V>, v: V) returns (k: K)
    requires v in m.Values
    ensures k in m && m[k] == v
  {
    k :| k in m && m[k] == v;
  }
}
