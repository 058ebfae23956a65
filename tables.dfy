/**
 * The two repository queries the services issue against a table held in
 * memory as a map from primary key to row: `findOne({ where })` and
 * `find({ where })`. The database promises no order for `find` without an
 * `order` option, so the methods pick rows in an unspecified order.
 */
module Tables {
  import opened Base

  /** The keys of the rows that satisfy `p`. */
  function Matching<K, V>(rows: map<K, V>, p: V -> bool): set<K>
  {
    set k | k in rows && p(rows[k])
  }

  /** No key occurs twice. */
  predicate Distinct<K(==)>(keys: seq<K>)
  {
    forall i, j :: 0 <= i < j < |keys| ==> keys[i] != keys[j]
  }

  /** `findOne({ where })`: the key of some row satisfying `p`, or None when no row does. */
  method FindOne<K, V>(rows: map<K, V>, p: V -> bool) returns (r: Option<K>)
    ensures r.Some? ==> r.value in rows && p(rows[r.value])
    ensures r.None? <==> Matching(rows, p) == {}
  {
    var unseen := rows.Keys;
    while unseen != {}
      invariant unseen <= rows.Keys
      invariant forall k :: k in rows && k !in unseen ==> !p(rows[k])
      decreases unseen
    {
      var k :| k in unseen;
      if p(rows[k]) {
        assert k in Matching(rows, p);
        return Some(k);
      }
      unseen := unseen - {k};
    }
    assert forall k :: k in rows ==> !p(rows[k]);
    return None;
  }

  /** `find({ where })`: every key whose row satisfies `p`, each once. */
  method FindAll<K, V>(rows: map<K, V>, p: V -> bool) returns (keys: seq<K>)
    ensures Distinct(keys)
    ensures forall k :: k in keys <==> k in Matching(rows, p)
    ensures |keys| == |Matching(rows, p)|
  {
    var all := Matching(rows, p);
    var unseen := all;
    keys := [];
    while unseen != {}
      invariant unseen <= all
      invariant Distinct(keys)
      invariant forall k :: k in keys ==> k in all && k !in unseen
      invariant forall k :: k in all ==> k in unseen || k in keys
      invariant |keys| + |unseen| == |all|
      decreases unseen
    {
      var k :| k in unseen;
      keys := keys + [k];
      unseen := unseen - {k};
    }
  }

  /** The rows stored under `keys`, in the order of the keys (the entities a query loads). */
  method Load<K, V>(rows: map<K, V>, keys: seq<K>) returns (values: seq<V>)
    requires forall k :: k in keys ==> k in rows
    ensures |values| == |keys|
    ensures forall m :: 0 <= m < |keys| ==> values[m] == rows[keys[m]]
  {
    values := [];
    var j := 0;
    while j < |keys|
      invariant 0 <= j <= |keys|
      invariant |values| == j
      invariant forall m :: 0 <= m < j ==> values[m] == rows[keys[m]]
    {
      values := values + [rows[keys[j]]];
      j := j + 1;
    }
  }
}
