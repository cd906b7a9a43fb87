// Insertion-ordered dictionaries, as the planner builds and walks them.
module Dict {
  import opened Text

  type Dict<K, V> = seq<(K, V)>

  function Get<K(==), V>(d: Dict<K, V>, k: K): (v: Option<V>) {
    if d == [] then None else if d[0].0 == k then Some(d[0].1) else Get(d[1..], k)
  }

  // d[k] = v: in place if the key is there, at the end if not.
  function Put<K(==), V>(d: Dict<K, V>, k: K, v: V): (r: Dict<K, V>) {
    if d == [] then [(k, v)]
    else if d[0].0 == k then [(k, v)] + d[1..]
    else [d[0]] + Put(d[1..], k, v)
  }

  ghost predicate Keyed<K, V>(d: Dict<K, V>) { forall i, j :: 0 <= i < j < |d| ==> d[i].0 != d[j].0 }

  lemma {:induction false} PutGet<K, V>(d: Dict<K, V>, k: K, v: V, x: K)
    ensures Get(Put(d, k, v), x) == if x == k then Some(v) else Get(d, x)
    decreases |d|
  {
    if d != [] {
      if d[0].0 == k {
        assert ([(k, v)] + d[1..])[1..] == d[1..];
      } else {
        assert ([d[0]] + Put(d[1..], k, v))[1..] == Put(d[1..], k, v);
        PutGet(d[1..], k, v, x);
      }
    }
  }

  lemma {:induction false} GetIn<K, V>(d: Dict<K, V>, k: K)
    ensures Get(d, k) == None <==> forall i :: 0 <= i < |d| ==> d[i].0 != k
    ensures Get(d, k).Some? ==> (k, Get(d, k).value) in d
    decreases |d|
  {
    if d != [] && d[0].0 != k {
      GetIn(d[1..], k);
      if Get(d[1..], k) == None {
        forall i | 0 <= i < |d| ensures d[i].0 != k {
          if i > 0 { assert d[i] == d[1..][i - 1]; }
        }
      } else {
        var i :| 0 <= i < |d[1..]| && d[1..][i] == (k, Get(d[1..], k).value);
        assert d[i + 1] == d[1..][i];
      }
    }
  }

  lemma {:induction false} PutKeyed<K, V>(d: Dict<K, V>, k: K, v: V)
    requires Keyed(d)
    ensures Keyed(Put(d, k, v))
    ensures forall i :: 0 <= i < |Put(d, k, v)| ==>
              Put(d, k, v)[i].0 == k || exists j :: 0 <= j < |d| && d[j].0 == Put(d, k, v)[i].0
    decreases |d|
  {
    if d != [] {
      if d[0].0 == k {
        var r := [(k, v)] + d[1..];
        forall i | 0 <= i < |r| ensures r[i].0 == d[i].0 {
        }
      } else {
        var tail := d[1..];
        assert Keyed(tail) by {
          forall i, j | 0 <= i < j < |tail| ensures tail[i].0 != tail[j].0 {
            assert tail[i] == d[i + 1] && tail[j] == d[j + 1];
          }
        }
        PutKeyed(tail, k, v);
        var t := Put(tail, k, v);
        var r := [d[0]] + t;
        assert Put(d, k, v) == r;
        forall i | 0 <= i < |r| ensures r[i].0 == k || exists j :: 0 <= j < |d| && d[j].0 == r[i].0 {
          if i == 0 { assert d[0].0 == r[0].0; }
          else {
            assert r[i] == t[i - 1];
            if t[i - 1].0 != k {
              var j :| 0 <= j < |tail| && tail[j].0 == t[i - 1].0;
              assert d[j + 1] == tail[j];
            }
          }
        }
        forall i, j | 0 <= i < j < |r| ensures r[i].0 != r[j].0 {
          assert r[j] == t[j - 1];
          if i > 0 { assert r[i] == t[i - 1]; }
          else if t[j - 1].0 != k {
            var m :| 0 <= m < |tail| && tail[m].0 == t[j - 1].0;
            assert d[m + 1] == tail[m];
          }
        }
      }
    }
  }
}
