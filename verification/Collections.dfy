/** Small vocabulary shared by every component: optional values and totals over dictionaries. */
module Collections {

  datatype Option<+T> = None | Some(value: T)

  /** Some key of a nonempty dictionary. */
  ghost function Pick<K>(m: map<K, real>): (k: K)
    requires m != map[]
    ensures k in m
  {
    assert m.Keys != {};
    var k :| k in m;
    k
  }

  /** The total of a dictionary's values. */
  ghost function Sum<K>(m: map<K, real>): real
    decreases |m|
  {
    if m == map[] then 0.0 else
      var k := Pick(m);
      m[k] + Sum(m - {k})
  }

  /** The total does not depend on the order in which the keys are taken. */
  lemma {:induction false} SumRemove<K>(m: map<K, real>, k: K)
    requires k in m
    ensures Sum(m) == m[k] + Sum(m - {k})
    decreases |m|
  {
    var j := Pick(m);
    if j != k {
      SumRemove(m - {j}, k);
      SumRemove(m - {k}, j);
      assert m - {j} - {k} == m - {k} - {j};
    }
  }

  lemma SumAdd<K>(m: map<K, real>, k: K, v: real)
    requires k !in m
    ensures Sum(m[k := v]) == Sum(m) + v
  {
    SumRemove(m[k := v], k);
    assert m[k := v] - {k} == m;
  }

  /** A dictionary whose values are all at most `b` totals at most `|m| * b`. */
  lemma {:induction false} SumAtMost<K>(m: map<K, real>, b: real)
    requires forall k :: k in m ==> m[k] <= b
    ensures Sum(m) <= |m| as real * b
    decreases |m|
  {
    if m != map[] {
      var k := Pick(m);
      var rest := m - {k};
      assert rest.Keys == m.Keys - {k};
      SumAtMost(rest, b);
      assert |m| as real == |rest| as real + 1.0;
      calc {
        |m| as real * b;
        (|rest| as real + 1.0) * b;
        |rest| as real * b + b;
      }
    }
  }

  /** Totals subtract pointwise. */
  lemma {:induction false} SumDifference<K>(a: map<K, real>, b: map<K, real>, d: map<K, real>)
    requires a.Keys == b.Keys == d.Keys
    requires forall k :: k in a ==> d[k] == a[k] - b[k]
    ensures Sum(d) == Sum(a) - Sum(b)
    decreases |a|
  {
    if a != map[] {
      var k := Pick(a);
      SumRemove(b, k);
      SumRemove(d, k);
      SumDifference(a - {k}, b - {k}, d - {k});
    } else {
      assert b == map[] && d == map[];
    }
  }

  /** Leaving out entries that are zero changes no total. */
  lemma {:induction false} SumDropZeros<K>(m: map<K, real>, part: map<K, real>)
    requires part.Keys <= m.Keys
    requires forall k :: k in m ==> if k in part then part[k] == m[k] else m[k] == 0.0
    ensures Sum(part) == Sum(m)
    decreases |m|
  {
    if m != map[] {
      var k := Pick(m);
      if k in part {
        SumRemove(part, k);
        SumDropZeros(m - {k}, part - {k});
      } else {
        SumDropZeros(m - {k}, part);
      }
    } else {
      assert part == map[];
    }
  }
}
