/** Products over finite maps: the order of multiplication does not matter. */
module Products {

  ghost function Pick(m: map<string, real>): (k: string)
    requires m != map[]
    ensures k in m
  {
    var k :| k in m;
    k
  }

  /** The product of all values, taken in whatever order Pick chooses. */
  ghost function Product(m: map<string, real>): real {
    if m == map[] then 1.0 else m[Pick(m)] * Product(m - {Pick(m)})
  }

  lemma Swap(x: real, y: real, z: real)
    ensures x * (y * z) == y * (x * z)
  {
  }

  /** Any key may be taken out first. */
  lemma {:induction false} ProductRemove(m: map<string, real>, k: string)
    requires k in m
    ensures Product(m) == m[k] * Product(m - {k})
    decreases m.Keys
  {
    var j := Pick(m);
    if j != k {
      ProductRemove(m - {j}, k);
      ProductRemove(m - {k}, j);
      assert m - {j} - {k} == m - {k} - {j};
      Swap(m[j], m[k], Product(m - {j} - {k}));
    }
  }

  lemma ProductInsert(m: map<string, real>, k: string, x: real)
    requires k !in m
    ensures Product(m[k := x]) == Product(m) * x
  {
    ProductRemove(m[k := x], k);
    assert m[k := x] - {k} == m;
  }

  lemma {:induction false} ProductNonZero(m: map<string, real>)
    requires forall k :: k in m ==> m[k] != 0.0
    ensures Product(m) != 0.0
    decreases m.Keys
  {
    if m != map[] {
      var k :| k in m;
      ProductRemove(m, k);
      ProductNonZero(m - {k});
    }
  }

  lemma {:induction false} ProductOfOnes(m: map<string, real>)
    requires forall k :: k in m ==> m[k] == 1.0
    ensures Product(m) == 1.0
    decreases m.Keys
  {
    if m != map[] {
      var k :| k in m;
      ProductRemove(m, k);
      ProductOfOnes(m - {k});
    }
  }

  lemma TimesNonNegative(x: real, y: real)
    requires x >= 0.0 && y >= 0.0
    ensures x * y >= 0.0
  {
  }

  lemma {:induction false} ProductSign(m: map<string, real>)
    requires forall k :: k in m ==> m[k] >= 0.0
    ensures Product(m) >= 0.0
    decreases m.Keys
  {
    if m != map[] {
      var k :| k in m;
      ProductRemove(m, k);
      ProductSign(m - {k});
      TimesNonNegative(m[k], Product(m - {k}));
    }
  }

  /** If only key `r` has a value other than 1, the product is that factor. */
  lemma ProductSingle(m: map<string, real>, r: string)
    requires r in m && forall s :: s in m && s != r ==> m[s] == 1.0
    ensures Product(m) == m[r]
  {
    ProductRemove(m, r);
    ProductOfOnes(m - {r});
  }
}
