/** Sums over finite sets. */
module Sums {

  ghost function Sum<K(!new)>(keys: set<K>, f: K -> nat): nat {
    if keys == {} then 0
    else
      var k :| k in keys;
      f(k) + Sum(keys - {k}, f)
  }

  /** The order in which a sum is taken does not matter. */
  lemma {:induction false} SumTake<K(!new)>(keys: set<K>, f: K -> nat, k: K)
    requires k in keys
    ensures Sum(keys, f) == f(k) + Sum(keys - {k}, f)
    decreases |keys|
  {
    var j :| j in keys && Sum(keys, f) == f(j) + Sum(keys - {j}, f);
    if j != k {
      SumTake(keys - {j}, f, k);
      SumTake(keys - {k}, f, j);
      assert keys - {j} - {k} == keys - {k} - {j};
    }
  }

  lemma {:induction false} SumMonotone<K(!new)>(keys: set<K>, f: K -> nat, g: K -> nat)
    requires forall k | k in keys :: f(k) <= g(k)
    ensures Sum(keys, f) <= Sum(keys, g)
    decreases |keys|
  {
    if keys != {} {
      var k :| k in keys;
      SumTake(keys, f, k);
      SumTake(keys, g, k);
      SumMonotone(keys - {k}, f, g);
    }
  }

  /** If no summand grows and that of `k` falls by `d`, the sum falls by `d`. */
  lemma SumFalls<K(!new)>(keys: set<K>, f: K -> nat, g: K -> nat, k: K, d: nat)
    requires forall j | j in keys :: f(j) <= g(j)
    requires k in keys && f(k) + d <= g(k)
    ensures Sum(keys, f) + d <= Sum(keys, g)
  {
    SumTake(keys, f, k);
    SumTake(keys, g, k);
    SumMonotone(keys - {k}, f, g);
  }

  lemma {:induction false} SumAdds<K(!new)>(keys: set<K>, f: K -> nat, g: K -> nat, h: K -> nat)
    requires forall k | k in keys :: h(k) == f(k) + g(k)
    ensures Sum(keys, h) == Sum(keys, f) + Sum(keys, g)
    decreases |keys|
  {
    if keys != {} {
      var k :| k in keys;
      SumTake(keys, f, k);
      SumTake(keys, g, k);
      SumTake(keys, h, k);
      SumAdds(keys - {k}, f, g, h);
    }
  }

  lemma TimesLess(n: int, c: int)
    ensures (n - 1) * c + c == n * c
  {}

  /** The sum of a function that is `c` on `some` and zero elsewhere. */
  lemma {:induction false} SumCounts<K(!new)>(keys: set<K>, f: K -> nat, some: set<K>, c: nat)
    requires some <= keys && forall k | k in keys :: f(k) == if k in some then c else 0
    ensures Sum(keys, f) == |some| * c
    decreases |keys|
  {
    if keys != {} {
      var k :| k in keys;
      SumTake(keys, f, k);
      SumCounts(keys - {k}, f, some - {k}, c);
      if k in some {
        TimesLess(|some|, c);
      } else {
        assert some - {k} == some;
      }
    }
  }

  /** Summing over keys and over the values that an injective map gives them. */
  lemma {:induction false} SumRenames<K(!new), L(!new)>(keys: set<K>, f: K -> nat,
      m: map<K, L>, names: set<L>, g: L -> nat)
    requires forall k | k in keys && k in m :: m[k] in names && f(k) == g(m[k])
    requires forall k | k in keys && k !in m :: f(k) == 0
    requires forall j, k | j in keys && k in keys && j in m && k in m && m[j] == m[k] :: j == k
    requires forall n | n in names :: exists k | k in keys :: k in m && m[k] == n
    ensures Sum(keys, f) == Sum(names, g)
    decreases |keys|
  {
    if keys != {} {
      var k :| k in keys;
      SumTake(keys, f, k);
      if k in m {
        SumTake(names, g, m[k]);
        forall n | n in names - {m[k]}
          ensures exists j | j in keys - {k} :: j in m && m[j] == n
        {
          var j :| j in keys && j in m && m[j] == n;
          assert j in keys - {k};
        }
        SumRenames(keys - {k}, f, m, names - {m[k]}, g);
      } else {
        forall n | n in names
          ensures exists j | j in keys - {k} :: j in m && m[j] == n
        {
          var j :| j in keys && j in m && m[j] == n;
          assert j in keys - {k};
        }
        SumRenames(keys - {k}, f, m, names, g);
      }
    } else {
      assert names == {};
    }
  }
}
