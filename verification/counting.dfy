/** Sizes of finite sets. */
module Counting {
  lemma Pick<T>(s: set<T>) returns (k: T)
    requires s != {}
    ensures k in s
  {
    k :| k in s;
  }

  /** Two sets in one-to-one correspondence have the same size. */
  lemma {:induction false} SameSize(ks: set<int>, v: set<nat>, f: map<int, nat>, g: map<nat, int>)
    requires forall k | k in ks :: k in f && f[k] in v && f[k] in g && g[f[k]] == k
    requires forall p | p in v :: p in g && g[p] in ks && g[p] in f && f[g[p]] == p
    ensures |ks| == |v|
    decreases ks
  {
    if ks == {} {
      forall p | p in v
        ensures p in g && g[p] in ks
      {
      }
      assert v == {};
    } else {
      var k := Pick(ks);
      SameSize(ks - {k}, v - {f[k]}, f, g);
    }
  }

  lemma {:induction false} KeysBound(s: set<int>, hi: int)
    requires hi >= 1 && forall k | k in s :: 1 <= k < hi
    ensures |s| < hi
    decreases hi
  {
    if hi == 1 {
      forall k | k in s
        ensures false
      {
      }
      assert s == {};
    } else {
      var r := s - {hi - 1};
      KeysBound(r, hi - 1);
      Subset(s, r + {hi - 1});
    }
  }

  lemma Subset<T>(a: set<T>, b: set<T>)
    requires a <= b
    ensures |a| <= |b|
  {
    assert b == a + (b - a);
  }
}
