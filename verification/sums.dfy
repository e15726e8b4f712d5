/** Sums of real-valued terms over a sequence of keys, accumulated left to
    right the way `total += ...` inside a Python `for` loop accumulates them,
    and the algebra the calculator's properties rest on. */
module Sums {
  import opened PyDict

  /** f(ks[0]) + f(ks[1]) + ... + f(ks[|ks| - 1]), added in that order. */
  function Sum<K>(ks: seq<K>, f: K -> real): real
    decreases |ks|
  {
    if |ks| == 0 then 0.0 else Sum(ks[..|ks| - 1], f) + f(ks[|ks| - 1])
  }

  /** One more loop iteration adds one more term. */
  lemma SumAppend<K>(ks: seq<K>, x: K, f: K -> real)
    ensures Sum(ks + [x], f) == Sum(ks, f) + f(x)
  {
    assert (ks + [x])[..|ks|] == ks;
  }

  /** A one-key sum is that key's term. */
  lemma SumSingle<K>(x: K, f: K -> real)
    ensures Sum([x], f) == f(x)
  {
    assert [x][..0] == [];
  }

  /** Taking one term out of the middle of a sum. */
  lemma {:induction false} SumRemove<K>(ks: seq<K>, i: nat, f: K -> real)
    requires i < |ks|
    ensures Sum(ks, f) == Sum(ks[..i] + ks[i + 1..], f) + f(ks[i])
    decreases |ks|
  {
    var n := |ks| - 1;
    var rest := ks[..i] + ks[i + 1..];
    if i == n {
      assert rest == ks[..n];
    } else {
      var init := ks[..n];
      SumRemove(init, i, f);
      assert init[..i] + init[i + 1..] == rest[..|rest| - 1];
      assert rest[|rest| - 1] == ks[n];
    }
  }

  /** Terms that agree on every key give the same sum. */
  lemma {:induction false} SumCongruent<K>(ks: seq<K>, f: K -> real, g: K -> real)
    requires forall k :: k in ks ==> f(k) == g(k)
    ensures Sum(ks, f) == Sum(ks, g)
    decreases |ks|
  {
    if |ks| > 0 {
      SumCongruent(ks[..|ks| - 1], f, g);
    }
  }

  /** A non-empty sequence has a member. */
  lemma HeadIsMember<K>(ks: seq<K>)
    ensures |ks| > 0 ==> ks[0] in ks
  {
  }

  /** Under exact arithmetic the order in which distinct keys are visited does
      not change the sum. */
  lemma {:induction false} SumReorder<K>(ks1: seq<K>, ks2: seq<K>, f: K -> real)
    requires Distinct(ks1) && Distinct(ks2)
    requires forall k :: k in ks1 <==> k in ks2
    ensures Sum(ks1, f) == Sum(ks2, f)
    decreases |ks1|
  {
    if |ks1| == 0 {
      if |ks2| > 0 {
        HeadIsMember(ks2);
        assert false;
      }
    } else {
      var n := |ks1| - 1;
      var x := ks1[n];
      var rest1 := ks1[..n];
      assert x in ks2;
      var i :| 0 <= i < |ks2| && ks2[i] == x;
      var rest2 := ks2[..i] + ks2[i + 1..];
      DistinctRemove(ks1, n);
      DistinctRemove(ks2, i);
      assert ks1[..n] + ks1[n + 1..] == rest1;
      forall k
        ensures k in rest1 <==> k in rest2
      {
        assert k in rest1 <==> k in ks1 && k != x;
        assert k in rest2 <==> k in ks2 && k != x;
      }
      SumReorder(rest1, rest2, f);
      SumRemove(ks2, i, f);
    }
  }

  /** Sum(ks1, f) <= Sum(ks2, g) when g is non-negative on ks2 and every term
      of ks1 is bounded by the matching term of ks2, or by zero when ks2 has no
      such key. */
  lemma {:induction false} SumDominated<K>(ks1: seq<K>, ks2: seq<K>, f: K -> real, g: K -> real)
    requires Distinct(ks1) && Distinct(ks2)
    requires forall k :: k in ks2 ==> 0.0 <= g(k)
    requires forall k :: k in ks1 ==> f(k) <= if k in ks2 then g(k) else 0.0
    ensures Sum(ks1, f) <= Sum(ks2, g)
    decreases |ks1|
  {
    if |ks1| == 0 {
      SumNonnegative(ks2, g);
    } else {
      var n := |ks1| - 1;
      var x := ks1[n];
      var rest1 := ks1[..n];
      DistinctRemove(ks1, n);
      assert ks1[..n] + ks1[n + 1..] == rest1;
      if x in ks2 {
        var i :| 0 <= i < |ks2| && ks2[i] == x;
        var rest2 := ks2[..i] + ks2[i + 1..];
        DistinctRemove(ks2, i);
        SumDominated(rest1, rest2, f, g);
        SumRemove(ks2, i, f);
        SumRemove(ks2, i, g);
      } else {
        SumDominated(rest1, ks2, f, g);
      }
    }
  }

  /** Non-negative terms give a non-negative sum. */
  lemma {:induction false} SumNonnegative<K>(ks: seq<K>, f: K -> real)
    requires forall k :: k in ks ==> 0.0 <= f(k)
    ensures 0.0 <= Sum(ks, f)
    decreases |ks|
  {
    if |ks| > 0 {
      SumNonnegative(ks[..|ks| - 1], f);
    }
  }

  /** Termwise f <= g gives Sum(f) <= Sum(g). */
  lemma {:induction false} SumMonotone<K>(ks: seq<K>, f: K -> real, g: K -> real)
    requires forall k :: k in ks ==> f(k) <= g(k)
    ensures Sum(ks, f) <= Sum(ks, g)
    decreases |ks|
  {
    if |ks| > 0 {
      SumMonotone(ks[..|ks| - 1], f, g);
    }
  }

  /** All-zero terms sum to zero. */
  lemma {:induction false} SumZero<K>(ks: seq<K>, f: K -> real)
    requires forall k :: k in ks ==> f(k) == 0.0
    ensures Sum(ks, f) == 0.0
    decreases |ks|
  {
    if |ks| > 0 {
      SumZero(ks[..|ks| - 1], f);
    }
  }
}
