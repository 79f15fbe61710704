/** Shared vocabulary: optional values, results, ascending ids and sums over a table. */
module Prelude {

  datatype Option<+T> = None | Some(value: T)

  datatype Result<+T, +E> = Ok(value: T) | Err(error: E)

  function Max(a: int, b: int): int {
    if a < b then b else a
  }

  function Min(a: int, b: int): int {
    if a < b then a else b
  }

  function Take<T>(s: seq<T>, n: nat): (r: seq<T>) {
    if n < |s| then s[..n] else s
  }

  // ---------------------------------------------------------------- ids in order

  lemma {:induction false} LeastExists(s: set<nat>, y: nat)
    requires y in s
    ensures exists m :: m in s && forall x :: x in s ==> m <= x
  {
    if z :| z in s && z < y {
      LeastExists(s, z);
    }
  }

  function Least(s: set<nat>): (m: nat)
    requires s != {}
    ensures m in s
  {
    assert exists m :: m in s && forall x :: x in s ==> m <= x by {
      var y :| y in s;
      LeastExists(s, y);
    }
    var m :| m in s && forall x :: x in s ==> m <= x;
    m
  }

  lemma {:induction false} LeastIsLeast(s: set<nat>)
    requires s != {}
    ensures forall x :: x in s ==> Least(s) <= x
  {
  }

  /** The ids `order by id asc limit n` returns, as a set. */
  function Lowest(s: set<nat>, n: nat): set<nat> {
    if n == 0 || s == {} then {} else
      var m := Least(s);
      {m} + Lowest(s - {m}, n - 1)
  }

  /** Exactly the `n` smallest: as many as there are up to `n`, and nothing left behind is smaller. */
  lemma {:induction false} LowestAreTheSmallest(s: set<nat>, n: nat)
    ensures Lowest(s, n) <= s && |Lowest(s, n)| == Min(n, |s|)
    ensures forall x, y :: x in s - Lowest(s, n) && y in Lowest(s, n) ==> y < x
  {
    if n != 0 && s != {} {
      var m := Least(s);
      var rest := Lowest(s - {m}, n - 1);
      LowestAreTheSmallest(s - {m}, n - 1);
      assert Lowest(s, n) == {m} + rest;
      forall x, y | x in s - Lowest(s, n) && y in Lowest(s, n)
        ensures y < x
      {
        assert x in (s - {m}) - rest;
        assert y != m ==> y in rest;
      }
    }
  }

  lemma {:induction false} LowestOfLowest(s: set<nat>, m: nat, n: nat)
    requires n <= m
    ensures Lowest(Lowest(s, m), n) == Lowest(s, n)
  {
    if n != 0 && s != {} {
      var x := Least(s);
      LowestAreTheSmallest(s, m);
      LowestAreTheSmallest(s - {x}, m - 1);
      assert Least(Lowest(s, m)) == x;
      assert Lowest(s, m) - {x} == Lowest(s - {x}, m - 1);
      LowestOfLowest(s - {x}, m - 1, n - 1);
    }
  }

  // ---------------------------------------------------------------- sums over a table

  /** The total of one number per id. */
  function Sum(m: map<nat, int>): int
    decreases |m|
  {
    if m == map[] then 0 else
      var k := Least(m.Keys);
      assert |m - {k}| < |m| by { assert m.Keys == (m - {k}).Keys + {k}; }
      m[k] + Sum(m - {k})
  }

  lemma {:induction false} SumRemove(m: map<nat, int>, k: nat)
    requires k in m
    ensures Sum(m) == m[k] + Sum(m - {k})
    decreases |m|
  {
    var g := Least(m.Keys);
    if k != g {
      assert m.Keys == (m - {g}).Keys + {g};
      assert |m - {g}| < |m|;
      SumRemove(m - {g}, k);
      assert (m - {g}) - {k} == (m - {k}) - {g};
      assert g in (m - {k}).Keys;
      assert Least((m - {k}).Keys) == g;
    }
  }

  lemma {:induction false} SumUpdate(m: map<nat, int>, k: nat, v: int)
    ensures Sum(m[k := v]) == Sum(m) - (if k in m then m[k] else 0) + v
  {
    SumRemove(m[k := v], k);
    if k in m {
      SumRemove(m, k);
      assert m[k := v] - {k} == m - {k};
    } else {
      assert m[k := v] - {k} == m;
    }
  }

  lemma {:induction false} SumNonNegative(m: map<nat, int>)
    requires forall k :: k in m ==> 0 <= m[k]
    ensures 0 <= Sum(m)
    decreases |m|
  {
    if m != map[] {
      var k := Least(m.Keys);
      assert m.Keys == (m - {k}).Keys + {k};
      SumNonNegative(m - {k});
    }
  }
}
