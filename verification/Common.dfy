/**
 Vocabulary shared by the models: failure-compatible values, saturating machine
 arithmetic, and sums over finite sets.
 */
module Common {

  datatype Option<+T> = None | Some(value: T)

  datatype Result<+T, +E> = Ok(value: T) | Err(error: E)

  const I64_MIN: int := -0x8000_0000_0000_0000
  const I64_MAX: int := 0x7fff_ffff_ffff_ffff
  const U32_MAX: int := 0xffff_ffff
  const U64_MAX: int := 0xffff_ffff_ffff_ffff

  function Clamp(x: int, lo: int, hi: int): int
    requires lo <= hi
  {
    if x < lo then lo else if x > hi then hi else x
  }

  /** `i64::saturating_add`. */
  function SatAdd(a: int, b: int): int {
    Clamp(a + b, I64_MIN, I64_MAX)
  }

  /** `i64::saturating_sub`. */
  function SatSub(a: int, b: int): int {
    Clamp(a - b, I64_MIN, I64_MAX)
  }

  function Min(a: int, b: int): int {
    if a <= b then a else b
  }

  function Max(a: int, b: int): int {
    if a <= b then b else a
  }

  /** The sum of `f` over a finite set of its keys; the order of summation is irrelevant by `SumPick`. */
  ghost function Sum<T>(s: set<T>, f: map<T, int>): int
    requires s <= f.Keys
  {
    if s == {} then 0
    else
      var x :| x in s;
      f[x] + Sum(s - {x}, f)
  }

  lemma {:induction false} SumPick<T>(s: set<T>, f: map<T, int>, x: T)
    requires s <= f.Keys && x in s
    ensures Sum(s, f) == f[x] + Sum(s - {x}, f)
    decreases |s|
  {
    var y :| y in s && Sum(s, f) == f[y] + Sum(s - {y}, f);
    if y != x {
      SumPick(s - {y}, f, x);
      SumPick(s - {x}, f, y);
      assert s - {y} - {x} == s - {x} - {y};
    }
  }

  /** A sum of terms in `[0, bound]` lies in `[0, bound * |s|]`. */
  lemma {:induction false} SumBounded<T>(s: set<T>, f: map<T, int>, bound: nat)
    requires s <= f.Keys && forall x :: x in s ==> 0 <= f[x] <= bound
    ensures 0 <= Sum(s, f) <= bound * |s|
    decreases |s|
  {
    if s != {} {
      var x :| x in s;
      SumPick(s, f, x);
      SumBounded(s - {x}, f, bound);
      MulSuccessor(bound, |s - {x}|);
      assert |s| == |s - {x}| + 1;
    }
  }

  lemma MulSuccessor(a: nat, n: nat)
    ensures a * (n + 1) == a * n + a
  {
  }

  lemma SubsetSize<T>(a: set<T>, b: set<T>)
    requires a <= b
    ensures |a| <= |b|
  {
    assert b == a + (b - a);
  }
}
