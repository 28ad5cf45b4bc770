/** Machine integers, options and finite sums shared by every component. */
module Common {

  const U32_MAX: int := 0xFFFF_FFFF
  const U64_MAX: int := 0xFFFF_FFFF_FFFF_FFFF

  type u8 = x: int | 0 <= x <= 0xFF
  type u32 = x: int | 0 <= x <= 0xFFFF_FFFF
  type u64 = x: int | 0 <= x <= 0xFFFF_FFFF_FFFF_FFFF

  datatype Option<+T> = None | Some(value: T)

  /** No value occurs twice. */
  ghost predicate Distinct<T>(s: seq<T>) {
    forall i, j | 0 <= i < j < |s| :: s[i] != s[j]
  }
}

/** Sums over an initial segment of the naturals, and how a change of one term moves them. */
module Sums {

  ghost function Sum(n: nat, f: nat -> nat): nat {
    if n == 0 then 0 else Sum(n - 1, f) + f(n - 1)
  }

  lemma {:induction false} SumSame(n: nat, f: nat -> nat, g: nat -> nat)
    requires forall i | 0 <= i < n :: f(i) == g(i)
    ensures Sum(n, f) == Sum(n, g)
  {
    if n > 0 { SumSame(n - 1, f, g); }
  }

  /** Changing one term changes the sum by exactly that difference. */
  lemma {:induction false} SumMoved(n: nat, k: nat, f: nat -> nat, g: nat -> nat)
    requires k < n
    requires forall i | 0 <= i < n && i != k :: f(i) == g(i)
    ensures Sum(n, f) + g(k) == Sum(n, g) + f(k)
  {
    if k == n - 1 {
      SumSame(n - 1, f, g);
    } else {
      SumMoved(n - 1, k, f, g);
    }
  }

  lemma {:induction false} SumTerm(n: nat, k: nat, f: nat -> nat)
    requires k < n
    ensures f(k) <= Sum(n, f)
  {
    if k < n - 1 { SumTerm(n - 1, k, f); }
  }

  lemma {:induction false} SumAtMost(n: nat, f: nat -> nat, g: nat -> nat)
    requires forall i | 0 <= i < n :: f(i) <= g(i)
    ensures Sum(n, f) <= Sum(n, g)
  {
    if n > 0 { SumAtMost(n - 1, f, g); }
  }

  lemma {:induction false} SumZero(n: nat, f: nat -> nat)
    requires forall i | 0 <= i < n :: f(i) == 0
    ensures Sum(n, f) == 0
  {
    if n > 0 { SumZero(n - 1, f); }
  }
}
