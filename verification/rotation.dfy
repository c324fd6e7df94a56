/**
 The rotation of the (assistant, thread) slots after every turn. The slots
 `a`, `b` and `c` are the driver's `assistant_a`/`thread_a` (the one that
 speaks next), `assistant_b`/`thread_b` and `assistant_c`/`thread_c`.
 */
module Rotation {

  datatype Triple<T> = Triple(a: T, b: T, c: T)

  function Elements<T>(t: Triple<T>): multiset<T>
  {
    multiset{t.a, t.b, t.c}
  }

  /** The slot contents move left by one: `(a, b, c)` becomes `(b, c, a)`. */
  function Left<T>(t: Triple<T>): Triple<T>
  {
    Triple(t.b, t.c, t.a)
  }

  /** `r` is `t` rotated cyclically, by none, one or two places. */
  ghost predicate Cyclic<T>(t: Triple<T>, r: Triple<T>)
  {
    r == t || r == Left(t) || Left(r) == t
  }

  /** A cyclic rotation is a permutation of the three slots. */
  lemma CyclicPermutes<T>(t: Triple<T>, r: Triple<T>)
    requires Cyclic(t, r)
    ensures Elements(r) == Elements(t)
  {
  }

  /** The rotation applied after turn `i` (a zero-based `enumerate` index). */
  function Rotate<T>(t: Triple<T>, i: nat): (r: Triple<T>)
    ensures Cyclic(t, r)
  {
    if i % 3 == 0 then Triple(t.b, t.c, t.a)
    else if i % 3 == 1 then Triple(t.c, t.a, t.b)
    else t
  }

  /** The slots after the rotations of turns `0 .. n - 1`, in order. */
  function After<T>(t: Triple<T>, n: nat): Triple<T>
  {
    if n == 0 then t else Rotate(After(t, n - 1), n - 1)
  }

  /** The turn index modulo 3 advances cyclically. */
  lemma ModStep(n: nat)
    ensures (n + 1) % 3 == if n % 3 == 2 then 0 else n % 3 + 1
  {
  }

  /**
   Only the three arrangements `t`, `Left(t)` and back occur: after `n`
   turns the slots are rotated left once exactly when `n % 3 == 1`.
   */
  lemma {:induction false} AfterClosedForm<T>(t: Triple<T>, n: nat)
    ensures After(t, n) == if n % 3 == 1 then Left(t) else t
  {
    if n > 0 {
      AfterClosedForm(t, n - 1);
      ModStep(n - 1);
    }
  }

  /** After every full block of three turns the initial arrangement is back. */
  lemma BlocksOfThree<T>(t: Triple<T>, k: nat)
    ensures After(t, 3 * k) == t
  {
    AfterClosedForm(t, 3 * k);
  }

  /** Rotations only permute the slots: nothing is lost or duplicated. */
  lemma {:induction false} AfterPermutes<T>(t: Triple<T>, n: nat)
    ensures Cyclic(t, After(t, n))
    ensures Elements(After(t, n)) == Elements(t)
  {
    AfterClosedForm(t, n);
    CyclicPermutes(t, After(t, n));
  }

  /**
   The rotation after a turn `i` with `i % 3 == 1` undoes the one after turn
   `i - 1`, and the turn after that leaves the slots alone.
   */
  lemma RotateInverse<T>(t: Triple<T>, k: nat)
    ensures Rotate(Rotate(t, 3 * k), 3 * k + 1) == t
    ensures Rotate(Rotate(t, 3 * k + 1), 3 * k) == t
    ensures Rotate(t, 3 * k + 2) == t
  {
  }

  /** The slot that starts as `c` is never in slot `a` while its elements are distinct. */
  lemma ThirdNeverActive<T>(t: Triple<T>, n: nat)
    requires t.a != t.c && t.b != t.c
    ensures After(t, n).a != t.c
    ensures After(t, n).a == (if n % 3 == 1 then t.b else t.a)
  {
    AfterClosedForm(t, n);
  }

  function Zip<A, B>(x: Triple<A>, y: Triple<B>): Triple<(A, B)>
  {
    Triple((x.a, y.a), (x.b, y.b), (x.c, y.c))
  }

  /**
   The assistant triple and the thread triple are rotated by the same rule,
   so every assistant stays paired with its own thread.
   */
  lemma {:induction false} PairsStayTogether<A, B>(x: Triple<A>, y: Triple<B>, n: nat)
    ensures Zip(After(x, n), After(y, n)) == After(Zip(x, y), n)
  {
    if n > 0 {
      PairsStayTogether(x, y, n - 1);
    }
  }
}
