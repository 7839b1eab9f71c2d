/** Counting slots. */
module Counting {
  ghost function Count(f: int -> bool, lo: int, hi: int): nat
    decreases if hi > lo then hi - lo else 0
  {
    if hi <= lo then 0 else Count(f, lo, hi - 1) + if f(hi - 1) then 1 else 0
  }

  lemma {:induction false} CountSame(f: int -> bool, g: int -> bool, lo: int, hi: int)
    requires forall x :: lo <= x < hi ==> f(x) == g(x)
    ensures Count(f, lo, hi) == Count(g, lo, hi)
    decreases hi - lo
  {
    if hi > lo { CountSame(f, g, lo, hi - 1); }
  }

  lemma {:induction false} CountMore(f: int -> bool, g: int -> bool, lo: int, hi: int)
    requires forall x :: lo <= x < hi && f(x) ==> g(x)
    ensures Count(f, lo, hi) <= Count(g, lo, hi)
    decreases hi - lo
  {
    if hi > lo { CountMore(f, g, lo, hi - 1); }
  }

  lemma {:induction false} CountSome(f: int -> bool, lo: int, hi: int, x: int)
    requires lo <= x < hi && f(x)
    ensures Count(f, lo, hi) > 0
    decreases hi - lo
  {
    if x < hi - 1 { CountSome(f, lo, hi - 1, x); }
  }

  lemma {:induction false} CountWitness(f: int -> bool, lo: int, hi: int) returns (x: int)
    requires Count(f, lo, hi) > 0
    ensures lo <= x < hi && f(x)
    decreases hi - lo
  {
    if f(hi - 1) { x := hi - 1; } else { x := CountWitness(f, lo, hi - 1); }
  }

  lemma {:induction false} CountSplit(f: int -> bool, g: int -> bool, h: int -> bool, lo: int, hi: int)
    requires forall x :: lo <= x < hi ==> (f(x) <==> g(x) || h(x)) && !(g(x) && h(x))
    ensures Count(f, lo, hi) == Count(g, lo, hi) + Count(h, lo, hi)
    decreases hi - lo
  {
    if hi > lo { CountSplit(f, g, h, lo, hi - 1); }
  }

  lemma {:induction false} CountJoin(f: int -> bool, lo: int, mid: int, hi: int)
    requires lo <= mid <= hi
    ensures Count(f, lo, hi) == Count(f, lo, mid) + Count(f, mid, hi)
    decreases hi - mid
  {
    if hi > mid { CountJoin(f, lo, mid, hi - 1); }
  }

  /** A range counts the part of it that lies within bounds. */
  lemma {:induction false} CountRange(f: int -> bool, a: int, b: int, lo: int, hi: int)
    requires forall x :: f(x) <==> a <= x <= b
    ensures var first := if a > lo then a else lo;
            var last := if b < hi - 1 then b else hi - 1;
            Count(f, lo, hi) == if last >= first then last - first + 1 else 0
    decreases hi - lo
  {
    if hi > lo { CountRange(f, a, b, lo, hi - 1); }
  }

  lemma {:induction false} CountBound(f: int -> bool, lo: int, hi: int)
    ensures Count(f, lo, hi) <= if hi > lo then hi - lo else 0
    decreases hi - lo
  {
    if hi > lo { CountBound(f, lo, hi - 1); }
  }

  /** A run outside the predicate leaves room in the count. */
  lemma CountRoom(f: int -> bool, first: int, last: int, lo: int, hi: int)
    requires lo <= first <= last < hi && forall x :: first <= x <= last ==> !f(x)
    ensures Count(f, lo, hi) + (last - first + 1) <= hi - lo
  {
    hide Count;
    var h := x => first <= x <= last;
    CountSplit(x => f(x) || h(x), f, h, lo, hi);
    CountBound(x => f(x) || h(x), lo, hi);
    CountRange(h, first, last, lo, hi);
  }

  /** Full count: every slot satisfies the predicate. */
  lemma {:induction false} CountAll(f: int -> bool, lo: int, hi: int)
    requires lo <= hi
    ensures Count(f, lo, hi) == hi - lo <==> forall x :: lo <= x < hi ==> f(x)
    decreases hi - lo
  {
    if hi > lo {
      CountAll(f, lo, hi - 1);
      CountBound(f, lo, hi - 1);
    }
  }
}
