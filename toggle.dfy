/** The membership-toggle rule shared by the favorites list and the chart's indicator list:
    a present item is removed everywhere it occurs, an absent one is appended. */
module Toggle {
  import opened Seqs

  /** `xs` without any occurrence of `x` (`xs.filter(y => y !== x)`). */
  function Without<T(==,!new)>(xs: seq<T>, x: T): seq<T> {
    Filter(xs, y => y != x)
  }

  /** Toggling flips the membership of the toggled item and of no other. */
  function Toggled<T(==,!new)>(xs: seq<T>, x: T): (r: seq<T>)
    ensures x in r <==> x !in xs
    ensures forall y :: y != x ==> (y in r <==> y in xs)
  {
    if x in xs then Without(xs, x) else xs + [x]
  }

  /** An absent item is appended at the end; everything before it is unchanged. */
  lemma ToggleAbsent<T(!new)>(xs: seq<T>, x: T)
    requires x !in xs
    ensures Toggled(xs, x) == xs + [x]
  {
  }

  /** A present item disappears entirely; the other items keep their relative order
      and their multiplicities. */
  lemma TogglePresent<T(!new)>(xs: seq<T>, x: T)
    requires x in xs
    ensures x !in Toggled(xs, x)
    ensures IsSubsequence(Toggled(xs, x), xs)
    ensures forall y :: y != x ==> multiset(Toggled(xs, x))[y] == multiset(xs)[y]
  {
    FilterCounts(xs, y => y != x);
  }

  /** Toggling an absent item twice gives back the original list. */
  lemma ToggleTwiceAbsent<T(!new)>(xs: seq<T>, x: T)
    requires x !in xs
    ensures Toggled(Toggled(xs, x), x) == xs
  {
    FilterConcat(xs, [x], y => y != x);
    FilterAll(xs, y => y != x);
  }

  lemma ToggleNoDuplicates<T(!new)>(xs: seq<T>, x: T)
    requires NoDuplicates(xs)
    ensures NoDuplicates(Toggled(xs, x))
  {
    if x in xs {
      FilterNoDuplicates(xs, y => y != x);
    }
  }

  /** The list after toggling each item of `xs` in turn, starting from `start`. */
  function ToggleAll<T(==,!new)>(start: seq<T>, xs: seq<T>): seq<T>
    decreases |xs|
  {
    if xs == [] then start else ToggleAll(Toggled(start, xs[0]), xs[1..])
  }

  /** A duplicate-free list stays duplicate-free under any sequence of toggles. */
  lemma {:induction false} ToggleAllNoDuplicates<T(!new)>(start: seq<T>, xs: seq<T>)
    requires NoDuplicates(start)
    ensures NoDuplicates(ToggleAll(start, xs))
    decreases |xs|
  {
    if xs != [] {
      ToggleNoDuplicates(start, xs[0]);
      ToggleAllNoDuplicates(Toggled(start, xs[0]), xs[1..]);
    }
  }
}
