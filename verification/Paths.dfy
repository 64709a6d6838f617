/** Taking a list of steps one after another, for any machine whose steps may be impossible. */
module Paths {
  import opened Wrappers

  /** The state after `steps`, if each was possible where it was taken. */
  function Along<S, T>(next: (S, T) -> Option<S>, s: S, steps: seq<T>): Option<S>
    decreases |steps|
  {
    if steps == [] then Some(s)
    else
      var before := Along(next, s, steps[..|steps| - 1]);
      if before.Some? then next(before.value, steps[|steps| - 1]) else None
  }

  lemma {:induction false} AlongBoth<S, T>(next: (S, T) -> Option<S>, s: S, first: seq<T>, middle: S, second: seq<T>, end: S)
    requires Along(next, s, first) == Some(middle) && Along(next, middle, second) == Some(end)
    ensures Along(next, s, first + second) == Some(end)
    decreases |second|
  {
    if second == [] {
      assert first + second == first;
    } else {
      var n := |second| - 1;
      AlongBoth(next, s, first, middle, second[..n], Along(next, middle, second[..n]).value);
      assert (first + second)[..|first| + n] == first + second[..n];
    }
  }

  lemma AlongThree<S, T>(next: (S, T) -> Option<S>, s: S, first: seq<T>, a: S, second: seq<T>, b: S, third: seq<T>, end: S)
    requires Along(next, s, first) == Some(a) && Along(next, a, second) == Some(b) && Along(next, b, third) == Some(end)
    ensures Along(next, s, first + second + third) == Some(end)
  {
    AlongBoth(next, s, first, a, second, b);
    AlongBoth(next, s, first + second, b, third, end);
  }

  lemma AlongOne<S, T>(next: (S, T) -> Option<S>, s: S, step: T, end: S)
    requires next(s, step) == Some(end)
    ensures Along(next, s, [step]) == Some(end)
  {
    assert [step][..0] == [];
  }

  lemma AlongTwo<S, T>(next: (S, T) -> Option<S>, s: S, first: T, middle: S, second: T, end: S)
    requires next(s, first) == Some(middle) && next(middle, second) == Some(end)
    ensures Along(next, s, [first, second]) == Some(end)
  {
    AlongOne(next, s, first, middle);
    AlongOne(next, middle, second, end);
    AlongBoth(next, s, [first], middle, [second], end);
    assert [first] + [second] == [first, second];
  }
}
