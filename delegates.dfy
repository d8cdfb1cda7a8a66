/**
 * Invocation lists of multicast events, as the broadcaster's four channels
 * use them: `+=` appends a handler, so a handler added twice is called
 * twice; `-=` removes the LAST occurrence of a handler and does nothing when
 * the handler is absent; handlers are called in the order they were added.
 */
module Delegates {

  /** What one timer operation does to the invocation list of its channel. */
  datatype Change = Keep | Add | Remove

  /** Number of occurrences of `x` in the invocation list `s`. */
  function Count<T(==)>(s: seq<T>, x: T): nat
  {
    if s == [] then 0
    else Count(s[..|s| - 1], x) + (if s[|s| - 1] == x then 1 else 0)
  }

  lemma CountSnoc<T>(a: seq<T>, y: T, x: T)
    ensures Count(a + [y], x) == Count(a, x) + (if y == x then 1 else 0)
  {
    assert (a + [y])[..|a|] == a;
  }

  lemma {:induction false} CountPositive<T>(s: seq<T>, x: T)
    ensures Count(s, x) > 0 <==> x in s
  {
    if s != [] {
      CountPositive(s[..|s| - 1], x);
      assert s == s[..|s| - 1] + [s[|s| - 1]];
    }
  }

  lemma AppendAssociates<T>(a: seq<T>, b: seq<T>, c: seq<T>)
    ensures a + b + c == a + (b + c)
  {
  }

  /** `-=`: the list without its last occurrence of `x`, or the list itself. */
  function RemoveLast<T(==)>(s: seq<T>, x: T): (r: seq<T>)
    ensures |r| == if x in s then |s| - 1 else |s|
  {
    if s == [] then []
    else if s[|s| - 1] == x then s[..|s| - 1]
    else
      assert s == s[..|s| - 1] + [s[|s| - 1]];
      RemoveLast(s[..|s| - 1], x) + [s[|s| - 1]]
  }

  /** `-=` of a handler that is not in the list leaves the list as it is. */
  lemma {:induction false} RemoveLastAbsent<T>(s: seq<T>, x: T)
    requires x !in s
    ensures RemoveLast(s, x) == s
  {
    if s != [] {
      var front := s[..|s| - 1];
      assert s == front + [s[|s| - 1]];
      RemoveLastAbsent(front, x);
    }
  }

  /** Position of the last occurrence of `x`: the one `-=` deletes. */
  function LastIndex<T(==)>(s: seq<T>, x: T): (i: nat)
    requires x in s
    ensures i < |s| && s[i] == x && x !in s[i + 1..]
  {
    var front := s[..|s| - 1];
    if s[|s| - 1] == x then |s| - 1
    else
      assert s == front + [s[|s| - 1]];
      var i := LastIndex(front, x);
      assert s[i + 1..] == front[i + 1..] + [s[|s| - 1]];
      i
  }

  /** `-=` deletes exactly one element, the last `x`, and keeps the order of the others. */
  lemma {:induction false} RemoveLastAt<T>(s: seq<T>, x: T)
    requires x in s
    ensures RemoveLast(s, x) == s[..LastIndex(s, x)] + s[LastIndex(s, x) + 1..]
  {
    var front, last := s[..|s| - 1], s[|s| - 1];
    if last == x {
      assert s[|s|..] == [];
    } else {
      var i := LastIndex(front, x);
      assert LastIndex(s, x) == i;
      assert RemoveLast(s, x) == RemoveLast(front, x) + [last];
      RemoveLastAt(front, x);
      assert s[..i] == front[..i];
      assert s[i + 1..] == front[i + 1..] + [last];
      AppendAssociates(front[..i], front[i + 1..], [last]);
    }
  }

  /** Occurrence counts after `-=`: one fewer `x` (none if absent), every other handler kept. */
  lemma {:induction false} RemoveLastCount<T>(s: seq<T>, x: T, y: T)
    ensures Count(RemoveLast(s, x), y) ==
              if y == x && Count(s, x) > 0 then Count(s, y) - 1 else Count(s, y)
  {
    if s != [] {
      var front := s[..|s| - 1];
      if s[|s| - 1] == x {
      } else {
        RemoveLastCount(front, x, y);
        var r := RemoveLast(front, x) + [s[|s| - 1]];
        assert r[..|r| - 1] == RemoveLast(front, x);
      }
    }
  }

  /** `-=` undoes the `+=` just before it, leaving the list as it was. */
  lemma RemoveUndoesAdd<T>(s: seq<T>, x: T)
    ensures RemoveLast(s + [x], x) == s
  {
    assert (s + [x])[..|s|] == s;
  }

  /** The invocation list after a timer operation whose effect on it is `c`. */
  function Apply<T(==)>(s: seq<T>, x: T, c: Change): seq<T>
  {
    match c
    case Keep => s
    case Add => s + [x]
    case Remove => RemoveLast(s, x)
  }

  /** Each operation moves the handler's occurrence count by at most one: up for Add, down (not below 0) for Remove. */
  lemma ApplyCount<T>(s: seq<T>, x: T, c: Change)
    ensures Count(Apply(s, x, c), x) == match c
                                        case Keep => Count(s, x)
                                        case Add => Count(s, x) + 1
                                        case Remove => if Count(s, x) > 0 then Count(s, x) - 1 else 0
  {
    match c
    case Keep =>
    case Add => CountSnoc(s, x, x);
    case Remove => RemoveLastCount(s, x, x);
  }
}
