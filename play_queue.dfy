/** The sequence operations the play queue is built from: `arrayMove`, and the
    `indexOf`/`splice` pair that `removeFromQueue` uses. Generic in the element
    type; the queue itself instantiates them with `Song?`, `null` playing the
    part of JavaScript's `undefined`. */
module PlayQueue {

  /** `s` without its element at `i` (`s.splice(i, 1)` for a valid `i`). */
  function RemoveAt<T>(s: seq<T>, i: nat): (r: seq<T>)
    requires i < |s|
  {
    s[..i] + s[i + 1..]
  }

  /** `s` with `x` inserted before position `i` (`s.splice(i, 0, x)`). */
  function InsertAt<T>(s: seq<T>, i: nat, x: T): (r: seq<T>)
    requires i <= |s|
  {
    s[..i] + [x] + s[i..]
  }

  /** `k` copies of `undef`. */
  function Filler<T>(k: nat, undef: T): (r: seq<T>)
  {
    seq(k, _ => undef)
  }

  /** The copy of `a` that `arrayMove` works on: when `newIndex` is not an index
      of `a`, it is extended with `undef` until `newIndex` is its last index. */
  function Padded<T>(a: seq<T>, newIndex: nat, undef: T): (r: seq<T>)
  {
    if newIndex >= |a| then a + Filler(newIndex - |a| + 1, undef) else a
  }

  /** What `arrayMove(a, previousIndex, newIndex)` returns: the padded copy, with
      its element at `previousIndex` taken out (`undef` when there is none) and
      put back in at `newIndex`. */
  function Moved<T>(a: seq<T>, previousIndex: nat, newIndex: nat, undef: T): (r: seq<T>)
  {
    var p := Padded(a, newIndex, undef);
    if previousIndex < |p| then InsertAt(RemoveAt(p, previousIndex), newIndex, p[previousIndex])
    else InsertAt(p, newIndex, undef)
  }

  /** `arrayMove` as the component writes it: a copy, a `while ((k--) + 1)` loop
      of `push(undefined)`, then `splice` out and `splice` in. */
  method ArrayMove<T>(arr: seq<T>, previousIndex: nat, newIndex: nat, undef: T) returns (copy: seq<T>)
    ensures copy == Moved(arr, previousIndex, newIndex, undef)
  {
    copy := arr;
    if newIndex >= |copy| {
      var k: int := newIndex - |copy|;
      while k + 1 != 0
        invariant -1 <= k
        invariant |copy| + k == newIndex
        invariant copy[..|arr|] == arr
        invariant forall i :: |arr| <= i < |copy| ==> copy[i] == undef
        decreases k
      {
        k := k - 1;
        copy := copy + [undef];
      }
      assert copy == Padded(arr, newIndex, undef);
    }
    if previousIndex < |copy| {
      var moving := copy[previousIndex];
      copy := RemoveAt(copy, previousIndex);
      copy := InsertAt(copy, newIndex, moving);
    } else {
      copy := InsertAt(copy, newIndex, undef);
    }
  }

  /** A move between two indexes of `a` is a permutation that lands the moved
      element at `newIndex` and keeps every other element in its relative order. */
  lemma MovedIsMove<T>(a: seq<T>, previousIndex: nat, newIndex: nat, undef: T)
    requires previousIndex < |a| && newIndex < |a|
    ensures |Moved(a, previousIndex, newIndex, undef)| == |a|
    ensures Moved(a, previousIndex, newIndex, undef)[newIndex] == a[previousIndex]
    ensures RemoveAt(Moved(a, previousIndex, newIndex, undef), newIndex) == RemoveAt(a, previousIndex)
    ensures multiset(Moved(a, previousIndex, newIndex, undef)) == multiset(a)
  {
    var rest := RemoveAt(a, previousIndex);
    var r := Moved(a, previousIndex, newIndex, undef);
    assert r == rest[..newIndex] + [a[previousIndex]] + rest[newIndex..];
    assert RemoveAt(r, newIndex) == rest by {
      assert r[..newIndex] == rest[..newIndex];
      assert r[newIndex + 1..] == rest[newIndex..];
    }
    calc {
      multiset(r);
      multiset(rest[..newIndex]) + multiset{a[previousIndex]} + multiset(rest[newIndex..]);
      { assert rest == rest[..newIndex] + rest[newIndex..]; }
      multiset(rest) + multiset{a[previousIndex]};
      multiset(a[..previousIndex]) + multiset(a[previousIndex + 1..]) + multiset{a[previousIndex]};
      { assert a == a[..previousIndex] + [a[previousIndex]] + a[previousIndex + 1..]; }
      multiset(a);
    }
  }

  /** A move past the end pads: the result has `newIndex + 1` elements, the moved
      element last, and between it and the remaining elements the filler. */
  lemma MovedPadded<T>(a: seq<T>, previousIndex: nat, newIndex: nat, undef: T)
    requires previousIndex < |a| <= newIndex
    ensures |Moved(a, previousIndex, newIndex, undef)| == newIndex + 1
    ensures Moved(a, previousIndex, newIndex, undef)[newIndex] == a[previousIndex]
    ensures Moved(a, previousIndex, newIndex, undef) ==
            RemoveAt(a, previousIndex) + Filler(newIndex - |a| + 1, undef) + [a[previousIndex]]
  {
  }

  /** When `previousIndex` is past the end of the padded copy, nothing is removed
      and `undef` is inserted at `newIndex`. */
  lemma MovedFromNowhere<T>(a: seq<T>, previousIndex: nat, newIndex: nat, undef: T)
    requires previousIndex >= |a| && previousIndex > newIndex
    ensures |Moved(a, previousIndex, newIndex, undef)| == |Padded(a, newIndex, undef)| + 1
    ensures Moved(a, previousIndex, newIndex, undef)[newIndex] == undef
    ensures RemoveAt(Moved(a, previousIndex, newIndex, undef), newIndex) == Padded(a, newIndex, undef)
  {
  }

  /** The element a fixed position `c` holds after a move between two indexes,
      when `c` was not the moved position: `newIndex` holds the moved element,
      positions strictly between the two indexes shift by one towards
      `previousIndex`, and all others keep their element. */
  lemma MovedElsewhere<T>(a: seq<T>, previousIndex: nat, newIndex: nat, c: nat, undef: T)
    requires previousIndex < |a| && newIndex < |a| && c < |a| && c != previousIndex
    ensures Moved(a, previousIndex, newIndex, undef)[c] ==
            if c == newIndex then a[previousIndex]
            else a[if previousIndex < c < newIndex then c + 1
                   else if newIndex < c < previousIndex then c - 1
                   else c]
  {
  }

  /** `q.indexOf(x)`: the first index holding `x`, or -1 when there is none. */
  function IndexOf<T(==)>(q: seq<T>, x: T): (r: int)
    ensures -1 <= r < |q|
    ensures r == -1 <==> x !in q
    ensures r >= 0 ==> q[r] == x && x !in q[..r]
  {
    if |q| == 0 then -1
    else if q[0] == x then 0
    else
      var r := IndexOf(q[1..], x);
      assert q[1..][..if r >= 0 then r else 0] == q[1..if r >= 0 then r + 1 else 1];
      if r == -1 then -1 else r + 1
  }

  /** `q.splice(start, 1)` on the array in place: a negative `start` counts back
      from the end (clamped at 0), one past the end or more removes nothing. */
  function SpliceOne<T>(q: seq<T>, start: int): (r: seq<T>)
  {
    var s := if start < 0 then (if |q| + start < 0 then 0 else |q| + start)
             else (if start > |q| then |q| else start);
    if s < |q| then RemoveAt(q, s) else q
  }

  /** `q.splice(q.indexOf(x), 1)`. */
  function Removed<T(==)>(q: seq<T>, x: T): (r: seq<T>)
  {
    SpliceOne(q, IndexOf(q, x))
  }

  /** Removal takes out the first occurrence of `x`; when `x` is absent, `indexOf`
      gives -1 and `splice(-1, 1)` takes out the LAST element instead. */
  lemma RemovedSpec<T>(q: seq<T>, x: T)
    ensures x in q ==>
      && |Removed(q, x)| == |q| - 1
      && Removed(q, x) == RemoveAt(q, IndexOf(q, x))
      && multiset(Removed(q, x)) == multiset(q) - multiset{x}
    ensures x !in q && q != [] ==> Removed(q, x) == q[..|q| - 1]
    ensures q == [] ==> Removed(q, x) == []
  {
    if x in q {
      var i := IndexOf(q, x);
      assert Removed(q, x) == RemoveAt(q, i);
      assert q == q[..i] + [x] + q[i + 1..];
      assert multiset(q) == multiset(q[..i]) + multiset{x} + multiset(q[i + 1..]);
      assert multiset(RemoveAt(q, i)) == multiset(q[..i]) + multiset(q[i + 1..]);
    } else if q != [] {
      assert IndexOf(q, x) == -1;
      assert Removed(q, x) == RemoveAt(q, |q| - 1);
    }
  }

  /** After removing a present `x`, a position `c` holds what it held before
      when it lies before the removed one, and what the next position held
      otherwise: an unchanged current number at or after the removal point
      names the following entry. */
  lemma RemovedElsewhere<T>(q: seq<T>, x: T, c: nat)
    requires x in q && c < |q| - 1
    ensures Removed(q, x)[c] == q[if c < IndexOf(q, x) then c else c + 1]
  {
  }
}
