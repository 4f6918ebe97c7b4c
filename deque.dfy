/**
 * Python's `collections.deque(maxlen=...)`, as far as the recorder uses it: a
 * sequence that is extended on the right and, once it holds `maxlen` items,
 * drops its oldest item for every new one. A deque is modelled as a value;
 * the dictionary that owns it stores the extended value in its place.
 */
module Deques {
  import opened Wrappers
  import opened Sequences

  function Min(a: nat, b: nat): nat { if a <= b then a else b }

  /** The last `maxlen` elements of `s` (all of `s` when it is shorter or there is no bound). */
  function Last<T>(s: seq<T>, maxlen: Option<nat>): (r: seq<T>)
    ensures maxlen.None? ==> r == s
    ensures maxlen.Some? ==> |r| == Min(|s|, maxlen.value)
    ensures r == s[|s| - |r|..]
  {
    if maxlen.None? || |s| <= maxlen.value then s else s[|s| - maxlen.value..]
  }

  /** A deque: its fixed bound (`None` is unbounded) and its items, oldest first. */
  datatype Deque<T> = Deque(maxlen: Option<nat>, items: seq<T>) {

    /** The deque holds no more than its bound. */
    predicate Fits() {
      maxlen.Some? ==> |items| <= maxlen.value
    }

    /** `deque.append(x)`: add on the right, then drop one item on the left if over the bound. */
    function Append(x: T): (d: Deque<T>)
      ensures d.maxlen == maxlen
      ensures Fits() ==> d.Fits() && d.items == Last(items + [x], maxlen)
    {
      var grown := items + [x];
      Deque(maxlen, if maxlen.Some? && |grown| > maxlen.value then grown[1..] else grown)
    }

    /**
     * `deque.extend(xs)`: the old items followed by `xs`, of which only the
     * last `maxlen` remain.
     */
    function Extend(xs: seq<T>): (d: Deque<T>)
      ensures d.maxlen == maxlen && d.Fits()
      ensures |d.items| <= |items| + |xs| && d.items == (items + xs)[|items| + |xs| - |d.items|..]
      ensures maxlen.None? || |items| + |xs| <= maxlen.value ==> d.items == items + xs
      ensures maxlen.Some? ==> |d.items| == Min(|items| + |xs|, maxlen.value)
    {
      Deque(maxlen, Last(items + xs, maxlen))
    }

    /** Appending the items of `xs` one at a time, in order: how CPython's `deque.extend` proceeds. */
    function AppendAll(xs: seq<T>): (d: Deque<T>)
      ensures d.maxlen == maxlen
      ensures Fits() ==> d.Fits()
      decreases |xs|
    {
      if xs == [] then this else Append(xs[0]).AppendAll(xs[1..])
    }
  }

  /** The range of CPython's `Py_ssize_t` on a 64-bit build, into which `deque` converts its bound. */
  const SSIZE_MIN: int := -0x8000_0000_0000_0000
  const SSIZE_MAX: int := 0x7FFF_FFFF_FFFF_FFFF

  /**
   * `deque(maxlen=m)`: an empty deque with bound m. A bound outside
   * `Py_ssize_t` raises `OverflowError` while it is converted; a negative one
   * raises `ValueError`.
   */
  function NewDeque<T>(maxlen: Option<int>): (r: Result<Deque<T>>)
    ensures r.Ok? <==> maxlen.None? || 0 <= maxlen.value <= SSIZE_MAX
    ensures r.Ok? ==> r.value.items == [] && r.value.Fits()
    ensures r.Ok? && maxlen.Some? ==> r.value.maxlen == Some(maxlen.value as nat)
    ensures r.Ok? && maxlen.None? ==> r.value.maxlen.None?
    ensures r.Err? ==> (r.error.OverflowError? <==> maxlen.value < SSIZE_MIN || maxlen.value > SSIZE_MAX)
    ensures r.Err? ==> (r.error.ValueError? <==> SSIZE_MIN <= maxlen.value < 0)
  {
    match maxlen
    case None => Ok(Deque(None, []))
    case Some(n) =>
      if n < SSIZE_MIN || n > SSIZE_MAX then Err(OverflowError("Python int too large to convert to C ssize_t"))
      else if n < 0 then Err(ValueError("maxlen must be non-negative"))
      else Ok(Deque(Some(n as nat), []))
  }

  /** Trimming twice to the same bound is trimming once: a suffix of a suffix. */
  lemma {:induction false} LastOfLast<T>(s: seq<T>, t: seq<T>, maxlen: Option<nat>)
    ensures Last(Last(s, maxlen) + t, maxlen) == Last(s + t, maxlen)
  {
    if maxlen.Some? {
      var u := Last(s, maxlen);
      var a := Last(u + t, maxlen);
      var b := Last(s + t, maxlen);
      var st := s + t;
      assert u + t == st[|s| - |u|..] by {
        DropThenAppend(s, t, |s| - |u|);
      }
      assert |a| == |b|;
      DropDrop(st, |s| - |u|, |u + t| - |a|);
    }
  }

  /**
   * Extending a deque by a whole sequence is appending its items one at a
   * time: each append past the bound drops the oldest item.
   */
  lemma {:induction false} ExtendIsRepeatedAppend<T>(q: Deque<T>, xs: seq<T>)
    requires q.Fits()
    ensures q.Extend(xs) == q.AppendAll(xs)
    decreases |xs|
  {
    if xs == [] {
      assert q.items + xs == q.items;
    } else {
      var p := q.Append(xs[0]);
      assert q.AppendAll(xs) == p.AppendAll(xs[1..]);
      assert p.items == Last(q.items + [xs[0]], q.maxlen);
      ExtendIsRepeatedAppend(p, xs[1..]);
      LastOfLast(q.items + [xs[0]], xs[1..], q.maxlen);
      assert q.items + [xs[0]] + xs[1..] == q.items + xs by {
        ConsTail(q.items, xs);
      }
    }
  }

  /** Two extends in a row are one extend by both sequences. */
  lemma {:induction false} ExtendTwice<T>(q: Deque<T>, xs: seq<T>, ys: seq<T>)
    requires q.Fits()
    ensures q.Extend(xs).Extend(ys) == q.Extend(xs + ys)
  {
    LastOfLast(q.items + xs, ys, q.maxlen);
    assert q.items + xs + ys == q.items + (xs + ys);
  }
}
