/** The pieces of Python's list semantics that the evaluation script relies
    on: the exceptions it can raise, `[x] * k`, `s[i]` and `s[:k]`. */
module PyList {

  /** The exceptions the modelled code can raise. */
  datatype Error =
    | IndexError      // pop from an empty list, or a list index out of range
    | KeyError        // a label missing from the label map
    | AssertionError  // one of the length asserts of the feature builder

  datatype Result<T> = Ok(value: T) | Err(error: Error)

  /** `[x] * k`: k copies of x; a count that is not positive gives `[]`. */
  function Repeat<T>(x: T, k: int): (r: seq<T>)
    ensures |r| == if k > 0 then k else 0
    ensures forall i :: 0 <= i < |r| ==> r[i] == x
    decreases k
  {
    if k <= 0 then [] else [x] + Repeat(x, k - 1)
  }

  /** `s[i]`: a negative index counts from the end; out of range raises. */
  function At<T>(s: seq<T>, i: int): (r: Result<T>)
    ensures r.Ok? <==> -|s| <= i < |s|
    ensures r.Err? ==> r.error == IndexError
    ensures r.Ok? ==> exists j :: 0 <= j < |s| && (j == i || j == |s| + i) && r.value == s[j]
  {
    if 0 <= i < |s| then Ok(s[i])
    else if -|s| <= i < 0 then Ok(s[|s| + i])
    else Err(IndexError)
  }

  /** `s[:k]` for a non-negative k: the first k elements, or all of s. */
  function Take<T>(s: seq<T>, k: nat): seq<T>
  {
    if k <= |s| then s[..k] else s
  }

  /** The element-wise image of a list, as `[f(x) for x in s]`. */
  function Map<T, U>(f: T -> U, s: seq<T>): (r: seq<U>)
    ensures |r| == |s| && forall i :: 0 <= i < |s| ==> r[i] == f(s[i])
  {
    seq(|s|, i requires 0 <= i < |s| => f(s[i]))
  }

  /** `sum(1 for x in s if p(x))`: how many elements satisfy p. */
  function Count<T>(p: T -> bool, s: seq<T>): (c: nat)
    ensures c <= |s|
    ensures c == 0 <==> forall i :: 0 <= i < |s| ==> !p(s[i])
    ensures c == |s| <==> forall i :: 0 <= i < |s| ==> p(s[i])
  {
    if s == [] then 0
    else Count(p, s[..|s| - 1]) + (if p(s[|s| - 1]) then 1 else 0)
  }

  lemma {:induction false} CountAppend<T>(p: T -> bool, s: seq<T>, t: seq<T>)
    ensures Count(p, s + t) == Count(p, s) + Count(p, t)
    decreases |t|
  {
    if t == [] {
      assert s + t == s;
    } else {
      var t' := t[..|t| - 1];
      assert (s + t)[..|s + t| - 1] == s + t';
      CountAppend(p, s, t');
    }
  }

  /** Counting a weaker predicate never gives less. */
  lemma {:induction false} CountMonotone<T>(p: T -> bool, q: T -> bool, s: seq<T>)
    requires forall i :: 0 <= i < |s| && p(s[i]) ==> q(s[i])
    ensures Count(p, s) <= Count(q, s)
    decreases |s|
  {
    if s != [] {
      CountMonotone(p, q, s[..|s| - 1]);
    }
  }
}
