/** `truncate_seq_pair`: trims a pair of token lists to a joint budget by
    repeatedly dropping the last token of the longer list (of the second
    list on a tie). */
module Truncation {
  import opened PyList

  function Min(x: int, y: int): int { if x <= y then x else y }
  function Max(x: int, y: int): int { if x <= y then y else x }

  /** The lengths (la', lb') the two lists have after the greedy trimming to
      budget n, in closed form: nothing is dropped when the pair fits;
      otherwise the first list keeps n - lb tokens while it is the longer one
      down to that point, else the two end balanced with the first list
      holding the odd token. */
  function TrimmedLengths(la: nat, lb: nat, n: nat): (r: (nat, nat))
    ensures r.0 <= la && r.1 <= lb
    ensures la + lb <= n ==> r == (la, lb)
    ensures la + lb > n ==> r.0 + r.1 == n
    // the first list is only shortened while strictly longer than the second
    ensures r.0 < la ==> r.0 >= r.1
    // the second list is only shortened while at least as long as the first
    ensures r.1 < lb ==> r.1 + 1 >= r.0
  {
    if la + lb <= n then (la, lb)
    else
      var ka := Min(la, Max(n - lb, (n + 1) / 2));
      (ka, n - ka)
  }

  /** The pair after trimming to budget n: a prefix of each list. */
  function Trimmed<T>(a: seq<T>, b: seq<T>, n: nat): (seq<T>, seq<T>)
  {
    var (ka, kb) := TrimmedLengths(|a|, |b|, n);
    (a[..ka], b[..kb])
  }

  /** What `truncate_seq_pair(a, b, maxLength)` leaves in the two lists; a
      negative budget makes it pop an empty list. */
  function TruncatePair<T>(a: seq<T>, b: seq<T>, maxLength: int): (r: Result<(seq<T>, seq<T>)>)
    ensures r.Err? <==> maxLength < 0
    ensures r.Err? ==> r.error == IndexError
    // the pair fits the budget and each list is a prefix of its original
    ensures r.Ok? ==> |r.value.0| + |r.value.1| <= maxLength && r.value.0 <= a && r.value.1 <= b
    // a pair that did not fit fills the budget exactly
    ensures r.Ok? && |a| + |b| > maxLength ==> |r.value.0| + |r.value.1| == maxLength
  {
    if maxLength < 0 then Err(IndexError) else Ok(Trimmed(a, b, maxLength))
  }

  /** The closed form is the only outcome the trimming rule allows: any pair
      of prefix lengths that fits the budget exactly, keeps everything when
      there is room, and respects the tie-break is TrimmedLengths. */
  lemma {:induction false} TrimmedLengthsUnique(la: nat, lb: nat, n: nat, ka: nat, kb: nat)
    requires ka <= la && kb <= lb
    requires la + lb <= n ==> ka == la && kb == lb
    requires la + lb > n ==> ka + kb == n
    requires ka < la ==> ka >= kb
    requires kb < lb ==> kb + 1 >= ka
    ensures TrimmedLengths(la, lb, n) == (ka, kb)
  {
    if la + lb > n && ka < la && kb < lb {
      assert ka == (n + 1) / 2;
    }
  }

  /** One iteration of the loop, which pops from the longer list (the second
      on a tie), does not change where the trimming ends. */
  lemma {:induction false} PopPreservesTrimmedLengths(la: nat, lb: nat, n: nat)
    requires la + lb > n
    ensures la > lb ==> TrimmedLengths(la - 1, lb, n) == TrimmedLengths(la, lb, n)
    ensures la <= lb ==> lb > 0 && TrimmedLengths(la, lb - 1, n) == TrimmedLengths(la, lb, n)
  {
    var (ka, kb) := TrimmedLengths(la, lb, n);
    if la > lb {
      TrimmedLengthsUnique(la - 1, lb, n, ka, kb);
    } else {
      TrimmedLengthsUnique(la, lb - 1, n, ka, kb);
    }
  }

  /** The loop of `truncate_seq_pair`, on list values: returns the trimmed
      lists, or IndexError when the loop pops an empty list. */
  method TruncateSeqPair<T>(tokensA: seq<T>, tokensB: seq<T>, maxLength: int)
    returns (r: Result<(seq<T>, seq<T>)>)
    ensures r == TruncatePair(tokensA, tokensB, maxLength)
  {
    var a, b := tokensA, tokensB;
    while true
      invariant |a| <= |tokensA| && a == tokensA[..|a|]
      invariant |b| <= |tokensB| && b == tokensB[..|b|]
      invariant maxLength >= 0 ==>
        TrimmedLengths(|a|, |b|, maxLength) == TrimmedLengths(|tokensA|, |tokensB|, maxLength)
      decreases |a| + |b|
    {
      var totalLength := |a| + |b|;
      if totalLength <= maxLength {
        return Ok((a, b));
      }
      if maxLength >= 0 {
        PopPreservesTrimmedLengths(|a|, |b|, maxLength);
      }
      if |a| > |b| {
        a := a[..|a| - 1];
      } else if b == [] {
        return Err(IndexError);
      } else {
        b := b[..|b| - 1];
      }
    }
  }

  /** The lists are left alone when they already fit the budget. */
  lemma TruncateWithinBudget<T>(a: seq<T>, b: seq<T>, maxLength: int)
    requires 0 <= |a| + |b| <= maxLength
    ensures TruncatePair(a, b, maxLength) == Ok((a, b))
  {
    assert a[..|a|] == a && b[..|b|] == b;
  }
}
