/** The two rank-counting rules of the evaluation loop and the descending
    sort of a batch by score. Scores are kept abstract as reals. */
module Ranking {
  import opened PyList

  /** `np.sum(raw_scores >= raw_score)`: the baseline rank of the reference
      candidate, which counts itself. */
  function RawRank(scores: seq<real>, rawScore: real): (r: nat)
    ensures r <= |scores|
    ensures rawScore in scores ==> 1 <= r
    ensures r == 0 <==> forall i :: 0 <= i < |scores| ==> scores[i] < rawScore
  {
    Count(s => s >= rawScore, scores)
  }

  /** The scores of `[line for index, line in enumerate(batch) if index != rank]`:
      an index outside `0 <= rank < |scores|` matches no position, so then
      nothing is left out. */
  function Others(scores: seq<real>, rank: int): (r: seq<real>)
    ensures 0 <= rank < |scores| ==>
      |r| == |scores| - 1 && multiset(r) == multiset(scores) - multiset{scores[rank]} &&
      (forall j :: 0 <= j < rank ==> r[j] == scores[j]) &&
      (forall j :: rank <= j < |r| ==> r[j] == scores[j + 1])
    ensures !(0 <= rank < |scores|) ==> r == scores
  {
    if 0 <= rank < |scores| then
      assert scores == scores[..rank] + [scores[rank]] + scores[rank + 1..];
      scores[..rank] + scores[rank + 1..]
    else scores
  }

  /** `np.sum(scores > score) + 1`: the rank the poisoned candidate's new score
      takes among the other candidates of its batch. */
  function PoisonedRank(scores: seq<real>, rank: int, score: real): (r: nat)
    ensures 1 <= r <= |scores| + 1
    ensures 0 <= rank < |scores| ==> r <= |scores|
    ensures r == 1 <==> forall i :: 0 <= i < |Others(scores, rank)| ==> Others(scores, rank)[i] <= score
  {
    1 + Count(s => s > score, Others(scores, rank))
  }

  /** A higher score never gives a worse (larger) rank. */
  lemma PoisonedRankMonotone(scores: seq<real>, rank: int, low: real, high: real)
    requires low <= high
    ensures PoisonedRank(scores, rank, high) <= PoisonedRank(scores, rank, low)
  {
    CountMonotone(s => s > high, s => s > low, Others(scores, rank));
  }

  /** Counting `>=` is counting `>` plus counting `==`. */
  lemma {:induction false} CountAtLeastSplit(s: seq<real>, x: real)
    ensures Count(v => v >= x, s) == Count(v => v > x, s) + Count(v => v == x, s)
    decreases |s|
  {
    if s != [] {
      CountAtLeastSplit(s[..|s| - 1], x);
    }
  }

  /** The two rules differ only on ties: a candidate that keeps its recorded
      score gets the baseline rank less the number of other candidates that
      share that score. */
  lemma PoisonedRankVersusRawRank(scores: seq<real>, rank: nat)
    requires rank < |scores|
    ensures var x := scores[rank];
      PoisonedRank(scores, rank, x) + Count(v => v == x, Others(scores, rank)) == RawRank(scores, x)
  {
    var x := scores[rank];
    var front, back := scores[..rank], scores[rank + 1..];
    assert scores == front + [x] + back;
    CountAppend(v => v >= x, front + [x], back);
    CountAppend(v => v >= x, front, [x]);
    assert Count(v => v >= x, [x]) == 1 by {
      assert [x][..0] == [];
    }
    CountAppend(v => v >= x, front, back);
    CountAtLeastSplit(front + back, x);
  }

  /** The scores are in non-increasing order. */
  ghost predicate IsDescending<T>(s: seq<T>, key: T -> real)
  {
    forall i, j :: 0 <= i < j < |s| ==> key(s[i]) >= key(s[j])
  }

  /** In a batch sorted by descending score, the candidate at position `rank`
      that keeps its score ranks no worse than rank + 1, and exactly rank + 1
      when every earlier candidate scores strictly higher. */
  lemma {:induction false} PoisonedRankInSortedBatch(scores: seq<real>, rank: nat)
    requires rank < |scores|
    requires forall i, j :: 0 <= i < j < |scores| ==> scores[i] >= scores[j]
    ensures PoisonedRank(scores, rank, scores[rank]) <= rank + 1
    ensures (forall i :: 0 <= i < rank ==> scores[i] > scores[rank]) ==>
      PoisonedRank(scores, rank, scores[rank]) == rank + 1
  {
    var x := scores[rank];
    var front, back := scores[..rank], scores[rank + 1..];
    CountAppend(v => v > x, front, back);
    assert Count(v => v > x, back) == 0;
  }

  /** Inserts x before the first element that does not score higher, so
      among equal scores earlier elements stay first. */
  function InsertDescending<T>(x: T, s: seq<T>, key: T -> real): (r: seq<T>)
    requires IsDescending(s, key)
    ensures IsDescending(r, key)
    ensures multiset(r) == multiset(s) + multiset{x}
  {
    if s == [] || key(s[0]) <= key(x) then
      DescendingCons(x, s, key);
      [x] + s
    else
      DescendingTail(s, key);
      var rest := InsertDescending(x, s[1..], key);
      assert s == [s[0]] + s[1..];
      BoundedByMultiset(rest, s[1..] + [x], key, key(s[0]));
      DescendingCons(s[0], rest, key);
      [s[0]] + rest
  }

  /** Dropping the first element keeps a list descending. */
  lemma DescendingTail<T>(s: seq<T>, key: T -> real)
    requires s != [] && IsDescending(s, key)
    ensures IsDescending(s[1..], key)
  {
    forall i, j | 0 <= i < j < |s[1..]| ensures key(s[1..][i]) >= key(s[1..][j]) {
      assert s[1..][i] == s[i + 1] && s[1..][j] == s[j + 1];
    }
  }

  /** An element that scores at least the head of a descending list can go
      in front of it. */
  lemma DescendingCons<T>(h: T, s: seq<T>, key: T -> real)
    requires IsDescending(s, key)
    requires s == [] || key(s[0]) <= key(h)
    ensures IsDescending([h] + s, key)
  {
    var r := [h] + s;
    forall i, j | 0 <= i < j < |r| ensures key(r[i]) >= key(r[j]) {
      assert r[j] == s[j - 1];
      if i > 0 {
        assert r[i] == s[i - 1];
      } else if j > 1 {
        assert key(s[0]) >= key(s[j - 1]);
      }
    }
  }

  /** A list whose elements are those of t scores no higher than any bound
      on t. */
  lemma BoundedByMultiset<T>(s: seq<T>, t: seq<T>, key: T -> real, bound: real)
    requires multiset(s) == multiset(t)
    requires forall i :: 0 <= i < |t| ==> key(t[i]) <= bound
    ensures s == [] || key(s[0]) <= bound
  {
    if s != [] {
      assert s[0] in multiset(t);
    }
  }

  /** `batch.sort(key=score, reverse=True)`: a stable sort by descending score. */
  function SortDescending<T>(s: seq<T>, key: T -> real): (r: seq<T>)
    ensures IsDescending(r, key)
    ensures multiset(r) == multiset(s)
    ensures |r| == |s|
  {
    if s == [] then []
    else
      assert s == [s[0]] + s[1..];
      InsertDescending(s[0], SortDescending(s[1..], key), key)
  }

  /** The elements of s whose score is v, in their order in s. */
  function WithScore<T>(s: seq<T>, key: T -> real, v: real): seq<T>
  {
    if s == [] then []
    else (if key(s[0]) == v then [s[0]] else []) + WithScore(s[1..], key, v)
  }

  /** Insertion puts x ahead of every element with its score. */
  lemma {:induction false} InsertDescendingKeepsTies<T>(x: T, s: seq<T>, key: T -> real, v: real)
    requires IsDescending(s, key)
    ensures WithScore(InsertDescending(x, s, key), key, v) ==
            (if key(x) == v then [x] else []) + WithScore(s, key, v)
  {
    if s == [] || key(s[0]) <= key(x) {
      WithScoreCons(x, s, key, v);
    } else {
      DescendingTail(s, key);
      InsertDescendingKeepsTies(x, s[1..], key, v);
      WithScoreCons(s[0], InsertDescending(x, s[1..], key), key, v);
      WithScoreCons(s[0], s[1..], key, v);
      assert [s[0]] + s[1..] == s;
    }
  }

  /** WithScore of a list with a given head. */
  lemma WithScoreCons<T>(h: T, s: seq<T>, key: T -> real, v: real)
    ensures WithScore([h] + s, key, v) == (if key(h) == v then [h] else []) + WithScore(s, key, v)
  {
    assert ([h] + s)[1..] == s;
  }

  /** The sort is stable: for every score, the candidates with that score
      come out in the order they went in. */
  lemma {:induction false} SortDescendingStable<T>(s: seq<T>, key: T -> real, v: real)
    ensures WithScore(SortDescending(s, key), key, v) == WithScore(s, key, v)
  {
    if s != [] {
      SortDescendingStable(s[1..], key, v);
      InsertDescendingKeepsTies(s[0], SortDescending(s[1..], key), key, v);
    }
  }
}
