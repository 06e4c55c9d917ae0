/** The evaluation loop of `main`: split a result file into batches, and for
    each batch take the baseline rank of the reference candidate, poison the
    candidate at the chosen rank, re-score it and count its new rank. The
    trigger insertion and the scoring model are parameters. */
module Evaluation {
  import opened PyList
  import opened Features
  import opened Ranking

  /** The fields of one record of a batch result file that the loop reads:
      the label, the docstring, the code and the recorded score. */
  datatype Candidate = Candidate(classLabel: string, docstring: string, code: string, score: real)

  /** The collaborators and settings of one evaluation run. `poison` stands
      for `insert_trigger` applied with the trigger from `gen_trigger`, and
      `scorer` for the fine-tuned model's last logit on a feature. */
  datatype Setup = Setup(
    tok: Tokenizer,
    clsToken: string,
    sepToken: string,
    modelType: string,
    maxSeqLength: int,
    poison: string -> string,
    scorer: Feature -> real)

  /** The numbers kept for one batch: the baseline rank, the poisoned rank,
      and whether trigger insertion left the code as it was. */
  datatype BatchOutcome = BatchOutcome(rawResult: nat, result: nat, codeUnchanged: bool)

  datatype FileResults = FileResults(results: seq<nat>, rawResults: seq<nat>, ncnt: nat)

  /** The labels the feature builder knows. */
  const LabelList: seq<string> := ["0", "1"]

  function ScoreOf(c: Candidate): real { c.score }

  function Scores(batch: seq<Candidate>): seq<real> { Map(ScoreOf, batch) }

  /** The keyword arguments the loop passes to the feature builder. */
  function LayoutFor(setup: Setup): LayoutConfig
  {
    var xlnet := setup.modelType == "xlnet";
    DefaultLayout.(clsToken := setup.clsToken, sepToken := setup.sepToken,
                   clsTokenSegmentId := if xlnet then 2 else 1,
                   padTokenSegmentId := if xlnet then 4 else 0)
  }

  /** `batch_idx if 'clean' in file else 0`: which record is the reference. */
  function RawIndex(clean: bool, batchIdx: nat): nat
  {
    if clean then batchIdx else 0
  }

  /** `chunked(lines, batchSize)`: consecutive batches of batchSize records,
      the last one possibly shorter. */
  function Chunked<T>(s: seq<T>, batchSize: nat): (r: seq<seq<T>>)
    requires batchSize > 0
    ensures Flatten(r) == s
    ensures forall k :: 0 <= k < |r| ==> 0 < |r[k]| <= batchSize
    ensures forall k :: 0 <= k < |r| - 1 ==> |r[k]| == batchSize
    decreases |s|
  {
    if s == [] then []
    else if |s| <= batchSize then [s]
    else
      var rest := Chunked(s[batchSize..], batchSize);
      assert s == s[..batchSize] + s[batchSize..];
      [s[..batchSize]] + rest
  }

  function Flatten<T>(r: seq<seq<T>>): seq<T>
  {
    if r == [] then [] else r[0] + Flatten(r[1..])
  }

  /** The body of the batch loop: the baseline rank of the reference record,
      then the poisoned rank of the record at position `rank` of the batch
      sorted by descending score; or the exception the body raises. */
  function EvaluateBatch(batch: seq<Candidate>, rawIndex: int, rank: int, setup: Setup): (r: Result<BatchOutcome>)
    ensures r.Ok? ==> -|batch| <= rawIndex < |batch| && -|batch| <= rank < |batch| && setup.maxSeqLength >= 3
    ensures (-|batch| <= rawIndex < |batch| && -|batch| <= rank < |batch| && setup.maxSeqLength >= 3 &&
             forall i :: 0 <= i < |batch| ==> batch[i].classLabel in LabelList) ==> r.Ok?
    ensures r.Ok? ==> 1 <= r.value.rawResult <= |batch|
    ensures r.Ok? ==> 1 <= r.value.result <= |batch| + 1
    ensures r.Ok? && 0 <= rank ==> r.value.result <= |batch|
  {
    match At(batch, rawIndex)
    case Err(e) => Err(e)
    case Ok(reference) =>
      var rawResult := RawRank(Scores(batch), reference.score);
      assert reference.score in Scores(batch) by {
        var i := if rawIndex >= 0 then rawIndex else |batch| + rawIndex;
        assert reference == batch[i];
        assert Scores(batch)[i] == reference.score;
      }
      var sorted := SortDescending(batch, ScoreOf);
      match At(sorted, rank)
      case Err(e) => Err(e)
      case Ok(target) =>
        var code := setup.poison(target.code);
        var example := Example(target.classLabel, target.docstring, code);
        assert target.classLabel in LabelList <== forall i :: 0 <= i < |batch| ==> batch[i].classLabel in LabelList by {
          assert target in multiset(sorted);
          var i :| 0 <= i < |batch| && batch[i] == target;
        }
        match ConvertExampleToFeature(example, LabelList, setup.maxSeqLength, setup.tok, LayoutFor(setup))
        case Err(e) => Err(e)
        case Ok(feature) =>
          var score := setup.scorer(feature);
          Ok(BatchOutcome(rawResult, PoisonedRank(Scores(sorted), rank, score), code == target.code))
  }

  /** What the loop body `evaluate` yields for each batch, given the batch
      and the index of its reference record. */
  ghost function Outcomes(batches: seq<seq<Candidate>>, clean: bool,
                          evaluate: (seq<Candidate>, nat) -> Result<BatchOutcome>): seq<Result<BatchOutcome>>
  {
    seq(|batches|, k requires 0 <= k < |batches| => evaluate(batches[k], RawIndex(clean, k)))
  }

  /** Whether a batch was evaluated and its code came back unchanged. */
  predicate Unpoisoned(o: Result<BatchOutcome>) { o.Ok? && o.value.codeUnchanged }

  /** What the batch loop yields for the given per-batch outcomes: it fails
      exactly when some batch fails, with the exception of the first batch
      that fails; otherwise it keeps every batch's poisoned and baseline
      ranks in order, and ncnt counts the batches whose code came back
      unchanged. */
  ghost predicate LoopResult(r: Result<FileResults>, outcomes: seq<Result<BatchOutcome>>)
  {
    (r.Err? <==> exists k :: 0 <= k < |outcomes| && outcomes[k].Err?) &&
    (r.Err? ==> exists k :: 0 <= k < |outcomes| && outcomes[k] == Err(r.error) &&
                            forall j :: 0 <= j < k ==> outcomes[j].Ok?) &&
    (r.Ok? ==> |r.value.results| == |outcomes| && |r.value.rawResults| == |outcomes| &&
               (forall k :: 0 <= k < |outcomes| ==>
                  r.value.results[k] == outcomes[k].value.result &&
                  r.value.rawResults[k] == outcomes[k].value.rawResult) &&
               r.value.ncnt == Count(Unpoisoned, outcomes))
  }

  /** The batch loop of `main`, with its body as the parameter `evaluate`:
      collects the poisoned ranks, the baseline ranks and the number of
      batches whose code the trigger left unchanged, or stops at the first
      exception. */
  method EvaluateBatches(batches: seq<seq<Candidate>>, clean: bool,
                         evaluate: (seq<Candidate>, nat) -> Result<BatchOutcome>)
    returns (r: Result<FileResults>)
    ensures LoopResult(r, Outcomes(batches, clean, evaluate))
  {
    ghost var outcomes := Outcomes(batches, clean, evaluate);
    var results, rawResults, ncnt := [], [], 0;
    for batchIdx := 0 to |batches|
      invariant |results| == batchIdx && |rawResults| == batchIdx
      invariant forall k :: 0 <= k < batchIdx ==>
        (outcomes[k].Ok? && results[k] == outcomes[k].value.result && rawResults[k] == outcomes[k].value.rawResult)
      invariant ncnt == Count(Unpoisoned, outcomes[..batchIdx])
    {
      var outcome := evaluate(batches[batchIdx], RawIndex(clean, batchIdx));
      assert outcome == outcomes[batchIdx];
      if outcome.Err? {
        assert outcomes[batchIdx] == Err(outcome.error) && forall j :: 0 <= j < batchIdx ==> outcomes[j].Ok?;
        return Err(outcome.error);
      }
      results := results + [outcome.value.result];
      rawResults := rawResults + [outcome.value.rawResult];
      assert outcomes[..batchIdx + 1][..batchIdx] == outcomes[..batchIdx];
      if outcome.value.codeUnchanged {
        ncnt := ncnt + 1;
      }
    }
    assert outcomes[..|batches|] == outcomes;
    return Ok(FileResults(results, rawResults, ncnt));
  }

  /** The loop body as a function of the batch and its reference index. */
  function Evaluator(rank: int, setup: Setup): (seq<Candidate>, nat) -> Result<BatchOutcome>
  {
    (b, i) => EvaluateBatch(b, i, rank, setup)
  }

  /** A batch of at most batchSize records that EvaluateBatch gets through
      has a baseline rank in 1..batchSize, and so has its poisoned rank when
      `rank` is not negative. */
  lemma OutcomeBounds(batches: seq<seq<Candidate>>, clean: bool, rank: int, setup: Setup, batchSize: nat)
    requires forall k :: 0 <= k < |batches| ==> |batches[k]| <= batchSize
    ensures var outcomes := Outcomes(batches, clean, Evaluator(rank, setup));
      forall k :: 0 <= k < |outcomes| && outcomes[k].Ok? ==>
        1 <= outcomes[k].value.rawResult <= batchSize &&
        (0 <= rank ==> 1 <= outcomes[k].value.result <= batchSize)
  {
    var outcomes := Outcomes(batches, clean, Evaluator(rank, setup));
    forall k | 0 <= k < |outcomes| && outcomes[k].Ok?
      ensures 1 <= outcomes[k].value.rawResult <= batchSize &&
              (0 <= rank ==> 1 <= outcomes[k].value.result <= batchSize)
    {
      assert outcomes[k] == EvaluateBatch(batches[k], RawIndex(clean, k), rank, setup);
    }
  }

  /** The loop of `main` over one result file: batches of batchSize records,
      each evaluated by EvaluateBatch; every baseline rank lies in
      1..batchSize, and so does every poisoned rank when `rank` is not
      negative. */
  method EvaluateFile(lines: seq<Candidate>, batchSize: nat, clean: bool, rank: int, setup: Setup)
    returns (r: Result<FileResults>)
    requires batchSize > 0
    ensures LoopResult(r, Outcomes(Chunked(lines, batchSize), clean, Evaluator(rank, setup)))
    ensures r.Ok? ==> forall k :: 0 <= k < |r.value.rawResults| ==> 1 <= r.value.rawResults[k] <= batchSize
    ensures r.Ok? && 0 <= rank ==> forall k :: 0 <= k < |r.value.results| ==> 1 <= r.value.results[k] <= batchSize
  {
    var batches := Chunked(lines, batchSize);
    OutcomeBounds(batches, clean, rank, setup, batchSize);
    r := EvaluateBatches(batches, clean, Evaluator(rank, setup));
  }
}
