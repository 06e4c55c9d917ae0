# Backdoor-attack evaluation: input layout and rank counting

This project models, in Dafny, the verifiable core of the script that
evaluates a backdoor attack on a code-search model
(`src/CodeBERT/evaluate_attack/evaluate_attack.py`). For every batch of
previously scored (docstring, code) records, the script takes the baseline
rank of a reference record, inserts a trigger into the code of the record
at a chosen rank, re-scores the poisoned pair with the fine-tuned model and
counts the rank the new score takes among the rest of the batch.

The model covers:

- `truncate_seq_pair` (module `Truncation`): the greedy loop that pops the
  last token of the longer list (of the second list on a tie) until the
  pair fits a budget. It is a method with a loop, proved equal to a closed
  form (`TrimmedLengths`). The closed form is proved to be the only outcome
  that fits the budget exactly and obeys the tie-break. A negative budget
  makes the Python loop pop an empty list; the model returns `IndexError`
  for it.
- `convert_example_to_feature` (module `Features`): the first text is cut
  to 50 tokens, and the pair is trimmed to `max_seq_length - 3`. The
  layout is `[CLS] a [SEP] b [SEP]`, with segment ids and a 1/0 attention
  mask, right-padded to `max_seq_length`. The three length asserts are
  modelled as an `AssertionError` result and proved never to fire. The
  label lookup raises `KeyError` for an unknown label, and for a repeated
  label the last index wins, as in the dict comprehension.
- The rank rules of `main` (module `Ranking`). The baseline rank is the
  number of batch scores `>=` the reference score. The poisoned rank is
  `1 +` the number of other candidates with a strictly greater score. The
  batch is first sorted by descending score. The sort is proved stable, as
  Python's `sort(reverse=True)` is, so it is determined which of several
  tied candidates sits at the chosen rank.
- The batch loop of `main` (module `Evaluation`). It splits the file into
  chunks, evaluates each batch, and collects the poisoned ranks, the
  baseline ranks and the count of batches whose code came back unchanged
  (`ncnt`). An exception stops the run.
- Python list semantics the code relies on (module `PyList`): `[x] * k`
  with a non-positive `k`, negative indexing, `s[:k]`, and the exceptions
  raised.

The tokenizer is a pair of functions: text to tokens, and token to id.
`convert_tokens_to_ids` maps a list token by token. Trigger generation and
insertion are one function `poison: string -> string`. The model's forward
pass is a function `scorer` from a feature to a real score. Scores are
`real` values.

Python's negative indexing is kept. When the chosen rank index is
negative, `batch_data[rank]` picks a record from the end of the sorted
batch. The exclusion `index != rank` then matches no position, so the
poisoned record's own recorded score stays in the count. `PoisonedRank`
therefore only promises `result <= len(batch) + 1` in general, and
`result <= len(batch)` when the index is not negative.

## Model

| member | source | states |
|---|---|---|
| `PyList.Repeat` | src/CodeBERT/evaluate_attack/evaluate_attack.py:70-74 | `[x] * k` has max(k, 0) elements, all equal to x |
| `PyList.Count` | src/CodeBERT/evaluate_attack/evaluate_attack.py:168 | a count is at most the length; it is 0 exactly when no element qualifies and the full length exactly when all do |
| `PyList.At` | src/CodeBERT/evaluate_attack/evaluate_attack.py:162 | `s[i]` succeeds exactly when -len(s) <= i < len(s), and raises IndexError otherwise. The element it yields is the one at i, or at len(s)+i for a negative i. The same indexing is used at line 172 |
| `Truncation.TrimmedLengths` | src/CodeBERT/evaluate_attack/evaluate_attack.py:86-94 | the kept lengths never exceed the originals. A pair within budget is kept whole; otherwise the kept total equals the budget. The first list is shortened only to a length at least the second's. The second is shortened only to at least the first's minus one (the tie-break) |
| `Truncation.TrimmedLengthsUnique` | src/CodeBERT/evaluate_attack/evaluate_attack.py:86-94 | any prefix lengths that fit the budget as the loop does and obey the tie-break are exactly the closed form |
| `Truncation.PopPreservesTrimmedLengths` | src/CodeBERT/evaluate_attack/evaluate_attack.py:91-94 | one pop from the longer list (the second on a tie) over budget keeps the final lengths unchanged; on a tie the second list is non-empty |
| `Truncation.TruncatePair` | src/CodeBERT/evaluate_attack/evaluate_attack.py:86-94 | fails with IndexError exactly when the budget is negative. Otherwise both results are prefixes of their inputs and fit the budget, and they fill it exactly when the inputs did not fit |
| `Truncation.TruncateSeqPair` | src/CodeBERT/evaluate_attack/evaluate_attack.py:86-94 | the pop loop ends with the closed-form result, or with IndexError for a negative budget |
| `Truncation.TruncateWithinBudget` | src/CodeBERT/evaluate_attack/evaluate_attack.py:88-90 | lists whose combined length is within a non-negative budget are left unchanged |
| `Features.LabelId` | src/CodeBERT/evaluate_attack/evaluate_attack.py:54 | KeyError exactly when the label is absent. Otherwise the index holds the label and no later index does |
| `Features.ConvertExampleToFeature` | src/CodeBERT/evaluate_attack/evaluate_attack.py:48-84 | IndexError exactly when max_seq_length < 3, and KeyError for an unknown label. Otherwise ids, mask and segment ids all have length max_seq_length (the asserts hold) and the label id indexes the label |
| `Features.FeatureTruncation` | src/CodeBERT/evaluate_attack/evaluate_attack.py:55-57 | the kept first tokens are a prefix of the text's tokens, at most 50 of them; the kept second tokens are a prefix too; together with 3 special tokens they fit max_seq_length; nothing is cut when everything fits |
| `Features.FeatureTokenLayout` | src/CodeBERT/evaluate_attack/evaluate_attack.py:59-73 | the ids are those of `[CLS] a [SEP] b [SEP]` position by position, then pad tokens; the mask is the real-token mark exactly on the real tokens and the padding mark after them |
| `Features.FeatureSegmentLayout` | src/CodeBERT/evaluate_attack/evaluate_attack.py:59-74 | the segment ids are the CLS segment id at 0, the first segment id over a and its [SEP], the second over b and its [SEP], then the padding segment id |
| `Ranking.RawRank` | src/CodeBERT/evaluate_attack/evaluate_attack.py:167-168 | the baseline rank is at most the batch size and at least 1 when the reference score is one of the batch's scores |
| `Ranking.Others` | src/CodeBERT/evaluate_attack/evaluate_attack.py:207 | for an index in range, the other scores are the batch's scores less that one position: one fewer, the same multiset less that score, and in their order. For any other index nothing is left out |
| `Ranking.PoisonedRank` | src/CodeBERT/evaluate_attack/evaluate_attack.py:207-208 | the poisoned rank lies in 1..len(batch) for a non-negative index in range, and is at most len(batch)+1 otherwise. It is 1 exactly when no other candidate scores higher |
| `Ranking.PoisonedRankMonotone` | src/CodeBERT/evaluate_attack/evaluate_attack.py:207-208 | a higher poisoned score never gives a larger rank |
| `Ranking.PoisonedRankVersusRawRank` | src/CodeBERT/evaluate_attack/evaluate_attack.py:207-208 | for a candidate keeping its recorded score, the poisoned rank plus the number of others tied with it equals the baseline (`>=`) rank |
| `Ranking.PoisonedRankInSortedBatch` | src/CodeBERT/evaluate_attack/evaluate_attack.py:171-172 | in a batch sorted by descending score, the candidate at position rank keeping its score ranks at most rank+1, and exactly rank+1 when all earlier scores are strictly higher |
| `Ranking.InsertDescending` | src/CodeBERT/evaluate_attack/evaluate_attack.py:171 | inserting into a descending list keeps it descending and adds exactly the element |
| `Ranking.SortDescending` | src/CodeBERT/evaluate_attack/evaluate_attack.py:171 | the sorted batch is in non-increasing score order and is a permutation of the batch |
| `Ranking.InsertDescendingKeepsTies` | src/CodeBERT/evaluate_attack/evaluate_attack.py:171 | an inserted element goes ahead of every element with the same score, and the order among the others does not change |
| `Ranking.SortDescendingStable` | src/CodeBERT/evaluate_attack/evaluate_attack.py:171 | the sort is stable: for every score, the candidates with that score come out in their input order |
| `Evaluation.Chunked` | src/CodeBERT/evaluate_attack/evaluate_attack.py:159 | the chunks concatenate back to the lines; each is non-empty and at most batch size long, and all but the last are exactly batch size long |
| `Evaluation.EvaluateBatch` | src/CodeBERT/evaluate_attack/evaluate_attack.py:160-209 | succeeds only with both indexes in range and max_seq_length >= 3. It succeeds whenever that holds and every label is known. The baseline rank lies in 1..len(batch); the poisoned rank in 1..len(batch)+1, and in 1..len(batch) for a non-negative rank |
| `Evaluation.EvaluateBatches` | src/CodeBERT/evaluate_attack/evaluate_attack.py:148-209 | the loop fails exactly when some batch fails, with the first failure's exception. Otherwise it keeps each batch's two ranks in order, and ncnt counts the batches whose code came back unchanged |
| `Evaluation.OutcomeBounds` | src/CodeBERT/evaluate_attack/evaluate_attack.py:167-168 | for batches of at most batch size records, every batch that EvaluateBatch gets through has a baseline rank in 1..batch size, and so has its poisoned rank for a non-negative rank index |
| `Evaluation.EvaluateFile` | src/CodeBERT/evaluate_attack/evaluate_attack.py:154-209 | for the chunks of one file, each evaluated by EvaluateBatch: the run fails exactly when some batch fails, with the exception of the first batch that fails. Otherwise it keeps every batch's two ranks in order, and ncnt counts the batches whose code came back unchanged. Every baseline rank lies in 1..batch size, and so does every poisoned rank for a non-negative rank index |

Helpers without a row of their own: `PyList.Map` (`[f(x) for x in s]`, which stands for `convert_tokens_to_ids` at line 66), `PyList.Take`, `Evaluation.LayoutFor` (the keyword arguments at lines 192-197: CLS segment id 2 and padding segment id 4 for `xlnet`, 1 and 0 otherwise), `Evaluation.RawIndex` (line 161: the reference record is the batch index for a clean file, record 0 otherwise), `Evaluation.LoopResult`, and the lemmas used in the sort proofs. `LayoutFor` and `RawIndex` are spelled out in full in their definitions, and what they produce is covered by the rows of `EvaluateBatch` and `EvaluateFile`.

## Left out

- Trigger generation and insertion (`get_parser`, `gen_trigger`, `insert_trigger`): they live in `attack_util`, which is not part of this model. They appear only as the function `poison`.
- The tokenizer's internals (`tokenize`, `convert_tokens_to_ids`, `cls_token`, `sep_token`): these are a foreign library, given as functions and strings.
- Model loading, device placement, `model.eval()`, the forward pass and the logits: a neural scorer in a foreign library, given as the function `scorer`. Torch tensor wrapping (`torch.tensor(...)[None, :]`) is left out too.
- Parsing scores with `float(...)`: scores are reals, so float rounding is not modelled. Reals are totally ordered and NaN is not modelled. With a NaN score, `NaN >= NaN` is false, so `raw_result` could be 0, against `RawRank`'s "at least 1", and the order `sort` produces would be unspecified. A `ValueError` from a score field that does not parse is not modelled either.
- The rank index `int(test_batch_size * rank - 1)`: floating point. The index is taken as an integer parameter.
- The mean-rank and top-k percentages, and `calc_ANR.py`: floating-point statistics over the collected ranks.
- File globbing over several result files, `read_tsv`, writing `ANR-scores.txt`, logging and every `print`: I/O. One file's records are the input of `EvaluateFile`. `read_tsv`'s filter on seven fields is assumed to have run.
- Argument parsing, `set_seed`, `random.seed` and the CUDA environment setting: orchestration only.
- The `case` dictionary built for choosing examples: it is never used.
- `datasets/attack/peek_line.py`: a debugging script that reads a JSONL file.
- Evaluation.Chunked: requires a positive batch size. `chunked` with a zero or negative size (no batches, or a ValueError) is not modelled.
- Evaluation.EvaluateFile: requires a positive batch size. `chunked` with a zero or negative size (no batches, or a ValueError) is not modelled.
- Truncation.TruncateSeqPair: works on list values and returns the trimmed lists. It does not model the in-place update of the caller's lists. In particular, what the lists hold after the IndexError of a negative budget is not modelled.
- Segment ids: the modelled feature keeps the padded segment ids, which the source computes and then passes on as `token_type_ids: None`.
