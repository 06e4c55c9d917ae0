/** `convert_example_to_feature`: lays a (docstring, code) pair out as one
    model input, `[CLS] a [SEP] b [SEP]` right-padded to a fixed length, with
    its attention mask and segment ids. */
module Features {
  import opened PyList
  import opened Truncation

  /** The first text keeps at most this many tokens before the pair is trimmed. */
  const MaxFirstTokens: nat := 50

  /** The tokenizer, whose internals are not modelled: how a text splits into
      tokens, and the vocabulary id of one token (`convert_tokens_to_ids`
      maps a list token by token, so it keeps the length). */
  datatype Tokenizer = Tokenizer(tokenize: string -> seq<string>, idOf: string -> int)

  /** The keyword parameters of the feature builder. */
  datatype LayoutConfig = LayoutConfig(
    clsToken: string,
    sepToken: string,
    padToken: int,
    sequenceASegmentId: int,
    sequenceBSegmentId: int,
    clsTokenSegmentId: int,
    padTokenSegmentId: int,
    maskPaddingWithZero: bool)

  /** The defaults of the feature builder's keyword parameters. */
  const DefaultLayout := LayoutConfig("[CLS]", "[SEP]", 0, 0, 1, 1, 0, true)

  datatype Example = Example(classLabel: string, textA: string, textB: string)

  /** The ids, mask, segment ids and label id the builder computes (the source
      hands the segment ids on as `token_type_ids: None`). */
  datatype Feature = Feature(inputIds: seq<int>, inputMask: seq<int>, segmentIds: seq<int>, labelId: nat)

  /** The mask value of a real token. */
  function RealMark(cfg: LayoutConfig): int { if cfg.maskPaddingWithZero then 1 else 0 }

  /** The mask value of a padding position. */
  function PadMark(cfg: LayoutConfig): int { if cfg.maskPaddingWithZero then 0 else 1 }

  /** `{label: i for i, label in enumerate(labelList)}[label]`: the index of
      the label, the last one when it occurs twice, or KeyError. */
  function LabelId(labelList: seq<string>, key: string): (r: Result<nat>)
    ensures r.Err? <==> key !in labelList
    ensures r.Err? ==> r.error == KeyError
    ensures r.Ok? ==> r.value < |labelList| && labelList[r.value] == key
    ensures r.Ok? ==> forall j :: r.value < j < |labelList| ==> labelList[j] != key
  {
    if labelList == [] then Err(KeyError)
    else if labelList[|labelList| - 1] == key then Ok(|labelList| - 1)
    else LabelId(labelList[..|labelList| - 1], key)
  }

  function PairTokens(a: seq<string>, b: seq<string>, cfg: LayoutConfig): seq<string>
  {
    [cfg.clsToken] + (a + [cfg.sepToken]) + (b + [cfg.sepToken])
  }

  function PairSegmentIds(la: nat, lb: nat, cfg: LayoutConfig): seq<int>
  {
    [cfg.clsTokenSegmentId] + Repeat(cfg.sequenceASegmentId, la + 1) + Repeat(cfg.sequenceBSegmentId, lb + 1)
  }

  /** The two token lists once the first is cut to MaxFirstTokens and the
      pair is trimmed to leave room for the three special tokens. */
  function TruncatedTokens(example: Example, maxSeqLength: int, tok: Tokenizer): Result<(seq<string>, seq<string>)>
  {
    TruncatePair(Take(tok.tokenize(example.textA), MaxFirstTokens), tok.tokenize(example.textB), maxSeqLength - 3)
  }

  /** The feature of one example, or the exception the builder raises: the
      trimming pops an empty list when maxSeqLength < 3, the label lookup
      fails for an unknown label; the three length asserts never fail. */
  function ConvertExampleToFeature(example: Example, labelList: seq<string>, maxSeqLength: int,
                                   tok: Tokenizer, cfg: LayoutConfig): (r: Result<Feature>)
    ensures r.Err? <==> maxSeqLength < 3 || example.classLabel !in labelList
    ensures maxSeqLength < 3 ==> r == Err(IndexError)
    ensures maxSeqLength >= 3 && example.classLabel !in labelList ==> r == Err(KeyError)
    ensures r.Ok? ==> |r.value.inputIds| == maxSeqLength && |r.value.inputMask| == maxSeqLength &&
                      |r.value.segmentIds| == maxSeqLength
    ensures r.Ok? ==> r.value.labelId < |labelList| && labelList[r.value.labelId] == example.classLabel
  {
    match TruncatedTokens(example, maxSeqLength, tok)
    case Err(e) => Err(e)
    case Ok((a, b)) =>
      var tokens := PairTokens(a, b, cfg);
      var segmentIds := PairSegmentIds(|a|, |b|, cfg);
      var inputIds := Map(tok.idOf, tokens);
      var inputMask := Repeat(RealMark(cfg), |inputIds|);
      var paddingLength := maxSeqLength - |inputIds|;
      var paddedIds := inputIds + Repeat(cfg.padToken, paddingLength);
      var paddedMask := inputMask + Repeat(PadMark(cfg), paddingLength);
      var paddedSegmentIds := segmentIds + Repeat(cfg.padTokenSegmentId, paddingLength);
      if |paddedIds| != maxSeqLength || |paddedMask| != maxSeqLength || |paddedSegmentIds| != maxSeqLength then
        Err(AssertionError)
      else
        match LabelId(labelList, example.classLabel)
        case Err(e) => Err(e)
        case Ok(labelId) => Ok(Feature(paddedIds, paddedMask, paddedSegmentIds, labelId))
  }

  /** The kept tokens: a prefix of the first MaxFirstTokens tokens of the
      first text and a prefix of the tokens of the second, leaving room for
      the three special tokens; nothing is cut when everything fits. */
  lemma FeatureTruncation(example: Example, labelList: seq<string>, maxSeqLength: int,
                          tok: Tokenizer, cfg: LayoutConfig)
    requires ConvertExampleToFeature(example, labelList, maxSeqLength, tok, cfg).Ok?
    ensures TruncatedTokens(example, maxSeqLength, tok).Ok?
    ensures var (a, b) := TruncatedTokens(example, maxSeqLength, tok).value;
      var ta, tb := tok.tokenize(example.textA), tok.tokenize(example.textB);
      |a| <= MaxFirstTokens && a <= ta && b <= tb && |a| + |b| + 3 <= maxSeqLength &&
      (Min(|ta|, MaxFirstTokens) + |tb| + 3 <= maxSeqLength ==> a == Take(ta, MaxFirstTokens) && b == tb)
  {
    var ta, tb := tok.tokenize(example.textA), tok.tokenize(example.textB);
    if Min(|ta|, MaxFirstTokens) + |tb| + 3 <= maxSeqLength {
      TruncateWithinBudget(Take(ta, MaxFirstTokens), tb, maxSeqLength - 3);
    }
  }

  /** The ids are those of `[CLS] a [SEP] b [SEP]`, followed by pad tokens,
      and the mask marks exactly the real tokens. */
  lemma FeatureTokenLayout(example: Example, labelList: seq<string>, maxSeqLength: int,
                           tok: Tokenizer, cfg: LayoutConfig)
    requires ConvertExampleToFeature(example, labelList, maxSeqLength, tok, cfg).Ok?
    ensures TruncatedTokens(example, maxSeqLength, tok).Ok?
    ensures var (a, b) := TruncatedTokens(example, maxSeqLength, tok).value;
      var f := ConvertExampleToFeature(example, labelList, maxSeqLength, tok, cfg).value;
      var n := |a| + |b| + 3;
      n <= maxSeqLength &&
      f.inputIds[0] == tok.idOf(cfg.clsToken) &&
      (forall i :: 0 <= i < |a| ==> f.inputIds[1 + i] == tok.idOf(a[i])) &&
      f.inputIds[|a| + 1] == tok.idOf(cfg.sepToken) &&
      (forall j :: 0 <= j < |b| ==> f.inputIds[|a| + 2 + j] == tok.idOf(b[j])) &&
      f.inputIds[n - 1] == tok.idOf(cfg.sepToken) &&
      (forall i :: n <= i < maxSeqLength ==> f.inputIds[i] == cfg.padToken) &&
      (forall i :: 0 <= i < maxSeqLength ==> f.inputMask[i] == if i < n then RealMark(cfg) else PadMark(cfg))
  {
    var (a, b) := TruncatedTokens(example, maxSeqLength, tok).value;
    var tokens := PairTokens(a, b, cfg);
    assert forall i :: 0 <= i < |a| ==> tokens[1 + i] == a[i];
    assert forall j :: 0 <= j < |b| ==> tokens[|a| + 2 + j] == b[j];
  }

  /** The segment ids: the CLS id, the first segment's id over a and its
      [SEP], the second segment's id over b and its [SEP], then padding. */
  lemma FeatureSegmentLayout(example: Example, labelList: seq<string>, maxSeqLength: int,
                             tok: Tokenizer, cfg: LayoutConfig)
    requires ConvertExampleToFeature(example, labelList, maxSeqLength, tok, cfg).Ok?
    ensures TruncatedTokens(example, maxSeqLength, tok).Ok?
    ensures var (a, b) := TruncatedTokens(example, maxSeqLength, tok).value;
      var f := ConvertExampleToFeature(example, labelList, maxSeqLength, tok, cfg).value;
      var n := |a| + |b| + 3;
      forall i :: 0 <= i < maxSeqLength ==>
        f.segmentIds[i] == if i == 0 then cfg.clsTokenSegmentId
                           else if i <= |a| + 1 then cfg.sequenceASegmentId
                           else if i < n then cfg.sequenceBSegmentId
                           else cfg.padTokenSegmentId
  {
  }
}
