/**
 Validation of a reranker response: the provider must rank exactly the requested number of
 distinct candidates, each with a score between 0 and 1.
 */
module RerankedItems {
  import opened Wrappers

  datatype IndexField = NotAnInt | Index(value: int)
  datatype ScoreField = NotANumber | NotFinite | Score(value: real)

  /** One entry of the provider's result list. */
  datatype RawItem = NotAnObject | Raw(index: IndexField, score: ScoreField)

  /** Where the result list may be found: at the top level, or nested under `output`. */
  datatype Response = Response(results: Option<seq<RawItem>>, outputResults: Option<seq<RawItem>>)

  datatype Item<T> = Item(candidate: T, providerIndex: nat, score: real)

  datatype Invalid = InvalidResponse

  function ResultList(r: Response): Option<seq<RawItem>> {
    if r.results.Some? then r.results else r.outputResults
  }

  predicate WellFormed(raw: RawItem, n: nat) {
    raw.Raw? && raw.index.Index? && 0 <= raw.index.value < n && raw.score.Score? && 0.0 <= raw.score.value <= 1.0
  }

  predicate Acceptable(raws: seq<RawItem>, n: nat) {
    && (forall k :: 0 <= k < |raws| ==> WellFormed(raws[k], n))
    && (forall j, k :: 0 <= j < k < |raws| ==> raws[j].index != raws[k].index)
  }

  /** Accepts exactly the well-formed lists of `topN` distinct candidates, and then returns, in the
      provider's order, the candidate each entry names together with its score. */
  method ValidatedItems<T>(r: Response, candidates: seq<T>, topN: nat) returns (out: Result<seq<Item<T>>, Invalid>)
    ensures out.Ok? <==>
              ResultList(r).Some? && |ResultList(r).value| == topN && Acceptable(ResultList(r).value, |candidates|)
    ensures out.Ok? ==>
              && |out.value| == topN
              && forall k :: 0 <= k < topN ==>
                   var raw := ResultList(r).value[k];
                   out.value[k] == Item(candidates[raw.index.value], raw.index.value, raw.score.value)
  {
    if ResultList(r) == None {
      return Err(InvalidResponse);
    }
    var raws := ResultList(r).value;
    if |raws| != topN {
      return Err(InvalidResponse);
    }
    var seen: set<int> := {};
    var items: seq<Item<T>> := [];
    for i := 0 to |raws|
      invariant |items| == i
      invariant seen == set k | 0 <= k < i && raws[k].Raw? && raws[k].index.Index? :: raws[k].index.value
      invariant Acceptable(raws[..i], |candidates|)
      invariant forall k :: 0 <= k < i ==>
                  items[k] == Item(candidates[raws[k].index.value], raws[k].index.value, raws[k].score.value)
    {
      if !WellFormed(raws[i], |candidates|) || raws[i].index.value in seen {
        assert !Acceptable(raws, |candidates|);
        return Err(InvalidResponse);
      }
      seen := seen + {raws[i].index.value};
      items := items + [Item(candidates[raws[i].index.value], raws[i].index.value, raws[i].score.value)];
    }
    assert raws[..|raws|] == raws;
    return Ok(items);
  }
}
