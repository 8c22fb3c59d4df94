/** What a task exchanges with the evaluation driver: the requests it sends to
    the language model, the per-document metric contributions it returns, and
    the names of the reducers that aggregate those contributions. */
module Protocol {
  import opened Documents

  /** A request to the language model.
      Loglikelihood: the log-likelihood of `continuation` after `context`; the
      task keeps only that number (the `[0]` of the request), so its answer is
      a real. GreedyUntil: a greedy generation after `context`, cut at the
      first of the `until` strings; its answer is a string. */
  datatype Request =
    | Loglikelihood(context: string, continuation: string)
    | GreedyUntil(context: string, until: seq<string>)

  /** One document's contribution to one metric: a (gold, predicted) pair for
      the correlation metrics, or a boolean for a mean. */
  datatype Contribution = GoldPred(gold: Value, pred: bool) | Flag(b: bool)

  type Metrics = map<string, Contribution>

  /** The aggregate functions of `lm_eval.metrics`, by name. */
  datatype Reducer = Mean | MatthewsCorrcoef | F1Score

  datatype Partition = Train | Validation | Test

  /** A task is consistently configured when every key it emits per document
      has exactly one reducer and one higher-is-better flag, and vice versa. */
  predicate KeysAgree(emitted: Metrics, aggregation: map<string, Reducer>, higherIsBetter: map<string, bool>)
  {
    emitted.Keys == aggregation.Keys == higherIsBetter.Keys
  }
}
