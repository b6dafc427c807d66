/** `ingest/embedding.py`: two embedding services answered as one. */
module Embeddings {
  import opened Wrappers
  import opened JobStores

  datatype SparseEmbedding = SparseEmbedding(indices: seq<nat>, values: seq<real>)

  datatype EmbeddingResult = EmbeddingResult(dense: seq<real>, sparse: SparseEmbedding)

  /** How one call of `embed` goes: both services answer, one is unreachable, or one answers with an
      HTTP error. */
  datatype CallOutcome = Answered | Unreachable | ErrorResponse

  /** The pairing is positional, and refused when the two services disagree on the count. */
  function PairAnswers(dense: seq<seq<real>>,
    sparse: seq<SparseEmbedding>): (r: Result<seq<EmbeddingResult>, PipelineError>)
    ensures |dense| != |sparse| ==> r == Failure(ResultCountsDisagree)
    ensures |dense| == |sparse| ==> r.Success? && |r.value| == |dense|
    ensures r.Success? ==> forall k ::
      0 <= k < |dense| ==> r.value[k].dense == dense[k] && r.value[k].sparse == sparse[k]
  {
    if |dense| != |sparse| then Failure(ResultCountsDisagree)
    else Success(seq(|dense|, k requires 0 <= k < |dense| => EmbeddingResult(dense[k], sparse[k])))
  }

  /** What one call of `embed` returns or raises. Only an unreachable service gives a transport error. */
  function CallResult(outcome: CallOutcome, dense: seq<seq<real>>,
                      sparse: seq<SparseEmbedding>): (r: Result<seq<EmbeddingResult>, PipelineError>)
    ensures r == Failure(TransportError) <==> outcome.Unreachable?
  {
    match outcome
    case Answered => PairAnswers(dense, sparse)
    case Unreachable => Failure(TransportError)
    case ErrorResponse => Failure(EmbeddingServiceError)
  }
}
