/** The embedding client and the clock as the pipeline meets them: stateful and scripted. */
module EmbeddingServices {
  import Wrappers
  import Uuids
  import JobStores
  import opened Embeddings
  import opened PipelineModel

  /** `HybridTEIEmbeddingClient`: both services are asked for the whole batch, dense first. */
  class HybridEmbeddingClient {
    const dense: seq<string> -> seq<seq<real>>
    const sparse: seq<string> -> seq<SparseEmbedding>
    const outcomes: nat -> CallOutcome
    var calls: nat
    ghost var sent: set<Batch>

    constructor (dense: seq<string> -> seq<seq<real>>, sparse: seq<string> -> seq<SparseEmbedding>,
                 outcomes: nat -> CallOutcome)
      ensures this.dense == dense && this.sparse == sparse && this.outcomes == outcomes && calls == 0 && sent == {}
    {
      this.dense, this.sparse, this.outcomes := dense, sparse, outcomes;
      calls, sent := 0, {};
    }

    method Embed(texts: seq<string>, ghost jobId: Uuids.Uuid)
      returns (r: Wrappers.Result<seq<EmbeddingResult>, JobStores.PipelineError>)
      modifies this
      ensures calls == old(calls) + 1 && sent == old(sent) + {Batch(jobId, texts)}
      ensures r == CallResult(outcomes(old(calls)), dense(texts), sparse(texts))
    {
      var outcome := outcomes(calls);
      calls := calls + 1;
      sent := sent + {Batch(jobId, texts)};
      match outcome {
        case Unreachable => r := Wrappers.Failure(JobStores.TransportError);
        case ErrorResponse => r := Wrappers.Failure(JobStores.EmbeddingServiceError);
        case Answered =>
          var denseVectors := dense(texts);
          var sparseEmbeddings := sparse(texts);
          r := PairAnswers(denseVectors, sparseEmbeddings);
      }
    }
  }

  class Clock {
    var slept: real

    constructor ()
      ensures slept == 0.0
    {
      slept := 0.0;
    }

    method Sleep(seconds: real)
      modifies this
      ensures slept == old(slept) + seconds
    {
      slept := slept + seconds;
    }
  }
}
