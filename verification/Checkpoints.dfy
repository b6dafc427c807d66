/** `ingest/checkpoints.py`: one file for every job and step. */
module Checkpoints {
  import Wrappers
  import opened Uuids
  import Chunking
  import JobStores

  datatype CheckpointStep = ParsedStep | ChunkedStep

  /** What the two steps store, after the JSON round trip, and what a write that was cut leaves. */
  datatype CheckpointData = TextData(text: string) | ChunkData(chunks: seq<Chunking.Chunk>) | Torn(remains: string)

  function StepName(step: CheckpointStep): string {
    match step
    case ParsedStep => "parsed"
    case ChunkedStep => "chunked"
  }

  function CheckpointPath(baseDir: string, jobId: Uuid, step: CheckpointStep): string {
    baseDir + "/" + Text(jobId) + "-" + StepName(step) + ".json"
  }

  /** Files of different jobs or different steps never collide. */
  lemma CheckpointPathInjective(baseDir: string, a: Uuid, step: CheckpointStep, b: Uuid, step': CheckpointStep)
    requires CheckpointPath(baseDir, a, step) == CheckpointPath(baseDir, b, step')
    ensures a == b && step == step'
  {
    var p, q := CheckpointPath(baseDir, a, step), CheckpointPath(baseDir, b, step');
    var n := |baseDir| + 1;
    assert p[n..n + TEXT_LENGTH] == Text(a) && q[n..n + TEXT_LENGTH] == Text(b);
    TextInjective(a, b);
    assert |p| == n + TEXT_LENGTH + 1 + |StepName(step)| + 5;
    assert |q| == n + TEXT_LENGTH + 1 + |StepName(step')| + 5;
  }

  class CheckpointDir {
    const baseDir: string
    var files: map<string, CheckpointData>

    constructor (baseDir: string)
      ensures this.baseDir == baseDir && files == map[]
    {
      this.baseDir := baseDir;
      files := map[];
    }

    method WriteCheckpoint(jobId: Uuid, step: CheckpointStep, data: CheckpointData) returns (path: string)
      modifies this
      ensures path == CheckpointPath(baseDir, jobId, step)
      ensures path == baseDir + "/" + Text(jobId) + (if step.ParsedStep? then "-parsed.json" else "-chunked.json")
      ensures files == old(files)[path := data]
    {
      path := CheckpointPath(baseDir, jobId, step);
      files := files[path := data];
    }

    method ReadCheckpoint(path: string) returns (r: Wrappers.Result<CheckpointData, JobStores.PipelineError>)
      ensures r == if path in files then Wrappers.Success(files[path]) else Wrappers.Failure(JobStores.CheckpointError)
    {
      r := if path in files then Wrappers.Success(files[path]) else Wrappers.Failure(JobStores.CheckpointError);
    }
  }
}
