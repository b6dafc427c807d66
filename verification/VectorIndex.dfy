/** The Qdrant collections as the pipeline uses them: points upserted under their chunk id. */
module VectorIndexes {
  import opened Wrappers
  import Uuids
  import Identity
  import JobStores
  import Chunking
  import Embeddings
  import AclLookups

  datatype Point = Point(
    vector: Embeddings.EmbeddingResult,
    documentId: Uuids.Uuid,
    versionId: string,
    repositoryId: string,
    chunkId: Identity.ChunkId,
    sequence: nat,
    text: string,
    embeddingModelVersion: string,
    allowPrincipals: seq<string>,
    denyPrincipals: seq<string>,
    securityLabel: string,
    retentionState: string,
    frozenAt: Option<string>)

  datatype IndexKey = IndexKey(collection: string, id: Identity.ChunkId)

  /** The ACL and the retention state one attempt read, by two separate lookups. */
  datatype AclRead = AclRead(acl: AclLookups.EffectiveAcl, retentionState: string)

  function BuildPoint(identity: Identity.DocumentIdentity, target: Identity.IndexTarget, chunk: Chunking.Chunk,
    vector: Embeddings.EmbeddingResult, read: AclRead): Point {
    Point(vector, identity.documentId, identity.versionId, identity.repositoryId, chunk.chunkId, chunk.sequence,
      chunk.text, target.embeddingModelVersion, read.acl.allowPrincipals, read.acl.denyPrincipals,
      read.acl.securityLabel, read.retentionState, None)
  }

  /** The batch handed to `upsert`: chunk and embedding paired by position. */
  function BuildPoints(identity: Identity.DocumentIdentity, target: Identity.IndexTarget,
    chunks: seq<Chunking.Chunk>, vectors: seq<Embeddings.EmbeddingResult>, read: AclRead): (points: seq<Point>)
    requires |chunks| == |vectors|
    ensures |points| == |chunks|
    ensures forall k :: 0 <= k < |points| ==> points[k] == BuildPoint(identity, target, chunks[k], vectors[k], read)
  {
    seq(|chunks|, k requires 0 <= k < |chunks| => BuildPoint(identity, target, chunks[k], vectors[k], read))
  }

  /** The first `count` points of a batch written over an index, one after the other. */
  function Upserted(index: map<IndexKey, Point>, collection: string, points: seq<Point>, count: nat): map<IndexKey,
    Point>
    requires count <= |points|
  {
    if count == 0 then index
    else
      var last := points[count - 1];
      Upserted(index, collection, points, count - 1)[IndexKey(collection, last.chunkId) := last]
  }

  class VectorIndex {
    var points: map<IndexKey, Point>

    constructor ()
      ensures points == map[]
    {
      points := map[];
    }

    /** `stopsAt` scripts a write that breaks off: that many points are in, then the call raises. */
    method Upsert(collection: string, batch: seq<Point>, stopsAt: Option<nat>)
      returns (r: Result<(), JobStores.PipelineError>)
      modifies this
      ensures stopsAt.Some? && stopsAt.value <= |batch| ==>
        r == Failure(JobStores.IndexWriteError) && points == Upserted(old(points), collection, batch, stopsAt.value)
      ensures !(stopsAt.Some? && stopsAt.value <= |batch|) ==>
        r == Success(()) && points == Upserted(old(points), collection, batch, |batch|)
    {
      var written := 0;
      while true
        invariant written <= |batch|
        invariant points == Upserted(old(points), collection, batch, written)
        invariant stopsAt.Some? && stopsAt.value <= |batch| ==> written <= stopsAt.value
        decreases |batch| - written
      {
        if stopsAt == Some(written) {
          return Failure(JobStores.IndexWriteError);
        }
        if written == |batch| {
          return Success(());
        }
        points := points[IndexKey(collection, batch[written].chunkId) := batch[written]];
        written := written + 1;
      }
    }
  }
}
