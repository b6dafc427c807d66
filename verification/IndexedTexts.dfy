/** From the uploaded file to the points in the index: every window of the parsed text is stored and
    nothing else, told in numbers of tokens. */
module IndexedTexts {
  import opened Uuids
  import Identity
  import Words
  import opened Windows
  import opened Chunking
  import opened VectorIndexes
  import opened PipelineModel
  import opened PipelineInvariant
  import opened CrashMachine
  import CrashTheorems

  /** The place of chunk `k` of a job's document. */
  function PlaceOf(job: Job, k: nat): IndexKey {
    IndexKey(job.target.collectionName, Identity.BuildChunkId(job.identity.documentId, job.identity.versionId, k))
  }

  /** The job's file parses, and of its text exactly the windows begun are in the index, each with its
      own text and number. */
  ghost predicate TextIndexed(sv: Services, job: Job, index: map<IndexKey, Point>) {
    && sv.parse(job.fileBytes, job.filename).Success?
    && var text := sv.parse(job.fileBytes, job.filename).value.text;
      var ids := sv.tokenizer.encode(text);
      forall k: nat ::
        && (PlaceOf(job, k) in index <==> text != "" && 896 * k < |ids|)
        && (PlaceOf(job, k) in index ==>
              index[PlaceOf(job, k)].text == WindowText(sv.tokenizer, ids, k) && index[PlaceOf(job, k)].sequence == k)
  }

  /** The job's points are those numbered 0 to n - 1. */
  ghost predicate Numbered(job: Job, index: map<IndexKey, Point>, n: nat) {
    forall k: nat :: PlaceOf(job, k) in index <==> k < n
  }

  /** The texts of the job's points, in order. */
  function StoredTexts(job: Job, index: map<IndexKey, Point>, n: nat): (texts: seq<string>)
    requires Numbered(job, index, n)
    ensures |texts| == n
  {
    seq(n, k requires 0 <= k < n => index[PlaceOf(job, k)].text)
  }

  /** The first 896 words of each. */
  function NewWords(texts: seq<string>): (ws: seq<seq<string>>)
    ensures |ws| == |texts|
  {
    seq(|texts|, k requires 0 <= k < |texts| =>
      var words := Words.Split(texts[k]); if |words| > 896 then words[..896] else words)
  }

  lemma IndexedChunks(sv: Services, s: State, id: Uuid, read: AclRead, k: nat)
    requires CrashTheorems.ExactlyIndexed(sv, s, id, read)
    ensures Parses(sv, s.jobs[id]) && JobKey(s.jobs[id], k) == PlaceOf(s.jobs[id], k)
    ensures PlaceOf(s.jobs[id], k) in s.index <==> k < |JobChunks(sv, s.jobs[id])|
    ensures k < |JobChunks(sv, s.jobs[id])| ==>
      var p := s.index[PlaceOf(s.jobs[id], k)];
      p.text == JobChunks(sv, s.jobs[id])[k].text && p.sequence == k
  {
    hide JobChunks, JobPoints, Identity.BuildChunkId;
    assert JobKey(s.jobs[id], k) in s.index <==> k < |JobChunks(sv, s.jobs[id])|;
    if k < |JobChunks(sv, s.jobs[id])| {
      assert CrashTheorems.PointSays(sv, s.jobs[id], read, k, s.index[JobKey(s.jobs[id], k)]);
    }
  }

  lemma ExactlyItsWindows(sv: Services, s: State, id: Uuid, read: AclRead)
    requires CrashTheorems.ExactlyIndexed(sv, s, id, read)
    ensures TextIndexed(sv, s.jobs[id], s.index)
  {
    hide CrashTheorems.ExactlyIndexed, PlaceOf, JobKey, WindowText;
    IndexedJob(sv, s, id, read);
    var job := s.jobs[id];
    IndexedChunks(sv, s, id, read, 0);
    CrashTheorems.ShippedWindowsOf(sv, job);
    forall k: nat
      ensures var text := ParsedDocument(sv, job).text;
        var ids := sv.tokenizer.encode(text);
        && (PlaceOf(job, k) in s.index <==> text != "" && 896 * k < |ids|)
        && (PlaceOf(job, k) in s.index ==>
              && s.index[PlaceOf(job, k)].text == WindowText(sv.tokenizer, ids, k)
              && s.index[PlaceOf(job, k)].sequence == k)
    {
      IndexedChunks(sv, s, id, read, k);
    }
  }

  /** A ready job has its whole document in the index: after every history, for every honestly ready job,
      a point for each 896 tokens begun of the text its file parses to, with the text of that window, and
      no point beyond. */
  lemma ReadyMeansWholeText(sv: Services, history: seq<Action>, id: Uuid)
    requires CrashTheorems.HonestlyReady(After(sv, history), id)
    ensures id in After(sv, history).jobs && TextIndexed(sv, After(sv, history).jobs[id], After(sv, history).index)
  {
    hide CrashTheorems.ExactlyIndexed, TextIndexed;
    var read := CrashTheorems.ReadyMeansIndexed(sv, history, id);
    JobIndexed(sv, After(sv, history), id, read);
    ExactlyItsWindows(sv, After(sv, history), id, read);
  }

  lemma JobIndexed(sv: Services, s: State, id: Uuid, read: AclRead)
    requires CrashTheorems.ExactlyIndexed(sv, s, id, read)
    ensures id in s.jobs && Parses(sv, s.jobs[id]) && Numbered(s.jobs[id], s.index, |JobChunks(sv, s.jobs[id])|)
  {
    hide CrashTheorems.ExactlyIndexed, PlaceOf, JobKey, JobChunks;
    IndexedJob(sv, s, id, read);
    forall k: nat
      ensures PlaceOf(s.jobs[id], k) in s.index <==> k < |JobChunks(sv, s.jobs[id])|
    {
      IndexedChunks(sv, s, id, read, k);
    }
  }

  lemma IndexedJob(sv: Services, s: State, id: Uuid, read: AclRead)
    requires CrashTheorems.ExactlyIndexed(sv, s, id, read)
    ensures id in s.jobs && Parses(sv, s.jobs[id])
  {
  }

  /** And the index gives the document back: the points' texts, each cut to the words the one before it
      does not end with, join up to the parsed text; and the vectors are those of these texts. */
  lemma IndexGivesTextBack(sv: Services, history: seq<Action>, id: Uuid) returns (n: nat)
    requires CrashTheorems.HonestlyReady(After(sv, history), id)
    ensures var s := After(sv, history);
      && id in s.jobs && sv.parse(s.jobs[id].fileBytes, s.jobs[id].filename).Success?
      && Numbered(s.jobs[id], s.index, n)
      && var job, texts := s.jobs[id], StoredTexts(s.jobs[id], s.index, n);
        var text := sv.parse(job.fileBytes, job.filename).value.text;
        && (OneTokenPerWord(text, sv.tokenizer) ==> Words.Join(Concat(NewWords(texts))) == text)
        && |sv.dense(texts)| == |sv.sparse(texts)| == n
        && forall k :: 0 <= k < n ==>
          && s.index[PlaceOf(job, k)].vector.dense == sv.dense(texts)[k]
          && s.index[PlaceOf(job, k)].vector.sparse == sv.sparse(texts)[k]
  {
    hide CrashTheorems.ExactlyIndexed;
    var s := After(sv, history);
    var read := CrashTheorems.ReadyMeansIndexed(sv, history, id);
    JobIndexed(sv, s, id, read);
    n := |JobChunks(sv, s.jobs[id])|;
    StoredTextsAre(sv, s, id, read);
    StoredTextsJoin(sv, s, id);
    VectorsAre(sv, s, id, read);
  }

  lemma StoredTextsAre(sv: Services, s: State, id: Uuid, read: AclRead)
    requires CrashTheorems.ExactlyIndexed(sv, s, id, read) && Parses(sv, s.jobs[id])
    requires Numbered(s.jobs[id], s.index, |JobChunks(sv, s.jobs[id])|)
    ensures StoredTexts(s.jobs[id], s.index, |JobChunks(sv, s.jobs[id])|) == Texts(JobChunks(sv, s.jobs[id]))
  {
    hide CrashTheorems.ExactlyIndexed, PlaceOf, JobKey, JobChunks;
    IndexedJob(sv, s, id, read);
    forall k: nat | k < |JobChunks(sv, s.jobs[id])|
      ensures PlaceOf(s.jobs[id], k) in s.index
        && s.index[PlaceOf(s.jobs[id], k)].text == JobChunks(sv, s.jobs[id])[k].text
    {
      IndexedChunks(sv, s, id, read, k);
    }
  }

  lemma StoredTextsJoin(sv: Services, s: State, id: Uuid)
    requires id in s.jobs && Parses(sv, s.jobs[id])
    ensures var text := ParsedDocument(sv, s.jobs[id]).text;
      OneTokenPerWord(text, sv.tokenizer) ==>
        Words.Join(Concat(NewWords(Texts(JobChunks(sv, s.jobs[id]))))) == text
  {
    hide OneTokenPerWord, Chunks, Words.Split;
    var job := s.jobs[id];
    var text, chunks := ParsedDocument(sv, job).text, JobChunks(sv, job);
    forall k | 0 <= k < |chunks|
      ensures NewWords(Texts(chunks))[k] == ChunkHeads(chunks, 896)[k]
    {
    }
    assert NewWords(Texts(chunks)) == ChunkHeads(chunks, 896);
    if OneTokenPerWord(text, sv.tokenizer) {
      ChunkTextsReassemble(text, job.identity, sv.tokenizer, CHUNK_SIZE_TOKENS, CHUNK_OVERLAP_TOKENS);
    }
  }

  lemma VectorsAre(sv: Services, s: State, id: Uuid, read: AclRead)
    requires CrashTheorems.ExactlyIndexed(sv, s, id, read)
    ensures var job := s.jobs[id];
      var texts := Texts(JobChunks(sv, job));
      && |sv.dense(texts)| == |sv.sparse(texts)| == |JobChunks(sv, job)|
      && forall k :: 0 <= k < |JobChunks(sv, job)| ==>
        && PlaceOf(job, k) in s.index
        && s.index[PlaceOf(job, k)].vector.dense == sv.dense(texts)[k]
        && s.index[PlaceOf(job, k)].vector.sparse == sv.sparse(texts)[k]
  {
    hide JobChunks, JobPoints, Identity.BuildChunkId, Texts;
    var job := s.jobs[id];
    forall k: nat | k < |JobChunks(sv, job)|
      ensures PlaceOf(job, k) in s.index
      ensures CrashTheorems.PointSays(sv, job, read, k, s.index[PlaceOf(job, k)])
    {
      IndexedChunks(sv, s, id, read, k);
      assert CrashTheorems.PointSays(sv, job, read, k, s.index[JobKey(job, k)]);
    }
  }
}
