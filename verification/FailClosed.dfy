/** Fail-closed indexing from its causes: what makes an attempt fail before it writes a point, which
    error it then leaves behind, and that the index is as it was. */
module FailClosed {
  import opened Wrappers
  import Uuids
  import Chunking
  import opened JobStores
  import Embeddings
  import opened AclLookups
  import VectorIndexes
  import opened Retry
  import opened PipelineModel
  import opened PipelineInvariant
  import opened CrashMachine
  import CrashInvariant
  import opened AttemptRuns
  import opened AttemptSteps

  /** The error, if any, of reading the ACL row and embedding a document's chunks. */
  ghost function LateRefusal(sv: Services, job: Job, acls: map<VersionKey, AclRow>,
    script: Script): Option<PipelineError>
    requires Parses(sv, job)
  {
    var chunks := JobChunks(sv, job);
    if KeyOf(job.identity) !in acls then Some(AclLookupError)
    else match EmbedOutcome(sv, script, Chunking.Texts(chunks), MAX_EMBEDDING_RETRY_ATTEMPTS)
      case Failure(error) => Some(error)
      case Success(vectors) => if |vectors| != |chunks| then Some(ChunkCountMismatch) else None
  }

  /** What keeps an attempt from the index, if anything does. */
  ghost function Refusal(sv: Services, job: Job, acls: map<VersionKey, AclRow>, script: Script): Option<PipelineError> {
    if !Parses(sv, job) then Some(ParseFailed(sv.parse(job.fileBytes, job.filename).error))
    else LateRefusal(sv, job, acls, script)
  }

  // ---- Which cause gives which error ----

  /** Every call the retry budget allows finds the services unreachable. */
  ghost predicate NeverReached(script: Script) {
    forall m: nat :: m <= MAX_EMBEDDING_RETRY_ATTEMPTS ==> script.calls(m).Unreachable?
  }

  /** Call `n`, within the budget, is the first that is not cut off. */
  ghost predicate FirstAnswer(script: Script, n: nat) {
    && n <= MAX_EMBEDDING_RETRY_ATTEMPTS && !script.calls(n).Unreachable?
    && forall m: nat :: m < n ==> script.calls(m).Unreachable?
  }

  lemma FirstAnswerDecides(sv: Services, script: Script, texts: seq<string>, n: nat)
    requires FirstAnswer(script, n)
    ensures EmbedOutcome(sv, script, texts, MAX_EMBEDDING_RETRY_ATTEMPTS)
      == Embeddings.CallResult(script.calls(n), sv.dense(texts), sv.sparse(texts))
    ensures AnswersInTime(script, 0) <==> script.calls(n).Answered?
  {
    LoopEndsAt(sv, script, texts, n, MAX_EMBEDDING_RETRY_ATTEMPTS);
  }

  lemma NeverReachedFails(sv: Services, script: Script, texts: seq<string>)
    requires NeverReached(script)
    ensures EmbedOutcome(sv, script, texts, MAX_EMBEDDING_RETRY_ATTEMPTS) == Failure(TransportError)
    ensures !AnswersInTime(script, 0)
  {
    LoopEndsAt(sv, script, texts, MAX_EMBEDDING_RETRY_ATTEMPTS, MAX_EMBEDDING_RETRY_ATTEMPTS);
  }

  lemma ReachedOrNot(script: Script)
    ensures NeverReached(script) || exists n: nat :: FirstAnswer(script, n)
  {
    var n := Absorbed(script, 0, MAX_EMBEDDING_RETRY_ATTEMPTS);
    if n <= MAX_EMBEDDING_RETRY_ATTEMPTS {
      assert FirstAnswer(script, n);
    }
  }

  /** Each cause has its own error: no ACL row, a retry budget used up, an error response, dense and
      sparse answers that differ in number, and answers that differ in number from the chunks. */
  lemma CausesAndErrors(sv: Services, job: Job, acls: map<VersionKey, AclRow>, script: Script)
    requires Parses(sv, job)
    ensures KeyOf(job.identity) !in acls ==> Refusal(sv, job, acls, script) == Some(AclLookupError)
    ensures KeyOf(job.identity) in acls && NeverReached(script)
      ==> Refusal(sv, job, acls, script) == Some(TransportError)
    ensures KeyOf(job.identity) in acls ==> forall n: nat :: FirstAnswer(script, n) ==>
      var texts := Chunking.Texts(JobChunks(sv, job));
      Refusal(sv, job, acls, script) ==
        if script.calls(n).ErrorResponse? then Some(EmbeddingServiceError)
        else if |sv.dense(texts)| != |sv.sparse(texts)| then Some(ResultCountsDisagree)
        else if |sv.dense(texts)| != |JobChunks(sv, job)| then Some(ChunkCountMismatch) else None
  {
    hide JobChunks, EmbedOutcome, NeverReached, FirstAnswer;
    var texts := Chunking.Texts(JobChunks(sv, job));
    if NeverReached(script) {
      NeverReachedFails(sv, script, texts);
    }
    forall n: nat | FirstAnswer(script, n)
      ensures EmbedOutcome(sv, script, texts, MAX_EMBEDDING_RETRY_ATTEMPTS)
        == Embeddings.CallResult(script.calls(n), sv.dense(texts), sv.sparse(texts))
      ensures !script.calls(n).Unreachable?
    {
      FirstAnswerDecides(sv, script, texts, n);
      FirstAnswered(script, n);
    }
  }

  lemma FirstAnswered(script: Script, n: nat)
    requires FirstAnswer(script, n)
    ensures !script.calls(n).Unreachable?
  {
  }

  /** There is a refusal if and only if the document does not parse, its ACL row is missing, no answer
      comes within the retry budget, or the answers do not match the chunks. */
  lemma RefusedIff(sv: Services, job: Job, acls: map<VersionKey, AclRow>, script: Script)
    ensures Refusal(sv, job, acls, script).Some? <==>
      !Parses(sv, job) || KeyOf(job.identity) !in acls || !AnswersInTime(script, 0) || !Embeds(sv, job)
  {
    hide JobChunks, EmbedOutcome, NeverReached, FirstAnswer, AnswersInTime;
    if Parses(sv, job) && KeyOf(job.identity) in acls {
      var texts := Chunking.Texts(JobChunks(sv, job));
      ReachedOrNot(script);
      if NeverReached(script) {
        NeverReachedFails(sv, script, texts);
      } else {
        var n: nat :| FirstAnswer(script, n);
        FirstAnswerDecides(sv, script, texts, n);
        FirstAnswered(script, n);
      }
    }
  }

  // ---- What a refused attempt leaves ----

  lemma EmbeddingEnds(sv: Services, job: Job, acls: map<VersionKey, AclRow>, script: Script, c: Config)
    requires Parses(sv, job) && KeyOf(job.identity) in acls && c.pc.Embedding? && c.pc.chunks == JobChunks(sv, job)
    ensures var end := AfterEmbedding(sv, job, script, c);
      match LateRefusal(sv, job, acls, script)
      case Some(error) => end.pc == Failing(error) && end.index == c.index
      case None => if WritesAll(script, |JobChunks(sv, job)|) then !end.pc.Failing?
        else end.pc == Failing(IndexWriteError)
  {
    hide EmbedOutcome, RowAfterRetries, Retries, Advanced, JobChunks, VectorIndexes.BuildPoints, Chunking.Texts;
  }

  lemma ReadsEnd(sv: Services, job: Job, acls: map<VersionKey, AclRow>, resumed: bool, aclLog: set<AclEntry>, c: Config)
    requires ConfigOk(sv, job, resumed, aclLog, c) && c.row.payload.phase in {Chunked, Indexing}
    ensures Parses(sv, job)
    ensures var read := AfterReads(job, acls, c);
      && read.index == c.index
      && (if KeyOf(job.identity) in acls then read.pc.Embedding? && read.pc.chunks == JobChunks(sv, job)
          else read.pc == Failing(AclLookupError))
  {
    hide JobChunks, PathOf, PcOk, PointsOk, SentOk, FullyIndexed;
  }

  /** The state the attempt is in when it is over. */
  ghost predicate EndsAs(script: Script, refusal: Option<PipelineError>, count: nat, before: Config, end: Config) {
    match refusal
    case Some(error) => FailedAs(end, error) && end.index == before.index
    case None =>
      if WritesAll(script, count) then end.pc.Done? && end.pc.outcome.Success?
      else FailedAs(end, IndexWriteError)
  }

  /** Over, with this error raised and the same one, alone, in a failed row. */
  ghost predicate FailedAs(end: Config, error: PipelineError) {
    && end.pc == Done(Failure(error)) && end.row.payload.phase.Failed? && end.row.status == StatusFailed
    && end.row.payload.errors == Some([error])
  }

  lemma IndexEnds(sv: Services, job: Job, acls: map<VersionKey, AclRow>, script: Script, resumed: bool,
    aclLog: set<AclEntry>, c: Config)
    requires ConfigOk(sv, job, resumed, aclLog, c) && c.row.payload.phase in {Chunked, Indexing} && Parses(sv, job)
    ensures EndsAs(script, LateRefusal(sv, job, acls, script), |JobChunks(sv, job)|, c,
      Ended(AfterIndex(sv, job, acls, script, c)))
  {
    hide ConfigOk, AfterReads, AfterEmbedding, JobChunks, Merge;
    ReadsEnd(sv, job, acls, resumed, aclLog, c);
    var read := AfterReads(job, acls, c);
    EndedIs(AfterIndex(sv, job, acls, script, c));
    if KeyOf(job.identity) in acls {
      EmbeddingEnds(sv, job, acls, script, read);
    }
  }

  lemma EndedIs(c: Config)
    ensures Ended(c).index == c.index
    ensures if c.pc.Failing? then FailedAs(Ended(c), c.pc.error) else Ended(c).pc == Done(Success(()))
  {
  }

  lemma IndexStepEnds(sv: Services, job: Job, acls: map<VersionKey, AclRow>, script: Script, resumed: bool,
                      aclLog: set<AclEntry>, c: Config)
    requires ConfigOk(sv, job, resumed, aclLog, c) && c.pc.IndexStep? && Parses(sv, job)
    ensures EndsAs(script, LateRefusal(sv, job, acls, script), |JobChunks(sv, job)|, c,
      RunToEnd(sv, job, acls, script, c))
  {
    hide RunToEnd, Tick, EndsAs, LateRefusal, AfterIndex;
    FromIndexStep(sv, job, acls, script, c);
    IndexStepPhase(sv, job, resumed, aclLog, c);
    IndexEnds(sv, job, acls, script, resumed, aclLog, c);
  }

  lemma IndexStepPhase(sv: Services, job: Job, resumed: bool, aclLog: set<AclEntry>, c: Config)
    requires ConfigOk(sv, job, resumed, aclLog, c) && c.pc.IndexStep?
    ensures c.row.payload.phase in {Chunked, Indexing}
  {
  }

  lemma ChunkStepEnds(sv: Services, job: Job, acls: map<VersionKey, AclRow>, script: Script, resumed: bool,
                      aclLog: set<AclEntry>, c: Config)
    requires ConfigOk(sv, job, resumed, aclLog, c) && c.pc.ChunkStep? && Parses(sv, job)
    ensures EndsAs(script, LateRefusal(sv, job, acls, script), |JobChunks(sv, job)|, c,
      RunToEnd(sv, job, acls, script, c))
  {
    hide EndsAs, LateRefusal, RunToEnd, ConfigOk, AfterChunk;
    ChunkTicks(sv, job, acls, script, c);
    ChunkedOk(sv, job, acls, script, resumed, aclLog, c);
    var chunked := AfterChunk(sv, job, c);
    IndexStepEnds(sv, job, acls, script, resumed, aclLog, chunked);
    SameBefore(script, LateRefusal(sv, job, acls, script), |JobChunks(sv, job)|, chunked, c,
      RunToEnd(sv, job, acls, script, c));
  }

  lemma ChunkedOk(sv: Services, job: Job, acls: map<VersionKey, AclRow>, script: Script, resumed: bool,
                  aclLog: set<AclEntry>, c: Config)
    requires ConfigOk(sv, job, resumed, aclLog, c) && c.pc.ChunkStep?
    ensures var chunked := AfterChunk(sv, job, c);
      ConfigOk(sv, job, resumed, aclLog, chunked) && chunked.pc.IndexStep? && chunked.index == c.index
  {
    hide ConfigOk, SplitText;
    var stored := Tick(sv, job, acls, script, c);
    TickKeepsChunking(sv, job, acls, script, resumed, aclLog, c);
    StoresChunks(sv, job, acls, script, resumed, aclLog, c);
    TickKeepsChunking(sv, job, acls, script, resumed, aclLog, stored);
    assert Tick(sv, job, acls, script, stored) == AfterChunk(sv, job, c);
  }

  lemma StoresChunks(sv: Services, job: Job, acls: map<VersionKey, AclRow>, script: Script, resumed: bool,
                     aclLog: set<AclEntry>, c: Config)
    requires ConfigOk(sv, job, resumed, aclLog, c) && c.pc.ChunkStep?
    ensures Tick(sv, job, acls, script, c).pc.AdvanceChunked?
  {
    hide SplitText, PointsOk, SentOk, BeginTick, ReadTick, EmbedTick, UpsertTick;
  }

  lemma SameBefore(script: Script, refusal: Option<PipelineError>, count: nat, before: Config, before': Config,
    end: Config)
    requires EndsAs(script, refusal, count, before, end) && before.index == before'.index
    ensures EndsAs(script, refusal, count, before', end)
  {
  }

  /** The number of points a job's attempt has to write, for a document that parses. */
  ghost function PointCount(sv: Services, job: Job): nat {
    if Parses(sv, job) then |JobChunks(sv, job)| else 0
  }

  /** How an attempt on a job that has not ended ends, from its causes alone and wherever it starts: if
      something refuses it, with that very error, in a failed row, and without a change of the index;
      otherwise with success, or with a broken-off index write. */
  lemma AttemptEndsAs(sv: Services, job: Job, acls: map<VersionKey, AclRow>, script: Script, resumed: bool,
                      aclLog: set<AclEntry>, c: Config)
    requires ConfigOk(sv, job, resumed, aclLog, c) && c.pc.Begin? && !c.row.payload.phase.Ready?
      && !c.row.payload.phase.Failed?
    ensures EndsAs(script, Refusal(sv, job, acls, script), PointCount(sv, job), c, RunToEnd(sv, job, acls, script, c))
  {
    hide EndsAs, LateRefusal, RunToEnd;
    if c.row.payload.phase.Pending? {
      PendingEndsAs(sv, job, acls, script, resumed, aclLog, c);
    } else {
      LivePhaseParses(sv, job, resumed, aclLog, c);
      OneTick(sv, job, acls, script, c);
      if c.row.payload.phase.Parsed? {
        var chunking := c.(pc := ChunkStep);
        BeginsOk(sv, job, resumed, aclLog, c);
        ChunkStepEnds(sv, job, acls, script, resumed, aclLog, chunking);
        SameBefore(script, LateRefusal(sv, job, acls, script), |JobChunks(sv, job)|, chunking, c,
          RunToEnd(sv, job, acls, script, c));
      } else {
        var indexing := c.(pc := IndexStep);
        BeginsOk(sv, job, resumed, aclLog, c);
        IndexStepEnds(sv, job, acls, script, resumed, aclLog, indexing);
        SameBefore(script, LateRefusal(sv, job, acls, script), |JobChunks(sv, job)|, indexing, c,
          RunToEnd(sv, job, acls, script, c));
      }
    }
  }

  lemma LivePhaseParses(sv: Services, job: Job, resumed: bool, aclLog: set<AclEntry>, c: Config)
    requires ConfigOk(sv, job, resumed, aclLog, c) && c.row.payload.phase in {Parsed, Chunked, Indexing}
    ensures Parses(sv, job)
  {
  }

  lemma BeginsOk(sv: Services, job: Job, resumed: bool, aclLog: set<AclEntry>, c: Config)
    requires ConfigOk(sv, job, resumed, aclLog, c)
    ensures c.row.payload.phase.Parsed? ==> ConfigOk(sv, job, resumed, aclLog, c.(pc := ChunkStep))
    ensures c.row.payload.phase in {Chunked, Indexing} ==> ConfigOk(sv, job, resumed, aclLog, c.(pc := IndexStep))
  {
    hide RowOk, PointsOk, SentOk;
  }

  lemma PendingEndsAs(sv: Services, job: Job, acls: map<VersionKey, AclRow>, script: Script, resumed: bool,
                      aclLog: set<AclEntry>, c: Config)
    requires ConfigOk(sv, job, resumed, aclLog, c) && c.pc.Begin? && c.row.payload.phase.Pending?
    ensures EndsAs(script, Refusal(sv, job, acls, script), PointCount(sv, job), c, RunToEnd(sv, job, acls, script, c))
  {
    hide EndsAs, LateRefusal, RunToEnd, ConfigOk;
    ParseTicks(sv, job, acls, script, c);
    var parsed := AfterParse(sv, job, c);
    if Parses(sv, job) {
      ParsedOk(sv, job, acls, script, resumed, aclLog, c);
      ChunkStepEnds(sv, job, acls, script, resumed, aclLog, parsed);
      SameBefore(script, LateRefusal(sv, job, acls, script), |JobChunks(sv, job)|, parsed, c,
        RunToEnd(sv, job, acls, script, c));
    } else {
      EndTicks(sv, job, acls, script, parsed);
      EndedIs(parsed);
      RefusedAs(script, parsed.pc.error, c, Ended(parsed));
    }
  }

  lemma RefusedAs(script: Script, error: PipelineError, before: Config, end: Config)
    requires FailedAs(end, error) && end.index == before.index
    ensures EndsAs(script, Some(error), 0, before, end)
  {
  }

  lemma ParsedOk(sv: Services, job: Job, acls: map<VersionKey, AclRow>, script: Script, resumed: bool,
                 aclLog: set<AclEntry>, c: Config)
    requires ConfigOk(sv, job, resumed, aclLog, c) && c.pc.Begin? && c.row.payload.phase.Pending? && Parses(sv, job)
    ensures ConfigOk(sv, job, resumed, aclLog, AfterParse(sv, job, c)) && AfterParse(sv, job, c).pc.ChunkStep?
  {
    hide ConfigOk;
    var stored := Tick(sv, job, acls, script, c);
    TickKeepsParsing(sv, job, acls, script, resumed, aclLog, c);
    TickKeepsParsing(sv, job, acls, script, resumed, aclLog, stored);
    assert Tick(sv, job, acls, script, stored) == AfterParse(sv, job, c);
  }

  /** Fail-closed, in every reachable state: an attempt on a job that has not ended, with a document that
      does not parse, no ACL row, a retry budget that runs out or an error response, or answers that do
      not match the chunks, leaves the whole index as it is and the job `failed` with that error. */
  lemma FailsClosed(sv: Services, history: seq<Action>, id: Uuids.Uuid, script: Script)
    requires id in After(sv, history).jobs && id in After(sv, history).rows
    requires var phase := After(sv, history).rows[id].payload.phase; !phase.Ready? && !phase.Failed?
    requires var s := After(sv, history);
      !Parses(sv, s.jobs[id]) || KeyOf(s.jobs[id].identity) !in s.acls || !AnswersInTime(script, 0)
        || !Embeds(sv, s.jobs[id])
    ensures var s := After(sv, history);
      var end := RunToEnd(sv, s.jobs[id], s.acls, script, Config(Begin, s.rows[id], s.files, s.index, s.sent));
      && Refusal(sv, s.jobs[id], s.acls, script).Some?
      && FailedAs(end, Refusal(sv, s.jobs[id], s.acls, script).value)
      && end.index == s.index
  {
    hide CrashInvariant.Inv, RunToEnd, Refusal, AnswersInTime, Embeds, ConfigOk;
    CrashInvariant.InvAlways(sv, history);
    var s := After(sv, history);
    var c := Config(Begin, s.rows[id], s.files, s.index, s.sent);
    LiveRowBegins(sv, s, id);
    AttemptEndsAs(sv, s.jobs[id], s.acls, script, id in s.resumedFailed, s.aclLog, c);
    RefusedIff(sv, s.jobs[id], s.acls, script);
  }

  lemma LiveRowBegins(sv: Services, s: State, id: Uuids.Uuid)
    requires CrashInvariant.Inv(sv, s) && id in s.jobs && id in s.rows && !s.rows[id].payload.phase.Ready?
      && !s.rows[id].payload.phase.Failed?
    ensures ConfigOk(sv, s.jobs[id], id in s.resumedFailed, s.aclLog,
      Config(Begin, s.rows[id], s.files, s.index, s.sent))
  {
    hide CrashInvariant.Inv, RowOk, PointsOk, SentOk;
    CrashInvariant.JobIsOk(sv, s, id);
  }
}
