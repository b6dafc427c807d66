/** One attempt from start to end: what it leaves behind, and exactly when it succeeds. */
module AttemptRuns {
  import Wrappers
  import JobStores
  import opened AclLookups
  import Retry
  import opened PipelineModel
  import opened PipelineInvariant
  import CrashMachine

  /** An attempt that runs to its end keeps the invariant. */
  lemma {:induction false} RunKeeps(sv: Services, job: Job, acls: map<VersionKey, AclRow>, script: Script,
    resumed: bool, aclLog: set<CrashMachine.AclEntry>, c: Config)
    requires ConfigOk(sv, job, resumed, aclLog, c) && AclsLogged(acls, aclLog)
    ensures ConfigOk(sv, job, resumed, aclLog, RunToEnd(sv, job, acls, script, c))
    decreases Rank(c.pc), PointsLeft(c.pc)
  {
    if !c.pc.Done? {
      TickNearer(sv, job, acls, script, c);
      TickKeeps(sv, job, acls, script, resumed, aclLog, c);
      RunKeeps(sv, job, acls, script, resumed, aclLog, Tick(sv, job, acls, script, c));
    }
  }

  lemma TickLeavesIndex(sv: Services, job: Job, acls: map<VersionKey, AclRow>, script: Script, c: Config)
    requires !c.pc.Upserting?
    ensures Tick(sv, job, acls, script, c).index == c.index
  {
  }

  /** Points are written by the upsert alone, so an attempt that fails before it changes none. */
  lemma {:induction false} FailureLeavesIndex(sv: Services, job: Job, acls: map<VersionKey, AclRow>, script: Script,
      c: Config)
    requires !c.pc.Upserting?
    ensures var end := RunToEnd(sv, job, acls, script, c);
      end.pc.outcome.Failure? && end.pc.outcome.error != JobStores.IndexWriteError ==> end.index == c.index
    decreases Rank(c.pc), PointsLeft(c.pc)
  {
    if !c.pc.Done? {
      var next := Tick(sv, job, acls, script, c);
      TickNearer(sv, job, acls, script, c);
      TickLeavesIndex(sv, job, acls, script, c);
      if next.pc.Upserting? {
        UpsertFailsOnlyByWriting(sv, job, acls, script, next);
      } else {
        FailureLeavesIndex(sv, job, acls, script, next);
      }
    }
  }

  lemma {:induction false} UpsertFailsOnlyByWriting(sv: Services, job: Job, acls: map<VersionKey, AclRow>,
    script: Script, c: Config)
    requires c.pc.Upserting? || c.pc == Failing(JobStores.IndexWriteError)
      || (c.pc.Done? && (c.pc.outcome.Success? || c.pc.outcome.error == JobStores.IndexWriteError))
    ensures var end := RunToEnd(sv, job, acls, script, c);
      end.pc.outcome.Failure? ==> end.pc.outcome.error == JobStores.IndexWriteError
    decreases Rank(c.pc), PointsLeft(c.pc)
  {
    if !c.pc.Done? {
      UpsertFailsOnlyByWriting(sv, job, acls, script, Tick(sv, job, acls, script, c));
    }
  }

  // ---- Exactly when an attempt succeeds ----

  /** The first call that is not cut off answers, and it is within the retry budget. */
  ghost predicate AnswersInTime(script: Script, from: nat) {
    exists n: nat :: from <= n <= Retry.MAX_EMBEDDING_RETRY_ATTEMPTS && script.calls(n).Answered?
      && forall m: nat :: from <= m < n ==> script.calls(m).Unreachable?
  }

  ghost predicate WritesAll(script: Script, count: nat) {
    !(script.upsertStopsAt.Some? && script.upsertStopsAt.value <= count)
  }

  lemma FailingFails(sv: Services, job: Job, acls: map<VersionKey, AclRow>, script: Script, c: Config)
    requires c.pc.Failing?
    ensures RunToEnd(sv, job, acls, script, c).pc.outcome == Wrappers.Failure(c.pc.error)
  {
    var next := Tick(sv, job, acls, script, c);
    assert RunToEnd(sv, job, acls, script, next) == next;
  }

  lemma {:induction false} UpsertSucceedsIff(sv: Services, job: Job, acls: map<VersionKey, AclRow>, script: Script,
      c: Config)
    requires c.pc.Upserting? && c.pc.written <= |c.pc.points|
    requires script.upsertStopsAt.Some? ==> c.pc.written <= script.upsertStopsAt.value
    ensures RunToEnd(sv, job, acls, script, c).pc.outcome.Success? <==> WritesAll(script, |c.pc.points|)
    decreases PointsLeft(c.pc)
  {
    var next := Tick(sv, job, acls, script, c);
    if next.pc.Failing? {
      FailingFails(sv, job, acls, script, next);
    } else if next.pc.Done? {
      assert RunToEnd(sv, job, acls, script, next) == next;
    } else {
      UpsertSucceedsIff(sv, job, acls, script, next);
    }
  }

  lemma {:induction false} EmbeddingSucceedsIff(sv: Services, job: Job, acls: map<VersionKey, AclRow>, script: Script,
      c: Config)
    requires c.pc.Embedding? && c.pc.attempt <= Retry.MAX_EMBEDDING_RETRY_ATTEMPTS
    requires Parses(sv, job) && c.pc.chunks == JobChunks(sv, job)
    ensures RunToEnd(sv, job, acls, script, c).pc.outcome.Success? <==>
      AnswersInTime(script, c.pc.attempt) && Embeds(sv, job) && WritesAll(script, |c.pc.chunks|)
    decreases Rank(c.pc)
  {
    var n := c.pc.attempt;
    var next := Tick(sv, job, acls, script, c);
    match script.calls(n)
    case Answered =>
      assert AnswersInTime(script, n);
      if next.pc.Failing? {
        FailingFails(sv, job, acls, script, next);
      } else {
        var upserting := Tick(sv, job, acls, script, next);
        if upserting.pc.Failing? {
          FailingFails(sv, job, acls, script, upserting);
        } else {
          UpsertSucceedsIff(sv, job, acls, script, upserting);
        }
      }
    case ErrorResponse =>
      assert !AnswersInTime(script, n);
      FailingFails(sv, job, acls, script, next);
    case Unreachable =>
      if next.pc.Failing? {
        assert !AnswersInTime(script, n);
        FailingFails(sv, job, acls, script, next);
      } else {
        EmbeddingSucceedsIff(sv, job, acls, script, next);
        AnswersLater(script, n);
      }
  }

  lemma AnswersLater(script: Script, n: nat)
    requires script.calls(n).Unreachable?
    ensures AnswersInTime(script, n) <==> AnswersInTime(script, n + 1)
  {
  }

  lemma IndexStepSucceedsIff(sv: Services, job: Job, acls: map<VersionKey, AclRow>, script: Script, resumed: bool,
                             aclLog: set<CrashMachine.AclEntry>, c: Config)
    requires ConfigOk(sv, job, resumed, aclLog, c) && c.pc.IndexStep?
    ensures RunToEnd(sv, job, acls, script, c).pc.outcome.Success? <==>
      KeyOf(job.identity) in acls && AnswersInTime(script, 0) && Embeds(sv, job)
        && WritesAll(script, |JobChunks(sv, job)|)
  {
    var next := Tick(sv, job, acls, script, c);
    if KeyOf(job.identity) in acls {
      var embedding := Tick(sv, job, acls, script, next);
      EmbeddingSucceedsIff(sv, job, acls, script, embedding);
    } else {
      FailingFails(sv, job, acls, script, next);
    }
  }

  lemma ChunkStepSucceedsIff(sv: Services, job: Job, acls: map<VersionKey, AclRow>, script: Script, resumed: bool,
                             aclLog: set<CrashMachine.AclEntry>, c: Config)
    requires ConfigOk(sv, job, resumed, aclLog, c) && c.pc.ChunkStep?
    ensures RunToEnd(sv, job, acls, script, c).pc.outcome.Success? <==>
      KeyOf(job.identity) in acls && AnswersInTime(script, 0) && Embeds(sv, job)
        && WritesAll(script, |JobChunks(sv, job)|)
  {
    var stored := Tick(sv, job, acls, script, c);
    TickKeepsChunking(sv, job, acls, script, resumed, aclLog, c);
    TickKeepsChunking(sv, job, acls, script, resumed, aclLog, stored);
    IndexStepSucceedsIff(sv, job, acls, script, resumed, aclLog, Tick(sv, job, acls, script, stored));
  }

  /** An attempt on a job that has not ended succeeds if and only if the document parses, the ACL row
      is there, the embedding services answer for every chunk within the retry budget, and the index
      takes every point. Where the job was when the attempt started makes no difference. */
  lemma AttemptSucceedsIff(sv: Services, job: Job, acls: map<VersionKey, AclRow>, script: Script, resumed: bool,
                           aclLog: set<CrashMachine.AclEntry>, c: Config)
    requires ConfigOk(sv, job, resumed, aclLog, c) && c.pc.Begin? && !c.row.payload.phase.Ready?
      && !c.row.payload.phase.Failed?
    ensures RunToEnd(sv, job, acls, script, c).pc.outcome.Success? <==>
      Parses(sv, job) && KeyOf(job.identity) in acls && AnswersInTime(script, 0) && Embeds(sv, job)
        && WritesAll(script, |JobChunks(sv, job)|)
  {
    hide ReadTick, EmbedTick, UpsertTick, SplitText, JobChunks, Embeds;
    var next := Tick(sv, job, acls, script, c);
    TickKeepsParsing(sv, job, acls, script, resumed, aclLog, c);
    match c.row.payload.phase
    case Pending =>
      if Parses(sv, job) {
        TickKeepsParsing(sv, job, acls, script, resumed, aclLog, next);
        ChunkStepSucceedsIff(sv, job, acls, script, resumed, aclLog, Tick(sv, job, acls, script, next));
      } else {
        FailingFails(sv, job, acls, script, next);
      }
    case Parsed => ChunkStepSucceedsIff(sv, job, acls, script, resumed, aclLog, next);
    case Chunked => IndexStepSucceedsIff(sv, job, acls, script, resumed, aclLog, next);
    case Indexing => IndexStepSucceedsIff(sv, job, acls, script, resumed, aclLog, next);
  }

  /** An attempt on a job that has ended -- in `ready` or in `failed` -- matches no step: it reports
      success and changes nothing but the row. */
  lemma EndedAttemptFallsThrough(sv: Services, job: Job, acls: map<VersionKey, AclRow>, script: Script, c: Config)
    requires c.pc.Begin? && (c.row.payload.phase.Ready? || c.row.payload.phase.Failed?)
    ensures RunToEnd(sv, job, acls, script, c)
      == c.(pc := Done(Wrappers.Success(())), row := JobStores.Completed(c.row))
  {
    var next := Tick(sv, job, acls, script, c);
    var end := Tick(sv, job, acls, script, next);
    assert RunToEnd(sv, job, acls, script, end) == end;
    assert RunToEnd(sv, job, acls, script, next) == end;
  }
}
