/** Resuming a job that has failed. No phase is waiting for it, so `_run_pipeline` falls through to
    `complete`: the job is reported ready although nothing was done. This module shows the history
    in which that happens and says exactly when a successful attempt means an indexed document. */
module ResumedFailures {
  import Wrappers
  import opened Uuids
  import opened JobStores
  import AclLookups
  import opened PipelineModel
  import opened PipelineInvariant
  import opened CrashMachine
  import CrashInvariant
  import AttemptRuns

  /** An attempt of two effects. On a file that does not parse the first one fails, and a second one
      "succeeds". */
  function ShortAttempt(job: Job, script: Script): seq<Action> {
    [StartAttempt(job.jobId, script), Take(job.jobId), Take(job.jobId), Finish(job.jobId)]
  }

  function TwoAttempts(job: Job, script: Script): seq<Action> {
    [Create(job)] + ShortAttempt(job, script) + ShortAttempt(job, script)
  }

  /** A state with this one job, no attempt under way and nothing stored. */
  function Alone(job: Job, row: Row, resumed: set<Uuid>, aclsSince: map<Uuid, set<AclEntry>>): State {
    INITIAL_STATE.(jobs := map[job.jobId := job], rows := map[job.jobId := row], aclsSince := aclsSince,
      resumedFailed := resumed)
  }

  function UnderWay(job: Job, row: Row, resumed: set<Uuid>, attempt: Attempt): State {
    Alone(job, row, resumed, map[job.jobId := {}]).(attempts := map[job.jobId := attempt])
  }

  function ConfigAlone(attempt: Attempt): Config {
    Config(attempt.pc, attempt.row, map[], map[], {})
  }

  lemma OneMore(sv: Services, history: seq<Action>, a: Action)
    ensures After(sv, history + [a]) == Apply(sv, After(sv, history), a)
  {
    assert (history + [a])[..|history + [a]| - 1] == history;
  }

  lemma FourMore(sv: Services, history: seq<Action>, a: Action, b: Action, c: Action, d: Action)
    ensures After(sv, history + [a, b, c, d])
      == Apply(sv, Apply(sv, Apply(sv, Apply(sv, After(sv, history), a), b), c), d)
  {
    hide Apply;
    OneMore(sv, history, a);
    OneMore(sv, history + [a], b);
    OneMore(sv, history + [a] + [b], c);
    OneMore(sv, history + [a] + [b] + [c], d);
    assert history + [a] + [b] + [c] + [d] == history + [a, b, c, d];
  }

  /** An effect that touches no store. */
  lemma TakeAlone(sv: Services, job: Job, row: Row, resumed: set<Uuid>, attempt: Attempt, next: Attempt)
    requires Tick(sv, job, map[], attempt.script, ConfigAlone(attempt)) == ConfigAlone(next)
      && next.script == attempt.script
    ensures Apply(sv, UnderWay(job, row, resumed, attempt), Take(job.jobId)) == UnderWay(job, row, resumed, next)
  {
    hide Tick;
    var s := UnderWay(job, row, resumed, attempt);
    assert ConfigOf(s, job.jobId) == ConfigAlone(attempt);
    assert s.attempts[job.jobId := next] == map[job.jobId := next];
  }

  lemma CreateAlone(sv: Services, job: Job)
    ensures After(sv, [Create(job)]) == Alone(job, INITIAL_ROW, {}, map[])
  {
    hide Tick;
    OneMore(sv, [], Create(job));
    assert [] + [Create(job)] == [Create(job)];
  }

  lemma StartAlone(sv: Services, job: Job, row: Row, aclsSince: map<Uuid, set<AclEntry>>, script: Script)
    requires aclsSince == map[] || aclsSince == map[job.jobId := {}]
    ensures Apply(sv, Alone(job, row, {}, aclsSince), StartAttempt(job.jobId, script))
         == UnderWay(job, row, if row.payload.phase.Failed? then {job.jobId} else {}, Attempt(Begin, row, script))
  {
    hide Tick;
    assert Entries(map[]) == {};
    assert aclsSince[job.jobId := {}] == map[job.jobId := {}];
  }

  lemma FinishAlone(sv: Services, job: Job, row: Row, resumed: set<Uuid>, attempt: Attempt)
    requires attempt.pc.Done?
    ensures Apply(sv, UnderWay(job, row, resumed, attempt), Finish(job.jobId))
      == Alone(job, attempt.row, resumed, map[job.jobId := {}])
  {
    hide Tick;
  }

  /** The short attempt from end to end, given its two effects. */
  lemma ShortAttemptRuns(sv: Services, history: seq<Action>, job: Job, row: Row, aclsSince: map<Uuid, set<AclEntry>>,
                         script: Script, middle: Attempt, last: Attempt)
    requires After(sv, history) == Alone(job, row, {}, aclsSince)
      && (aclsSince == map[] || aclsSince == map[job.jobId := {}])
    requires middle.script == last.script == script && last.pc.Done?
    requires Tick(sv, job, map[], script, ConfigAlone(Attempt(Begin, row, script))) == ConfigAlone(middle)
    requires Tick(sv, job, map[], script, ConfigAlone(middle)) == ConfigAlone(last)
    ensures After(sv, history + ShortAttempt(job, script))
         == Alone(job, last.row, if row.payload.phase.Failed? then {job.jobId} else {}, map[job.jobId := {}])
  {
    hide Tick, Apply;
    var id, resumed := job.jobId, if row.payload.phase.Failed? then {job.jobId} else {};
    FourMore(sv, history, StartAttempt(id, script), Take(id), Take(id), Finish(id));
    StartAlone(sv, job, row, aclsSince, script);
    TakeAlone(sv, job, row, resumed, Attempt(Begin, row, script), middle);
    TakeAlone(sv, job, row, resumed, middle, last);
    FinishAlone(sv, job, row, resumed, last);
  }

  /** The fall-through: after two attempts on a file that does not parse, the job is `ready` with
      progress 1.0, and there is no checkpoint and no point for it -- nor for anything. */
  lemma ReadyWithoutIndex(sv: Services, job: Job, script: Script)
    requires !Parses(sv, job)
    ensures var s := After(sv, TwoAttempts(job, script));
      && job.jobId in s.rows && s.rows[job.jobId].payload.phase.Ready? && s.rows[job.jobId].payload.progress == 1.0
      && s.rows[job.jobId].status == Complete && s.files == map[] && s.index == map[]
      && !FullyIndexed(sv, job, s.index, s.aclLog)
  {
    hide Apply;
    var error := ParseFailed(sv.parse(job.fileBytes, job.filename).error);
    var failed := FailedWith(INITIAL_ROW, error);
    CreateAlone(sv, job);
    ShortAttemptRuns(sv, [Create(job)], job, INITIAL_ROW, map[], script, Attempt(Failing(error), INITIAL_ROW, script),
                     Attempt(Done(Wrappers.Failure(error)), failed, script));
    ShortAttemptRuns(sv, [Create(job)] + ShortAttempt(job, script), job, failed, map[job.jobId := {}], script,
                     Attempt(FallThrough, failed, script),
                     Attempt(Done(Wrappers.Success(())), Completed(failed), script));
  }

  /** In every reachable state, an attempt that succeeds leaves its document fully indexed if and only
      if the job had not ended when the attempt started, or the document was in the index already. On a
      job that says `ready` or `failed` it writes no point at all. */
  lemma SuccessMeansIndexed(sv: Services, history: seq<Action>, id: Uuid, script: Script)
    requires id in After(sv, history).jobs && id in After(sv, history).rows
    requires var s := After(sv, history);
      RunToEnd(sv, s.jobs[id], s.acls, script, Config(Begin, s.rows[id], s.files, s.index, s.sent)).pc.outcome.Success?
    ensures var s := After(sv, history);
      var end := RunToEnd(sv, s.jobs[id], s.acls, script, Config(Begin, s.rows[id], s.files, s.index, s.sent));
      var hadEnded := s.rows[id].payload.phase.Failed? || s.rows[id].payload.phase.Ready?;
      && end.row.payload.phase.Ready?
      && (FullyIndexed(sv, s.jobs[id], end.index, s.aclLog)
        <==> !hadEnded || FullyIndexed(sv, s.jobs[id], s.index, s.aclLog))
      && (hadEnded ==> end.index == s.index)
  {
    CrashInvariant.InvAlways(sv, history);
    var s := After(sv, history);
    var c := Config(Begin, s.rows[id], s.files, s.index, s.sent);
    if s.rows[id].payload.phase.Failed? || s.rows[id].payload.phase.Ready? {
      AttemptRuns.EndedAttemptFallsThrough(sv, s.jobs[id], s.acls, script, c);
    } else {
      assert CrashInvariant.JobOk(sv, s.jobs[id], id in s.resumedFailed, s);
      LiveAttemptIndexes(sv, s.jobs[id], s.acls, script, s.aclLog, c);
    }
  }

  lemma LiveAttemptIndexes(sv: Services, job: Job, acls: map<AclLookups.VersionKey, AclLookups.AclRow>,
    script: Script, aclLog: set<AclEntry>, c: Config)
    requires AclsLogged(acls, aclLog) && c.pc.Begin? && ConfigOk(sv, job, false, aclLog, c)
    requires RunToEnd(sv, job, acls, script, c).pc.outcome.Success?
    ensures var end := RunToEnd(sv, job, acls, script, c);
      end.row.payload.phase.Ready? && FullyIndexed(sv, job, end.index, aclLog)
  {
    AttemptRuns.RunKeeps(sv, job, acls, script, false, aclLog, c);
  }
}
