/** Where the points in the index come from: which effect of which attempt put them, and what that
    attempt had read by then. */
module PointProvenance {
  import Wrappers
  import opened Uuids
  import opened JobStores
  import opened AclLookups
  import VectorIndexes
  import opened PipelineModel
  import opened PipelineInvariant
  import opened CrashMachine
  import opened CrashInvariant
  import CrashTheorems

  /** The attempt's next effect is to put a point. */
  ghost predicate Puts(s: State, id: Uuid) {
    && id in s.jobs && id in s.attempts && s.attempts[id].pc.Upserting?
    && s.attempts[id].script.upsertStopsAt != Wrappers.Some(s.attempts[id].pc.written)
    && s.attempts[id].pc.written < |s.attempts[id].pc.points|
  }

  lemma OnlyPutsWrite(sv: Services, s: State, a: Action)
    ensures Apply(sv, s, a).index == s.index || (a.Take? && Puts(s, a.jobId))
  {
    hide Tick, NextWrite;
    if a.Take? && Enabled(s, a) {
      TickIndex(sv, s.jobs[a.jobId], s.acls, s.attempts[a.jobId].script, ConfigOf(s, a.jobId));
    }
  }

  // ---- Reads are fresh ----

  /** What an attempt at this point has read, it has read from these ACL rows. */
  ghost predicate ReadFrom(job: Job, rows: set<AclEntry>, pc: Pc) {
    match pc
    case HaveAcl(acl) => exists e :: e in rows && e.key == KeyOf(job.identity) && e.row.acl == acl
    case Embedding(read, _, _) => Logged(job, rows, read)
    case AdvanceIndexing(read, _, _) => Logged(job, rows, read)
    case Upserting(read, _, _) => Logged(job, rows, read)
    case _ => true
  }

  /** Every attempt has read its ACL from the rows the table has held since the attempt began. */
  ghost predicate Fresh(s: State) {
    forall id :: id in s.attempts ==>
      && id in s.jobs && id in s.aclsSince && Entries(s.acls) <= s.aclsSince[id]
      && ReadFrom(s.jobs[id], s.aclsSince[id], s.attempts[id].pc)
  }

  lemma TickReadsFresh(sv: Services, job: Job, acls: map<VersionKey, AclRow>, script: Script, c: Config,
    rows: set<AclEntry>)
    requires Entries(acls) <= rows && ReadFrom(job, rows, c.pc)
    ensures ReadFrom(job, rows, Tick(sv, job, acls, script, c).pc)
  {
    hide BeginTick, ChunkTick, Advanced, Completed, FailedWith, VectorIndexes.BuildPoints, Embed, KeyOf;
    if c.pc.Begin? {
      BeginReadsNothing(sv, job, c);
    } else if c.pc.ChunkStep? {
      ChunkReadsNothing(sv, job, c);
    } else if (c.pc.IndexStep? || c.pc.HaveAcl?) && KeyOf(job.identity) in acls {
      assert AclEntry(KeyOf(job.identity), acls[KeyOf(job.identity)]) in rows;
    }
  }

  lemma BeginReadsNothing(sv: Services, job: Job, c: Config)
    ensures var pc := BeginTick(sv, job, c).pc; !pc.HaveAcl? && !pc.Embedding? && !pc.AdvanceIndexing? && !pc.Upserting?
  {
  }

  lemma ChunkReadsNothing(sv: Services, job: Job, c: Config)
    ensures var pc := ChunkTick(sv, job, c).pc; !pc.HaveAcl? && !pc.Embedding? && !pc.AdvanceIndexing? && !pc.Upserting?
  {
    hide SplitText;
  }

  lemma MoreRows(job: Job, rows: set<AclEntry>, more: set<AclEntry>, pc: Pc)
    requires ReadFrom(job, rows, pc) && rows <= more
    ensures ReadFrom(job, more, pc)
  {
  }

  lemma SetAclKeepsFresh(s: State, key: VersionKey, row: AclRow)
    requires Fresh(s)
    ensures Fresh(WithAcl(s, key, row))
  {
    hide ReadFrom;
    var s', entry := WithAcl(s, key, row), AclEntry(key, row);
    forall id | id in s'.attempts
      ensures Entries(s'.acls) <= s'.aclsSince[id] && ReadFrom(s'.jobs[id], s'.aclsSince[id], s'.attempts[id].pc)
    {
      MoreRows(s.jobs[id], s.aclsSince[id], s'.aclsSince[id], s.attempts[id].pc);
      forall e | e in Entries(s'.acls)
        ensures e in s'.aclsSince[id]
      {
        assert e == entry || e in Entries(s.acls);
      }
    }
  }

  lemma TakeKeepsFresh(sv: Services, s: State, id: Uuid)
    requires Fresh(s) && Enabled(s, Take(id))
    ensures Fresh(Apply(sv, s, Take(id)))
  {
    hide Tick, ReadFrom;
    TickReadsFresh(sv, s.jobs[id], s.acls, s.attempts[id].script, ConfigOf(s, id), s.aclsSince[id]);
  }

  lemma ActionKeepsFresh(sv: Services, s: State, a: Action)
    requires Fresh(s)
    ensures Fresh(Apply(sv, s, a))
  {
    hide Tick, NextWrite;
    if a.SetAcl? {
      SetAclKeepsFresh(s, a.key, a.row);
    } else if a.Take? && Enabled(s, a) {
      TakeKeepsFresh(sv, s, a.jobId);
    }
  }

  lemma {:induction false} FreshAlways(sv: Services, history: seq<Action>)
    ensures Fresh(After(sv, history))
  {
    hide Apply, Fresh;
    if history == [] {
      NobodyReads();
    } else {
      FreshAlways(sv, history[..|history| - 1]);
      ActionKeepsFresh(sv, After(sv, history[..|history| - 1]), history[|history| - 1]);
    }
  }

  lemma NobodyReads()
    ensures Fresh(INITIAL_STATE)
  {
  }

  /** What a put puts. */
  lemma PutInState(sv: Services, s: State, id: Uuid) returns (k: nat, read: VectorIndexes.AclRead)
    requires Inv(sv, s) && Fresh(s) && Puts(s, id)
    ensures id in s.aclsSince && Logged(s.jobs[id], s.aclsSince[id], read)
    ensures Embeds(sv, s.jobs[id]) && k < |JobChunks(sv, s.jobs[id])|
    ensures WithEffectOfTick(sv, s, id).index == s.index[JobKey(s.jobs[id], k) := JobPoints(sv, s.jobs[id], read)[k]]
  {
    hide Inv, Tick, PcOk, JobPoints;
    var job, pc := s.jobs[id], s.attempts[id].pc;
    AttemptPcOk(sv, s, id);
    PcPoints(sv, job, id in s.resumedFailed, s.aclLog, ConfigOf(s, id));
    TickIndex(sv, job, s.acls, s.attempts[id].script, ConfigOf(s, id));
    k, read := pc.written, pc.read;
  }

  function WithEffectOfTick(sv: Services, s: State, id: Uuid): State
    requires id in s.jobs && id in s.attempts
  {
    WithEffect(s, id, Tick(sv, s.jobs[id], s.acls, s.attempts[id].script, ConfigOf(s, id)))
  }

  lemma TakeIsTick(sv: Services, s: State, id: Uuid)
    requires id in s.jobs && id in s.attempts
    ensures Apply(sv, s, Take(id)) == WithEffectOfTick(sv, s, id)
  {
    hide Tick;
  }

  /** In every history, an effect that puts a point puts the point of one chunk of its job's document
      under that chunk's key, and what the point says of ACL and retention state the table has held for
      that identity since this very attempt began. It changes no other point. */
  lemma PutIsFresh(sv: Services, history: seq<Action>, id: Uuid) returns (k: nat, read: VectorIndexes.AclRead)
    requires Puts(After(sv, history), id)
    ensures var s := After(sv, history); var job := s.jobs[id];
      && id in s.aclsSince && Logged(job, s.aclsSince[id], read)
      && Embeds(sv, job) && k < |JobChunks(sv, job)|
      && CrashTheorems.PointSays(sv, job, read, k, JobPoints(sv, job, read)[k])
      && Apply(sv, s, Take(id)).index == s.index[JobKey(job, k) := JobPoints(sv, job, read)[k]]
  {
    hide Inv, Fresh, Apply, WithEffectOfTick, JobPoints, CrashTheorems.PointSays, Logged, Embeds, JobChunks;
    InvAlways(sv, history);
    FreshAlways(sv, history);
    var s := After(sv, history);
    k, read := PutInState(sv, s, id);
    TakeIsTick(sv, s, id);
    CrashTheorems.JobPointsSay(sv, s.jobs[id], read, k);
  }

  lemma JobsStay(sv: Services, s: State, a: Action, id: Uuid)
    requires id in s.jobs
    ensures id in Apply(sv, s, a).jobs && Apply(sv, s, a).jobs[id] == s.jobs[id]
  {
    hide Tick, NextWrite;
  }

  /** Fail-closed: no point without an ACL, and none with a stale one. Whatever was cut, resumed or
      edited, every point in the index was put by an effect number `n` of the history, taken by an
      attempt on job `id`, and says what that attempt had read since it began. */
  lemma {:induction false} EveryPointCarriesItsAcl(sv: Services, history: seq<Action>, key: VectorIndexes.IndexKey)
    returns (n: nat, id: Uuid, k: nat, read: VectorIndexes.AclRead)
    requires key in After(sv, history).index
    ensures n < |history| && history[n] == Take(id) && Puts(After(sv, history[..n]), id)
    ensures var before, s := After(sv, history[..n]), After(sv, history);
      && id in s.jobs && s.jobs[id] == before.jobs[id] && key == JobKey(s.jobs[id], k)
      && id in before.aclsSince && Logged(s.jobs[id], before.aclsSince[id], read)
      && Embeds(sv, s.jobs[id]) && k < |JobChunks(sv, s.jobs[id])|
      && CrashTheorems.PointSays(sv, s.jobs[id], read, k, s.index[key])
  {
    hide Apply, Puts, CrashTheorems.PointSays, Logged, Embeds, JobPoints, JobChunks, JobKey;
    var earlier, last := history[..|history| - 1], history[|history| - 1];
    var s, s' := After(sv, earlier), After(sv, history);
    OnlyPutsWrite(sv, s, last);
    if s'.index == s.index {
      n, id, k, read := EveryPointCarriesItsAcl(sv, earlier, key);
      JobsStay(sv, s, last, id);
      assert history[..n] == earlier[..n];
    } else {
      n, id := |history| - 1, last.jobId;
      k, read := PutIsFresh(sv, earlier, id);
      PutHasJob(s, id);
      JobsStay(sv, s, last, id);
      if key != JobKey(s.jobs[id], k) {
        n, id, k, read := EveryPointCarriesItsAcl(sv, earlier, key);
        JobsStay(sv, s, last, id);
        assert history[..n] == earlier[..n];
      }
    }
  }

  lemma PutHasJob(s: State, id: Uuid)
    requires Puts(s, id)
    ensures id in s.jobs
  {
  }

  // ---- Attempts that fail before the upsert put nothing ----

  /** The points put since the latest attempt on a job began. */
  ghost function PutsSince(sv: Services, history: seq<Action>, id: Uuid): nat {
    if history == [] then 0
    else
      var earlier, last := history[..|history| - 1], history[|history| - 1];
      var s := After(sv, earlier);
      if last.StartAttempt? && last.jobId == id && Enabled(s, last) then 0
      else if last == Take(id) && Puts(s, id) then PutsSince(sv, earlier, id) + 1
      else PutsSince(sv, earlier, id)
  }

  /** How many points an attempt can have put, by where it is. */
  ghost predicate PutCount(pc: Pc, count: nat) {
    match pc
    case Upserting(_, _, written) => count == written
    case Failing(error) => error == IndexWriteError || count == 0
    case Done(outcome) => outcome.Success? || outcome.error == IndexWriteError || count == 0
    case _ => count == 0
  }

  lemma TickCounts(sv: Services, job: Job, acls: map<VersionKey, AclRow>, script: Script, c: Config, count: nat)
    requires PutCount(c.pc, count)
    ensures var puts := c.pc.Upserting? && script.upsertStopsAt != Wrappers.Some(c.pc.written)
      && c.pc.written < |c.pc.points|;
      PutCount(Tick(sv, job, acls, script, c).pc, if puts then count + 1 else count)
  {
    hide BeginTick, ChunkTick, Advanced, Completed, FailedWith, VectorIndexes.BuildPoints, Embed, KeyOf;
    if c.pc.Begin? {
      BeginReadsNothing(sv, job, c);
      BeginNeverDone(sv, job, c);
    } else if c.pc.ChunkStep? {
      ChunkReadsNothing(sv, job, c);
      ChunkNeverDone(sv, job, c);
    }
  }

  lemma BeginNeverDone(sv: Services, job: Job, c: Config)
    ensures !BeginTick(sv, job, c).pc.Done?
  {
  }

  lemma ChunkNeverDone(sv: Services, job: Job, c: Config)
    ensures !ChunkTick(sv, job, c).pc.Done?
  {
    hide SplitText;
  }

  lemma ActionCounts(sv: Services, s: State, a: Action, id: Uuid, count: nat)
    requires id in Apply(sv, s, a).attempts && (id in s.attempts ==> PutCount(s.attempts[id].pc, count))
    ensures var starts := a.StartAttempt? && a.jobId == id && Enabled(s, a);
      (starts || id in s.attempts)
      && PutCount(Apply(sv, s, a).attempts[id].pc, if starts then 0 else if a == Take(id) && Puts(s, id)
        then count + 1 else count)
  {
    hide Tick, NextWrite;
    if a == Take(id) && Enabled(s, a) {
      TickCounts(sv, s.jobs[id], s.acls, s.attempts[id].script, ConfigOf(s, id), count);
    }
  }

  lemma {:induction false} PutsAreCounted(sv: Services, history: seq<Action>, id: Uuid)
    requires id in After(sv, history).attempts
    ensures PutCount(After(sv, history).attempts[id].pc, PutsSince(sv, history, id))
  {
    hide Apply, PutCount, Puts;
    var earlier, last := history[..|history| - 1], history[|history| - 1];
    if id in After(sv, earlier).attempts {
      PutsAreCounted(sv, earlier, id);
    }
    ActionCounts(sv, After(sv, earlier), last, id, PutsSince(sv, earlier, id));
  }

  /** However its effects interleave with other jobs, crashes and ACL edits: an attempt that fails with
      anything but a broken-off index write has put no point since it began. */
  lemma FailedAttemptPutNothing(sv: Services, history: seq<Action>, id: Uuid)
    requires id in After(sv, history).attempts
    requires var pc := After(sv, history).attempts[id].pc;
      (pc.Failing? && pc.error != IndexWriteError)
        || (pc.Done? && pc.outcome.Failure? && pc.outcome.error != IndexWriteError)
    ensures PutsSince(sv, history, id) == 0
  {
    PutsAreCounted(sv, history, id);
  }
}
