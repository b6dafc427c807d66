/** Job rows set back further than a crash sets them back: to any value that was durable before, as a
    restored database would. Checkpoint files and index points stay as they are. */
module Rollbacks {
  import Wrappers
  import opened Uuids
  import JobStores
  import Checkpoints
  import VectorIndexes
  import opened PipelineModel
  import opened PipelineInvariant
  import opened CrashMachine
  import opened CrashInvariant
  import opened CrashTheorems
  import PointProvenance

  /** A row that was durable, and whether an attempt had been started on it while it said `failed`. */
  datatype PastRow = PastRow(row: JobStores.Row, resumed: bool)

  /** For every job the rows that were durable before its present one, the oldest first. */
  datatype Timeline = Timeline(s: State, past: map<Uuid, seq<PastRow>>)

  datatype Step =
    | Act(action: Action)
    | RollBack(jobId: Uuid, n: nat) // the job's row is its `n`-th past row again, its attempt is gone

  const INITIAL_TIMELINE := Timeline(INITIAL_STATE, map[])

  function PastOf(past: map<Uuid, seq<PastRow>>, id: Uuid): seq<PastRow> {
    if id in past then past[id] else []
  }

  /** What becomes past when the durable rows go from `s` to `s'`. */
  function Extended(past: map<Uuid, seq<PastRow>>, s: State, s': State): map<Uuid, seq<PastRow>> {
    map id | id in s'.rows ::
      if id in s.rows && s'.rows[id] != s.rows[id] then PastOf(past, id) + [PastRow(s.rows[id], id in s.resumedFailed)]
      else PastOf(past, id)
  }

  function SetBack(s: State, id: Uuid, to: PastRow): State {
    Cut(s, id).(rows := s.rows[id := to.row], resumedFailed := if to.resumed then s.resumedFailed + {id}
      else s.resumedFailed - {id})
  }

  function Next(sv: Services, t: Timeline, step: Step): Timeline {
    match step
    case Act(action) =>
      var s' := Apply(sv, t.s, action);
      Timeline(s', Extended(t.past, t.s, s'))
    case RollBack(id, n) =>
      if id in t.s.jobs && id in t.past && n < |t.past[id]|
      then Timeline(SetBack(t.s, id, t.past[id][n]), t.past[id := t.past[id][..n]])
      else t
  }

  function AfterSteps(sv: Services, steps: seq<Step>): Timeline {
    if steps == [] then INITIAL_TIMELINE
    else Next(sv, AfterSteps(sv, steps[..|steps| - 1]), steps[|steps| - 1])
  }

  // ---- Past rows stay good ----

  /** A row that could be set back to: good for the job as it is now, and not ahead of a later one. */
  ghost predicate PastRowOk(sv: Services, s: State, id: Uuid, was: PastRow)
    requires id in s.jobs
  {
    && RowOk(sv, s.jobs[id], was.resumed, s.aclLog, s.files, s.index, was.row)
    && id in s.rows && Ahead(was.row, s.rows[id])
  }

  /** One job's past: every row of it good, each not ahead of the next. */
  ghost predicate JobPastOk(sv: Services, s: State, id: Uuid, past: seq<PastRow>)
    requires id in s.jobs
  {
    && (forall n :: 0 <= n < |past| ==> PastRowOk(sv, s, id, past[n]))
    && (forall m, n :: 0 <= m < n < |past| ==> Ahead(past[m].row, past[n].row))
  }

  ghost predicate TimelineOk(sv: Services, t: Timeline) {
    && Inv(sv, t.s)
    && (forall id :: id in t.s.jobs ==> JobPastOk(sv, t.s, id, PastOf(t.past, id)))
    && (forall id :: id in t.past ==> id in t.s.rows)
  }

  lemma OwnTickKeepsPast(sv: Services, s: State, id: Uuid, was: PastRow)
    requires Inv(sv, s) && id in s.jobs && id in s.attempts && PastRowOk(sv, s, id, was)
    ensures var c' := Tick(sv, s.jobs[id], s.acls, s.attempts[id].script, ConfigOf(s, id));
      RowOk(sv, s.jobs[id], was.resumed, s.aclLog, c'.files, c'.index, was.row)
  {
    hide Inv, Tick, RowOk, PcOk, PointsOk, SentOk;
    JobIsOk(sv, s, id);
    var job, resumed, c := s.jobs[id], id in s.resumedFailed, ConfigOf(s, id);
    AheadTransitive(was.row, s.rows[id], c.row);
    TickKeepsOldRow(sv, job, s.acls, s.attempts[id].script, resumed, s.aclLog, c, was);
  }

  lemma TickKeepsOldRow(sv: Services, job: Job, acls: map<AclLookups.VersionKey, AclLookups.AclRow>, script: Script,
    resumed: bool, aclLog: set<AclEntry>, c: Config, was: PastRow)
    requires ConfigOk(sv, job, resumed, aclLog, c) && RowOk(sv, job, was.resumed, aclLog, c.files, c.index, was.row)
      && Ahead(was.row, c.row)
    ensures var c' := Tick(sv, job, acls, script, c); RowOk(sv, job, was.resumed, aclLog, c'.files, c'.index, was.row)
  {
    hide Tick, RowOk, Stored, PointsOk, SentOk;
    var c' := Tick(sv, job, acls, script, c);
    if was.row.payload.phase.Ready? {
      TickKeepsReadyIndex(sv, job, acls, script, resumed, aclLog, c);
    }
    forall step | Stored(sv, job, c.files, step)
      ensures Stored(sv, job, c'.files, step)
    {
      TickKeepsStored(sv, job, acls, script, resumed, aclLog, c, step);
    }
    RowKeeps(sv, job, was.resumed, aclLog, was.row, c.files, c.index, c'.files, c'.index);
  }

  lemma OtherTickKeepsPast(sv: Services, s: State, id: Uuid, was: PastRow, taker: Uuid)
    requires Inv(sv, s) && id in s.jobs && PastRowOk(sv, s, id, was) && taker in s.jobs && taker in s.attempts
      && taker != id
    ensures var c' := Tick(sv, s.jobs[taker], s.acls, s.attempts[taker].script, ConfigOf(s, taker));
      RowOk(sv, s.jobs[id], was.resumed, s.aclLog, c'.files, c'.index, was.row)
  {
    hide Tick, RowOk, PcOk, NoStrays, JobsOk, SameFiles, SamePoints;
    AttemptPcOk(sv, s, taker);
    var c := ConfigOf(s, taker);
    var c' := Tick(sv, s.jobs[taker], s.acls, s.attempts[taker].script, c);
    TickOnFiles(sv, s.jobs[taker], s.acls, s.attempts[taker].script, c, s.jobs[id]);
    TickOnPoints(sv, s.jobs[taker], s.acls, s.attempts[taker].script, taker in s.resumedFailed, s.aclLog, c,
      s.jobs[id]);
    RowTransfers(sv, s.jobs[id], was.resumed, was.row, s.aclLog, s.aclLog, s.files, c'.files, s.index, c'.index);
  }

  lemma CutMidWriteKeepsPast(sv: Services, s: State, id: Uuid, was: PastRow, writer: Uuid, path: string,
    left: Checkpoints.CheckpointData)
    requires Inv(sv, s) && id in s.jobs && PastRowOk(sv, s, id, was)
    requires writer in s.jobs && writer in s.attempts && NextWrite(sv, s, writer) == Wrappers.Some(path)
    ensures RowOk(sv, s.jobs[id], was.resumed, s.aclLog, s.files[path := left], s.index, was.row)
  {
    hide Inv, NextWrite, RowOk, PcOk, PointsOk, SentOk, PathOf, Ahead, SameFiles, SamePoints;
    JobIsOk(sv, s, id);
    JobIsOk(sv, s, writer);
    NextWriteIs(sv, s, writer, path);
    if writer == id {
      if s.attempts[id].pc.ChunkStep? {
        ChunkStepParsed(sv, s.jobs[id], id in s.resumedFailed, s.aclLog, ConfigOf(s, id));
      }
      AheadTransitive(was.row, s.rows[id], s.attempts[id].row);
      Unpointed(sv, s.jobs[id], was.resumed, s.aclLog, s.files, s.index, was.row, s.attempts[id].row, path);
      UnpointedFileIsFree(sv, s.jobs[id], was.resumed, s.aclLog, s.files, s.index, was.row, path, left);
    } else {
      OwnPathIsNoOthers(sv, s.jobs[writer], path, s.jobs[id], s.files, left);
      SameStores(sv, s.jobs[id], s.files, s.index);
      RowTransfers(sv, s.jobs[id], was.resumed, was.row, s.aclLog, s.aclLog, s.files, s.files[path := left], s.index,
        s.index);
    }
  }

  lemma SetAclKeepsPast(sv: Services, s: State, id: Uuid, was: PastRow, entry: AclEntry)
    requires id in s.jobs && PastRowOk(sv, s, id, was)
    ensures RowOk(sv, s.jobs[id], was.resumed, s.aclLog + {entry}, s.files, s.index, was.row)
  {
    hide RowOk, SameFiles, SamePoints, Ahead;
    SameStores(sv, s.jobs[id], s.files, s.index);
    RowTransfers(sv, s.jobs[id], was.resumed, was.row, s.aclLog, s.aclLog + {entry}, s.files, s.files, s.index,
      s.index);
  }

  /** Whatever any action does to files, points and the ACL log, a past row stays good. */
  lemma ActionKeepsPastRow(sv: Services, s: State, a: Action, id: Uuid, was: PastRow)
    requires Inv(sv, s) && id in s.jobs && PastRowOk(sv, s, id, was)
    ensures var s' := Apply(sv, s, a); RowOk(sv, s.jobs[id], was.resumed, s'.aclLog, s'.files, s'.index, was.row)
  {
    hide Inv, Tick, NextWrite, RowOk, Ahead;
    if Enabled(s, a) {
      match a
      case Take(taker) =>
        if taker == id {
          OwnTickKeepsPast(sv, s, id, was);
        } else {
          OtherTickKeepsPast(sv, s, id, was, taker);
        }
      case CrashMidWrite(writer, left) =>
        if NextWrite(sv, s, writer).Some? {
          CutMidWriteKeepsPast(sv, s, id, was, writer, NextWrite(sv, s, writer).value, left);
        }
      case SetAcl(key, row) => SetAclKeepsPast(sv, s, id, was, AclEntry(key, row));
      case _ =>
    }
  }

  lemma DurableRowGoesOn(sv: Services, s: State, a: Action, id: Uuid)
    requires Inv(sv, s) && id in s.jobs
    ensures var s' := Apply(sv, s, a);
      id in s.rows && id in s'.rows && id in s'.jobs && s'.jobs[id] == s.jobs[id] && Ahead(s.rows[id], s'.rows[id])
  {
    hide Inv, JobOk, Tick, NextWrite;
    JobIsOk(sv, s, id);
    RowKeysAreJobs(sv, s);
    PointProvenance.JobsStay(sv, s, a, id);
    RowsChangeByCommit(sv, s, a, id);
    if id in s.attempts {
      SessionAhead(sv, s, id);
    }
  }

  lemma RowKeysAreJobs(sv: Services, s: State)
    requires Inv(sv, s)
    ensures s.rows.Keys == s.jobs.Keys
  {
    hide JobsOk, NoStrays;
  }

  lemma ActionKeepsPastRowOk(sv: Services, s: State, a: Action, id: Uuid, was: PastRow)
    requires Inv(sv, s) && id in s.jobs && PastRowOk(sv, s, id, was)
    ensures var s' := Apply(sv, s, a); id in s'.jobs && PastRowOk(sv, s', id, was)
  {
    hide Inv, Apply, RowOk, Ahead;
    ActionKeepsPastRow(sv, s, a, id, was);
    DurableRowGoesOn(sv, s, a, id);
    AheadTransitive(was.row, s.rows[id], Apply(sv, s, a).rows[id]);
  }

  /** The present row, once it is past. */
  lemma PresentRowOk(sv: Services, s: State, id: Uuid)
    requires Inv(sv, s) && id in s.jobs
    ensures PastRowOk(sv, s, id, PastRow(s.rows[id], id in s.resumedFailed))
  {
    hide Inv, RowOk, ConfigOk, PointsOk, SentOk;
    JobIsOk(sv, s, id);
  }

  lemma JobPastKeeps(sv: Services, s: State, a: Action, id: Uuid, past: seq<PastRow>)
    requires Inv(sv, s) && id in s.jobs && JobPastOk(sv, s, id, past)
    ensures var s' := Apply(sv, s, a);
      id in s'.jobs && JobPastOk(sv, s', id, past) && id in s.rows
      && JobPastOk(sv, s', id, past + [PastRow(s.rows[id], id in s.resumedFailed)])
  {
    hide Inv, Apply, RowOk, Ahead;
    RowKeysAreJobs(sv, s);
    var s', present := Apply(sv, s, a), PastRow(s.rows[id], id in s.resumedFailed);
    PresentRowOk(sv, s, id);
    ActionKeepsPastRowOk(sv, s, a, id, present);
    forall n | 0 <= n < |past|
      ensures PastRowOk(sv, s', id, past[n]) && Ahead(past[n].row, present.row)
    {
      ActionKeepsPastRowOk(sv, s, a, id, past[n]);
    }
  }

  lemma NewJobHasNoPast(sv: Services, t: Timeline, a: Action, id: Uuid)
    requires TimelineOk(sv, t) && id !in t.s.jobs && id in Apply(sv, t.s, a).jobs
    ensures PastOf(Extended(t.past, t.s, Apply(sv, t.s, a)), id) == []
  {
    hide Inv, Apply, JobPastOk;
    RowKeysAreJobs(sv, t.s);
  }

  lemma ActKeeps(sv: Services, t: Timeline, a: Action)
    requires TimelineOk(sv, t)
    ensures TimelineOk(sv, Next(sv, t, Act(a)))
  {
    hide Inv, Apply, JobPastOk;
    var s' := Apply(sv, t.s, a);
    ActionKeeps(sv, t.s, a);
    RowKeysAreJobs(sv, t.s);
    RowKeysAreJobs(sv, s');
    forall id | id in s'.jobs
      ensures JobPastOk(sv, s', id, PastOf(Extended(t.past, t.s, s'), id))
    {
      if id in t.s.jobs {
        JobPastKeeps(sv, t.s, a, id, PastOf(t.past, id));
      } else {
        NewJobHasNoPast(sv, t, a, id);
        NoPastOk(sv, s', id);
      }
    }
  }

  lemma NoPastOk(sv: Services, s: State, id: Uuid)
    requires id in s.jobs
    ensures JobPastOk(sv, s, id, [])
  {
  }

  lemma SetBackKeepsJob(sv: Services, s: State, id: Uuid, to: PastRow)
    requires Inv(sv, s) && id in s.jobs && PastRowOk(sv, s, id, to)
    ensures JobOk(sv, s.jobs[id], to.resumed, SetBack(s, id, to))
  {
    hide Inv, RowOk, PointsOk, SentOk, Ahead;
    JobIsOk(sv, s, id);
  }

  lemma SetBackKeeps(sv: Services, s: State, id: Uuid, to: PastRow)
    requires Inv(sv, s) && id in s.jobs && PastRowOk(sv, s, id, to)
    ensures Inv(sv, SetBack(s, id, to))
  {
    hide JobOk, NoStrays, RowOk, Ahead;
    var s' := SetBack(s, id, to);
    SetBackKeepsJob(sv, s, id, to);
    assert s'.rows.Keys == s.rows.Keys;
    SessionActionKeeps(sv, s, s', Wrappers.Some(id));
    SessionActionKeepsShape(sv, s, s');
  }

  lemma ShorterPastOk(sv: Services, s: State, id: Uuid, past: seq<PastRow>, n: nat)
    requires id in s.jobs && JobPastOk(sv, s, id, past) && n < |past|
    ensures JobPastOk(sv, SetBack(s, id, past[n]), id, past[..n])
  {
    hide RowOk, Ahead;
  }

  lemma OtherPastOk(sv: Services, s: State, id: Uuid, to: PastRow, other: Uuid, past: seq<PastRow>)
    requires other in s.jobs && JobPastOk(sv, s, other, past) && other != id
    ensures JobPastOk(sv, SetBack(s, id, to), other, past)
  {
    hide RowOk, Ahead;
  }

  lemma RollBackKeeps(sv: Services, t: Timeline, id: Uuid, n: nat)
    requires TimelineOk(sv, t) && id in t.s.jobs && id in t.past && n < |t.past[id]|
    ensures TimelineOk(sv, Next(sv, t, RollBack(id, n)))
  {
    hide Inv, JobPastOk, PastRowOk;
    var to, t' := t.past[id][n], Next(sv, t, RollBack(id, n));
    assert PastOf(t.past, id) == t.past[id];
    OnePastRow(sv, t.s, id, t.past[id], n);
    SetBackKeeps(sv, t.s, id, to);
    ShorterPastOk(sv, t.s, id, t.past[id], n);
    forall other | other in t.s.jobs && other != id
      ensures JobPastOk(sv, t'.s, other, PastOf(t'.past, other))
    {
      OtherPastOk(sv, t.s, id, to, other, PastOf(t.past, other));
    }
  }

  lemma OnePastRow(sv: Services, s: State, id: Uuid, past: seq<PastRow>, n: nat)
    requires id in s.jobs && JobPastOk(sv, s, id, past) && n < |past|
    ensures PastRowOk(sv, s, id, past[n])
  {
    hide PastRowOk;
  }

  lemma {:induction false} TimelineAlways(sv: Services, steps: seq<Step>)
    ensures TimelineOk(sv, AfterSteps(sv, steps))
  {
    hide Next, TimelineOk, Inv;
    if steps == [] {
      InitialTimelineOk(sv);
    } else {
      var t := AfterSteps(sv, steps[..|steps| - 1]);
      TimelineAlways(sv, steps[..|steps| - 1]);
      StepKeeps(sv, t, steps[|steps| - 1]);
    }
  }

  lemma InitialTimelineOk(sv: Services)
    ensures TimelineOk(sv, INITIAL_TIMELINE)
  {
    hide Inv;
    InvAlways(sv, []);
  }

  lemma StepKeeps(sv: Services, t: Timeline, step: Step)
    requires TimelineOk(sv, t)
    ensures TimelineOk(sv, Next(sv, t, step))
  {
    hide TimelineOk, Apply, Extended, SetBack;
    match step
    case Act(a) => ActKeeps(sv, t, a);
    case RollBack(id, n) =>
      if id in t.s.jobs && id in t.past && n < |t.past[id]| {
        RollBackKeeps(sv, t, id, n);
      }
  }

  /** Ready still means indexed, and crashes still converge, when in between job rows are set back to any
      value that was durable before -- as often as one likes, and with attempts cut after any effect or
      in the middle of a write. */
  lemma ReadyAfterRollbacks(sv: Services, steps: seq<Step>, id: Uuid, script: Script)
    returns (read: VectorIndexes.AclRead)
    requires HonestlyReady(AfterSteps(sv, steps).s, id)
    ensures ExactlyIndexed(sv, AfterSteps(sv, steps).s, id, read)
    ensures Converged(sv, AfterSteps(sv, steps).s, id, read, script)
  {
    hide Inv, JobPastOk, ExactlyIndexed, Converged, HonestlyReady;
    TimelineAlways(sv, steps);
    var s := AfterSteps(sv, steps).s;
    HonestlyReadyHasRow(s, id);
    RowsHaveJobs(sv, s, id);
    read := ReadyStateIndexed(sv, s, id);
    ReadyStateConverged(sv, s, id, read, script);
  }

  lemma HonestlyReadyHasRow(s: State, id: Uuid)
    requires HonestlyReady(s, id)
    ensures id in s.rows
  {
  }
}
