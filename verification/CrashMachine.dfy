/** Many jobs at once, their attempts interleaved tick by tick, each cut whenever the process dies.

    The job row an attempt sees is its own session's; it becomes the durable row when the session
    commits. A crash loses what was not committed, while checkpoint files and index points stay. */
module CrashMachine {
  import Wrappers
  import opened Uuids
  import JobStores
  import Checkpoints
  import opened AclLookups
  import VectorIndexes
  import opened PipelineModel

  datatype Attempt = Attempt(pc: Pc, row: JobStores.Row, script: Script)

  /** A row the ACL table holds or has held. */
  datatype AclEntry = AclEntry(key: VersionKey, row: AclRow)

  function Entries(acls: map<VersionKey, AclRow>): set<AclEntry> {
    set key | key in acls :: AclEntry(key, acls[key])
  }

  /** `aclLog`, `aclsSince` and `resumedFailed` only record the past: every ACL row there ever was, the
      ACL rows there were since a job's latest attempt began, and the jobs an attempt was started on
      while their row said `failed`. */
  datatype State = State(
    jobs: map<Uuid, Job>,
    rows: map<Uuid, JobStores.Row>,
    attempts: map<Uuid, Attempt>,
    files: map<string, Checkpoints.CheckpointData>,
    index: map<VectorIndexes.IndexKey, VectorIndexes.Point>,
    sent: set<Batch>,
    acls: map<VersionKey, AclRow>,
    aclLog: set<AclEntry>,
    aclsSince: map<Uuid, set<AclEntry>>,
    resumedFailed: set<Uuid>)

  const INITIAL_STATE := State(map[], map[], map[], map[], map[], {}, map[], {}, map[], {})

  datatype Action =
    | Create(job: Job)                          // a new job row, committed
    | StartAttempt(jobId: Uuid, script: Script) // first run or resume: a session opens on the durable row
    | Take(jobId: Uuid)                         // the attempt's next effect
    | Persist(jobId: Uuid)                      // its session commits, the attempt goes on
    | Finish(jobId: Uuid)                       // the last commit of an attempt that is done
    | Crash(jobId: Uuid)                        // the attempt is cut and its uncommitted row lost
    | CrashMidWrite(jobId: Uuid, left: Checkpoints.CheckpointData) // ... in the middle of writing a checkpoint
    | CrashAll
    | SetAcl(key: VersionKey, row: AclRow)      // an admin edit, or the row an upload creates

  predicate Enabled(s: State, a: Action) {
    match a
    case Create(job) =>
      job.jobId !in s.jobs && forall id :: id in s.jobs ==> KeyOf(s.jobs[id].identity) != KeyOf(job.identity)
    case StartAttempt(id, _) => id in s.jobs && id in s.rows && id !in s.attempts
    case Take(id) => id in s.jobs && id in s.attempts
    case Persist(id) => id in s.attempts
    case Finish(id) => id in s.attempts && s.attempts[id].pc.Done?
    case Crash(id) => id in s.attempts
    case CrashMidWrite(id, _) => id in s.jobs && id in s.attempts
    case CrashAll => true
    case SetAcl(_, _) => true
  }

  function ConfigOf(s: State, id: Uuid): Config
    requires id in s.attempts
  {
    Config(s.attempts[id].pc, s.attempts[id].row, s.files, s.index, s.sent)
  }

  function Created(s: State, job: Job): State {
    s.(jobs := s.jobs[job.jobId := job], rows := s.rows[job.jobId := JobStores.INITIAL_ROW])
  }

  function Started(s: State, id: Uuid, script: Script): State
    requires id in s.rows
  {
    s.(attempts := s.attempts[id := Attempt(Begin, s.rows[id], script)],
       aclsSince := s.aclsSince[id := Entries(s.acls)],
       resumedFailed := if s.rows[id].payload.phase.Failed? then s.resumedFailed + {id} else s.resumedFailed)
  }

  function Committed(s: State, id: Uuid): State
    requires id in s.attempts
  {
    s.(rows := s.rows[id := s.attempts[id].row])
  }

  function Cut(s: State, id: Uuid): State {
    s.(attempts := s.attempts - {id})
  }

  /** The path an attempt's next effect writes, if it writes one. */
  function NextWrite(sv: Services, s: State, id: Uuid): Wrappers.Option<string>
    requires id in s.jobs && id in s.attempts
  {
    var c := ConfigOf(s, id);
    if !c.pc.Begin? && !c.pc.ChunkStep? then Wrappers.None
    else match Tick(sv, s.jobs[id], s.acls, s.attempts[id].script, c).pc
      case AdvanceParsed(path, _) => Wrappers.Some(path)
      case AdvanceChunked(path) => Wrappers.Some(path)
      case _ => Wrappers.None
  }

  /** The attempt is gone, and so is whatever the file held before. */
  function CutMidWrite(s: State, id: Uuid, path: string, left: Checkpoints.CheckpointData): State {
    Cut(s, id).(files := s.files[path := left])
  }

  function WithAcl(s: State, key: VersionKey, row: AclRow): State {
    var entry := AclEntry(key, row);
    s.(acls := s.acls[key := row], aclLog := s.aclLog + {entry},
       aclsSince := map id | id in s.aclsSince :: s.aclsSince[id] + {entry})
  }

  function WithEffect(s: State, id: Uuid, c: Config): State
    requires id in s.attempts
  {
    s.(attempts := s.attempts[id := Attempt(c.pc, c.row, s.attempts[id].script)],
       files := c.files, index := c.index, sent := c.sent)
  }

  /** An action that is not possible changes nothing. */
  function Apply(sv: Services, s: State, a: Action): State {
    if !Enabled(s, a) then s
    else match a
      case Create(job) => Created(s, job)
      case StartAttempt(id, script) => Started(s, id, script)
      case Take(id) => WithEffect(s, id, Tick(sv, s.jobs[id], s.acls, s.attempts[id].script, ConfigOf(s, id)))
      case Persist(id) => Committed(s, id)
      case Finish(id) => Cut(Committed(s, id), id)
      case Crash(id) => Cut(s, id)
      case CrashMidWrite(id, left) =>
        (match NextWrite(sv, s, id)
         case None => Cut(s, id)
         case Some(path) => CutMidWrite(s, id, path, left))
      case CrashAll => s.(attempts := map[])
      case SetAcl(key, row) => WithAcl(s, key, row)
  }

  /** The state after a whole history. Every state the system can be in is one of these. */
  function After(sv: Services, history: seq<Action>): State {
    if history == [] then INITIAL_STATE
    else Apply(sv, After(sv, history[..|history| - 1]), history[|history| - 1])
  }
}
