/** The deploy protocol of one gateway as a step relation: its coordinator, the worker of the running request or of a
    rollback, a rollback worker its recovery no longer waits for, the version store and Serve, with cancels, worker deaths,
    calls to the coordinator and to Serve that outlive their worker, store failures and coordinator restarts in any order. */
module DeployProtocol {
  import opened Wrappers
  import opened AppNames
  import opened Ledger
  import opened DeployDiff
  import opened Coordinator

  /** What a worker was made for: a request, the rollback of one whose worker died, or a recovery's rollback. */
  datatype Job = RunJob(id: nat, request: Request) | RollJob | RecoverJob

  /** Where a worker stands. *left* holds the apps its current deletion still waits on. */
  datatype Pc =
    | Ask | AwaitDiff | HaveCommitted(committed: Option<seq<Model>>)
    | Clear(diff: Diff, left: set<App>) | Lower(diff: Diff) | Stop(diff: Diff, left: set<App>)
    | BringUp(diff: Diff, pending: set<App>) | Raise(diff: Diff)
    | CallSwitch(diff: Diff) | AwaitSwitch(diff: Diff) | CallCommit(diff: Diff) | AwaitCommit(diff: Diff)
    | Retire(diff: Diff, left: set<App>) | DoneOk(diff: Diff)
    // rolling back; *outcome* is what the request will come out as
    | CallMark(outcome: Outcome) | CallReset(outcome: Outcome) | AwaitReset(outcome: Outcome) | AwaitBack(outcome: Outcome)
    | AskBack(outcome: Outcome) | AwaitRollback(outcome: Outcome) | BackCommitted(outcome: Outcome, committed: Option<seq<Model>>)
    | Undo(outcome: Outcome, diff: Diff, left: set<App>) | Restore(outcome: Outcome, diff: Diff) | DoneBack(outcome: Outcome)
    // the rollback itself failed
    | DoneRaised
  {
    /** Relies on the committed version staying what it read, or what its own commit makes it. */
    predicate PastRead() {
      !(Ask? || AwaitDiff? || CallMark? || CallReset? || AwaitReset? || DoneRaised?)
    }

    predicate RollingBack() {
      CallReset? || AwaitReset? || AwaitBack? || AskBack? || AwaitRollback? || BackCommitted? || Undo? || Restore? || DoneBack? || DoneRaised?
    }

    /** Routing has been taken back to the committed version. */
    predicate PastReset() {
      AwaitBack? || AskBack? || AwaitRollback? || BackCommitted? || Undo? || Restore? || DoneBack?
    }

    /** Polls Serve, and whether it was cancelled, before each poll. */
    predicate Polls() { Ask? || Clear? || Lower? || Stop? || BringUp? || Raise? }

    /** The gateway is switched to the request's models and its commit hasn't been answered. */
    predicate Switched() { AwaitSwitch? || CallCommit? || AwaitCommit? }
  }

  datatype Worker = Worker(wid: nat, job: Job, pc: Pc)

  /** What a call waits for the version lock to do: read the committed version, or write the next. */
  datatype OpKind = ForDiff | ForReset | ForRollback | ForWrite(id: nat, models: seq<Model>)
  datatype Op = Op(wid: nat, kind: OpKind)

  /** A call sent by a worker that died before it was handled. */
  datatype Call = CSwitch(id: nat, models: seq<Model>) | CCommit(id: nat, wid: nat, models: seq<Model>) | CMark(id: nat) | CReset(wid: nat)
  {
    predicate Of(request: nat) { !CReset? && id == request }
  }

  /** A call to Serve sent by a worker that died before it was handled. */
  datatype Late = LateDelete(app: App) | LateSubmit(m: Model) | LateRescale(x: Rescale)

  /** What the coordinator's drain or recovery task awaits. */
  datatype Stage = Idle | Working | Rolling | Recovering
  datatype Recovery = Unstarted | Underway | Over

  datatype State = State(
    gw: string,
    serve: map<App, ServeApp>,
    stored: Option<Stored>,
    c: Coord,
    // in order of arrival; the head holds the version lock
    lock: seq<Op>,
    worker: Option<Worker>,
    stage: Stage,
    recovery: Recovery,
    strays: set<Call>,
    late: set<Late>,
    // the recovery's rollback worker, still at work after the recovery ended early
    orphan: Option<Worker>,
    nextWid: nat,
    // a committed version read for a gateway with no routing yet, not published so far
    lazy: Option<Option<seq<Model>>>,
    // history: cancels accepted, versions written (request, models), requests started, requests dropped unstarted
    accepted: set<nat>,
    writes: seq<(nat, seq<Model>)>,
    started: seq<nat>,
    dropped: set<nat>,
    // a dead worker's reset took routing back after the running request's switch and before its write
    unswitched: bool,
    // apps that late calls or the orphan put in Serve since the last diff was read from it
    added: set<App>,
    // apps that late calls or the orphan deleted, and that were not submitted since
    hit: set<App>)
  {
    /** Serve's apps but for those added behind the worker's back. */
    function Known(): map<App, ServeApp> { serve - added }

    /** Serve's apps but for those deleted behind the worker's back. */
    function Unhit(): map<App, ServeApp> { serve - hit }

    function Committed(): Option<seq<Model>> {
      if stored.Some? then Some(stored.value.current.models) else None
    }

    function Named(): set<App> { Apps(gw, Set(Committed())) }

    function Move(pc: Pc): State
      requires worker.Some?
    {
      this.(worker := Some(worker.value.(pc := pc)))
    }

    /** The worker that waits for *op*, if it is still alive. */
    predicate WaitsFor(op: Op) {
      worker.Some? && worker.value.wid == op.wid &&
      match op.kind
      case ForDiff => worker.value.pc.AwaitDiff?
      case ForReset => worker.value.pc.AwaitReset?
      case ForRollback => worker.value.pc.AwaitRollback?
      case ForWrite(_, _) => worker.value.pc.AwaitCommit?
    }
  }

  /** Requests and polls from outside, and the coordinator's restart. */
  datatype Outside = Submit(request: Request) | Cancel(id: nat) | LazyRead | LazySet | Restart(clock: nat, landed: bool)

  /** What Serve does by itself, and other gateways' apps in it. */
  datatype Event = ServeStatus(app: App, held: ServeApp) | ServeGone(app: App) | OtherApp(app: App, now: Option<ServeApp>)

  /** The coordinator's drain and recovery tasks. */
  datatype Task = RecoverStart(found: bool) | RecoverEnd | RecoverAbandon | Start(made: bool) | RunEnd | Notice(made: bool) | RollEnd | EndDrain

  /** Calls of the coordinator: queued ones done, a dead worker's arriving, the live worker's, and its death; and a dead
      worker's calls of Serve. */
  datatype Dealing =
    LockDone(ok: bool, landed: bool) | Deliver(call: Call) | CallOut | AskDiff | Die(sent: Option<Call>) | DieCalling(late: Late) | Land(late: Late)

  /** The worker's own steps. */
  datatype Work = SeeCancel | Fail | ReadServe(readable: bool) | Next | Poll

  /** The worker's changes of Serve, and an app seen RUNNING. */
  datatype Change = ServeDelete(app: App) | ServeSubmit(m: Model) | SeeRunning(app: App) | ServeRescale(x: Rescale)

  /** The steps of a rollback worker that nothing waits for any more. */
  datatype Lone =
    LoneCall | LoneNext | LoneRead(readable: bool) | LonePoll | LoneDelete(app: App) | LoneRescale(x: Rescale) | LoneDie(sent: Option<Call>) | LoneDieCalling(late: Late)

  datatype Act =
    FromOutside(outside: Outside) | OfServe(event: Event) | OfTask(task: Task) | OfCall(dealing: Dealing) | OfWorker(work: Work) | OnServe(change: Change) | OfOrphan(lone: Lone)

  function Rollback(): Request { Request(Bare, BlueGreen, None) }

  function Left(pc: Pc): set<App> {
    match pc
    case Clear(_, left) => left
    case Stop(_, left) => left
    case Retire(_, left) => left
    case Undo(_, _, left) => left
    case _ => {}
  }

  function WithLeft(pc: Pc, left: set<App>): Pc {
    match pc
    case Clear(diff, _) => Clear(diff, left)
    case Stop(diff, _) => Stop(diff, left)
    case Retire(diff, _) => Retire(diff, left)
    case Undo(outcome, diff, _) => Undo(outcome, diff, left)
    case _ => pc
  }

  /** The rescales a worker's current step re-submits. */
  predicate MayRescale(pc: Pc, x: Rescale) {
    match pc
    case Lower(diff) => x in diff.scaleDowns
    case Raise(diff) => x in diff.scaleUps
    case Restore(_, diff) => x in diff.scaleDowns || x in diff.scaleUps
    case _ => false
  }

  /** A call the worker may have sent, unanswered, when it dies. */
  predicate MaySend(w: Worker, call: Call) {
    match w.pc
    case CallSwitch(diff) => w.job.RunJob? && diff.models.Some? && call == CSwitch(w.job.id, diff.models.value)
    case CallCommit(diff) => w.job.RunJob? && diff.models.Some? && call == CCommit(w.job.id, w.wid, diff.models.value)
    case CallMark(_) => w.job.RunJob? && call == CMark(w.job.id)
    case CallReset(_) => call == CReset(w.wid)
    case _ => false
  }

  /** A call of Serve the worker may have sent, unanswered, when it dies. */
  predicate MayLeave(pc: Pc, call: Late) {
    match call
    case LateDelete(app) => app in Left(pc)
    case LateSubmit(m) => pc.BringUp? && m in pc.diff.deploys
    case LateRescale(x) => MayRescale(pc, x)
  }

  /** A step's pc once its own wait is over, when it makes no call; None while it waits. */
  function Following(gw: string, request: Request, pc: Pc): Option<Pc> {
    match pc
    case Clear(diff, left) => if left == {} then Some(Lower(diff)) else None
    case Lower(diff) => Some(if request.strategy == StopStart then Stop(diff, diff.retired) else BringUp(diff, Apps(gw, diff.deploys)))
    case Stop(diff, left) => if left == {} then Some(BringUp(diff, Apps(gw, diff.deploys))) else None
    case BringUp(diff, pending) => if pending == {} then Some(Raise(diff)) else None
    case Raise(diff) => Some(if diff.commits then CallSwitch(diff) else Retire(diff, RetiredAfter(request, diff)))
    case AwaitSwitch(diff) => Some(CallCommit(diff))
    case Retire(diff, left) => if left == {} then Some(DoneOk(diff)) else None
    case AwaitBack(outcome) => Some(AskBack(outcome))
    case Undo(outcome, diff, left) => if left == {} then Some(Restore(outcome, diff)) else None
    case Restore(outcome, _) => Some(DoneBack(outcome))
    case _ => None
  }

  /** What is deleted after the commit: nothing of a stop_start request, which did so before. */
  function RetiredAfter(request: Request, diff: Diff): set<App> {
    if request.strategy == BlueGreen then diff.retired else {}
  }

  function RequestOf(job: Job): Request { if job.RunJob? then job.request else Rollback() }

  /** A diff's read of the committed version at the head of the version lock's queue. */
  ghost function DiffReadDone(s: State, ok: bool): State
    requires s.lock != []
  {
    var t := s.(lock := s.lock[1..]);
    if s.WaitsFor(s.lock[0]) then t.Move(if ok then HaveCommitted(s.Committed()) else CallMark(Failed)) else t
  }

  /** A rollback diff's read at the head. */
  ghost function BackReadDone(s: State, ok: bool): State
    requires s.lock != [] && (s.WaitsFor(s.lock[0]) ==> s.worker.value.pc.AwaitRollback?)
  {
    var t := s.(lock := s.lock[1..]);
    if s.WaitsFor(s.lock[0]) then t.Move(if ok then BackCommitted(s.worker.value.pc.outcome, s.Committed()) else DoneRaised) else t
  }

  /** A routing reset's read at the head, and the reset. */
  ghost function ResetDone(s: State, ok: bool): State
    requires s.lock != [] && (s.WaitsFor(s.lock[0]) ==> s.worker.value.pc.AwaitReset?)
  {
    var t, waited := s.(lock := s.lock[1..]), s.WaitsFor(s.lock[0]);
    if !ok then if waited then t.Move(DoneRaised) else t
    else if waited then t.(c := t.c.Reset(s.Committed())).Move(AwaitBack(s.worker.value.pc.outcome))
    else t.(c := t.c.Reset(s.Committed()), unswitched := t.worker.Some? && t.worker.value.pc.Switched())
  }

  /** The write of a commit at the head, stored or not. */
  ghost function WriteStored(s: State, landed: bool): State
    requires s.lock != [] && s.lock[0].kind.ForWrite?
  {
    var op, t := s.lock[0], s.(lock := s.lock[1..]);
    if landed then t.(stored := Some(CommitVersion(t.stored, op.kind.models)), writes := t.writes + [(op.kind.id, op.kind.models)]) else t
  }

  /** The commit's answer: *ok* when its store calls returned, else they raised, whether or not the write is stored. */
  ghost function WriteDone(s: State, ok: bool, landed: bool): State
    requires s.lock != [] && s.lock[0].kind.ForWrite? && (s.WaitsFor(s.lock[0]) ==> s.worker.value.pc.AwaitCommit?)
  {
    var t := WriteStored(s, landed);
    var u := if ok then t.(c := t.c.CommitEnd(s.lock[0].kind.id)) else t;
    if !s.WaitsFor(s.lock[0]) then u
    else if ok then u.Move(Retire(s.worker.value.pc.diff, RetiredAfter(RequestOf(s.worker.value.job), s.worker.value.pc.diff)))
    else u.Move(CallMark(Failed))
  }

  ghost function LockStep(s: State, ok: bool, landed: bool): Option<State>
    requires s.lock != []
  {
    match s.lock[0].kind
    case ForDiff => Some(DiffReadDone(s, ok))
    case ForReset => Some(ResetDone(s, ok))
    case ForRollback => Some(BackReadDone(s, ok))
    case ForWrite(_, _) => if ok && !landed then None else Some(WriteDone(s, ok, landed))
  }

  /** A dead worker's call arriving. */
  ghost function Delivered(s: State, call: Call): State {
    var t := s.(strays := s.strays - {call});
    match call
    case CSwitch(id, models) => t.(c := t.c.Switch(id, models))
    case CCommit(id, wid, models) =>
      t.(c := t.c.CommitBegin(id), lock := if t.c.CommitReplyTo(id) == Writing then t.lock + [Op(wid, ForWrite(id, models))] else t.lock)
    case CMark(id) => t.(c := t.c.MarkRollingBack(id))
    case CReset(wid) => t.(lock := t.lock + [Op(wid, ForReset)])
  }

  /** The worker's next call to the coordinator, handled. */
  ghost function Called(s: State): Option<State>
    requires s.worker.Some?
  {
    var w := s.worker.value;
    match w.pc
    case CallSwitch(diff) =>
      if !w.job.RunJob? || diff.models.None? then None
      else if s.c.Accepts(w.job.id) then
        Some(s.(c := s.c.Switch(w.job.id, diff.models.value), unswitched := false).Move(AwaitSwitch(diff)))
      else Some(s.Move(CallMark(Failed)))
    case CallCommit(diff) =>
      if !w.job.RunJob? || diff.models.None? then None else (
      match s.c.CommitReplyTo(w.job.id)
      case Refused => Some(s.Move(CallMark(Failed)))
      case NothingWritten => Some(s.Move(CallMark(Cancelled)))
      case Writing => Some(s.(c := s.c.CommitBegin(w.job.id), lock := s.lock + [Op(w.wid, ForWrite(w.job.id, diff.models.value))])
                            .Move(AwaitCommit(diff))))
    case CallMark(outcome) =>
      if !w.job.RunJob? then None else Some(s.(c := s.c.MarkRollingBack(w.job.id)).Move(CallReset(outcome)))
    case CallReset(outcome) => Some(s.(lock := s.lock + [Op(w.wid, ForReset)]).Move(AwaitReset(outcome)))
    case AskBack(outcome) => Some(s.(lock := s.lock + [Op(w.wid, ForRollback)]).Move(AwaitRollback(outcome)))
    case _ => None
  }

  /** The worker's reads of Serve once the coordinator has read the committed version for it. */
  ghost function ServeRead(s: State, readable: bool): Option<State>
    requires s.worker.Some?
  {
    var w := s.worker.value;
    match w.pc
    case HaveCommitted(committed) =>
      if !w.job.RunJob? then None
      else if !readable then Some(s.Move(Ask))
      else if WellNamed(w.job.request, committed) then
        var diff := DiffOf(s.gw, w.job.request, committed, s.serve);
        Some(s.(added := {}).Move(Clear(diff, diff.leftovers)))
      else Some(s.Move(CallMark(Failed)))
    case BackCommitted(outcome, committed) =>
      if !readable then Some(s.Move(AskBack(outcome))) else
        var diff := DiffOf(s.gw, Rollback(), committed, s.serve);
        Some(s.(added := {}).Move(Undo(outcome, diff, diff.leftovers)))
    case _ => None
  }

  // --- One function per step; None where the step can't happen ---

  ghost function Submitted(s: State, request: Request): State {
    s.(c := s.c.Submit(request))
  }

  ghost function Cancelling(s: State, id: nat): State {
    s.(c := s.c.Cancel(id), accepted := if s.c.CancelAccepted(id) then s.accepted + {id} else s.accepted,
       dropped := if s.c.IndexOf(id) < |s.c.queue| then s.dropped + {id} else s.dropped)
  }

  ghost function LazilyRead(s: State): Option<State> {
    if s.c.routing.None? then Some(s.(lazy := Some(s.Committed()))) else None
  }

  ghost function LazilySet(s: State): Option<State> {
    if s.lazy.Some? then Some(s.(c := s.c.RouteIfAbsent(s.lazy.value), lazy := None)) else None
  }

  ghost function RecoveryStarted(s: State, found: bool): Option<State> {
    if s.recovery != Unstarted then None
    else if found then
      Some(s.(recovery := Underway, stage := Recovering, worker := Some(Worker(s.nextWid, RecoverJob, CallReset(Failed))), nextWid := s.nextWid + 1))
    else Some(s.(recovery := Over))
  }

  /** A rollback's worker has returned, raised or died. */
  predicate RollbackEnded(s: State) {
    s.worker.None? || s.worker.value.pc.DoneBack? || s.worker.value.pc.DoneRaised?
  }

  ghost function RecoveryEnded(s: State): Option<State> {
    if s.stage == Recovering && RollbackEnded(s) then Some(s.(recovery := Over, stage := Idle, worker := None)) else None
  }

  /** Another gateway's rollback worker could not be made: the recovery ends at once, its other workers still at work. */
  ghost function RecoveryAbandoned(s: State): Option<State> {
    if s.stage == Recovering && s.worker.Some? then Some(s.(recovery := Over, stage := Idle, orphan := s.worker, worker := None)) else None
  }

  ghost function Started(s: State, made: bool): Option<State> {
    if s.stage != Idle || s.recovery != Over || !s.c.drainer || s.c.queue == [] || s.c.running.Some? then None else
    var entry, t := s.c.queue[0], s.(c := s.c.StartNext(), started := s.started + [s.c.queue[0].id]);
    Some(if made then
           t.(stage := Working, worker := Some(Worker(s.nextWid, RunJob(entry.id, entry.request), Ask)), nextWid := s.nextWid + 1)
         else t.(c := t.c.Finish(Failed)))
  }

  /** What a request's worker returned. */
  function Returned(pc: Pc): Option<Outcome> {
    match pc
    case DoneOk(_) => Some(Succeeded)
    case DoneBack(outcome) => Some(outcome)
    case DoneRaised => Some(Failed)
    case _ => None
  }

  ghost function RunEnded(s: State): Option<State> {
    if s.stage != Working || s.worker.None? || Returned(s.worker.value.pc).None? then None
    else Some(s.(c := s.c.Finish(Returned(s.worker.value.pc).value), stage := Idle, worker := None))
  }

  ghost function Noticed(s: State, made: bool): Option<State> {
    if s.stage != Working || s.worker.Some? then None
    else if made then
      Some(s.(c := s.c.NoticeDeath(), stage := Rolling, worker := Some(Worker(s.nextWid, RollJob, CallReset(Failed))), nextWid := s.nextWid + 1))
    else Some(s.(c := s.c.NoticeDeath().Finish(Failed), stage := Idle))
  }

  ghost function RollEnded(s: State): Option<State> {
    if s.stage == Rolling && s.c.running.Some? && RollbackEnded(s) then
      Some(s.(c := s.c.Finish(s.c.OutcomeAfterDeath()), stage := Idle, worker := None))
    else None
  }

  ghost function DrainEnded(s: State): Option<State> {
    if s.stage == Idle && s.recovery == Over && s.c.drainer && s.c.queue == [] && s.c.running.None? then Some(s.(c := s.c.EndDrain())) else None
  }

  ghost function CancelSeen(s: State): Option<State> {
    if s.worker.Some? && s.worker.value.job.RunJob? && s.c.ToldCancelled(s.worker.value.job.id) && s.worker.value.pc.Polls() then
      Some(s.(c := s.c.Told(s.worker.value.job.id)).Move(CallMark(Cancelled)))
    else None
  }

  ghost function Failing(s: State): Option<State> {
    if s.worker.Some? && s.worker.value.job.RunJob? &&
       (s.worker.value.pc.Polls() || s.worker.value.pc.HaveCommitted? || s.worker.value.pc.AwaitSwitch?) then
      Some(s.Move(CallMark(Failed)))
    else None
  }

  ghost function Asked(s: State): Option<State> {
    if s.worker.Some? && s.worker.value.job.RunJob? && s.worker.value.pc.Ask? then
      Some(if s.c.Accepts(s.worker.value.job.id) then s.(lock := s.lock + [Op(s.worker.value.wid, ForDiff)]).Move(AwaitDiff)
           else s.Move(CallMark(Failed)))
    else None
  }

  ghost function Stepped(s: State): Option<State> {
    if s.worker.None? then None else
    var pc := Following(s.gw, RequestOf(s.worker.value.job), s.worker.value.pc);
    if pc.Some? then Some(s.Move(pc.value)) else None
  }

  ghost function AppDeleted(s: State, app: App): Option<State> {
    if s.worker.Some? && app in Left(s.worker.value.pc) then
      Some(if app in s.serve then s.(serve := s.serve[app := s.serve[app].(status := Deleting)]) else s)
    else None
  }

  ghost function Polled(s: State): Option<State> {
    if s.worker.Some? then Some(s.Move(WithLeft(s.worker.value.pc, Left(s.worker.value.pc) * s.serve.Keys))) else None
  }

  ghost function AppSubmitted(s: State, m: Model): Option<State> {
    if s.worker.Some? && s.worker.value.pc.BringUp? && m in s.worker.value.pc.diff.deploys then
      Some(s.(serve := s.serve[AppOf(s.gw, m) := ServeApp(Deploying, Some(ServeScaling(m.scaling)))], hit := s.hit - {AppOf(s.gw, m)}))
    else None
  }

  ghost function RunningSeen(s: State, app: App): Option<State> {
    if s.worker.Some? && s.worker.value.pc.BringUp? && app in s.serve && s.serve[app].status == Running then
      Some(s.Move(BringUp(s.worker.value.pc.diff, s.worker.value.pc.pending - {app})))
    else None
  }

  ghost function AppRescaled(s: State, x: Rescale): Option<State> {
    if s.worker.Some? && MayRescale(s.worker.value.pc, x) then
      Some(s.(serve := s.serve[x.app := ServeApp(Deploying, Some(ServeScaling(x.scaling)))], hit := s.hit - {x.app}))
    else None
  }

  ghost function Died(s: State, sent: Option<Call>): Option<State> {
    if s.worker.Some? && (sent.Some? ==> MaySend(s.worker.value, sent.value)) then
      Some(s.(worker := None, strays := if sent.Some? then s.strays + {sent.value} else s.strays))
    else None
  }

  ghost function DiedCalling(s: State, sent: Late): Option<State> {
    if s.worker.Some? && MayLeave(s.worker.value.pc, sent) then Some(s.(worker := None, late := s.late + {sent})) else None
  }

  /** A deletion nobody's current step asked for. */
  ghost function Struck(s: State, app: App): State {
    if app in s.serve then s.(serve := s.serve[app := s.serve[app].(status := Deleting)], hit := s.hit + {app}) else s
  }

  /** An app submitted, new or not, that nobody's current step asked for. */
  ghost function Intruded(s: State, app: App, scaling: Scaling): State {
    s.(serve := s.serve[app := ServeApp(Deploying, Some(ServeScaling(scaling)))], added := s.added + {app}, hit := s.hit - {app})
  }

  /** A dead worker's call of Serve handled at last. */
  ghost function Landed(s: State, call: Late): State {
    var t := s.(late := s.late - {call});
    match call
    case LateDelete(app) => Struck(t, app)
    case LateSubmit(m) => Intruded(t, AppOf(s.gw, m), m.scaling)
    case LateRescale(x) => Intruded(t, x.app, x.scaling)
  }

  // --- The orphan ---

  function At(w: Worker, pc: Pc): Option<Worker> { Some(w.(pc := pc)) }

  ghost function LoneCalled(s: State, w: Worker): Option<State> {
    match w.pc
    case CallReset(outcome) => Some(s.(lock := s.lock + [Op(w.wid, ForReset)], orphan := At(w, AwaitReset(outcome))))
    case AskBack(outcome) => Some(s.(lock := s.lock + [Op(w.wid, ForRollback)], orphan := At(w, AwaitRollback(outcome))))
    case _ => None
  }

  /** Where the orphan stands once the head of the version lock's queue is done. */
  ghost function Answered(s: State, ok: bool): Option<Worker>
    requires s.lock != []
  {
    if s.orphan.None? || s.orphan.value.wid != s.lock[0].wid then s.orphan else (
      var w := s.orphan.value;
      match w.pc
      case AwaitReset(outcome) => At(w, if ok then AwaitBack(outcome) else DoneRaised)
      case AwaitRollback(outcome) => At(w, if ok then BackCommitted(outcome, s.Committed()) else DoneRaised)
      case _ => s.orphan)
  }

  ghost function LoneReads(s: State, w: Worker, readable: bool): Option<State> {
    if !w.pc.BackCommitted? then None
    else if !readable then Some(s.(orphan := At(w, AskBack(w.pc.outcome))))
    else
      var diff := DiffOf(s.gw, Rollback(), w.pc.committed, s.serve);
      Some(s.(orphan := At(w, Undo(w.pc.outcome, diff, diff.leftovers))))
  }

  ghost function ApplyLone(s: State, l: Lone): Option<State> {
    if s.orphan.None? then None else
      var w := s.orphan.value;
      match l
      case LoneCall => LoneCalled(s, w)
      case LoneNext =>
        var pc := Following(s.gw, Rollback(), w.pc);
        if pc.Some? then Some(s.(orphan := At(w, pc.value))) else None
      case LoneRead(readable) => LoneReads(s, w, readable)
      case LonePoll => Some(s.(orphan := At(w, WithLeft(w.pc, Left(w.pc) * s.serve.Keys))))
      case LoneDelete(app) => if app in Left(w.pc) then Some(Struck(s, app)) else None
      case LoneRescale(x) => if MayRescale(w.pc, x) then Some(Intruded(s, x.app, x.scaling)) else None
      case LoneDie(sent) =>
        if sent.Some? ==> MaySend(w, sent.value) then
          Some(s.(orphan := None, strays := if sent.Some? then s.strays + {sent.value} else s.strays))
        else None
      case LoneDieCalling(late) => if MayLeave(w.pc, late) then Some(s.(orphan := None, late := s.late + {late})) else None
  }

  /** The coordinator dies with its workers and comes back empty, its clock past every seq it gave out; a write under
      way has landed or never will. */
  ghost function Restarted(s: State, clock: nat, landed: bool): Option<State> {
    if clock < s.c.seqNo then None else
    var t := if landed && s.lock != [] && s.lock[0].kind.ForWrite? then
               s.(stored := Some(CommitVersion(s.stored, s.lock[0].kind.models)), writes := s.writes + [(s.lock[0].kind.id, s.lock[0].kind.models)])
             else s;
    Some(t.(c := Coord([], None, None, clock, s.c.nextId, false, s.c.outcomes), lock := [], worker := None, orphan := None, stage := Idle,
            recovery := Unstarted, lazy := None, dropped := s.dropped + set i | 0 <= i < |s.c.queue| :: s.c.queue[i].id))
  }

  ghost function ServeMoved(s: State, app: App, held: ServeApp): Option<State> {
    if app in s.serve && (s.serve[app].status == Deleting <==> held.status == Deleting) then Some(s.(serve := s.serve[app := held])) else None
  }

  ghost function OtherMoved(s: State, app: App, now: Option<ServeApp>): Option<State> {
    if app.Listed(s.gw) then None
    else Some(s.(serve := if now.Some? then s.serve[app := now.value] else s.serve - {app}))
  }

  ghost function ApplyOutside(s: State, o: Outside): Option<State> {
    match o
    case Submit(request) => Some(Submitted(s, request))
    case Cancel(id) => Some(Cancelling(s, id))
    case LazyRead => LazilyRead(s)
    case LazySet => LazilySet(s)
    case Restart(clock, landed) => Restarted(s, clock, landed)
  }

  ghost function ApplyEvent(s: State, e: Event): Option<State> {
    match e
    case ServeStatus(app, held) => ServeMoved(s, app, held)
    case ServeGone(app) => Some(s.(serve := s.serve - {app}, hit := s.hit - {app}))
    case OtherApp(app, now) => OtherMoved(s, app, now)
  }

  ghost function ApplyTask(s: State, k: Task): Option<State> {
    match k
    case RecoverStart(found) => RecoveryStarted(s, found)
    case RecoverEnd => RecoveryEnded(s)
    case RecoverAbandon => RecoveryAbandoned(s)
    case Start(made) => Started(s, made)
    case RunEnd => RunEnded(s)
    case Notice(made) => Noticed(s, made)
    case RollEnd => RollEnded(s)
    case EndDrain => DrainEnded(s)
  }

  ghost function ApplyCall(s: State, d: Dealing): Option<State> {
    match d
    case LockDone(ok, landed) =>
      if s.lock == [] || LockStep(s, ok, landed).None? then None else Some(LockStep(s, ok, landed).value.(orphan := Answered(s, ok)))
    case Deliver(call) => if call in s.strays then Some(Delivered(s, call)) else None
    case CallOut => if s.worker.Some? then Called(s) else None
    case AskDiff => Asked(s)
    case Die(sent) => Died(s, sent)
    case DieCalling(late) => DiedCalling(s, late)
    case Land(late) => if late in s.late then Some(Landed(s, late)) else None
  }

  ghost function ApplyWork(s: State, w: Work): Option<State> {
    match w
    case SeeCancel => CancelSeen(s)
    case Fail => Failing(s)
    case ReadServe(readable) => if s.worker.Some? then ServeRead(s, readable) else None
    case Next => Stepped(s)
    case Poll => Polled(s)
  }

  ghost function ApplyChange(s: State, c: Change): Option<State> {
    match c
    case ServeDelete(app) => AppDeleted(s, app)
    case ServeSubmit(m) => AppSubmitted(s, m)
    case SeeRunning(app) => RunningSeen(s, app)
    case ServeRescale(x) => AppRescaled(s, x)
  }

  /** One step; None when it can't happen. */
  ghost function Apply(s: State, a: Act): Option<State> {
    match a
    case FromOutside(outside) => ApplyOutside(s, outside)
    case OfServe(event) => ApplyEvent(s, event)
    case OfTask(task) => ApplyTask(s, task)
    case OfCall(dealing) => ApplyCall(s, dealing)
    case OfWorker(work) => ApplyWork(s, work)
    case OnServe(change) => ApplyChange(s, change)
    case OfOrphan(lone) => ApplyLone(s, lone)
  }

  /** A fresh coordinator over any store and any apps left in Serve. */
  ghost predicate Init(s: State) {
    s.c == Coord([], None, None, s.c.seqNo, 0, false, map[]) && s.lock == [] && s.worker.None? && s.stage == Idle &&
    s.recovery == Unstarted && s.strays == {} && s.late == {} && s.orphan.None? && s.added == {} && s.hit == {} && s.lazy.None? && s.accepted == {} && s.writes == [] && s.started == [] && s.dropped == {} &&
    UniqueNames(Set(s.Committed()))
  }

  /** A run: each state is the one before it after its step. */
  ghost predicate IsRun(states: seq<State>, acts: seq<Act>) {
    |states| == |acts| + 1 && Init(states[0]) &&
    forall i {:trigger acts[i]} :: 0 <= i < |acts| ==> Apply(states[i], acts[i]) == Some(states[i + 1])
  }

  ghost predicate Reachable(s: State) {
    exists states, acts :: IsRun(states, acts) && states[|acts|] == s
  }
}
