/** What every step of the deploy protocol keeps, and what that means over whole runs. */
module DeployProtocolProofs {
  import opened Wrappers
  import opened AppNames
  import opened Ledger
  import opened DeployDiff
  import opened Rollout
  import opened Coordinator
  import opened DeployProtocol

  // --- What a request's diff keeps to, against the committed version it was built from ---

  ghost predicate GoodDiff(gw: string, committed: Option<seq<Model>>, diff: Diff) {
    var current, result := Apps(gw, Set(committed)), Apps(gw, Set(diff.models));
    UniqueNames(Set(diff.models)) &&
    diff.leftovers !! current &&
    diff.retired <= current && diff.retired !! result && current <= result + diff.retired &&
    Apps(gw, diff.deploys) <= result &&
    (forall x :: x in diff.scaleDowns ==> x.app in current) &&
    (forall x :: x in diff.scaleUps ==> x.app in current - diff.retired) &&
    (if diff.commits then diff.models.Some? && diff.models != committed else diff.models == committed && diff.retired == {})
  }

  /** The gateway's listed apps in Serve are all in *kept* or in *left*. */
  ghost predicate Covered(gw: string, serve: map<App, ServeApp>, kept: set<App>, left: set<App>) {
    forall a :: a in serve && a.Listed(gw) ==> a in kept || a in left
  }

  lemma DiffIsGood(gw: string, request: Request, committed: Option<seq<Model>>, serve: map<App, ServeApp>)
    requires WellNamed(request, committed)
    ensures GoodDiff(gw, committed, DiffOf(gw, request, committed, serve))
  {
    var diff := DiffOf(gw, request, committed, serve);
    var current, wanted := Set(committed), Wanted(request, committed);
    DiffSound(gw, request, committed, serve);
    DeploysAreWanted(gw, wanted, diff.deploys);
    if request.Proposes() {
      ResultIs(gw, request, committed);
      ProposalKeeps(gw, request, committed, diff);
    } else {
      NothingRetired(gw, request, committed, diff);
    }
  }

  lemma NothingRetired(gw: string, request: Request, committed: Option<seq<Model>>, diff: Diff)
    requires WellNamed(request, committed) && !request.Proposes()
    requires SoundRetired(gw, request, Set(committed), Set(committed), diff)
    ensures diff.retired == {}
  {
  }

  /** A committed app is the proposal's too, or retired; and if the proposal changes nothing, none is retired. */
  lemma ProposalKeeps(gw: string, request: Request, committed: Option<seq<Model>>, diff: Diff)
    requires WellNamed(request, committed) && request.Proposes()
    requires SoundRetired(gw, request, Set(committed), Wanted(request, committed), diff)
    ensures var result := Apps(gw, Proposed(request, committed));
            Apps(gw, Set(committed)) <= result + diff.retired && diff.retired !! result && Apps(gw, request.models.value) <= result
    ensures Apps(gw, Proposed(request, committed)) == Apps(gw, Set(committed)) ==> diff.retired == {}
  {
    ResultIs(gw, request, committed);
    var input, proposed := request.models.value, Proposed(request, committed);
    forall m | m in Set(committed)
      ensures AppOf(gw, m) in Apps(gw, proposed) <==> AppOf(gw, m) !in diff.retired
    {
      if m.name in Names(input) {
        if AppOf(gw, m) in Apps(gw, proposed) {
          var p :| p in proposed && AppOf(gw, p) == AppOf(gw, m);
          assert p in input;
        }
        if AppOf(gw, m) in Apps(gw, input) {
          var p :| p in input && AppOf(gw, p) == AppOf(gw, m);
          assert p in proposed;
        }
      } else if AppOf(gw, m) in Apps(gw, proposed) {
        var p :| p in proposed && AppOf(gw, p) == AppOf(gw, m);
        assert p !in input;
      } else {
        assert m !in proposed;
      }
    }
    forall m | m in input
      ensures AppOf(gw, m) in Apps(gw, proposed)
    {
      assert m in proposed;
    }
  }

  // --- The invariant ---

  predicate IsWrite(op: Op) { op.kind.ForWrite? }

  ghost predicate WriteWaits(lock: seq<Op>) { exists i :: 0 <= i < |lock| && IsWrite(lock[i]) }

  predicate InPhase(running: Option<Entry>, phase: Phase) { running.Some? && running.value.phase == phase }

  predicate RunsIn(running: Option<Entry>, id: nat) { running.Some? && running.value.id == id }

  ghost predicate InQueue(queue: seq<Entry>, id: nat) { exists j :: 0 <= j < |queue| && queue[j].id == id }

  /** Which workers there can be at each stage, one at most. */
  ghost predicate Staged(running: Option<Entry>, stage: Stage, recovery: Recovery, worker: Option<Worker>) {
    (stage == Idle ==> worker.None? && running.None?) &&
    (stage == Working ==> running.Some?) &&
    (stage == Working && worker.Some? ==> worker.value.job == RunJob(running.value.id, running.value.request)) &&
    (stage == Rolling ==> running.Some?) &&
    (stage == Rolling && worker.Some? ==> worker.value.job.RollJob? && worker.value.pc.RollingBack()) &&
    (stage == Recovering ==> running.None?) &&
    (stage == Recovering && worker.Some? ==> worker.value.job.RecoverJob? && worker.value.pc.RollingBack()) &&
    (recovery == Underway <==> stage == Recovering) && (recovery == Unstarted ==> stage == Idle)
  }

  /** Worker ids in use are old ones. */
  ghost predicate Numbered(lock: seq<Op>, strays: set<Call>, worker: Option<Worker>, nextWid: nat) {
    (worker.Some? ==> worker.value.wid < nextWid) &&
    (forall i :: 0 <= i < |lock| ==> lock[i].wid < nextWid) &&
    (forall call :: call in strays && (call.CReset? || call.CCommit?) ==> call.wid < nextWid) &&
    (forall call :: call in strays && (call.CReset? || call.CCommit?) && worker.Some? ==> call.wid != worker.value.wid)
  }

  /** Writes waiting for the version lock: one at most, of a request that was let through and is no longer cancellable. */
  ghost predicate Locked(queue: seq<Entry>, running: Option<Entry>, nextId: nat, lock: seq<Op>, accepted: set<nat>) {
    (forall i :: 0 <= i < |lock| && IsWrite(lock[i]) ==>
      lock[i].kind.id < nextId && UniqueNames(lock[i].kind.models) && lock[i].kind.id !in accepted && !InQueue(queue, lock[i].kind.id)) &&
    (forall i :: 0 <= i < |lock| && IsWrite(lock[i]) && RunsIn(running, lock[i].kind.id) ==> running.value.phase == Committing) &&
    (forall i, j :: 0 <= i < j < |lock| ==> !(IsWrite(lock[i]) && IsWrite(lock[j])))
  }

  predicate Awaits(w: Worker, op: Op) {
    match op.kind
    case ForDiff => w.pc.AwaitDiff?
    case ForReset => w.pc.AwaitReset?
    case ForRollback => w.pc.AwaitRollback?
    case ForWrite(id, models) => w.pc.AwaitCommit? && w.job.RunJob? && id == w.job.id && w.pc.diff.models == Some(models)
  }

  /** The live worker waits for one operation at most; another's write is ahead of it, and it relies on no version yet. */
  ghost predicate Waiting(lock: seq<Op>, w: Worker) {
    (forall i :: 0 <= i < |lock| && lock[i].wid == w.wid ==> Awaits(w, lock[i])) &&
    (forall i, j :: 0 <= i < j < |lock| && lock[i].wid == w.wid ==> lock[j].wid != w.wid) &&
    (forall i :: 0 <= i < |lock| && IsWrite(lock[i]) && lock[i].wid != w.wid ==>
      !w.pc.PastRead() && (w.job.RunJob? ==> lock[i].kind.id != w.job.id)) &&
    (forall i, j :: 0 <= j < i < |lock| && IsWrite(lock[i]) && lock[i].wid != w.wid ==> lock[j].wid != w.wid)
  }

  /** A dead worker's calls: its request's are refused once its death is noticed, unless they can't exist any more. */
  ghost predicate Strayed(queue: seq<Entry>, running: Option<Entry>, nextId: nat, lock: seq<Op>, strays: set<Call>, stage: Stage, alive: bool) {
    (forall call :: call in strays && !call.CReset? ==> call.id < nextId && !InQueue(queue, call.id)) &&
    (forall call :: call in strays && !call.CReset? && RunsIn(running, call.id) ==> !(stage == Working && alive) && running.value.phase != Retiring) &&
    (forall call :: call in strays && (call.CSwitch? || call.CCommit?) && RunsIn(running, call.id) ==>
      running.value.phase != Committing && !WriteWaits(lock) && (stage == Rolling ==> running.value.phase == RollingBack)) &&
    (forall call, i :: call in strays && call.CMark? && RunsIn(running, call.id) && 0 <= i < |lock| && IsWrite(lock[i]) ==> lock[i].kind.id != call.id) &&
    (forall c1, c2 :: c1 in strays && c2 in strays && !c1.CReset? && !c2.CReset? && c1.id == c2.id && RunsIn(running, c1.id) ==> c1 == c2) &&
    (forall call :: call in strays && (call.CCommit? || call.CSwitch?) ==> UniqueNames(call.models))
  }

  /** What the worker's position says of the committed version, of Serve's apps and of what is left to delete. */
  ghost predicate Placed(gw: string, serve: map<App, ServeApp>, committed: Option<seq<Model>>, w: Worker) {
    var named := Apps(gw, Set(committed));
    match w.pc
    case HaveCommitted(read) => read == committed
    case Clear(diff, left) => GoodDiff(gw, committed, diff) && left <= diff.leftovers && Covered(gw, serve, named, left)
    case Lower(diff) => GoodDiff(gw, committed, diff) && Covered(gw, serve, named, {})
    case Stop(diff, left) =>
      GoodDiff(gw, committed, diff) && left <= diff.retired && Covered(gw, serve, named - diff.retired, left) && RequestOf(w.job).strategy == StopStart
    case BringUp(diff, _) => Bringing(gw, serve, committed, w.job, diff)
    case Raise(diff) => Bringing(gw, serve, committed, w.job, diff)
    case CallSwitch(diff) => Bringing(gw, serve, committed, w.job, diff) && diff.commits
    case AwaitSwitch(diff) => Bringing(gw, serve, committed, w.job, diff) && diff.commits
    case CallCommit(diff) => Bringing(gw, serve, committed, w.job, diff) && diff.commits
    case AwaitCommit(diff) => Bringing(gw, serve, committed, w.job, diff) && diff.commits
    case Retire(diff, left) =>
      committed == diff.models && left <= diff.retired && diff.retired !! named && Covered(gw, serve, named, left) &&
      (!diff.commits ==> diff.retired == {})
    case DoneOk(diff) => committed == diff.models && Covered(gw, serve, named, {})
    case BackCommitted(_, read) => read == committed
    case Undo(_, diff, left) => left !! named && Covered(gw, serve, named, left) && RescalesNamed(named, diff)
    case Restore(_, diff) => Covered(gw, serve, named, {}) && RescalesNamed(named, diff)
    case DoneBack(_) => Covered(gw, serve, named, {})
    case _ => true
  }

  /** The running request's phase, by where its own worker stands; a rollback's request never comes out as succeeded. */
  ghost predicate Phased(running: Option<Entry>, w: Worker) {
    (w.pc.CallMark? || (w.pc.RollingBack() && !w.pc.DoneRaised?) ==> w.pc.outcome != Succeeded) &&
    (w.job.RunJob? ==>
      running.Some? &&
      (w.pc.Polls() || w.pc.AwaitDiff? || w.pc.HaveCommitted? || w.pc.CallSwitch? || w.pc.AwaitSwitch? || w.pc.CallCommit? ==>
        running.value.phase == Applying || running.value.phase == Switching) &&
      (w.pc.AwaitCommit? ==> running.value.phase == Committing) &&
      ((w.pc.Retire? || w.pc.DoneOk?) && w.pc.diff.commits ==> running.value.phase == Retiring) &&
      (w.pc.CallMark? ==> running.value.phase == Applying || running.value.phase == Switching || running.value.phase == Committing) &&
      (w.pc.RollingBack() ==> running.value.phase == Phase.RollingBack))
  }

  ghost predicate RescalesNamed(named: set<App>, diff: Diff) {
    forall x :: x in diff.scaleDowns || x in diff.scaleUps ==> x.app in named
  }

  /** While the request's apps come up; a stop_start request's retired apps are gone by then. */
  ghost predicate Bringing(gw: string, serve: map<App, ServeApp>, committed: Option<seq<Model>>, job: Job, diff: Diff) {
    GoodDiff(gw, committed, diff) &&
    Covered(gw, serve, Apps(gw, Set(diff.models)), RetiredAfter(RequestOf(job), diff))
  }

  /** Where routing points while the worker counts on it. */
  ghost predicate Routed(routing: Option<Routing>, committed: Option<seq<Model>>, unswitched: bool, w: Worker) {
    (w.pc.PastReset() ==> routing.Some? && routing.value.models == committed) &&
    (w.pc.Switched() ==> routing.Some? && routing.value.models == if unswitched then committed else w.pc.diff.models) &&
    ((w.pc.Retire? || w.pc.DoneOk?) && w.pc.diff.commits ==> routing.Some? && (routing.value.models == committed <==> !unswitched))
  }

  /** Cancels and writes exclude each other. */
  ghost predicate CancelsKept(queue: seq<Entry>, running: Option<Entry>, nextId: nat, accepted: set<nat>, writes: seq<(nat, seq<Model>)>) {
    (forall id :: id in accepted ==> id < nextId && !InQueue(queue, id)) &&
    (running.Some? ==> (running.value.cancelled <==> running.value.id in accepted)) &&
    (running.Some? && running.value.cancelled ==> running.value.phase != Committing && running.value.phase != Retiring) &&
    (forall k :: 0 <= k < |writes| ==> writes[k].0 < nextId && writes[k].0 !in accepted && !InQueue(queue, writes[k].0)) &&
    (forall k :: 0 <= k < |writes| && RunsIn(running, writes[k].0) ==> running.value.phase in {Committing, Retiring, Phase.RollingBack})
  }

  /** A request in its last phase is the one that wrote the committed version. */
  ghost predicate Written(running: Option<Entry>, lock: seq<Op>, writes: seq<(nat, seq<Model>)>, committed: Option<seq<Model>>) {
    UniqueNames(Set(committed)) &&
    (InPhase(running, Retiring) ==>
      !WriteWaits(lock) && writes != [] && writes[|writes| - 1].0 == running.value.id && committed == Some(writes[|writes| - 1].1))
  }

  /** Requests start in the order they were submitted in, and every one submitted has started, waits or was dropped. */
  ghost predicate Ordered(queue: seq<Entry>, running: Option<Entry>, nextId: nat, started: seq<nat>, dropped: set<nat>) {
    (forall i, j :: 0 <= i < j < |started| ==> started[i] < started[j]) &&
    (forall i, j :: 0 <= i < |started| && 0 <= j < |queue| ==> started[i] < queue[j].id) &&
    (forall i :: 0 <= i < |started| ==> started[i] < nextId) &&
    (forall id: nat :: id < nextId ==> id in started || id in dropped || InQueue(queue, id)) &&
    (forall id :: id in dropped ==> id < nextId && id !in started && !InQueue(queue, id)) &&
    (running.Some? ==> started != [] && started[|started| - 1] == running.value.id)
  }

  ghost predicate Fits(s: State, w: Worker) {
    Waiting(s.lock, w) && Placed(s.gw, s.Known(), s.Committed(), w) && Phased(s.c.running, w) &&
    Routed(s.c.routing, s.Committed(), s.unswitched, w)
  }

  ghost predicate WorkerInv(s: State) { s.worker.Some? ==> Fits(s, s.worker.value) }

  ghost predicate QueueInv(s: State) {
    s.c.Valid() && CancelsKept(s.c.queue, s.c.running, s.c.nextId, s.accepted, s.writes) &&
    Written(s.c.running, s.lock, s.writes, s.Committed()) && Ordered(s.c.queue, s.c.running, s.c.nextId, s.started, s.dropped)
  }

  ghost predicate CallsInv(s: State) {
    Staged(s.c.running, s.stage, s.recovery, s.worker) && Numbered(s.lock, s.strays, s.worker, s.nextWid) &&
    Locked(s.c.queue, s.c.running, s.c.nextId, s.lock, s.accepted) &&
    Strayed(s.c.queue, s.c.running, s.c.nextId, s.lock, s.strays, s.stage, s.worker.Some?)
  }

  // The lemmas below say `== true` of the invariant and its groups: each is one fact to them, not its many parts.
  ghost predicate Inv(s: State) { QueueInv(s) && CallsInv(s) && WorkerInv(s) }

  lemma InitInv(s: State)
    requires Init(s)
    ensures Inv(s) == true
  {
  }

  // --- Steps from outside ---

  lemma QueuedAfterAppend(queue: seq<Entry>, entry: Entry)
    ensures forall id :: InQueue(queue + [entry], id) <==> InQueue(queue, id) || id == entry.id
  {
    forall id | InQueue(queue, id)
      ensures InQueue(queue + [entry], id)
    {
      var j :| 0 <= j < |queue| && queue[j].id == id;
      assert (queue + [entry])[j].id == id;
    }
    assert (queue + [entry])[|queue|] == entry;
  }

  lemma QueuedAfterRemoval(queue: seq<Entry>, i: nat)
    requires i < |queue| && forall k, j :: 0 <= k < j < |queue| ==> queue[k].id < queue[j].id
    ensures forall id :: InQueue(queue[..i] + queue[i + 1..], id) <==> InQueue(queue, id) && id != queue[i].id
  {
    var rest := queue[..i] + queue[i + 1..];
    forall id | InQueue(queue, id) && id != queue[i].id
      ensures InQueue(rest, id)
    {
      var j :| 0 <= j < |queue| && queue[j].id == id;
      assert rest[if j < i then j else j - 1] == queue[j];
    }
    forall id | InQueue(rest, id)
      ensures InQueue(queue, id) && id != queue[i].id
    {
      var j :| 0 <= j < |rest| && rest[j].id == id;
      assert rest[j] == queue[if j < i then j else j + 1];
    }
  }

  lemma SubmitKeeps(s: State, request: Request)
    requires Inv(s) == true
    ensures Inv(Submitted(s, request)) == true
  {
    SubmitQueue(s, request);
    SubmitCalls(s, request);
  }

  lemma SubmitQueue(s: State, request: Request)
    requires QueueInv(s) == true
    ensures QueueInv(Submitted(s, request)) == true
  {
    SubmitValid(s.c, request);
    QueuedAfterAppend(s.c.queue, Submitted(s, request).c.queue[|s.c.queue|]);
  }

  lemma SubmitCalls(s: State, request: Request)
    requires QueueInv(s) == true && CallsInv(s) == true
    ensures CallsInv(Submitted(s, request)) == true
  {
    QueuedAfterAppend(s.c.queue, Submitted(s, request).c.queue[|s.c.queue|]);
  }

  lemma CancelKeeps(s: State, id: nat)
    requires Inv(s) == true
    ensures Inv(Cancelling(s, id)) == true
  {
    CancelQueue(s, id);
    CancelCalls(s, id);
  }

  lemma CancelQueue(s: State, id: nat)
    requires QueueInv(s) == true
    ensures QueueInv(Cancelling(s, id)) == true
  {
    CancelValid(s.c, id);
    if s.c.IndexOf(id) < |s.c.queue| {
      CancelQueued(s, id);
    } else {
      CancelRunning(s, id);
    }
  }

  lemma CancelQueued(s: State, id: nat)
    requires QueueInv(s) == true && s.c.IndexOf(id) < |s.c.queue| && s.c.Cancel(id).Valid()
    ensures QueueInv(Cancelling(s, id)) == true
  {
    DroppedOrdered(s, s.c.IndexOf(id));
    DroppedKept(s, s.c.IndexOf(id));
  }

  lemma CancelRunning(s: State, id: nat)
    requires QueueInv(s) == true && s.c.IndexOf(id) == |s.c.queue| && s.c.Cancel(id).Valid()
    ensures QueueInv(Cancelling(s, id)) == true
  {
  }

  lemma DroppedKept(s: State, i: nat)
    requires QueueInv(s) == true && i < |s.c.queue|
    ensures CancelsKept(s.c.queue[..i] + s.c.queue[i + 1..], s.c.running, s.c.nextId, s.accepted + {s.c.queue[i].id}, s.writes)
  {
    QueuedAfterRemoval(s.c.queue, i);
    assert InQueue(s.c.queue, s.c.queue[i].id);
  }

  lemma DroppedOrdered(s: State, i: nat)
    requires QueueInv(s) == true && i < |s.c.queue|
    ensures Ordered(s.c.queue[..i] + s.c.queue[i + 1..], s.c.running, s.c.nextId, s.started, s.dropped + {s.c.queue[i].id})
  {
    QueuedAfterRemoval(s.c.queue, i);
  }

  lemma CancelCalls(s: State, id: nat)
    requires QueueInv(s) == true && CallsInv(s) == true
    ensures CallsInv(Cancelling(s, id)) == true
  {
    if s.c.IndexOf(id) < |s.c.queue| {
      CancelQueuedCalls(s, id);
    } else {
      CancelRunningCalls(s, id);
    }
  }

  lemma CancelQueuedCalls(s: State, id: nat)
    requires s.c.IndexOf(id) < |s.c.queue| && QueueInv(s) == true && CallsInv(s) == true
    ensures CallsInv(Cancelling(s, id)) == true
  {
    QueuedAfterRemoval(s.c.queue, s.c.IndexOf(id));
  }

  lemma CancelRunningCalls(s: State, id: nat)
    requires s.c.IndexOf(id) == |s.c.queue| && QueueInv(s) == true && CallsInv(s) == true
    ensures CallsInv(Cancelling(s, id)) == true
  {
  }

  lemma LazyReadKeeps(s: State)
    requires Inv(s) == true && LazilyRead(s).Some?
    ensures Inv(LazilyRead(s).value) == true
  {
  }

  lemma LazySetKeeps(s: State)
    requires Inv(s) == true && LazilySet(s).Some?
    ensures Inv(LazilySet(s).value) == true
  {
    LazyWorker(s);
  }

  lemma LazyWorker(s: State)
    requires WorkerInv(s) == true && LazilySet(s).Some?
    ensures WorkerInv(LazilySet(s).value) == true
  {
  }

  // --- The coordinator's tasks ---

  /** A worker just made has no operation waiting and counts on nothing. */
  lemma NewWorker(s: State, job: Job, pc: Pc)
    requires Numbered(s.lock, s.strays, s.worker, s.nextWid) && Locked(s.c.queue, s.c.running, s.c.nextId, s.lock, s.accepted)
    requires pc.Ask? || pc.CallReset?
    requires job.RunJob? ==> forall i :: 0 <= i < |s.lock| && IsWrite(s.lock[i]) ==> s.lock[i].kind.id != job.id
    ensures var w := Worker(s.nextWid, job, pc);
            Waiting(s.lock, w) && Placed(s.gw, s.Known(), s.Committed(), w) && Routed(s.c.routing, s.Committed(), s.unswitched, w) &&
            Numbered(s.lock, s.strays, Some(w), s.nextWid + 1)
  {
  }

  lemma RecoverStartKeeps(s: State, found: bool)
    requires Inv(s) == true && RecoveryStarted(s, found).Some?
    ensures Inv(RecoveryStarted(s, found).value) == true
  {
    NewWorker(s, RecoverJob, CallReset(Failed));
  }

  lemma RecoverEndKeeps(s: State)
    requires Inv(s) == true && RecoveryEnded(s).Some?
    ensures Inv(RecoveryEnded(s).value) == true
  {
  }

  lemma RecoverAbandonKeeps(s: State)
    requires Inv(s) == true && RecoveryAbandoned(s).Some?
    ensures Inv(RecoveryAbandoned(s).value) == true
  {
    UnmannedStrayed(s);
  }

  lemma UnmannedStrayed(s: State)
    requires CallsInv(s) == true && s.stage == Recovering
    ensures Strayed(s.c.queue, s.c.running, s.c.nextId, s.lock, s.strays, Idle, false)
  {
  }

  lemma StartKeeps(s: State, made: bool)
    requires Inv(s) == true && Started(s, made).Some?
    ensures Inv(Started(s, made).value) == true
  {
    StartQueue(s, made);
    StartCalls(s, made);
    NewWorker(s, RunJob(s.c.queue[0].id, s.c.queue[0].request), Ask);
  }

  lemma StartQueue(s: State, made: bool)
    requires QueueInv(s) == true && Started(s, made).Some?
    ensures QueueInv(Started(s, made).value) == true
  {
    StartValid(s.c);
    FinishValid(s.c.StartNext(), Failed);
    StartOrdered(s);
    StartCancels(s);
  }

  lemma StartCancels(s: State)
    requires QueueInv(s) == true && s.c.queue != []
    ensures CancelsKept(s.c.queue[1..], Some(s.c.queue[0].(phase := Applying)), s.c.nextId, s.accepted, s.writes)
    ensures CancelsKept(s.c.queue[1..], None, s.c.nextId, s.accepted, s.writes)
  {
    QueuedAfterRemoval(s.c.queue, 0);
    assert s.c.queue[..0] + s.c.queue[1..] == s.c.queue[1..];
    assert InQueue(s.c.queue, s.c.queue[0].id);
  }

  lemma StartOrdered(s: State)
    requires QueueInv(s) == true && s.c.queue != []
    ensures Ordered(s.c.queue[1..], Some(s.c.queue[0].(phase := Applying)), s.c.nextId, s.started + [s.c.queue[0].id], s.dropped)
  {
    HeadOrdered(s.c.queue, s.c.running, s.c.nextId, s.started, s.dropped);
  }

  lemma HeadOrdered(queue: seq<Entry>, running: Option<Entry>, nextId: nat, started: seq<nat>, dropped: set<nat>)
    requires Ordered(queue, running, nextId, started, dropped) && queue != [] && queue[0].id < nextId
    requires forall k, j :: 0 <= k < j < |queue| ==> queue[k].id < queue[j].id
    ensures Ordered(queue[1..], Some(queue[0].(phase := Applying)), nextId, started + [queue[0].id], dropped) == true
  {
    QueuedAfterRemoval(queue, 0);
    assert queue[..0] + queue[1..] == queue[1..];
    var more := started + [queue[0].id];
    forall id: nat | id in started
      ensures id in more
    {
      var i :| 0 <= i < |started| && started[i] == id;
      assert more[i] == id;
    }
    assert more[|started|] == queue[0].id;
    assert InQueue(queue, queue[0].id);
  }

  lemma StartCalls(s: State, made: bool)
    requires QueueInv(s) == true && CallsInv(s) == true && Started(s, made).Some?
    ensures CallsInv(Started(s, made).value) == true
    ensures forall i :: 0 <= i < |s.lock| && IsWrite(s.lock[i]) ==> s.lock[i].kind.id != s.c.queue[0].id
  {
    QueuedAfterRemoval(s.c.queue, 0);
    assert s.c.queue[..0] + s.c.queue[1..] == s.c.queue[1..];
    assert InQueue(s.c.queue, s.c.queue[0].id);
  }

  /** The running request ends: its outcome is set and nothing runs. */
  lemma EndKeeps(s: State, outcome: Outcome)
    requires Inv(s) == true && s.c.running.Some?
    ensures Inv(s.(c := s.c.Finish(outcome), stage := Idle, worker := None)) == true
  {
    FinishValid(s.c, outcome);
  }

  lemma RunEndKeeps(s: State)
    requires Inv(s) == true && RunEnded(s).Some?
    ensures Inv(RunEnded(s).value) == true
  {
    EndKeeps(s, Returned(s.worker.value.pc).value);
  }

  lemma RollEndKeeps(s: State)
    requires Inv(s) == true && RollEnded(s).Some?
    ensures Inv(RollEnded(s).value) == true
  {
    EndKeeps(s, s.c.OutcomeAfterDeath());
  }

  lemma NoticeKeeps(s: State, made: bool)
    requires Inv(s) == true && Noticed(s, made).Some?
    ensures Inv(Noticed(s, made).value) == true
  {
    NoticedDeath(s);
    var t := s.(c := s.c.NoticeDeath(), stage := Rolling);
    if made {
      RollerMade(t);
    } else {
      assert t.c.running.Some?;
      EndKeeps(t, Failed);
    }
  }

  lemma RollerMade(t: State)
    requires Inv(t) == true && t.stage == Rolling && t.worker.None?
    ensures Inv(t.(worker := Some(Worker(t.nextWid, RollJob, CallReset(Failed))), nextWid := t.nextWid + 1)) == true
  {
    NewWorker(t, RollJob, CallReset(Failed));
  }

  lemma NoticedDeath(s: State)
    requires Inv(s) == true && s.stage == Working && s.worker.None?
    ensures Inv(s.(c := s.c.NoticeDeath(), stage := Rolling)) == true
  {
    NoticedQueue(s);
    NoticedCalls(s);
  }

  lemma NoticedQueue(s: State)
    requires QueueInv(s) == true
    ensures QueueInv(s.(c := s.c.NoticeDeath(), stage := Rolling)) == true
  {
  }

  lemma NoticedCalls(s: State)
    requires QueueInv(s) == true && CallsInv(s) == true && s.stage == Working && s.worker.None?
    ensures CallsInv(s.(c := s.c.NoticeDeath(), stage := Rolling)) == true
  {
  }

  lemma EndDrainKeeps(s: State)
    requires Inv(s) == true && DrainEnded(s).Some?
    ensures Inv(DrainEnded(s).value) == true
  {
  }

  // --- The version lock ---

  /** Without its head the queue keeps its order. */
  lemma TailKeeps(s: State)
    requires Inv(s) == true && s.lock != []
    ensures Inv(s.(lock := s.lock[1..])) == true
  {
    TailCalls(s);
  }

  lemma TailCalls(s: State)
    requires CallsInv(s) == true && s.lock != []
    ensures CallsInv(s.(lock := s.lock[1..])) == true && (WriteWaits(s.lock[1..]) ==> WriteWaits(s.lock))
    ensures IsWrite(s.lock[0]) ==> !WriteWaits(s.lock[1..])
    ensures s.worker.Some? && Waiting(s.lock, s.worker.value) ==> Waiting(s.lock[1..], s.worker.value)
  {
    assert forall i :: 0 <= i < |s.lock[1..]| ==> s.lock[1..][i] == s.lock[i + 1];
  }

  /** Moving a worker that waits for nothing keeps all but what its new position says. */
  lemma MoveKeeps(s: State, pc: Pc)
    requires QueueInv(s) == true && CallsInv(s) == true && s.worker.Some?
    requires Fits(s, s.worker.value.(pc := pc)) == true && (s.worker.value.pc.RollingBack() ==> pc.RollingBack())
    ensures Inv(s.Move(pc)) == true
  {
  }

  /** The head is done and the worker that waited for it moves on. */
  lemma AnsweredKeeps(s: State, pc: Pc)
    requires Inv(s) == true && s.lock != [] && s.worker.Some? && s.lock[0].wid == s.worker.value.wid
    requires var w := s.worker.value.(pc := pc);
             Placed(s.gw, s.Known(), s.Committed(), w) && Phased(s.c.running, w) && Routed(s.c.routing, s.Committed(), s.unswitched, w)
    requires s.worker.value.pc.RollingBack() ==> pc.RollingBack()
    ensures Inv(s.(lock := s.lock[1..]).Move(pc)) == true
  {
    TailKeeps(s);
    Served(s.lock, s.worker.value, pc);
    MoveKeeps(s.(lock := s.lock[1..]), pc);
  }

  lemma DiffReadKeeps(s: State, ok: bool)
    requires Inv(s) == true && s.lock != [] && s.lock[0].kind.ForDiff?
    ensures Inv(DiffReadDone(s, ok)) == true
  {
    if s.WaitsFor(s.lock[0]) {
      AnsweredKeeps(s, if ok then HaveCommitted(s.Committed()) else CallMark(Failed));
    } else {
      TailKeeps(s);
    }
  }

  lemma BackReadKeeps(s: State, ok: bool)
    requires Inv(s) == true && s.lock != [] && s.lock[0].kind.ForRollback?
    ensures Inv(BackReadDone(s, ok)) == true
  {
    if s.WaitsFor(s.lock[0]) {
      AnsweredKeeps(s, if ok then BackCommitted(s.worker.value.pc.outcome, s.Committed()) else DoneRaised);
    } else {
      TailKeeps(s);
    }
  }

  lemma ResetQueue(s: State, committed: Option<seq<Model>>)
    requires QueueInv(s) == true
    ensures QueueInv(s.(c := s.c.Reset(committed))) == true
  {
    assert s.c.Reset(committed).Valid();
  }

  lemma ResetCalls(s: State, committed: Option<seq<Model>>)
    requires CallsInv(s) == true
    ensures CallsInv(s.(c := s.c.Reset(committed))) == true
  {
  }

  /** A worker whose reset was answered stands on the committed version's routing. */
  lemma BackRouted(gw: string, serve: map<App, ServeApp>, c: Coord, committed: Option<seq<Model>>, unswitched: bool, w: Worker)
    requires w.pc.AwaitReset? && Phased(c.running, w)
    ensures var w', after := w.(pc := AwaitBack(w.pc.outcome)), c.Reset(committed);
            Placed(gw, serve, committed, w') && Phased(after.running, w') && Routed(after.routing, committed, unswitched, w')
  {
  }

  lemma OwnResetKeeps(s: State)
    requires Inv(s) == true && s.lock != [] && s.lock[0].kind.ForReset? && s.WaitsFor(s.lock[0])
    ensures Inv(ResetDone(s, true)) == true
  {
    var w, t := s.worker.value, s.(c := s.c.Reset(s.Committed()));
    ResetQueue(s, s.Committed());
    ResetCalls(s, s.Committed());
    BackRouted(s.gw, s.Known(), s.c, s.Committed(), s.unswitched, w);
    assert Fits(t, w);
    AnsweredKeeps(t, AwaitBack(w.pc.outcome));
  }

  lemma StrayResetKeeps(s: State)
    requires Inv(s) == true && s.lock != [] && s.lock[0].kind.ForReset? && !s.WaitsFor(s.lock[0])
    ensures Inv(ResetDone(s, true)) == true
  {
    TailKeeps(s);
    var t := s.(lock := s.lock[1..]);
    ResetQueue(t, s.Committed());
    ResetCalls(t, s.Committed());
    if s.worker.Some? {
      StrayResetRouted(s);
      StrayResetWorker(s);
    }
  }

  lemma StrayResetWorker(s: State)
    requires WorkerInv(s) == true && s.worker.Some? && s.lock != [] && Waiting(s.lock[1..], s.worker.value)
    requires Routed(s.c.Reset(s.Committed()).routing, s.Committed(), s.worker.value.pc.Switched(), s.worker.value)
    requires s.lock[0].kind.ForReset? && !s.WaitsFor(s.lock[0])
    ensures WorkerInv(ResetDone(s, true)) == true
  {
    assert ResetDone(s, true).c.running == s.c.running;
  }

  lemma ResetKeeps(s: State, ok: bool)
    requires Inv(s) == true && s.lock != [] && s.lock[0].kind.ForReset?
    ensures Inv(ResetDone(s, ok)) == true
  {
    if !ok {
      if s.WaitsFor(s.lock[0]) {
        AnsweredKeeps(s, DoneRaised);
      } else {
        TailKeeps(s);
      }
    } else if s.WaitsFor(s.lock[0]) {
      OwnResetKeeps(s);
    } else {
      StrayResetKeeps(s);
    }
  }

  lemma StrayResetRouted(s: State)
    requires WorkerInv(s) == true && s.worker.Some?
    ensures Routed(s.c.Reset(s.Committed()).routing, s.Committed(), s.worker.value.pc.Switched(), s.worker.value)
  {
  }

  /** Storing the head's write: nothing but a live own worker counted on the version it replaces. */
  lemma StoredKeeps(s: State, landed: bool)
    requires Inv(s) == true && s.lock != [] && s.lock[0].kind.ForWrite?
    ensures QueueInv(WriteStored(s, landed)) == true && CallsInv(WriteStored(s, landed)) == true
    ensures var t := WriteStored(s, landed);
            !WriteWaits(t.lock) && (landed ==> t.writes != [] && t.writes[|t.writes| - 1] == (s.lock[0].kind.id, s.lock[0].kind.models))
  {
    assert IsWrite(s.lock[0]) && WriteWaits(s.lock);
    TailCalls(s);
    if landed {
      StoredQueue(s, s.lock[0].kind.id, s.lock[0].kind.models);
    }
  }

  lemma StoredQueue(s: State, id: nat, models: seq<Model>)
    requires s.lock != [] && QueueInv(s) == true && UniqueNames(models) && id < s.c.nextId && id !in s.accepted && !InQueue(s.c.queue, id)
    requires !InPhase(s.c.running, Retiring) && (RunsIn(s.c.running, id) ==> s.c.running.value.phase == Committing)
    ensures QueueInv(s.(lock := s.lock[1..], stored := Some(CommitVersion(s.stored, models)), writes := s.writes + [(id, models)])) == true
  {
  }

  lemma CommitEndKeeps(s: State, landed: bool)
    requires Inv(s) == true && s.lock != [] && s.lock[0].kind.ForWrite? && landed
    ensures var t := WriteStored(s, landed);
            QueueInv(t.(c := t.c.CommitEnd(s.lock[0].kind.id))) == true && CallsInv(t.(c := t.c.CommitEnd(s.lock[0].kind.id))) == true
  {
    StoredKeeps(s, landed);
    NoStrayOfWriter(s);
    CommitEndQueue(WriteStored(s, landed), s.lock[0].kind.id, s.lock[0].kind.models);
  }

  lemma NoStrayOfWriter(s: State)
    requires CallsInv(s) == true && s.lock != [] && s.lock[0].kind.ForWrite?
    ensures forall call :: call in s.strays && !call.CReset? && s.c.Runs(call.id) ==> call.id != s.lock[0].kind.id
    ensures s.c.Runs(s.lock[0].kind.id) ==> s.c.running.value.phase == Committing
  {
    assert IsWrite(s.lock[0]) && WriteWaits(s.lock);
  }

  lemma CommitEndQueue(t: State, id: nat, models: seq<Model>)
    requires QueueInv(t) == true && !WriteWaits(t.lock) && t.writes != [] && t.writes[|t.writes| - 1] == (id, models)
    requires t.Committed() == Some(models) && (t.c.Runs(id) ==> t.c.running.value.phase == Committing)
    ensures QueueInv(t.(c := t.c.CommitEnd(id))) == true
  {
  }

  /** A worker that relies on no version is placed and routed whatever the version. */
  lemma Unplaced(gw: string, serve: map<App, ServeApp>, committed: Option<seq<Model>>, routing: Option<Routing>, unswitched: bool, w: Worker)
    requires !w.pc.PastRead()
    ensures Placed(gw, serve, committed, w) && Routed(routing, committed, unswitched, w)
  {
  }

  /** A commit of a dead worker ends: a live worker counts on no version yet. */
  lemma ForeignWrite(s: State, ok: bool, landed: bool)
    requires Inv(s) == true && s.lock != [] && s.lock[0].kind.ForWrite? && s.worker.Some? && !s.WaitsFor(s.lock[0])
    ensures WorkerInv(WriteDone(s, ok, landed)) == true
  {
    TailKeeps(s);
    var t := WriteDone(s, ok, landed);
    ForeignAhead(s.lock, s.worker.value, s.c.running);
    Unplaced(t.gw, t.Known(), t.Committed(), t.c.routing, t.unswitched, s.worker.value);
    ForeignPhase(s.c, s.lock[0].kind.id, s.worker.value);
  }

  lemma ForeignAhead(lock: seq<Op>, w: Worker, running: Option<Entry>)
    requires Waiting(lock, w) && lock != [] && IsWrite(lock[0])
    requires lock[0].wid == w.wid ==> !w.pc.AwaitCommit?
    ensures !w.pc.PastRead() && (w.job.RunJob? ==> lock[0].kind.id != w.job.id)
  {
  }

  lemma ForeignPhase(c: Coord, id: nat, w: Worker)
    requires Phased(c.running, w) && (w.job.RunJob? ==> w.job.id != id && c.Runs(w.job.id))
    ensures Phased(c.CommitEnd(id).running, w)
  {
  }

  /** Once its only operation is done, a worker waits for nothing, wherever it moves. */
  lemma Served(lock: seq<Op>, w: Worker, pc: Pc)
    requires lock != [] && Waiting(lock, w) && lock[0].wid == w.wid
    ensures Waiting(lock[1..], w.(pc := pc))
  {
    assert forall i :: 0 <= i < |lock[1..]| ==> lock[1..][i] == lock[i + 1];
  }

  /** The live worker's own commit ends. */
  lemma OwnWrite(s: State, ok: bool, landed: bool)
    requires WorkerInv(s) == true && s.lock != [] && s.lock[0].kind.ForWrite? && s.WaitsFor(s.lock[0]) && (ok ==> landed)
    requires Staged(s.c.running, s.stage, s.recovery, s.worker)
    ensures WorkerInv(WriteDone(s, ok, landed)) == true
  {
    var w := s.worker.value;
    if ok {
      Served(s.lock, w, Retire(w.pc.diff, RetiredAfter(RequestOf(w.job), w.pc.diff)));
      OwnCommit(s.gw, s.Known(), s.c, s.Committed(), s.unswitched, s.lock, w);
    } else {
      Served(s.lock, w, CallMark(Failed));
      Unplaced(s.gw, s.Known(), WriteStored(s, landed).Committed(), s.c.routing, s.unswitched, w.(pc := CallMark(Failed)));
    }
  }

  lemma OwnCommit(gw: string, serve: map<App, ServeApp>, c: Coord, committed: Option<seq<Model>>, unswitched: bool, lock: seq<Op>, w: Worker)
    requires lock != [] && lock[0].kind.ForWrite? && lock[0].wid == w.wid && w.pc.AwaitCommit?
    requires Waiting(lock, w) && Placed(gw, serve, committed, w) && Phased(c.running, w) && Routed(c.routing, committed, unswitched, w)
    requires w.job.RunJob? && c.Runs(w.job.id)
    ensures var id, w' := lock[0].kind.id, w.(pc := Retire(w.pc.diff, RetiredAfter(RequestOf(w.job), w.pc.diff)));
            id == w.job.id && w.pc.diff.models == Some(lock[0].kind.models) &&
            Placed(gw, serve, Some(lock[0].kind.models), w') && Phased(c.CommitEnd(id).running, w') &&
            Routed(c.CommitEnd(id).routing, Some(lock[0].kind.models), unswitched, w')
  {
    assert Awaits(w, lock[0]);
    CommitPlaced(gw, serve, committed, c.routing, unswitched, w);
    CommitPhased(c, w);
  }

  lemma CommitPhased(c: Coord, w: Worker)
    requires w.pc.AwaitCommit? && w.job.RunJob? && Phased(c.running, w) && c.Runs(w.job.id)
    ensures Phased(c.CommitEnd(w.job.id).running, w.(pc := Retire(w.pc.diff, RetiredAfter(RequestOf(w.job), w.pc.diff))))
  {
  }

  lemma CommitPlaced(gw: string, serve: map<App, ServeApp>, committed: Option<seq<Model>>, routing: Option<Routing>, unswitched: bool, w: Worker)
    requires w.pc.AwaitCommit? && Placed(gw, serve, committed, w) && Routed(routing, committed, unswitched, w)
    ensures var w' := w.(pc := Retire(w.pc.diff, RetiredAfter(RequestOf(w.job), w.pc.diff)));
            Placed(gw, serve, w.pc.diff.models, w') && Routed(routing, w.pc.diff.models, unswitched, w')
  {
  }

  lemma WriteDoneWorker(s: State, ok: bool, landed: bool)
    requires s.lock != [] && s.lock[0].kind.ForWrite? && (ok ==> landed) && Inv(s) == true
    ensures WorkerInv(WriteDone(s, ok, landed)) == true
  {
    if s.WaitsFor(s.lock[0]) {
      OwnWrite(s, ok, landed);
    } else if s.worker.Some? {
      ForeignWrite(s, ok, landed);
    }
  }

  /** Where a request's worker stands matters to neither the queue nor the calls. */
  lemma MovedRest(s: State, pc: Pc)
    requires s.worker.Some? && s.worker.value.job.RunJob? && QueueInv(s) == true && CallsInv(s) == true
    ensures QueueInv(s.Move(pc)) == true && CallsInv(s.Move(pc)) == true
  {
  }

  lemma WriteDoneRest(s: State, ok: bool, landed: bool)
    requires s.lock != [] && s.lock[0].kind.ForWrite? && (ok ==> landed) && Inv(s) == true
    ensures QueueInv(WriteDone(s, ok, landed)) == true && CallsInv(WriteDone(s, ok, landed)) == true
  {
    var t := WriteStored(s, landed);
    StoredKeeps(s, landed);
    if ok {
      CommitEndKeeps(s, landed);
      t := t.(c := t.c.CommitEnd(s.lock[0].kind.id));
    }
    if s.WaitsFor(s.lock[0]) {
      WaitsRun(s);
      MovedRest(t, WriteDone(s, ok, landed).worker.value.pc);
    }
  }

  lemma WaitsRun(s: State)
    requires s.lock != [] && s.lock[0].kind.ForWrite? && s.WaitsFor(s.lock[0]) && WorkerInv(s) == true
    ensures s.worker.value.job.RunJob?
  {
    assert Awaits(s.worker.value, s.lock[0]);
  }

  lemma WriteDoneKeeps(s: State, ok: bool, landed: bool)
    requires s.lock != [] && s.lock[0].kind.ForWrite? && (ok ==> landed) && Inv(s) == true
    ensures Inv(WriteDone(s, ok, landed)) == true
  {
    WriteDoneWorker(s, ok, landed);
    WriteDoneRest(s, ok, landed);
  }

  lemma LockDoneKeeps(s: State, ok: bool, landed: bool)
    requires Inv(s) == true && s.lock != [] && LockStep(s, ok, landed).Some?
    ensures Inv(LockStep(s, ok, landed).value) == true
  {
    match s.lock[0].kind
    case ForDiff => DiffReadKeeps(s, ok);
    case ForRollback => BackReadKeeps(s, ok);
    case ForReset => ResetKeeps(s, ok);
    case ForWrite(_, _) => WriteDoneKeeps(s, ok, landed);
  }

  // --- A dead worker's calls ---

  lemma StrayGone(s: State, call: Call)
    requires Inv(s) == true
    ensures Inv(s.(strays := s.strays - {call})) == true
  {
  }

  /** A stray switch or commit is let through only while nobody has noticed that its sender died. */
  lemma LetThrough(s: State, call: Call)
    requires CallsInv(s) == true && call in s.strays && (call.CSwitch? || call.CCommit?) && s.c.Accepts(call.id)
    ensures s.stage == Working && s.worker.None? && !WriteWaits(s.lock)
    ensures s.c.running.value.phase == Applying || s.c.running.value.phase == Switching || s.c.running.value.phase == Phase.Queued
    ensures forall other :: other in s.strays && !other.CReset? && s.c.Runs(other.id) ==> other == call
  {
  }

  lemma DeliverSwitchKeeps(s: State, call: Call)
    requires call in s.strays && call.CSwitch? && Inv(s) == true
    ensures Inv(Delivered(s, call)) == true
  {
    StrayGone(s, call);
    if s.c.Accepts(call.id) {
      LetThrough(s, call);
      SwitchQueue(s.(strays := s.strays - {call}), call.id, call.models);
      StraySwitch(s.(strays := s.strays - {call}), call.id, call.models);
    }
  }

  lemma StraySwitch(s: State, id: nat, models: seq<Model>)
    requires s.stage == Working && s.worker.None? && !WriteWaits(s.lock) && s.c.Accepts(id)
    requires CallsInv(s) == true && forall call :: call in s.strays && !call.CReset? ==> !s.c.Runs(call.id)
    ensures CallsInv(s.(c := s.c.Switch(id, models))) == true
  {
  }

  lemma SwitchQueue(s: State, id: nat, models: seq<Model>)
    requires QueueInv(s) == true && s.c.Accepts(id) && s.c.running.value.phase != Committing && s.c.running.value.phase != Retiring
    ensures QueueInv(s.(c := s.c.Switch(id, models))) == true
  {
  }

  lemma DeliverCommitKeeps(s: State, call: Call)
    requires Inv(s) == true && call in s.strays && call.CCommit?
    ensures Inv(Delivered(s, call)) == true
  {
    StrayGone(s, call);
    if s.c.CommitReplyTo(call.id) == CommitReply.Writing {
      LetThrough(s, call);
      CommitQueue(s.(strays := s.strays - {call}), call.id, Op(call.wid, ForWrite(call.id, call.models)));
      CommitCalls(s.(strays := s.strays - {call}), call.id, Op(call.wid, ForWrite(call.id, call.models)));
    }
  }

  /** Letting a commit through: the request can no longer be cancelled. */
  lemma CommitQueue(s: State, id: nat, op: Op)
    requires QueueInv(s) == true && s.c.CommitReplyTo(id) == CommitReply.Writing && s.c.running.value.phase != Committing && s.c.running.value.phase != Retiring
    ensures QueueInv(s.(c := s.c.CommitBegin(id), lock := s.lock + [op])) == true
  {
  }

  lemma CommitCalls(s: State, id: nat, op: Op)
    requires CallsInv(s) == true && QueueInv(s) == true && s.c.CommitReplyTo(id) == CommitReply.Writing && !WriteWaits(s.lock)
    requires op.kind.ForWrite? && op.kind.id == id && op.wid < s.nextWid && UniqueNames(op.kind.models)
    requires forall call :: call in s.strays && !call.CReset? ==> !s.c.Runs(call.id)
    ensures CallsInv(s.(c := s.c.CommitBegin(id), lock := s.lock + [op])) == true
  {
  }

  lemma DeliverMarkKeeps(s: State, call: Call)
    requires Inv(s) == true && call in s.strays && call.CMark?
    ensures Inv(Delivered(s, call)) == true
  {
    StrayGone(s, call);
    if s.c.Runs(call.id) {
      MarkQueue(s.(strays := s.strays - {call}), call.id);
      MarkCalls(s.(strays := s.strays - {call}), call.id);
    }
  }

  lemma MarkQueue(s: State, id: nat)
    requires QueueInv(s) == true && (s.c.Runs(id) ==> s.c.running.value.phase != Retiring)
    ensures QueueInv(s.(c := s.c.MarkRollingBack(id))) == true
  {
  }

  lemma MarkCalls(s: State, id: nat)
    requires CallsInv(s) == true
    requires forall i :: 0 <= i < |s.lock| && IsWrite(s.lock[i]) && s.c.Runs(id) ==> s.lock[i].kind.id != id
    ensures CallsInv(s.(c := s.c.MarkRollingBack(id))) == true
  {
  }

  lemma DeliverResetKeeps(s: State, call: Call)
    requires Inv(s) == true && call in s.strays && call.CReset?
    ensures Inv(Delivered(s, call)) == true
  {
    StrayGone(s, call);
    EnqueuedKeeps(s.(strays := s.strays - {call}), Op(call.wid, ForReset));
  }

  /** A read joining the queue changes nothing for the coordinator, nor for a worker it isn't for. */
  lemma EnqueuedKeeps(s: State, op: Op)
    requires QueueInv(s) == true && CallsInv(s) == true && !IsWrite(op) && op.wid < s.nextWid
    ensures QueueInv(s.(lock := s.lock + [op])) == true && CallsInv(s.(lock := s.lock + [op])) == true
    ensures WorkerInv(s) == true && (s.worker.Some? ==> s.worker.value.wid != op.wid) ==> WorkerInv(s.(lock := s.lock + [op])) == true
  {
    EnqueuedCalls(s, op);
    if WorkerInv(s) && (s.worker.Some? ==> s.worker.value.wid != op.wid) {
      EnqueuedWorker(s, op);
    }
  }

  lemma EnqueuedCalls(s: State, op: Op)
    requires QueueInv(s) == true && CallsInv(s) == true && !IsWrite(op) && op.wid < s.nextWid
    ensures QueueInv(s.(lock := s.lock + [op])) == true && CallsInv(s.(lock := s.lock + [op])) == true
  {
    forall i | 0 <= i < |s.lock + [op]| && IsWrite((s.lock + [op])[i])
      ensures i < |s.lock| && (s.lock + [op])[i] == s.lock[i]
    {
    }
  }

  lemma EnqueuedWorker(s: State, op: Op)
    requires WorkerInv(s) == true && !IsWrite(op) && (s.worker.Some? ==> s.worker.value.wid != op.wid)
    ensures WorkerInv(s.(lock := s.lock + [op])) == true
  {
  }

  lemma DeliverKeeps(s: State, call: Call)
    requires Inv(s) == true && call in s.strays
    ensures Inv(Delivered(s, call)) == true
  {
    match call
    case CSwitch(_, _) => DeliverSwitchKeeps(s, call);
    case CCommit(_, _, _) => DeliverCommitKeeps(s, call);
    case CMark(_) => DeliverMarkKeeps(s, call);
    case CReset(_) => DeliverResetKeeps(s, call);
  }

  // --- The worker's steps ---

  /** A worker that waits for nothing may move anywhere that waits for nothing, if no write is ahead of it. */
  lemma StillWaits(lock: seq<Op>, w: Worker, pc: Pc)
    requires Waiting(lock, w) && !w.pc.AwaitDiff? && !w.pc.AwaitReset? && !w.pc.AwaitRollback? && !w.pc.AwaitCommit?
    requires pc.PastRead() ==> w.pc.PastRead()
    ensures Waiting(lock, w.(pc := pc))
  {
    assert forall i :: 0 <= i < |lock| && lock[i].wid == w.wid ==> !Awaits(w, lock[i]);
  }

  lemma SeeCancelKeeps(s: State)
    requires CancelSeen(s).Some? && Inv(s) == true
    ensures Inv(CancelSeen(s).value) == true
  {
    ToldKeeps(s, s.worker.value.job.id);
    ToldFits(s, s.worker.value);
    MoveKeeps(s.(c := s.c.Told(s.worker.value.job.id)), CallMark(Cancelled));
  }

  lemma ToldFits(s: State, w: Worker)
    requires w.job.RunJob? && w.pc.Polls() && Fits(s, w) == true
    ensures Fits(s.(c := s.c.Told(w.job.id)), w.(pc := CallMark(Cancelled))) == true
  {
    StillWaits(s.lock, w, CallMark(Cancelled));
  }

  lemma ToldKeeps(s: State, id: nat)
    requires QueueInv(s) == true && CallsInv(s) == true
    ensures QueueInv(s.(c := s.c.Told(id))) == true && CallsInv(s.(c := s.c.Told(id))) == true
  {
    ToldQueue(s, id);
    ToldCalls(s, id);
  }

  lemma ToldQueue(s: State, id: nat)
    requires QueueInv(s) == true
    ensures QueueInv(s.(c := s.c.Told(id))) == true
  {
  }

  lemma ToldCalls(s: State, id: nat)
    requires CallsInv(s) == true
    ensures CallsInv(s.(c := s.c.Told(id))) == true
  {
  }

  lemma FailKeeps(s: State)
    requires Inv(s) == true && Failing(s).Some?
    ensures Inv(Failing(s).value) == true
  {
    StillWaits(s.lock, s.worker.value, CallMark(Failed));
    MoveKeeps(s, CallMark(Failed));
  }

  /** The worker queues for the version lock; it isn't in the queue yet. */
  lemma JoinsQueue(s: State, op: Op, pc: Pc)
    requires QueueInv(s) == true && CallsInv(s) == true && s.worker.Some? && Waiting(s.lock, s.worker.value)
    requires !IsWrite(op) && op.wid == s.worker.value.wid && Awaits(s.worker.value.(pc := pc), op) && (pc.PastRead() ==> s.worker.value.pc.PastRead())
    requires var pc := s.worker.value.pc; !pc.AwaitDiff? && !pc.AwaitReset? && !pc.AwaitRollback? && !pc.AwaitCommit?
    ensures var t := s.(lock := s.lock + [op]);
            QueueInv(t) == true && CallsInv(t) == true && Waiting(t.lock, s.worker.value.(pc := pc))
  {
    EnqueuedKeeps(s, op);
    StillWaits(s.lock, s.worker.value, pc);
    assert forall i :: 0 <= i < |s.lock| ==> s.lock[i].wid != op.wid by {
      assert forall i :: 0 <= i < |s.lock| && s.lock[i].wid == op.wid ==> !Awaits(s.worker.value, s.lock[i]);
    }
  }

  /** Asking for the version under its lock. */
  lemma JoinKeeps(s: State, op: Op, pc: Pc)
    requires Inv(s) == true && s.worker.Some? && !IsWrite(op) && op.wid == s.worker.value.wid && Awaits(s.worker.value.(pc := pc), op)
    requires var at := s.worker.value.pc; (at.Ask? && pc.AwaitDiff?) || (at.CallReset? && pc == AwaitReset(at.outcome)) || (at.AskBack? && pc == AwaitRollback(at.outcome))
    ensures Inv(s.(lock := s.lock + [op]).Move(pc)) == true
  {
    JoinsQueue(s, op, pc);
    JoinedFits(s.gw, s.Known(), s.c, s.Committed(), s.unswitched, s.worker.value, pc);
    MoveKeeps(s.(lock := s.lock + [op]), pc);
  }

  lemma JoinedFits(gw: string, serve: map<App, ServeApp>, c: Coord, committed: Option<seq<Model>>, unswitched: bool, w: Worker, pc: Pc)
    requires Phased(c.running, w) && Routed(c.routing, committed, unswitched, w)
    requires (w.pc.Ask? && pc.AwaitDiff?) || (w.pc.CallReset? && pc == AwaitReset(w.pc.outcome)) || (w.pc.AskBack? && pc == AwaitRollback(w.pc.outcome))
    ensures Placed(gw, serve, committed, w.(pc := pc)) && Phased(c.running, w.(pc := pc)) && Routed(c.routing, committed, unswitched, w.(pc := pc))
    ensures pc.AwaitDiff? || pc.RollingBack()
  {
  }

  lemma AskDiffKeeps(s: State)
    requires Inv(s) == true && Asked(s).Some?
    ensures Inv(Asked(s).value) == true
  {
    var w := s.worker.value;
    if s.c.Accepts(w.job.id) {
      JoinKeeps(s, Op(w.wid, ForDiff), AwaitDiff);
    } else {
      StillWaits(s.lock, w, CallMark(Failed));
      MoveKeeps(s, CallMark(Failed));
    }
  }

  /** Once the committed version is read, Serve's listed apps are its apps or leftovers. */
  lemma LeftoversCover(gw: string, request: Request, committed: Option<seq<Model>>, serve: map<App, ServeApp>)
    ensures var diff, named := DiffOf(gw, request, committed, serve), Apps(gw, Set(committed));
            Covered(gw, serve, named, diff.leftovers) && diff.leftovers !! named
  {
  }

  lemma RollbackRescales(gw: string, committed: Option<seq<Model>>, serve: map<App, ServeApp>)
    requires UniqueNames(Set(committed))
    ensures RescalesNamed(Apps(gw, Set(committed)), DiffOf(gw, Rollback(), committed, serve))
  {
    DiffIsGood(gw, Rollback(), committed, serve);
  }

  lemma DiffFits(s: State, w: Worker)
    requires Fits(s, w) == true && w.pc.HaveCommitted? && w.job.RunJob? && WellNamed(w.job.request, w.pc.committed)
    ensures var diff := DiffOf(s.gw, w.job.request, w.pc.committed, s.serve);
            Fits(s.(added := {}), w.(pc := Clear(diff, diff.leftovers))) == true
  {
    var diff := DiffOf(s.gw, w.job.request, w.pc.committed, s.serve);
    assert s.(added := {}).Known() == s.serve;
    StillWaits(s.lock, w, Clear(diff, diff.leftovers));
    DiffIsGood(s.gw, w.job.request, s.Committed(), s.serve);
    LeftoversCover(s.gw, w.job.request, s.Committed(), s.serve);
  }

  lemma RollbackFits(s: State, w: Worker, diff: Diff)
    requires Fits(s, w) == true && w.pc.BackCommitted? && Placed(s.gw, s.serve, s.Committed(), w.(pc := Undo(w.pc.outcome, diff, diff.leftovers)))
    ensures Fits(s.(added := {}), w.(pc := Undo(w.pc.outcome, diff, diff.leftovers))) == true
  {
    assert s.(added := {}).Known() == s.serve;
    StillWaits(s.lock, w, Undo(w.pc.outcome, diff, diff.leftovers));
    UndoPhased(s.c, s.Committed(), s.unswitched, w, diff);
  }

  lemma UndoPlaced(gw: string, serve: map<App, ServeApp>, committed: Option<seq<Model>>, w: Worker, diff: Diff)
    requires w.pc.BackCommitted? && UniqueNames(Set(committed)) && diff == DiffOf(gw, Rollback(), committed, serve)
    ensures Placed(gw, serve, committed, w.(pc := Undo(w.pc.outcome, diff, diff.leftovers)))
  {
    RollbackRescales(gw, committed, serve);
    LeftoversCover(gw, Rollback(), committed, serve);
  }

  lemma UndoPhased(c: Coord, committed: Option<seq<Model>>, unswitched: bool, w: Worker, diff: Diff)
    requires w.pc.BackCommitted? && Phased(c.running, w) && Routed(c.routing, committed, unswitched, w)
    ensures var w' := w.(pc := Undo(w.pc.outcome, diff, diff.leftovers));
            Phased(c.running, w') && Routed(c.routing, committed, unswitched, w')
  {
  }

  lemma UnreadFits(s: State, w: Worker, pc: Pc)
    requires Fits(s, w) == true
    requires (w.pc.HaveCommitted? && (pc == Ask || pc == CallMark(Failed))) || (w.pc.BackCommitted? && pc == AskBack(w.pc.outcome))
    ensures Fits(s, w.(pc := pc)) == true
  {
    StillWaits(s.lock, w, pc);
  }

  lemma ReadServeKeeps(s: State, readable: bool)
    requires s.worker.Some? && ServeRead(s, readable).Some? && Inv(s) == true
    ensures Inv(ServeRead(s, readable).value) == true
  {
    if !readable {
      Unread(s, if s.worker.value.pc.BackCommitted? then AskBack(s.worker.value.pc.outcome) else Ask);
    } else if s.worker.value.pc.BackCommitted? {
      BackRead(s);
    } else if WellNamed(s.worker.value.job.request, s.worker.value.pc.committed) {
      FrontRead(s);
    } else {
      Unread(s, CallMark(Failed));
    }
  }

  lemma Unread(s: State, pc: Pc)
    requires s.worker.Some? && Inv(s) == true
    requires var at := s.worker.value.pc;
             (at.HaveCommitted? && (pc == Ask || pc == CallMark(Failed))) || (at.BackCommitted? && pc == AskBack(at.outcome))
    ensures Inv(s.Move(pc)) == true
  {
    UnreadFits(s, s.worker.value, pc);
    MoveKeeps(s, pc);
  }

  lemma FrontRead(s: State)
    requires s.worker.Some? && s.worker.value.pc.HaveCommitted? && s.worker.value.job.RunJob?
    requires WellNamed(s.worker.value.job.request, s.worker.value.pc.committed) && Inv(s) == true
    ensures var diff := DiffOf(s.gw, s.worker.value.job.request, s.worker.value.pc.committed, s.serve);
            Inv(s.(added := {}).Move(Clear(diff, diff.leftovers))) == true
  {
    var diff := DiffOf(s.gw, s.worker.value.job.request, s.worker.value.pc.committed, s.serve);
    DiffFits(s, s.worker.value);
    MoveKeeps(s.(added := {}), Clear(diff, diff.leftovers));
  }

  lemma BackRead(s: State)
    requires s.worker.Some? && s.worker.value.pc.BackCommitted? && Inv(s) == true
    ensures var diff := DiffOf(s.gw, Rollback(), s.worker.value.pc.committed, s.serve);
            Inv(s.(added := {}).Move(Undo(s.worker.value.pc.outcome, diff, diff.leftovers))) == true
  {
    var w := s.worker.value;
    var diff := DiffOf(s.gw, Rollback(), w.pc.committed, s.serve);
    UndoPlaced(s.gw, s.serve, s.Committed(), w, diff);
    RollbackFits(s, w, diff);
    MoveKeeps(s.(added := {}), Undo(w.pc.outcome, diff, diff.leftovers));
  }

  /** Where a worker goes once a step's wait is over, it is placed as that position says. */
  lemma FollowingPlaced(gw: string, serve: map<App, ServeApp>, committed: Option<seq<Model>>, w: Worker)
    requires Placed(gw, serve, committed, w) && Following(gw, RequestOf(w.job), w.pc).Some?
    ensures Placed(gw, serve, committed, w.(pc := Following(gw, RequestOf(w.job), w.pc).value))
  {
    if w.pc.Lower? && RequestOf(w.job).strategy == BlueGreen {
      WiderCover(gw, serve, committed, w.pc.diff);
    } else if w.pc.Raise? && !w.pc.diff.commits {
      assert RetiredAfter(RequestOf(w.job), w.pc.diff) == {};
    }
  }

  lemma WiderCover(gw: string, serve: map<App, ServeApp>, committed: Option<seq<Model>>, diff: Diff)
    requires GoodDiff(gw, committed, diff) && Covered(gw, serve, Apps(gw, Set(committed)), {})
    ensures Covered(gw, serve, Apps(gw, Set(diff.models)), diff.retired)
  {
  }

  lemma FollowingRouted(s: State, w: Worker, pc: Pc)
    requires Following(s.gw, RequestOf(w.job), w.pc) == Some(pc) && Phased(s.c.running, w) && Routed(s.c.routing, s.Committed(), s.unswitched, w)
    requires Placed(s.gw, s.Known(), s.Committed(), w)
    ensures Phased(s.c.running, w.(pc := pc)) && Routed(s.c.routing, s.Committed(), s.unswitched, w.(pc := pc))
  {
  }

  lemma FollowingFits(s: State, w: Worker)
    requires Fits(s, w) == true && Following(s.gw, RequestOf(w.job), w.pc).Some?
    ensures var pc := Following(s.gw, RequestOf(w.job), w.pc).value;
            Fits(s, w.(pc := pc)) == true && (w.pc.RollingBack() ==> pc.RollingBack())
  {
    var pc := Following(s.gw, RequestOf(w.job), w.pc).value;
    StillWaits(s.lock, w, pc);
    FollowingPlaced(s.gw, s.Known(), s.Committed(), w);
    FollowingRouted(s, w, pc);
  }

  lemma NextKeeps(s: State)
    requires Inv(s) == true && Stepped(s).Some?
    ensures Inv(Stepped(s).value) == true
  {
    FollowingFits(s, s.worker.value);
    MoveKeeps(s, Following(s.gw, RequestOf(s.worker.value.job), s.worker.value.pc).value);
  }

  // --- The worker's calls ---

  /** A live request worker's calls are let through, and nothing of a dead worker of the same request is left. */
  lemma OwnCall(s: State)
    requires CallsInv(s) == true && WorkerInv(s) == true && s.worker.Some? && s.worker.value.job.RunJob?
    ensures s.stage == Working && s.c.Runs(s.worker.value.job.id)
    ensures forall call :: call in s.strays && !call.CReset? ==> !s.c.Runs(call.id)
  {
  }

  lemma CallSwitchKeeps(s: State)
    requires Inv(s) == true && s.worker.Some? && s.worker.value.pc.CallSwitch? && Called(s).Some?
    ensures Inv(Called(s).value) == true
  {
    OwnCall(s);
    var w := s.worker.value;
    var t := s.(c := s.c.Switch(w.job.id, w.pc.diff.models.value), unswitched := false);
    assert s.c.Accepts(w.job.id);
    SwitchQueue(s, w.job.id, w.pc.diff.models.value);
    SwitchCalls(s, w.job.id, w.pc.diff.models.value);
    StillWaits(s.lock, w, AwaitSwitch(w.pc.diff));
    MoveKeeps(t, AwaitSwitch(w.pc.diff));
  }

  lemma SwitchCalls(s: State, id: nat, models: seq<Model>)
    requires CallsInv(s) == true && WorkerInv(s) == true && s.worker.Some? && s.worker.value.pc.CallSwitch? && s.worker.value.job.RunJob? && id == s.worker.value.job.id
    ensures CallsInv(s.(c := s.c.Switch(id, models))) == true
  {
    OwnCall(s);
    NoWriteYet(s);
  }

  /** Past its read and before its own commit, a live request worker sees no write waiting. */
  lemma NoWriteYet(s: State)
    requires WorkerInv(s) == true && s.worker.Some? && s.worker.value.pc.PastRead() && !s.worker.value.pc.AwaitCommit?
    ensures !WriteWaits(s.lock)
  {
    forall i | 0 <= i < |s.lock|
      ensures !IsWrite(s.lock[i])
    {
      if s.lock[i].wid == s.worker.value.wid {
        assert Awaits(s.worker.value, s.lock[i]);
      }
    }
  }

  lemma CallCommitKeeps(s: State)
    requires s.worker.Some? && s.worker.value.pc.CallCommit? && Called(s).Some? && Inv(s) == true
    ensures Inv(Called(s).value) == true
  {
    CommitAnswered(s);
    if s.c.CommitReplyTo(s.worker.value.job.id) == CommitReply.Writing {
      CommitCalled(s);
    } else {
      GivesUp(s, Cancelled);
    }
  }

  /** A live request's commit is never refused. */
  lemma CommitAnswered(s: State)
    requires s.worker.Some? && s.worker.value.pc.CallCommit? && s.worker.value.job.RunJob? && CallsInv(s) == true && WorkerInv(s) == true
    ensures s.c.CommitReplyTo(s.worker.value.job.id) != Refused
  {
  }

  /** A worker past its diff turns to rolling back. */
  lemma GivesUp(s: State, outcome: Outcome)
    requires s.worker.Some? && s.worker.value.job.RunJob? && (s.worker.value.pc.CallCommit? || s.worker.value.pc.CallSwitch?) && outcome != Succeeded && Inv(s) == true
    ensures Inv(s.Move(CallMark(outcome))) == true
  {
    StillWaits(s.lock, s.worker.value, CallMark(outcome));
    MoveKeeps(s, CallMark(outcome));
  }

  lemma CommitCalled(s: State)
    requires s.worker.Some? && s.worker.value.pc.CallCommit? && s.worker.value.job.RunJob? && s.worker.value.pc.diff.models.Some?
    requires s.c.CommitReplyTo(s.worker.value.job.id) == CommitReply.Writing && Inv(s) == true
    ensures var w := s.worker.value;
            Inv(s.(c := s.c.CommitBegin(w.job.id), lock := s.lock + [Op(w.wid, ForWrite(w.job.id, w.pc.diff.models.value))]).Move(AwaitCommit(w.pc.diff))) == true
  {
    var w := s.worker.value;
    var op := Op(w.wid, ForWrite(w.job.id, w.pc.diff.models.value));
    CommitLetIn(s, w, op);
    MoveKeeps(s.(c := s.c.CommitBegin(w.job.id), lock := s.lock + [op]), AwaitCommit(w.pc.diff));
  }

  lemma CommitLetIn(s: State, w: Worker, op: Op)
    requires s.worker == Some(w) && w.pc.CallCommit? && w.job.RunJob? && w.pc.diff.models.Some? && s.c.CommitReplyTo(w.job.id) == CommitReply.Writing
    requires op == Op(w.wid, ForWrite(w.job.id, w.pc.diff.models.value)) && Inv(s) == true
    ensures var t := s.(c := s.c.CommitBegin(w.job.id), lock := s.lock + [op]);
            QueueInv(t) == true && CallsInv(t) == true && Fits(t, w.(pc := AwaitCommit(w.pc.diff))) == true
  {
    OwnCall(s);
    NoWriteYet(s);
    CommitPhase(s);
    CommitQueue(s, w.job.id, op);
    CommitCalls(s, w.job.id, op);
    CommitFits(s, w, op);
  }

  /** A request about to commit has brought its apps up and switched, and no further; its models' names are its own. */
  lemma CommitPhase(s: State)
    requires s.worker.Some? && s.worker.value.pc.CallCommit? && s.worker.value.job.RunJob? && s.worker.value.pc.diff.models.Some?
    requires WorkerInv(s) == true && CallsInv(s) == true
    ensures s.c.running.Some? && s.c.running.value.phase != Committing && s.c.running.value.phase != Retiring
    ensures UniqueNames(s.worker.value.pc.diff.models.value) && s.worker.value.wid < s.nextWid
  {
  }

  lemma CommitFits(s: State, w: Worker, op: Op)
    requires Fits(s, w) == true && w.pc.CallCommit? && w.job.RunJob? && s.c.CommitReplyTo(w.job.id) == CommitReply.Writing && !WriteWaits(s.lock)
    requires w.pc.diff.models.Some? && op == Op(w.wid, ForWrite(w.job.id, w.pc.diff.models.value))
    ensures Fits(s.(c := s.c.CommitBegin(w.job.id), lock := s.lock + [op]), w.(pc := AwaitCommit(w.pc.diff))) == true
  {
    assert forall i :: 0 <= i < |s.lock| && s.lock[i].wid == w.wid ==> !Awaits(w, s.lock[i]);
  }

  lemma CallMarkKeeps(s: State)
    requires Inv(s) == true && s.worker.Some? && s.worker.value.pc.CallMark? && Called(s).Some?
    ensures Inv(Called(s).value) == true
  {
    OwnCall(s);
    var w := s.worker.value;
    MarkQueue(s, w.job.id);
    OwnWritesGone(s);
    MarkCalls(s, w.job.id);
    StillWaits(s.lock, w, CallReset(w.pc.outcome));
    MoveKeeps(s.(c := s.c.MarkRollingBack(w.job.id)), CallReset(w.pc.outcome));
  }

  /** No write of its own request waits once a live request worker rolls back. */
  lemma OwnWritesGone(s: State)
    requires WorkerInv(s) == true && s.worker.Some? && s.worker.value.job.RunJob? && !s.worker.value.pc.AwaitCommit?
    ensures forall i :: 0 <= i < |s.lock| && IsWrite(s.lock[i]) ==> s.lock[i].kind.id != s.worker.value.job.id
  {
    forall i | 0 <= i < |s.lock| && IsWrite(s.lock[i])
      ensures s.lock[i].kind.id != s.worker.value.job.id
    {
      assert s.lock[i].wid == s.worker.value.wid ==> Awaits(s.worker.value, s.lock[i]);
    }
  }

  lemma CallResetKeeps(s: State)
    requires Inv(s) == true && s.worker.Some? && s.worker.value.pc.CallReset?
    ensures Inv(Called(s).value) == true
  {
    JoinKeeps(s, Op(s.worker.value.wid, ForReset), AwaitReset(s.worker.value.pc.outcome));
  }

  lemma AskBackKeeps(s: State)
    requires Inv(s) == true && s.worker.Some? && s.worker.value.pc.AskBack?
    ensures Inv(Called(s).value) == true
  {
    JoinKeeps(s, Op(s.worker.value.wid, ForRollback), AwaitRollback(s.worker.value.pc.outcome));
  }

  lemma CallOutKeeps(s: State)
    requires Inv(s) == true && s.worker.Some? && Called(s).Some?
    ensures Inv(Called(s).value) == true
  {
    match s.worker.value.pc
    case CallSwitch(_) => CallSwitchKeeps(s);
    case CallCommit(_) => CallCommitKeeps(s);
    case CallMark(_) => CallMarkKeeps(s);
    case CallReset(_) => CallResetKeeps(s);
    case AskBack(_) => AskBackKeeps(s);
  }

  // --- Serve's apps ---

  /** Nothing but what the worker's position says of Serve's apps depends on them. */
  lemma ServeKeeps(s: State, t: State)
    requires Inv(s) == true && (s.worker.Some? ==> Placed(s.gw, t.Known(), s.Committed(), s.worker.value))
    requires t == s.(serve := t.serve, added := t.added, hit := t.hit, late := t.late)
    ensures Inv(t) == true
  {
  }

  lemma FewerPlaced(gw: string, serve: map<App, ServeApp>, fewer: map<App, ServeApp>, committed: Option<seq<Model>>, w: Worker)
    requires Placed(gw, serve, committed, w) && forall a :: a in fewer && a.Listed(gw) ==> a in serve
    ensures Placed(gw, fewer, committed, w)
  {
  }

  lemma FewerKeeps(s: State, t: State)
    requires Inv(s) == true && t == s.(serve := t.serve, added := t.added, hit := t.hit, late := t.late)
    requires forall a :: a in t.Known() && a.Listed(s.gw) ==> a in s.Known()
    ensures Inv(t) == true
  {
    if s.worker.Some? {
      FewerPlaced(s.gw, s.Known(), t.Known(), s.Committed(), s.worker.value);
    }
    ServeKeeps(s, t);
  }

  lemma PollPlaced(gw: string, serve: map<App, ServeApp>, committed: Option<seq<Model>>, w: Worker, seen: set<App>)
    requires Placed(gw, serve, committed, w) && serve.Keys <= seen
    ensures Placed(gw, serve, committed, w.(pc := WithLeft(w.pc, Left(w.pc) * seen)))
  {
  }

  lemma PollKeeps(s: State)
    requires Inv(s) == true && Polled(s).Some?
    ensures Inv(Polled(s).value) == true
  {
    var w := s.worker.value;
    var pc := WithLeft(w.pc, Left(w.pc) * s.serve.Keys);
    PollPlaced(s.gw, s.Known(), s.Committed(), w, s.serve.Keys);
    if pc != w.pc {
      StillWaits(s.lock, w, pc);
      PollFits(s, w, pc);
      MoveKeeps(s, pc);
    } else {
      assert s.Move(pc) == s;
    }
  }

  lemma PollFits(s: State, w: Worker, pc: Pc)
    requires Fits(s, w) == true && pc == WithLeft(w.pc, Left(w.pc) * s.serve.Keys) && Placed(s.gw, s.Known(), s.Committed(), w.(pc := pc))
    requires Waiting(s.lock, w.(pc := pc))
    ensures Fits(s, w.(pc := pc)) == true && (w.pc.RollingBack() ==> pc.RollingBack())
  {
  }

  lemma ServeSubmitKeeps(s: State, m: Model)
    requires Inv(s) == true && AppSubmitted(s, m).Some?
    ensures Inv(AppSubmitted(s, m).value) == true
  {
    var held, t := ServeApp(Deploying, Some(ServeScaling(m.scaling))), AppSubmitted(s, m).value;
    BroughtPlaced(s.gw, s.Known(), s.Committed(), s.worker.value, m, held);
    FewerPlaced(s.gw, s.Known()[AppOf(s.gw, m) := held], t.Known(), s.Committed(), s.worker.value);
    ServeKeeps(s, t);
  }

  lemma BroughtPlaced(gw: string, serve: map<App, ServeApp>, committed: Option<seq<Model>>, w: Worker, m: Model, held: ServeApp)
    requires Placed(gw, serve, committed, w) && w.pc.BringUp? && m in w.pc.diff.deploys
    ensures Placed(gw, serve[AppOf(gw, m) := held], committed, w)
  {
    assert AppOf(gw, m) in Apps(gw, w.pc.diff.deploys);
  }

  lemma SeeRunningKeeps(s: State, app: App)
    requires RunningSeen(s, app).Some? && Inv(s) == true
    ensures Inv(RunningSeen(s, app).value) == true
  {
    var w := s.worker.value;
    RunningFits(s, w, w.pc.pending - {app});
    MoveKeeps(s, BringUp(w.pc.diff, w.pc.pending - {app}));
  }

  lemma RunningFits(s: State, w: Worker, pending: set<App>)
    requires w.pc.BringUp? && Fits(s, w) == true
    ensures Fits(s, w.(pc := BringUp(w.pc.diff, pending))) == true
  {
    StillWaits(s.lock, w, BringUp(w.pc.diff, pending));
  }

  lemma ServeRescaleKeeps(s: State, x: Rescale)
    requires Inv(s) == true && AppRescaled(s, x).Some?
    ensures Inv(AppRescaled(s, x).value) == true
  {
    var held, t := ServeApp(Deploying, Some(ServeScaling(x.scaling))), AppRescaled(s, x).value;
    RescalePlaced(s.gw, s.Known(), s.Committed(), s.worker.value, x, held);
    FewerPlaced(s.gw, s.Known()[x.app := held], t.Known(), s.Committed(), s.worker.value);
    ServeKeeps(s, t);
  }

  lemma RescalePlaced(gw: string, serve: map<App, ServeApp>, committed: Option<seq<Model>>, w: Worker, x: Rescale, held: ServeApp)
    requires Placed(gw, serve, committed, w) && MayRescale(w.pc, x)
    ensures Placed(gw, serve[x.app := held], committed, w)
  {
  }

  // --- Deaths ---

  lemma DieKeeps(s: State, sent: Option<Call>)
    requires Inv(s) == true && Died(s, sent).Some?
    ensures Inv(Died(s, sent).value) == true
  {
    if sent.Some? {
      SentNumbered(s, sent.value);
      SentStrayed(s, sent.value);
    } else {
      SilentStrayed(s);
    }
  }

  lemma DieCallingKeeps(s: State, late: Late)
    requires Inv(s) == true && DiedCalling(s, late).Some?
    ensures Inv(DiedCalling(s, late).value) == true
  {
    SilentStrayed(s);
  }

  lemma SilentStrayed(s: State)
    requires CallsInv(s) == true
    ensures Strayed(s.c.queue, s.c.running, s.c.nextId, s.lock, s.strays, s.stage, false)
  {
  }

  lemma SentNumbered(s: State, call: Call)
    requires CallsInv(s) == true && s.worker.Some? && MaySend(s.worker.value, call)
    ensures Numbered(s.lock, s.strays + {call}, None, s.nextWid)
  {
  }

  lemma SentStrayed(s: State, call: Call)
    requires Inv(s) == true && s.worker.Some? && MaySend(s.worker.value, call)
    ensures Strayed(s.c.queue, s.c.running, s.c.nextId, s.lock, s.strays + {call}, s.stage, false)
  {
    if s.worker.value.job.RunJob? {
      OwnCall(s);
      RunningNotQueued(s.c);
      if call.CMark? {
        OwnWritesGone(s);
      } else if !call.CReset? {
        NoWriteYet(s);
      }
    }
  }

  lemma RunningNotQueued(c: Coord)
    requires c.Valid() && c.running.Some?
    ensures !InQueue(c.queue, c.running.value.id)
  {
  }

  lemma RestartKeeps(s: State, clock: nat, landed: bool)
    requires Inv(s) == true && Restarted(s, clock, landed).Some?
    ensures Inv(Restarted(s, clock, landed).value) == true
  {
    RestartQueue(s, clock, landed);
    RestartCalls(s, clock, landed);
  }

  lemma RestartCalls(s: State, clock: nat, landed: bool)
    requires CallsInv(s) == true && Restarted(s, clock, landed).Some?
    ensures CallsInv(Restarted(s, clock, landed).value) == true
  {
  }

  lemma RestartQueue(s: State, clock: nat, landed: bool)
    requires QueueInv(s) == true && CallsInv(s) == true && Restarted(s, clock, landed).Some?
    ensures QueueInv(Restarted(s, clock, landed).value) == true
  {
    RestartOrdered(s.c.queue, s.c.running, s.c.nextId, s.started, s.dropped);
    if landed && s.lock != [] && s.lock[0].kind.ForWrite? {
      RestartLanded(s);
    }
  }

  /** A write that landed with the coordinator's death is of a request whose cancel was not accepted. */
  lemma RestartLanded(s: State)
    requires QueueInv(s) == true && CallsInv(s) == true && s.lock != [] && s.lock[0].kind.ForWrite?
    ensures UniqueNames(s.lock[0].kind.models)
    ensures CancelsKept([], None, s.c.nextId, s.accepted, s.writes + [(s.lock[0].kind.id, s.lock[0].kind.models)])
  {
    assert IsWrite(s.lock[0]);
  }

  lemma StartedApart(queue: seq<Entry>, running: Option<Entry>, nextId: nat, started: seq<nat>, dropped: set<nat>)
    requires Ordered(queue, running, nextId, started, dropped)
    ensures forall id :: id in started ==> !InQueue(queue, id)
  {
    forall id, j | id in started && 0 <= j < |queue|
      ensures queue[j].id != id
    {
      var i :| 0 <= i < |started| && started[i] == id;
    }
  }

  lemma RestartOrdered(queue: seq<Entry>, running: Option<Entry>, nextId: nat, started: seq<nat>, dropped: set<nat>)
    requires Ordered(queue, running, nextId, started, dropped) && forall i :: 0 <= i < |queue| ==> queue[i].id < nextId
    ensures Ordered([], None, nextId, started, dropped + set i | 0 <= i < |queue| :: queue[i].id)
  {
    StartedApart(queue, running, nextId, started, dropped);
  }


  // --- Late calls of Serve, and the orphan ---

  /** The orphan and the calls under way to Serve are no part of what the rest keeps. */
  lemma AsideKeeps(s: State, t: State)
    requires Inv(s) == true && t == s.(orphan := t.orphan, late := t.late)
    ensures Inv(t) == true
  {
  }

  /** A deletion or submission behind the worker's back leaves it no app it doesn't know of. */
  lemma StruckKeeps(s: State, app: App)
    requires Inv(s) == true
    ensures Inv(Struck(s, app)) == true
  {
    FewerKeeps(s, Struck(s, app));
  }

  lemma IntrudedKeeps(s: State, app: App, scaling: Scaling)
    requires Inv(s) == true
    ensures Inv(Intruded(s, app, scaling)) == true
  {
    FewerKeeps(s, Intruded(s, app, scaling));
  }

  lemma LandKeeps(s: State, late: Late)
    requires Inv(s) == true
    ensures Inv(Landed(s, late)) == true
  {
    var t := s.(late := s.late - {late});
    AsideKeeps(s, t);
    match late
    case LateDelete(app) => StruckKeeps(t, app);
    case LateSubmit(m) => IntrudedKeeps(t, AppOf(s.gw, m), m.scaling);
    case LateRescale(x) => IntrudedKeeps(t, x.app, x.scaling);
  }

  /** The orphan is a recovery's worker, and no other worker has its id. */
  ghost predicate OrphanOk(s: State) {
    s.orphan.Some? ==>
      s.orphan.value.wid < s.nextWid && s.orphan.value.job.RecoverJob? && s.orphan.value.pc.RollingBack() &&
      (s.worker.Some? ==> s.worker.value.wid != s.orphan.value.wid)
  }

  lemma LoneCallKeeps(s: State)
    requires Inv(s) == true && OrphanOk(s) && s.orphan.Some? && LoneCalled(s, s.orphan.value).Some?
    ensures Inv(LoneCalled(s, s.orphan.value).value) == true
  {
    var w := s.orphan.value;
    var op := Op(w.wid, if w.pc.CallReset? then ForReset else ForRollback);
    EnqueuedKeeps(s, op);
    AsideKeeps(s.(lock := s.lock + [op]), LoneCalled(s, w).value);
  }

  /** The only call to the coordinator an orphan can leave behind is its reset. */
  lemma LoneDieKeeps(s: State, sent: Call)
    requires Inv(s) == true && OrphanOk(s) && s.orphan.Some? && MaySend(s.orphan.value, sent)
    ensures Inv(s.(strays := s.strays + {sent})) == true
  {
    assert sent == CReset(s.orphan.value.wid);
  }

  lemma LoneKeeps(s: State, l: Lone, t: State)
    requires ApplyLone(s, l) == Some(t) && Inv(s) == true && OrphanOk(s)
    ensures Inv(t) == true
  {
    match l
    case LoneCall => LoneCallKeeps(s);
    case LoneDelete(app) => StruckKeeps(s, app);
    case LoneRescale(x) => IntrudedKeeps(s, x.app, x.scaling);
    case LoneDie(Some(sent)) =>
      LoneDieKeeps(s, sent);
      AsideKeeps(s.(strays := s.strays + {sent}), t);
    case _ => AsideKeeps(s, t);
  }
}
