/** What holds over every run of the deploy protocol. */
module DeployProtocolTheorems {
  import opened Wrappers
  import opened AppNames
  import opened Ledger
  import opened DeployDiff
  import opened Coordinator
  import opened DeployProtocol
  import opened DeployProtocolProofs

  // --- Every reachable state keeps the invariant ---

  /** Serve by itself only ever takes listed apps away. */
  lemma EventKeeps(s: State, e: Event, t: State)
    requires ApplyEvent(s, e) == Some(t) && Inv(s) == true
    ensures Inv(t) == true
  {
    FewerKeeps(s, t);
  }

  lemma OutsideKeeps(s: State, o: Outside, t: State)
    requires ApplyOutside(s, o) == Some(t) && Inv(s) == true
    ensures Inv(t) == true
  {
    match o
    case Submit(request) => SubmitKeeps(s, request);
    case Cancel(id) => CancelKeeps(s, id);
    case LazyRead => LazyReadKeeps(s);
    case LazySet => LazySetKeeps(s);
    case Restart(clock, landed) => RestartKeeps(s, clock, landed);
  }

  lemma TaskKeeps(s: State, k: Task, t: State)
    requires ApplyTask(s, k) == Some(t) && Inv(s) == true
    ensures Inv(t) == true
  {
    match k
    case RecoverStart(found) => RecoverStartKeeps(s, found);
    case RecoverEnd => RecoverEndKeeps(s);
    case RecoverAbandon => RecoverAbandonKeeps(s);
    case Start(made) => StartKeeps(s, made);
    case RunEnd => RunEndKeeps(s);
    case Notice(made) => NoticeKeeps(s, made);
    case RollEnd => RollEndKeeps(s);
    case EndDrain => EndDrainKeeps(s);
  }

  lemma CallKeeps(s: State, d: Dealing, t: State)
    requires ApplyCall(s, d) == Some(t) && Inv(s) == true
    ensures Inv(t) == true
  {
    match d
    case LockDone(ok, landed) =>
      LockDoneKeeps(s, ok, landed);
      AsideKeeps(LockStep(s, ok, landed).value, t);
    case Deliver(call) => DeliverKeeps(s, call);
    case CallOut => CallOutKeeps(s);
    case AskDiff => AskDiffKeeps(s);
    case Die(sent) => DieKeeps(s, sent);
    case DieCalling(late) => DieCallingKeeps(s, late);
    case Land(late) => LandKeeps(s, late);
  }

  lemma ChangeKeeps(s: State, c: Change, t: State)
    requires ApplyChange(s, c) == Some(t) && Inv(s) == true
    ensures Inv(t) == true
  {
    match c
    case ServeDelete(_) => FewerKeeps(s, t);
    case ServeSubmit(m) => ServeSubmitKeeps(s, m);
    case SeeRunning(app) => SeeRunningKeeps(s, app);
    case ServeRescale(x) => ServeRescaleKeeps(s, x);
  }

  lemma WorkKeeps(s: State, w: Work, t: State)
    requires ApplyWork(s, w) == Some(t) && Inv(s) == true
    ensures Inv(t) == true
  {
    match w
    case SeeCancel => SeeCancelKeeps(s);
    case Fail => FailKeeps(s);
    case ReadServe(readable) => ReadServeKeeps(s, readable);
    case Next => NextKeeps(s);
    case Poll => PollKeeps(s);
  }

  /** What becomes of the workers: the live one's id stays or is a new one, and so does the orphan's, or it was the live one's. */
  ghost predicate SameWorkers(s: State, t: State) {
    t.nextWid >= s.nextWid &&
    (t.worker.Some? ==> (s.worker.Some? && t.worker.value.wid == s.worker.value.wid) || t.worker.value.wid >= s.nextWid) &&
    (t.orphan.Some? ==>
       (s.orphan.Some? && t.orphan.value.wid == s.orphan.value.wid && t.orphan.value.job == s.orphan.value.job &&
        (s.orphan.value.pc.RollingBack() ==> t.orphan.value.pc.RollingBack())) ||
       (t.worker.None? && s.worker == t.orphan && s.stage == Recovering))
  }

  lemma LockWorkers(s: State, ok: bool, landed: bool)
    requires s.lock != [] && LockStep(s, ok, landed).Some?
    ensures SameWorkers(s, LockStep(s, ok, landed).value.(orphan := s.orphan))
  {
  }

  lemma CalledWorkers(s: State)
    requires s.worker.Some? && Called(s).Some?
    ensures SameWorkers(s, Called(s).value)
  {
  }

  lemma DeliveredWorkers(s: State, call: Call)
    ensures SameWorkers(s, Delivered(s, call))
  {
  }

  lemma LandedWorkers(s: State, late: Late)
    ensures SameWorkers(s, Landed(s, late))
  {
  }

  lemma CallWorkers(s: State, d: Dealing, t: State)
    requires ApplyCall(s, d) == Some(t)
    ensures SameWorkers(s, t) == true
  {
    match d
    case LockDone(ok, landed) => LockWorkers(s, ok, landed);
    case Deliver(call) => DeliveredWorkers(s, call);
    case CallOut => CalledWorkers(s);
    case Land(late) => LandedWorkers(s, late);
    case _ =>
  }

  lemma OutsideWorkers(s: State, o: Outside, t: State)
    requires ApplyOutside(s, o) == Some(t)
    ensures SameWorkers(s, t) == true
  {
  }

  lemma TaskWorkers(s: State, k: Task, t: State)
    requires ApplyTask(s, k) == Some(t)
    ensures SameWorkers(s, t) == true
  {
  }

  lemma ReadWorkers(s: State, readable: bool)
    requires s.worker.Some? && ServeRead(s, readable).Some?
    ensures SameWorkers(s, ServeRead(s, readable).value)
  {
  }

  lemma WorkWorkers(s: State, w: Work, t: State)
    requires ApplyWork(s, w) == Some(t)
    ensures SameWorkers(s, t) == true
  {
    if w.ReadServe? {
      ReadWorkers(s, w.readable);
    }
  }

  lemma ChangeWorkers(s: State, c: Change, t: State)
    requires ApplyChange(s, c) == Some(t)
    ensures SameWorkers(s, t) == true
  {
  }

  lemma LoneWorkers(s: State, l: Lone, t: State)
    requires ApplyLone(s, l) == Some(t)
    ensures SameWorkers(s, t) == true
  {
  }

  lemma StepWorkers(s: State, a: Act, t: State)
    requires Apply(s, a) == Some(t)
    ensures SameWorkers(s, t) == true
  {
    match a
    case FromOutside(o) => OutsideWorkers(s, o, t);
    case OfServe(e) =>
    case OfTask(k) => TaskWorkers(s, k, t);
    case OfCall(d) => CallWorkers(s, d, t);
    case OfWorker(w) => WorkWorkers(s, w, t);
    case OnServe(c) => ChangeWorkers(s, c, t);
    case OfOrphan(l) => LoneWorkers(s, l, t);
  }

  lemma OrphanKeeps(s: State, a: Act, t: State)
    requires Apply(s, a) == Some(t) && Inv(s) == true && OrphanOk(s)
    ensures OrphanOk(t)
  {
    StepWorkers(s, a, t);
    if s.worker.Some? {
      StagedWorkers(s);
    }
  }

  lemma StagedWorkers(s: State)
    requires CallsInv(s) == true && s.worker.Some?
    ensures s.worker.value.wid < s.nextWid && (s.stage == Recovering ==> s.worker.value.job.RecoverJob? && s.worker.value.pc.RollingBack())
  {
  }

  lemma StepKeeps(s: State, a: Act, t: State)
    requires Apply(s, a) == Some(t) && Inv(s) == true && OrphanOk(s)
    ensures Inv(t) == true
  {
    match a
    case FromOutside(o) => OutsideKeeps(s, o, t);
    case OfServe(e) => EventKeeps(s, e, t);
    case OfTask(k) => TaskKeeps(s, k, t);
    case OfCall(d) => CallKeeps(s, d, t);
    case OfWorker(w) => WorkKeeps(s, w, t);
    case OnServe(c) => ChangeKeeps(s, c, t);
    case OfOrphan(l) => LoneKeeps(s, l, t);
  }

  lemma {:induction false} RunKeeps(states: seq<State>, acts: seq<Act>, n: nat)
    requires IsRun(states, acts) && n <= |acts|
    ensures Inv(states[n]) == true && OrphanOk(states[n])
  {
    if n == 0 {
      InitInv(states[0]);
    } else {
      RunKeeps(states, acts, n - 1);
      OrphanKeeps(states[n - 1], acts[n - 1], states[n]);
      StepKeeps(states[n - 1], acts[n - 1], states[n]);
    }
  }

  lemma ReachableInv(s: State)
    requires Reachable(s)
    ensures Inv(s) == true
  {
    var states, acts :| IsRun(states, acts) && states[|acts|] == s;
    RunKeeps(states, acts, |acts|);
  }

  lemma ReachableStep(s: State, a: Act, t: State)
    requires Apply(s, a) == Some(t) && Reachable(s)
    ensures Reachable(t)
  {
    var states, acts :| IsRun(states, acts) && states[|acts|] == s;
    RunMore(states, acts, a, t);
  }

  lemma RunMore(states: seq<State>, acts: seq<Act>, a: Act, t: State)
    requires IsRun(states, acts) && Apply(states[|acts|], a) == Some(t)
    ensures IsRun(states + [t], acts + [a]) && (states + [t])[|acts + [a]|] == t
  {
    forall i | 0 <= i < |acts + [a]|
      ensures Apply((states + [t])[i], (acts + [a])[i]) == Some((states + [t])[i + 1])
    {
      if i < |acts| {
        assert (acts + [a])[i] == acts[i];
      }
    }
  }

  // --- What is deleted, and what a rollback leaves ---

  /** The worker deletes an app of the committed version only as a stop_start request's own step before its commit. */
  lemma OnlyStopDeletesCommitted(s: State, app: App)
    requires AppDeleted(s, app).Some? && app in s.Named() && Reachable(s)
    ensures s.worker.value.pc.Stop? && RequestOf(s.worker.value.job).strategy == StopStart
  {
    ReachableInv(s);
  }

  /** The gateway's apps in Serve are all in the committed version. */
  ghost predicate OnlyNamed(s: State) { forall a :: a in s.serve && a.Listed(s.gw) ==> a in s.Named() }

  /** So are those that a dead worker's late calls or an orphan put there since the last diff was read. */
  ghost predicate AddedNamed(s: State) { forall a :: a in s.added && a in s.serve && a.Listed(s.gw) ==> a in s.Named() }

  /** A completed rollback leaves routing by the committed version, and only apps that version names exactly when no late
      call or orphan added another since the rollback read Serve. */
  lemma RolledBack(s: State)
    requires s.worker.Some? && s.worker.value.pc.DoneBack? && Reachable(s)
    ensures OnlyNamed(s) <==> AddedNamed(s)
    ensures s.c.routing.Some? && s.c.routing.value.models == s.Committed()
  {
    ReachableInv(s);
    KnownNamed(s);
  }

  lemma KnownNamed(s: State)
    requires forall a :: a in s.Known() && a.Listed(s.gw) ==> a in s.Named()
    ensures OnlyNamed(s) <==> AddedNamed(s)
  {
    if AddedNamed(s) {
      forall a | a in s.serve && a.Listed(s.gw)
        ensures a in s.Named()
      {
        assert a in s.Known() || a in s.added;
      }
    }
  }

  /** A request that comes through leaves its resulting version the committed one, and only that version's apps exactly when
      no late call or orphan added another since the request's diff was read. */
  lemma CameThrough(s: State)
    requires Reachable(s) && s.worker.Some? && s.worker.value.pc.DoneOk?
    ensures s.Committed() == s.worker.value.pc.diff.models
    ensures OnlyNamed(s) <==> AddedNamed(s)
  {
    ReachableInv(s);
    KnownNamed(s);
  }

  // --- Cancels, writes and outcomes ---

  /** An accepted cancel excludes a version write, stored or still waiting for its lock. */
  lemma AcceptedCancelNeverWrites(s: State, id: nat)
    requires Reachable(s) && id in s.accepted
    ensures forall k :: 0 <= k < |s.writes| ==> s.writes[k].0 != id
    ensures forall i :: 0 <= i < |s.lock| && s.lock[i].kind.ForWrite? ==> s.lock[i].kind.id != id
  {
    ReachableInv(s);
    assert forall i :: 0 <= i < |s.lock| && s.lock[i].kind.ForWrite? ==> IsWrite(s.lock[i]);
  }

  /** A request that has written can't be cancelled any more. */
  lemma WrittenNeverCancelled(s: State, k: nat)
    requires Reachable(s) && k < |s.writes|
    ensures !s.c.CancelAccepted(s.writes[k].0)
  {
    ReachableInv(s);
    NotQueued(s.c, s.writes[k].0);
  }

  lemma NotQueued(c: Coord, id: nat)
    requires !InQueue(c.queue, id)
    ensures c.IndexOf(id) == |c.queue|
  {
  }

  /** A switch or commit of a worker already seen dead, or of a request that no longer runs, has no effect. */
  lemma SeenDeadHasNoEffect(s: State, call: Call)
    requires Reachable(s) && call in s.strays && (call.CSwitch? || call.CCommit?)
    requires s.stage != Working || !s.c.Runs(call.id)
    ensures Delivered(s, call) == s.(strays := s.strays - {call})
  {
    ReachableInv(s);
    if s.c.Accepts(call.id) {
      LetThrough(s, call);
    }
  }

  /** The running request wrote the committed version. */
  ghost predicate LastWrite(s: State) {
    s.writes != [] && s.c.Runs(s.writes[|s.writes| - 1].0) && s.Committed() == Some(s.writes[|s.writes| - 1].1)
  }

  /** A request comes out as succeeded only with its models the committed version: it wrote the last version, or its
      diff changed nothing in the one it read. */
  lemma SucceededIsCommitted(s: State, a: Act, t: State, id: nat)
    requires Apply(s, a) == Some(t) && id !in s.c.outcomes && id in t.c.outcomes && t.c.outcomes[id] == Succeeded && Reachable(s)
    ensures s.c.Runs(id)
    ensures LastWrite(s) ||
            (a == OfTask(RunEnd) && s.worker.value.pc.DoneOk? && !s.worker.value.pc.diff.commits && s.Committed() == s.worker.value.pc.diff.models)
  {
    ReachableInv(s);
    OutcomeSetters(s, a, t, id);
    if a.task.RunEnd? {
      RunSucceeds(s);
    } else {
      RollSucceeds(s);
    }
  }

  lemma RunSucceeds(s: State)
    requires Inv(s) == true && s.stage == Working && s.worker.Some? && Returned(s.worker.value.pc) == Some(Succeeded)
    ensures s.worker.value.pc.DoneOk? && s.Committed() == s.worker.value.pc.diff.models
    ensures s.worker.value.pc.diff.commits ==> LastWrite(s)
  {
  }

  lemma RollSucceeds(s: State)
    requires QueueInv(s) == true && InPhase(s.c.running, Retiring)
    ensures LastWrite(s)
  {
  }

  /** Which steps set an outcome: a cancel of a queued request, the end of the running one, and a start or a rollback
      no worker can be made for. */
  lemma OutcomeSetters(s: State, a: Act, t: State, id: nat)
    requires Apply(s, a) == Some(t) && id !in s.c.outcomes && id in t.c.outcomes
    ensures (a.FromOutside? && a.outside.Cancel? && t.c.outcomes[id] == Cancelled) ||
            (a.OfTask? && (a.task.RunEnd? || a.task.RollEnd?) && s.c.Runs(id)) ||
            (a.OfTask? && (a.task.Start? || a.task.Notice?) && t.c.outcomes[id] == Failed)
  {
    match a
    case FromOutside(o) => OutsideSets(s, o, t, id);
    case OfTask(k) => TaskSets(s, k, t, id);
    case OfCall(d) => CallSetsNone(s, d, t);
    case _ => ServeSetsNone(s, a, t);
  }

  lemma OutsideSets(s: State, o: Outside, t: State, id: nat)
    requires ApplyOutside(s, o) == Some(t) && id !in s.c.outcomes && id in t.c.outcomes
    ensures o.Cancel? && t.c.outcomes[id] == Cancelled
  {
  }

  lemma TaskSets(s: State, k: Task, t: State, id: nat)
    requires ApplyTask(s, k) == Some(t) && id !in s.c.outcomes && id in t.c.outcomes
    ensures ((k.RunEnd? || k.RollEnd?) && s.c.Runs(id)) || ((k.Start? || k.Notice?) && t.c.outcomes[id] == Failed)
  {
  }

  lemma CallSetsNone(s: State, d: Dealing, t: State)
    requires ApplyCall(s, d) == Some(t)
    ensures t.c.outcomes == s.c.outcomes
  {
    match d
    case LockDone(ok, landed) => LockSetsNone(s, ok, landed);
    case Deliver(call) => DeliverSetsNone(s, call);
    case CallOut => CalledSetsNone(s);
    case Land(late) => LandSetsNone(s, late);
    case _ =>
  }

  lemma DeliverSetsNone(s: State, call: Call)
    ensures Delivered(s, call).c.outcomes == s.c.outcomes
  {
  }

  lemma CalledSetsNone(s: State)
    requires s.worker.Some? && Called(s).Some?
    ensures Called(s).value.c.outcomes == s.c.outcomes
  {
  }

  lemma LandSetsNone(s: State, late: Late)
    ensures Landed(s, late).c.outcomes == s.c.outcomes
  {
  }

  lemma LockSetsNone(s: State, ok: bool, landed: bool)
    requires s.lock != [] && LockStep(s, ok, landed).Some?
    ensures LockStep(s, ok, landed).value.c.outcomes == s.c.outcomes
  {
  }

  lemma ServeSetsNone(s: State, a: Act, t: State)
    requires (a.OfServe? || a.OfWorker? || a.OnServe? || a.OfOrphan?) && Apply(s, a) == Some(t)
    ensures t.c.outcomes == s.c.outcomes
  {
    match a
    case OfWorker(w) => WorkSetsNone(s, w, t);
    case OnServe(c) => ChangeSetsNone(s, c, t);
    case OfOrphan(l) => LoneSetsNone(s, l, t);
    case _ =>
  }

  lemma WorkSetsNone(s: State, w: Work, t: State)
    requires ApplyWork(s, w) == Some(t)
    ensures t.c.outcomes == s.c.outcomes
  {
  }

  lemma ChangeSetsNone(s: State, c: Change, t: State)
    requires ApplyChange(s, c) == Some(t)
    ensures t.c.outcomes == s.c.outcomes
  {
  }

  lemma LoneSetsNone(s: State, l: Lone, t: State)
    requires ApplyLone(s, l) == Some(t)
    ensures t.c.outcomes == s.c.outcomes
  {
  }

  /** Once set, an outcome stays. */
  lemma OutcomeOnce(s: State, a: Act, t: State, id: nat)
    requires Apply(s, a) == Some(t) && id in s.c.outcomes && Reachable(s)
    ensures id in t.c.outcomes && t.c.outcomes[id] == s.c.outcomes[id]
  {
    ReachableInv(s);
    match a
    case FromOutside(o) => OutsideKeepsOutcomes(s, o, t, id);
    case OfTask(k) => TaskKeepsOutcomes(s, k, t, id);
    case OfCall(d) => CallSetsNone(s, d, t);
    case _ => ServeSetsNone(s, a, t);
  }

  lemma OutsideKeepsOutcomes(s: State, o: Outside, t: State, id: nat)
    requires ApplyOutside(s, o) == Some(t) && s.c.Valid() && id in s.c.outcomes
    ensures id in t.c.outcomes && t.c.outcomes[id] == s.c.outcomes[id]
  {
  }

  lemma TaskKeepsOutcomes(s: State, k: Task, t: State, id: nat)
    requires ApplyTask(s, k) == Some(t) && s.c.Valid() && id in s.c.outcomes
    ensures id in t.c.outcomes && t.c.outcomes[id] == s.c.outcomes[id]
  {
  }

  /** Requests start in submission order, and each one submitted has started, waits or was dropped, never two of them. */
  lemma StartOrder(s: State)
    requires Reachable(s)
    ensures forall i, j :: 0 <= i < j < |s.started| ==> s.started[i] < s.started[j]
    ensures forall id: nat :: id < s.c.nextId ==>
              (id in s.started || id in s.dropped || InQueue(s.c.queue, id)) &&
              !(id in s.started && id in s.dropped) && !(id in s.started && InQueue(s.c.queue, id)) && !(id in s.dropped && InQueue(s.c.queue, id))
  {
    ReachableInv(s);
    StartedApart(s.c.queue, s.c.running, s.c.nextId, s.started, s.dropped);
  }

  /** No submitted request is lost: whenever one waits and nothing runs, a drain is there to start it next. */
  lemma QueueDrains(s: State)
    requires Reachable(s) && s.c.queue != []
    ensures s.c.drainer
    ensures s.stage == Idle && s.recovery == Over ==> Started(s, true).Some? && Started(s, true).value.c.Runs(s.c.queue[0].id)
    ensures forall i :: 0 <= i < |s.c.queue| ==> s.c.queue[0].id <= s.c.queue[i].id
  {
    ReachableInv(s);
  }

  // --- Routing while the replaced apps go ---

  /** The version the last commit replaced. */
  ghost function Previous(stored: Option<Stored>): Option<seq<Model>> {
    if stored.Some? && stored.value.previous.Some? then Some(stored.value.previous.value.models) else None
  }

  /** While a committed request's replaced apps go, they are the replaced version's, and routing taken back before the
      write still is by that version. */
  ghost predicate Replacing(s: State) {
    s.worker.Some? && s.worker.value.pc.Retire? && s.worker.value.pc.diff.commits ==>
      s.worker.value.pc.left <= Apps(s.gw, Set(Previous(s.stored))) &&
      (s.unswitched ==> s.c.routing.Some? && s.c.routing.value.models == Previous(s.stored))
  }

  /** A request still retiring after a step was so before it, by the same version and routing, with no more left. */
  ghost predicate StillRetiring(s: State, t: State) {
    t.worker.Some? && t.worker.value.pc.Retire? && t.worker.value.pc.diff.commits ==>
      s.worker.Some? && s.worker.value.pc.Retire? && t.worker.value.pc.diff == s.worker.value.pc.diff &&
      t.worker.value.pc.left <= s.worker.value.pc.left && t.gw == s.gw && t.stored == s.stored && t.c.routing == s.c.routing && t.unswitched == s.unswitched
  }

  lemma OutsideRetires(s: State, o: Outside, t: State)
    requires ApplyOutside(s, o) == Some(t) && WorkerInv(s) == true
    ensures StillRetiring(s, t) == true
  {
  }

  lemma TaskRetires(s: State, k: Task, t: State)
    requires ApplyTask(s, k) == Some(t)
    ensures StillRetiring(s, t) == true
  {
  }

  lemma WorkRetires(s: State, w: Work, t: State)
    requires ApplyWork(s, w) == Some(t)
    ensures StillRetiring(s, t) == true
  {
  }

  lemma DeliverRetires(s: State, call: Call)
    requires CallsInv(s) == true && call in s.strays
    ensures StillRetiring(s, Delivered(s, call)) == true
  {
    if call.CSwitch? && s.c.Accepts(call.id) {
      LetThrough(s, call);
    }
  }

  lemma CalledRetires(s: State)
    requires s.worker.Some? && Called(s).Some?
    ensures StillRetiring(s, Called(s).value) == true
  {
  }

  lemma LandRetires(s: State, late: Late)
    ensures StillRetiring(s, Landed(s, late)) == true
  {
  }

  lemma LoneRetires(s: State, l: Lone, t: State)
    requires ApplyLone(s, l) == Some(t)
    ensures StillRetiring(s, t) == true
  {
  }

  /** A commit's own answer: what is left to delete is of the version it replaced. */
  lemma CommitReplaces(s: State, ok: bool, landed: bool)
    requires Inv(s) == true && s.lock != [] && s.lock[0].kind.ForWrite? && s.WaitsFor(s.lock[0]) && (ok ==> landed)
    ensures Replacing(WriteDone(s, ok, landed)) == true
  {
    SwitchedDiff(s);
  }

  lemma SwitchedDiff(s: State)
    requires WorkerInv(s) == true && s.worker.Some? && s.worker.value.pc.AwaitCommit?
    ensures s.worker.value.pc.diff.retired <= Apps(s.gw, Set(s.Committed()))
    ensures s.unswitched ==> s.c.routing.Some? && s.c.routing.value.models == s.Committed()
  {
  }

  lemma LockReplaces(s: State, ok: bool, landed: bool)
    requires Inv(s) == true && Replacing(s) && s.lock != [] && LockStep(s, ok, landed).Some?
    ensures Replacing(LockStep(s, ok, landed).value) == true
  {
    if s.lock[0].kind.ForWrite? {
      if s.WaitsFor(s.lock[0]) {
        CommitReplaces(s, ok, landed);
      } else {
        ForeignReplaces(s, ok, landed);
      }
    } else {
      ReadReplaces(s, ok);
    }
  }

  /** Another's write comes to its end before the worker relies on a version. */
  lemma ForeignReplaces(s: State, ok: bool, landed: bool)
    requires WorkerInv(s) == true && s.lock != [] && s.lock[0].kind.ForWrite? && !s.WaitsFor(s.lock[0])
    ensures Replacing(WriteDone(s, ok, landed)) == true
  {
    if s.worker.Some? {
      assert IsWrite(s.lock[0]);
      ForeignAhead(s.lock, s.worker.value, s.c.running);
      assert !s.worker.value.pc.Retire?;
    }
  }

  lemma ReadReplaces(s: State, ok: bool)
    requires Replacing(s) && s.lock != [] && !s.lock[0].kind.ForWrite? && LockStep(s, ok, false).Some?
    ensures Replacing(LockStep(s, ok, false).value) == true
  {
  }

  lemma ReplacesOn(s: State, t: State)
    requires StillRetiring(s, t) && Replacing(s)
    ensures Replacing(t) == true
  {
  }

  lemma CallReplaces(s: State, d: Dealing, t: State)
    requires ApplyCall(s, d) == Some(t) && Inv(s) == true && Replacing(s) == true
    ensures Replacing(t) == true
  {
    match d
    case LockDone(ok, landed) =>
      LockReplaces(s, ok, landed);
      ReplacesOn(LockStep(s, ok, landed).value, t);
    case Deliver(call) =>
      DeliverRetires(s, call);
      ReplacesOn(s, t);
    case CallOut =>
      CalledRetires(s);
      ReplacesOn(s, t);
    case Land(late) =>
      LandRetires(s, late);
      ReplacesOn(s, t);
    case _ => ReplacesOn(s, t);
  }

  lemma EventRetires(s: State, e: Event, t: State)
    requires ApplyEvent(s, e) == Some(t)
    ensures StillRetiring(s, t) == true
  {
  }

  lemma ChangeRetires(s: State, c: Change, t: State)
    requires ApplyChange(s, c) == Some(t)
    ensures StillRetiring(s, t) == true
  {
  }

  /** A step that isn't a call. */
  lemma StepRetires(s: State, a: Act, t: State)
    requires Apply(s, a) == Some(t) && !a.OfCall? && WorkerInv(s) == true
    ensures StillRetiring(s, t) == true
  {
    match a
    case FromOutside(o) => OutsideRetires(s, o, t);
    case OfServe(e) => EventRetires(s, e, t);
    case OfTask(k) => TaskRetires(s, k, t);
    case OfWorker(w) => WorkRetires(s, w, t);
    case OnServe(c) => ChangeRetires(s, c, t);
    case OfOrphan(l) => LoneRetires(s, l, t);
  }

  lemma StepReplaces(s: State, a: Act, t: State)
    requires Apply(s, a) == Some(t) && Inv(s) == true && Replacing(s) == true
    ensures Replacing(t) == true
  {
    if a.OfCall? {
      CallReplaces(s, a.dealing, t);
    } else {
      StepRetires(s, a, t);
      ReplacesOn(s, t);
    }
  }

  lemma {:induction false} RunReplaces(states: seq<State>, acts: seq<Act>, n: nat)
    requires IsRun(states, acts) && n <= |acts|
    ensures Replacing(states[n]) == true
  {
    if n > 0 {
      RunReplaces(states, acts, n - 1);
      RunKeeps(states, acts, n - 1);
      StepReplaces(states[n - 1], acts[n - 1], states[n]);
    }
  }

  /** An app deleted after the commit is one the gateway is routed to exactly when a dead worker's reset came between the
      request's switch and its write. */
  lemma RetiredUnrouted(s: State, app: App)
    requires AppDeleted(s, app).Some? && s.worker.value.pc.Retire? && Reachable(s)
    ensures s.c.routing.Some? && (app in Apps(s.gw, Set(s.c.routing.value.models)) <==> s.unswitched) && app.gateway == s.gw
  {
    ReachableInv(s);
    RetiringFits(s, app);
    var states, acts :| IsRun(states, acts) && states[|acts|] == s;
    RunReplaces(states, acts, |acts|);
  }

  lemma RetiringFits(s: State, app: App)
    requires s.worker.Some? && Fits(s, s.worker.value) == true && s.worker.value.pc.Retire? && app in s.worker.value.pc.left
    ensures s.worker.value.pc.diff.commits && app !in Apps(s.gw, Set(s.Committed()))
    ensures s.c.routing.Some? && (s.unswitched <==> s.c.routing.value.models != s.Committed())
  {
  }
}
