/** Where a request's steps end over runs in which nothing else takes its apps away: the worker brings up all it was asked for. */
module DeployProtocolTarget {
  import opened Wrappers
  import opened AppNames
  import opened Ledger
  import opened DeployDiff
  import opened Rollout
  import opened Coordinator
  import opened DeployProtocol
  import opened DeployProtocolProofs
  import opened DeployProtocolTheorems
  import opened DeployProtocolSafety

  /** The app is in Serve and not being deleted. */
  predicate Alive(serve: map<App, ServeApp>, a: App) { a in serve && serve[a].status != Deleting }

  /** The models a request names, or redeploys. */
  function WantedBy(request: Request, diff: Diff): seq<Model> {
    if request.Proposes() then request.models.value else Set(diff.models)
  }

  /** The wanted models' listed apps are alive, but for those in *but*. */
  ghost predicate Up(gw: string, serve: map<App, ServeApp>, wanted: seq<Model>, but: set<App>) {
    forall m :: m in wanted && AppOf(gw, m).Listed(gw) && AppOf(gw, m) !in but ==> Alive(serve, AppOf(gw, m))
  }

  /** Wanted apps are the result's; of a request that isn't additive, all of them. */
  ghost predicate InResult(gw: string, request: Request, diff: Diff) {
    Apps(gw, WantedBy(request, diff)) <= Apps(gw, Set(diff.models)) &&
    (!(request.Proposes() && request.mode == Fold(Additive)) ==> Apps(gw, Set(diff.models)) <= Apps(gw, WantedBy(request, diff)))
  }

  /** Before the apps come up, those not deployed are committed ones and alive. */
  ghost predicate Lifting(gw: string, serve: map<App, ServeApp>, committed: Option<seq<Model>>, request: Request, diff: Diff) {
    var wanted := WantedBy(request, diff);
    InResult(gw, request, diff) && Up(gw, serve, wanted, Apps(gw, diff.deploys)) &&
    forall m :: m in wanted && AppOf(gw, m).Listed(gw) ==> AppOf(gw, m) in Apps(gw, diff.deploys) || AppOf(gw, m) in Apps(gw, Set(committed))
  }

  ghost predicate Lifted(gw: string, serve: map<App, ServeApp>, request: Request, diff: Diff, pending: set<App>) {
    InResult(gw, request, diff) && Up(gw, serve, WantedBy(request, diff), pending)
  }

  /** How far a request's worker has come. */
  ghost predicate Climbed(gw: string, serve: map<App, ServeApp>, committed: Option<seq<Model>>, request: Request, pc: Pc) {
    match pc
    case Clear(diff, _) => Lifting(gw, serve, committed, request, diff)
    case Lower(diff) => Lifting(gw, serve, committed, request, diff)
    case Stop(diff, _) => Lifting(gw, serve, committed, request, diff)
    case BringUp(diff, pending) => Lifted(gw, serve, request, diff, pending)
    case Raise(diff) => Lifted(gw, serve, request, diff, {})
    case CallSwitch(diff) => Lifted(gw, serve, request, diff, {})
    case AwaitSwitch(diff) => Lifted(gw, serve, request, diff, {})
    case CallCommit(diff) => Lifted(gw, serve, request, diff, {})
    case AwaitCommit(diff) => Lifted(gw, serve, request, diff, {})
    case Retire(diff, _) => Lifted(gw, serve, request, diff, {})
    case DoneOk(diff) => Lifted(gw, serve, request, diff, {})
    case _ => true
  }

  ghost predicate Climbing(s: State) {
    s.worker.Some? && s.worker.value.job.RunJob? ==>
      Climbed(s.gw, s.serve, s.Committed(), s.worker.value.job.request, s.worker.value.pc)
  }

  /** No listed app that was alive, but *gone*, is so no more. */
  ghost predicate KeptAlive(gw: string, serve: map<App, ServeApp>, now: map<App, ServeApp>, gone: set<App>) {
    forall a: App :: a.Listed(gw) && a !in gone && Alive(serve, a) ==> Alive(now, a)
  }

  lemma ClimbedKept(gw: string, serve: map<App, ServeApp>, now: map<App, ServeApp>, committed: Option<seq<Model>>, request: Request, pc: Pc)
    requires KeptAlive(gw, serve, now, {}) && Climbed(gw, serve, committed, request, pc)
    ensures Climbed(gw, now, committed, request, pc)
  {
  }

  // --- Reading the diff ---

  lemma WantedIn(gw: string, request: Request, committed: Option<seq<Model>>, serve: map<App, ServeApp>)
    requires WellNamed(request, committed)
    ensures InResult(gw, request, DiffOf(gw, request, committed, serve))
    ensures WantedBy(request, DiffOf(gw, request, committed, serve)) == Wanted(request, committed)
  {
    if request.Proposes() {
      ResultIs(gw, request, committed);
      var proposed := Proposed(request, committed);
      forall m | m in request.models.value
        ensures AppOf(gw, m) in Apps(gw, proposed)
      {
        assert m in proposed;
      }
      if request.mode != Fold(Additive) {
        forall m | m in proposed
          ensures AppOf(gw, m) in Apps(gw, request.models.value)
        {
          assert m in request.models.value;
        }
      }
    }
  }

  lemma ReadClimbs(gw: string, request: Request, committed: Option<seq<Model>>, serve: map<App, ServeApp>)
    requires WellNamed(request, committed)
    ensures Lifting(gw, serve, committed, request, DiffOf(gw, request, committed, serve))
  {
    var diff := DiffOf(gw, request, committed, serve);
    WantedIn(gw, request, committed, serve);
    DiffSound(gw, request, committed, serve);
    forall m | m in Wanted(request, committed) && AppOf(gw, m).Listed(gw) && AppOf(gw, m) !in Apps(gw, diff.deploys)
      ensures Alive(serve, AppOf(gw, m)) && AppOf(gw, m) in Apps(gw, Set(committed))
    {
      assert SoundModel(gw, serve, diff, m);
      assert m !in diff.deploys;
    }
  }

  // --- The steps ---

  lemma ServeClimbs(s: State, t: State)
    requires Climbing(s) && KeptAlive(s.gw, s.serve, t.serve, {}) && t == s.(serve := t.serve, hit := t.hit, added := t.added)
    ensures Climbing(t) == true
  {
    if s.worker.Some? && s.worker.value.job.RunJob? {
      ClimbedKept(s.gw, s.serve, t.serve, s.Committed(), s.worker.value.job.request, s.worker.value.pc);
    }
  }

  /** Serve takes no app away but one being deleted. */
  ghost predicate Orderly(s: State, a: Act) { a.OfServe? && a.event.ServeGone? ==> !Alive(s.serve, a.event.app) }

  lemma EventClimbs(s: State, e: Event, t: State)
    requires ApplyEvent(s, e) == Some(t) && Orderly(s, OfServe(e)) && Climbing(s)
    ensures Climbing(t) == true
  {
    assert KeptAlive(s.gw, s.serve, t.serve, {});
    ServeClimbs(s, t);
  }

  /** What a worker deletes on its way is none of what it was asked for. */
  lemma DeleteClimbs(s: State, app: App)
    requires WorkerInv(s) == true && Climbing(s) && AppDeleted(s, app).Some?
    ensures Climbing(AppDeleted(s, app).value) == true
  {
    var w, now := s.worker.value, AppDeleted(s, app).value.serve;
    if w.job.RunJob? {
      DeletedPlaced(s.gw, s.Known(), s.Committed(), w);
      DeleteSpares(s.gw, s.serve, now, s.Committed(), w, app);
    }
  }

  /** What is left to delete is apart from the committed version, or from the result. */
  predicate Apart(gw: string, committed: Option<seq<Model>>, pc: Pc) {
    (pc.Clear? ==> pc.left !! Apps(gw, Set(committed))) && (pc.Stop? || pc.Retire? ==> pc.left !! Apps(gw, Set(pc.diff.models)))
  }

  lemma DeletedPlaced(gw: string, known: map<App, ServeApp>, committed: Option<seq<Model>>, w: Worker)
    requires Placed(gw, known, committed, w)
    ensures Apart(gw, committed, w.pc)
  {
  }

  lemma DeleteSpares(gw: string, serve: map<App, ServeApp>, now: map<App, ServeApp>, committed: Option<seq<Model>>, w: Worker, app: App)
    requires w.job.RunJob? && app in Left(w.pc) && Apart(gw, committed, w.pc) && Climbed(gw, serve, committed, w.job.request, w.pc)
    requires KeptAlive(gw, serve, now, {app})
    ensures Climbed(gw, now, committed, w.job.request, w.pc)
  {
  }

  lemma ChangeClimbs(s: State, c: Change, t: State)
    requires ApplyChange(s, c) == Some(t) && WorkerInv(s) == true && Climbing(s)
    ensures Climbing(t) == true
  {
    match c
    case ServeDelete(app) => DeleteClimbs(s, app);
    case ServeSubmit(_) => ServeClimbs(s, t);
    case ServeRescale(_) => ServeClimbs(s, t);
    case SeeRunning(_) =>
  }

  lemma NextClimbs(gw: string, serve: map<App, ServeApp>, committed: Option<seq<Model>>, request: Request, pc: Pc)
    requires Climbed(gw, serve, committed, request, pc) && Following(gw, request, pc).Some?
    ensures Climbed(gw, serve, committed, request, Following(gw, request, pc).value)
  {
  }

  lemma WorkClimbs(s: State, w: Work, t: State)
    requires ApplyWork(s, w) == Some(t) && WorkerInv(s) == true && Climbing(s)
    ensures Climbing(t) == true
  {
    match w
    case Next =>
      if s.worker.value.job.RunJob? {
        NextClimbs(s.gw, s.serve, s.Committed(), s.worker.value.job.request, s.worker.value.pc);
      }
    case ReadServe(readable) => ReadsClimb(s, readable);
    case _ =>
  }

  lemma ReadsClimb(s: State, readable: bool)
    requires s.worker.Some? && ServeRead(s, readable).Some? && WorkerInv(s) == true
    ensures Climbing(ServeRead(s, readable).value) == true
  {
    var w := s.worker.value;
    if readable && w.pc.HaveCommitted? && WellNamed(w.job.request, w.pc.committed) {
      ReadsCommitted(s);
      ReadClimbs(s.gw, w.job.request, w.pc.committed, s.serve);
    }
  }

  lemma TaskClimbs(s: State, k: Task, t: State)
    requires ApplyTask(s, k) == Some(t) && Climbing(s)
    ensures Climbing(t) == true
  {
  }

  lemma OutsideClimbs(s: State, o: Outside, t: State)
    requires ApplyOutside(s, o) == Some(t) && Climbing(s)
    ensures Climbing(t) == true
  {
  }

  lemma CalledClimbs(s: State)
    requires s.worker.Some? && Called(s).Some? && Climbing(s)
    ensures Climbing(Called(s).value) == true
  {
    CalledQuiet(s);
    CalledJob(s);
  }

  lemma CalledJob(s: State)
    requires s.worker.Some? && Called(s).Some?
    ensures Called(s).value.worker.Some? && Called(s).value.worker.value.job == s.worker.value.job
  {
  }

  lemma ReadDoneClimbs(s: State, ok: bool)
    requires s.lock != [] && !s.lock[0].kind.ForWrite? && LockStep(s, ok, false).Some? && Climbing(s)
    ensures Climbing(LockStep(s, ok, false).value) == true
  {
    ReadDoneQuiet(s, ok);
  }

  lemma WriteClimbs(s: State, ok: bool, landed: bool)
    requires WorkerInv(s) == true && s.lock != [] && s.lock[0].kind.ForWrite? && Climbing(s)
    ensures Climbing(WriteDone(s, ok, landed)) == true
  {
    if s.worker.Some? && s.worker.value.job.RunJob? {
      WriteJob(s, ok, landed);
      if !s.WaitsFor(s.lock[0]) {
        assert IsWrite(s.lock[0]);
        ForeignAhead(s.lock, s.worker.value, s.c.running);
        Unclimbed(s.gw, s.serve, WriteDone(s, ok, landed).Committed(), s.worker.value);
      }
    }
  }

  lemma Unclimbed(gw: string, serve: map<App, ServeApp>, committed: Option<seq<Model>>, w: Worker)
    requires !w.pc.PastRead() && w.job.RunJob?
    ensures Climbed(gw, serve, committed, w.job.request, w.pc)
  {
  }

  lemma WriteJob(s: State, ok: bool, landed: bool)
    requires s.lock != [] && s.lock[0].kind.ForWrite? && s.worker.Some?
    ensures var t := WriteDone(s, ok, landed);
            t.gw == s.gw && t.serve == s.serve && t.worker.Some? && t.worker.value.job == s.worker.value.job &&
            if !s.WaitsFor(s.lock[0]) then t.worker == s.worker
            else s.worker.value.pc.AwaitCommit? &&
                 (t.worker.value.pc.CallMark? || (t.worker.value.pc.Retire? && t.worker.value.pc.diff == s.worker.value.pc.diff))
  {
  }

  lemma LockClimbs(s: State, ok: bool, landed: bool)
    requires s.lock != [] && LockStep(s, ok, landed).Some? && WorkerInv(s) == true && Climbing(s) == true
    ensures Climbing(LockStep(s, ok, landed).value) == true
  {
    if s.lock[0].kind.ForWrite? {
      WriteClimbs(s, ok, landed);
    } else {
      ReadDoneClimbs(s, ok);
    }
  }

  lemma DeliverClimbs(s: State, call: Call)
    requires Climbing(s)
    ensures Climbing(Delivered(s, call)) == true
  {
  }

  lemma AskClimbs(s: State)
    requires Asked(s).Some?
    ensures Climbing(Asked(s).value) == true
  {
  }

  lemma CallClimbs(s: State, d: Dealing, t: State)
    requires ApplyCall(s, d) == Some(t) && !d.Land? && WorkerInv(s) == true && Climbing(s) == true
    ensures Climbing(t) == true
  {
    match d
    case LockDone(ok, landed) => LockClimbs(s, ok, landed);
    case Deliver(call) => DeliverClimbs(s, call);
    case CallOut => CalledClimbs(s);
    case AskDiff => AskClimbs(s);
    case _ =>
  }

  /** Nothing from outside the request's own steps takes its apps away. */
  ghost predicate Undisturbed(s: State, a: Act) { Orderly(s, a) && NoLateDelete(a) && NoLateSubmit(a) && Awaited(a) }

  lemma StepClimbs(s: State, a: Act, t: State)
    requires Apply(s, a) == Some(t) && Undisturbed(s, a) && s.orphan.None? && WorkerInv(s) == true && Climbing(s) == true
    ensures Climbing(t) == true
  {
    match a
    case FromOutside(o) => OutsideClimbs(s, o, t);
    case OfServe(e) => EventClimbs(s, e, t);
    case OfTask(k) => TaskClimbs(s, k, t);
    case OfCall(d) => CallClimbs(s, d, t);
    case OfWorker(w) => WorkClimbs(s, w, t);
    case OnServe(c) => ChangeClimbs(s, c, t);
    case OfOrphan(_) =>
  }

  ghost predicate UndisturbedRun(states: seq<State>, acts: seq<Act>) {
    IsRun(states, acts) && forall i {:trigger acts[i]} :: 0 <= i < |acts| ==> Undisturbed(states[i], acts[i])
  }

  lemma UndisturbedStep(states: seq<State>, acts: seq<Act>, i: nat)
    requires UndisturbedRun(states, acts) && i < |acts|
    ensures |states| == |acts| + 1 && Apply(states[i], acts[i]) == Some(states[i + 1]) && Undisturbed(states[i], acts[i]) == true
  {
  }

  lemma UndisturbedOrphan(states: seq<State>, acts: seq<Act>, n: nat)
    requires UndisturbedRun(states, acts) && n <= |acts|
    ensures states[n].orphan.None? && Inv(states[n]) == true
  {
    NoneHit(states, acts, n);
    RunKeeps(states, acts, n);
  }

  lemma {:induction false} RunClimbs(states: seq<State>, acts: seq<Act>, n: nat)
    requires UndisturbedRun(states, acts) == true && n <= |acts| && |states| == |acts| + 1
    ensures Climbing(states[n]) == true
  {
    if n == 0 {
      assert states[0].worker.None?;
    } else {
      RunClimbs(states, acts, n - 1);
      UndisturbedOrphan(states, acts, n - 1);
      UndisturbedStep(states, acts, n - 1);
      InvWorker(states[n - 1]);
      StepClimbs(states[n - 1], acts[n - 1], states[n]);
    }
  }

  lemma InvWorker(s: State)
    requires Inv(s) == true
    ensures WorkerInv(s) == true
  {
  }

  /** A request comes through with every model it names in Serve, not being deleted, and with no app there that the version it
      leaves committed doesn't name; unless it is additive, with exactly that version's apps. */
  lemma ReachesItsTarget(states: seq<State>, acts: seq<Act>, n: nat)
    requires UndisturbedRun(states, acts) && n <= |acts|
    requires states[n].worker.Some? && states[n].worker.value.job.RunJob? && states[n].worker.value.pc.DoneOk?
    ensures var s, request, diff := states[n], states[n].worker.value.job.request, states[n].worker.value.pc.diff;
            s.Committed() == diff.models && OnlyNamed(s) && Up(s.gw, s.serve, WantedBy(request, diff), {}) &&
            (!(request.Proposes() && request.mode == Fold(Additive)) ==>
               forall a: App :: a.Listed(s.gw) ==> (a in s.serve <==> a in s.Named()))
  {
    var s := states[n];
    RunClimbs(states, acts, n);
    AwaitedRolledBack(states, acts, n);
    RunKeeps(states, acts, n);
    CommittedAtEnd(s);
    TargetExact(s.gw, s.serve, s.worker.value.job.request, s.worker.value.pc.diff);
  }

  lemma CommittedAtEnd(s: State)
    requires WorkerInv(s) == true && s.worker.Some? && s.worker.value.pc.DoneOk?
    ensures s.Committed() == s.worker.value.pc.diff.models
  {
  }

  lemma TargetExact(gw: string, serve: map<App, ServeApp>, request: Request, diff: Diff)
    requires Lifted(gw, serve, request, diff, {}) && forall a :: a in serve && a.Listed(gw) ==> a in Apps(gw, Set(diff.models))
    ensures !(request.Proposes() && request.mode == Fold(Additive)) ==>
              forall a: App :: a.Listed(gw) ==> (a in serve <==> a in Apps(gw, Set(diff.models)))
  {
    if !(request.Proposes() && request.mode == Fold(Additive)) {
      forall a: App | a.Listed(gw) && a in Apps(gw, Set(diff.models))
        ensures a in serve
      {
        var m :| m in WantedBy(request, diff) && AppOf(gw, m) == a;
        assert Alive(serve, AppOf(gw, m));
      }
    }
  }
}
