/** Over runs of blue_green requests: no app the committed version names is ever being deleted. */
module DeployProtocolSafety {
  import opened Wrappers
  import opened AppNames
  import opened Ledger
  import opened DeployDiff
  import opened Rollout
  import opened Coordinator
  import opened DeployProtocol
  import opened DeployProtocolProofs
  import opened DeployProtocolTheorems

  /** None of the models' listed apps is being deleted. */
  ghost predicate Intact(gw: string, serve: map<App, ServeApp>, models: seq<Model>) {
    forall a :: a in serve && a.Listed(gw) && a in Apps(gw, models) ==> serve[a].status != Deleting
  }

  ghost predicate BlueGreenOnly(queue: seq<Entry>, running: Option<Entry>) {
    (forall i :: 0 <= i < |queue| ==> queue[i].request.strategy == BlueGreen) &&
    (running.Some? ==> running.value.request.strategy == BlueGreen)
  }

  /** Each listed app of the resulting version is a committed one, or deployed. */
  ghost predicate Reused(gw: string, committed: Option<seq<Model>>, diff: Diff) {
    forall a :: a in Apps(gw, Set(diff.models)) && a.Listed(gw) ==> a in Apps(gw, Set(committed)) || a in Apps(gw, diff.deploys)
  }

  /** How far the worker has brought its result's apps up. */
  ghost predicate Rising(gw: string, serve: map<App, ServeApp>, committed: Option<seq<Model>>, pc: Pc) {
    match pc
    case Clear(diff, _) => Reused(gw, committed, diff)
    case Lower(diff) => Reused(gw, committed, diff)
    case BringUp(diff, pending) =>
      forall a :: a in serve && a.Listed(gw) && a in Apps(gw, Set(diff.models)) && a !in pending ==> serve[a].status != Deleting
    case Raise(diff) => Intact(gw, serve, Set(diff.models))
    case CallSwitch(diff) => Intact(gw, serve, Set(diff.models))
    case AwaitSwitch(diff) => Intact(gw, serve, Set(diff.models))
    case CallCommit(diff) => Intact(gw, serve, Set(diff.models))
    case AwaitCommit(diff) => Intact(gw, serve, Set(diff.models))
    case _ => true
  }

  /** A call of a dead worker that may still be let through. */
  predicate Pending(running: Option<Entry>, stage: Stage, alive: bool, call: Call) {
    (call.CSwitch? || call.CCommit?) && RunsIn(running, call.id) && stage == Working && !alive
  }

  ghost predicate Spared(gw: string, serve: map<App, ServeApp>, running: Option<Entry>, lock: seq<Op>, strays: set<Call>, stage: Stage, alive: bool) {
    (forall i :: 0 <= i < |lock| && IsWrite(lock[i]) ==> Intact(gw, serve, lock[i].kind.models)) &&
    (forall call :: call in strays && Pending(running, stage, alive, call) ==> Intact(gw, serve, call.models))
  }

  ghost predicate Safe(s: State) {
    BlueGreenOnly(s.c.queue, s.c.running) && Intact(s.gw, s.Unhit(), Set(s.Committed())) &&
    (s.worker.Some? ==> Rising(s.gw, s.Unhit(), s.Committed(), s.worker.value.pc)) &&
    Spared(s.gw, s.Unhit(), s.c.running, s.lock, s.strays, s.stage, s.worker.Some?)
  }

  /** Serve changes, and no app that wasn't being deleted is now, but *gone*. */
  ghost predicate NoneNewlyDeleting(gw: string, serve: map<App, ServeApp>, now: map<App, ServeApp>, gone: set<App>) {
    forall a :: a in now && a.Listed(gw) && now[a].status == Deleting ==> a in gone || (a in serve && serve[a].status == Deleting)
  }

  lemma IntactKept(gw: string, serve: map<App, ServeApp>, now: map<App, ServeApp>, gone: set<App>, models: seq<Model>)
    requires NoneNewlyDeleting(gw, serve, now, gone) && Intact(gw, serve, models) && gone !! Apps(gw, models)
    ensures Intact(gw, now, models)
  {
  }

  lemma RisingKept(gw: string, serve: map<App, ServeApp>, now: map<App, ServeApp>, committed: Option<seq<Model>>, pc: Pc)
    requires NoneNewlyDeleting(gw, serve, now, {}) && Rising(gw, serve, committed, pc)
    ensures Rising(gw, now, committed, pc)
  {
  }

  lemma SparedKept(gw: string, serve: map<App, ServeApp>, now: map<App, ServeApp>, running: Option<Entry>, lock: seq<Op>, strays: set<Call>,
                   stage: Stage, alive: bool)
    requires NoneNewlyDeleting(gw, serve, now, {}) && Spared(gw, serve, running, lock, strays, stage, alive)
    ensures Spared(gw, now, running, lock, strays, stage, alive)
  {
  }

  /** A change of Serve that starts no deletion. */
  lemma ServeSafe(s: State, t: State)
    requires Safe(s) == true && NoneNewlyDeleting(s.gw, s.Unhit(), t.Unhit(), {})
    requires t == s.(serve := t.serve, added := t.added, hit := t.hit, late := t.late, orphan := t.orphan)
    ensures Safe(t) == true
  {
    IntactKept(s.gw, s.Unhit(), t.Unhit(), {}, Set(s.Committed()));
    SparedKept(s.gw, s.Unhit(), t.Unhit(), s.c.running, s.lock, s.strays, s.stage, s.worker.Some?);
    if s.worker.Some? {
      RisingKept(s.gw, s.Unhit(), t.Unhit(), s.Committed(), s.worker.value.pc);
    }
  }

  /** A deletion by the worker hits no app of the committed version, and comes while no version waits to be written. */
  lemma DeletesApart(s: State, app: App)
    requires Inv(s) == true && AppDeleted(s, app).Some? && BlueGreenOnly(s.c.queue, s.c.running)
    ensures app !in s.Named() && !WriteWaits(s.lock)
    ensures s.worker.value.pc.Clear? || s.worker.value.pc.Retire? || s.worker.value.pc.Undo?
  {
    NoWriteYet(s);
  }

  lemma DeleteSafe(s: State, app: App)
    requires Inv(s) == true && Safe(s) == true && AppDeleted(s, app).Some?
    ensures Safe(AppDeleted(s, app).value) == true
  {
    DeletesApart(s, app);
    IntactKept(s.gw, s.Unhit(), AppDeleted(s, app).value.Unhit(), {app}, Set(s.Committed()));
  }

  /** A worker that moves to a position it has reached keeps all the rest. */
  lemma MoveSafe(s: State, pc: Pc)
    requires Safe(s) == true && s.worker.Some? && Rising(s.gw, s.Unhit(), s.Committed(), pc)
    ensures Safe(s.Move(pc)) == true
  {
  }

  lemma ResultReused(gw: string, request: Request, committed: Option<seq<Model>>, serve: map<App, ServeApp>)
    requires WellNamed(request, committed)
    ensures Reused(gw, committed, DiffOf(gw, request, committed, serve))
  {
    var diff := DiffOf(gw, request, committed, serve);
    DiffSound(gw, request, committed, serve);
    if request.Proposes() {
      ResultIs(gw, request, committed);
      forall m | m in Proposed(request, committed) && AppOf(gw, m).Listed(gw)
        ensures AppOf(gw, m) in Apps(gw, Set(committed)) || AppOf(gw, m) in Apps(gw, diff.deploys)
      {
        if m in Wanted(request, committed) {
          assert SoundModel(gw, serve, diff, m);
        }
      }
    }
  }

  lemma ReadSafe(s: State, readable: bool)
    requires Inv(s) == true && Safe(s) == true && s.worker.Some? && ServeRead(s, readable).Some?
    ensures Safe(ServeRead(s, readable).value) == true
  {
    var w := s.worker.value;
    if readable && w.pc.HaveCommitted? && WellNamed(w.job.request, w.pc.committed) {
      ReadsCommitted(s);
      ResultReused(s.gw, w.job.request, w.pc.committed, s.serve);
    }
    var t := ServeRead(s, readable).value;
    MoveSafe(s.(added := t.added), t.worker.value.pc);
  }

  lemma ReadsCommitted(s: State)
    requires WorkerInv(s) == true && s.worker.Some? && s.worker.value.pc.HaveCommitted?
    ensures s.worker.value.pc.committed == s.Committed()
  {
  }

  lemma NextSafe(s: State)
    requires Inv(s) == true && Safe(s) == true && Stepped(s).Some?
    ensures Safe(Stepped(s).value) == true
  {
    var w := s.worker.value;
    BlueGreenWorker(s);
    FollowingRising(s.gw, s.Unhit(), s.Committed(), RequestOf(w.job), w.pc);
    MoveSafe(s, Following(s.gw, RequestOf(w.job), w.pc).value);
  }

  lemma BlueGreenWorker(s: State)
    requires CallsInv(s) == true && WorkerInv(s) == true && s.worker.Some? && BlueGreenOnly(s.c.queue, s.c.running)
    ensures RequestOf(s.worker.value.job).strategy == BlueGreen && !s.worker.value.pc.Stop?
  {
  }

  lemma FollowingRising(gw: string, serve: map<App, ServeApp>, committed: Option<seq<Model>>, request: Request, pc: Pc)
    requires Rising(gw, serve, committed, pc) && Intact(gw, serve, Set(committed)) && Following(gw, request, pc).Some?
    requires request.strategy == BlueGreen && !pc.Stop?
    ensures Rising(gw, serve, committed, Following(gw, request, pc).value)
  {
  }

  // --- Steps that leave Serve as it is ---

  /** No new app, write or call: only who runs and where the worker stands may change. */
  lemma QuietSafe(s: State, t: State)
    requires Safe(s) == true && t.gw == s.gw && t.serve == s.serve && t.hit == s.hit && t.stored == s.stored && BlueGreenOnly(t.c.queue, t.c.running)
    requires t.worker.Some? ==> Rising(s.gw, s.Unhit(), s.Committed(), t.worker.value.pc)
    requires forall i :: 0 <= i < |t.lock| && IsWrite(t.lock[i]) ==> t.lock[i] in s.lock || Intact(s.gw, s.Unhit(), t.lock[i].kind.models)
    requires forall call :: call in t.strays && Pending(t.c.running, t.stage, t.worker.Some?, call) ==>
               (call in s.strays && Pending(s.c.running, s.stage, s.worker.Some?, call)) || Intact(s.gw, s.Unhit(), call.models)
    ensures Safe(t) == true
  {
  }

  lemma StartSafe(s: State, made: bool)
    requires Safe(s) == true && Started(s, made).Some?
    ensures Safe(Started(s, made).value) == true
  {
    QuietSafe(s, Started(s, made).value);
  }

  lemma RecoverSafe(s: State, found: bool)
    requires Safe(s) == true && RecoveryStarted(s, found).Some? && CallsInv(s) == true
    ensures Safe(RecoveryStarted(s, found).value) == true
  {
    QuietSafe(s, RecoveryStarted(s, found).value);
  }

  lemma AbandonSafe(s: State)
    requires Safe(s) == true && RecoveryAbandoned(s).Some?
    ensures Safe(RecoveryAbandoned(s).value) == true
  {
    QuietSafe(s, RecoveryAbandoned(s).value);
  }

  lemma NoticeSafe(s: State, made: bool)
    requires Safe(s) == true && Noticed(s, made).Some?
    ensures Safe(Noticed(s, made).value) == true
  {
    QuietSafe(s, Noticed(s, made).value);
  }

  lemma EndSafe(s: State, k: Task, t: State)
    requires (k.RunEnd? || k.RollEnd? || k.RecoverEnd? || k.EndDrain?) && ApplyTask(s, k) == Some(t) && Safe(s) == true
    ensures Safe(t) == true
  {
    QuietSafe(s, t);
  }

  /** A live worker's request has no pending call of a dead one. */
  lemma NonePending(s: State)
    requires CallsInv(s) == true && s.worker.Some?
    ensures forall call :: call in s.strays && (call.CSwitch? || call.CCommit?) ==> !(RunsIn(s.c.running, call.id) && s.stage == Working)
  {
  }

  lemma DieSafe(s: State, sent: Option<Call>)
    requires Inv(s) == true && Safe(s) == true && Died(s, sent).Some?
    ensures Safe(Died(s, sent).value) == true
  {
    NonePending(s);
    QuietSafe(s, Died(s, sent).value);
  }

  lemma DieCallingSafe(s: State, late: Late)
    requires Inv(s) == true && Safe(s) == true && DiedCalling(s, late).Some?
    ensures Safe(DiedCalling(s, late).value) == true
  {
    NonePending(s);
    QuietSafe(s, DiedCalling(s, late).value);
  }

  /** What is deleted behind the worker's back no longer counts; what is submitted is not being deleted. */
  lemma StruckSafe(s: State, app: App)
    requires Safe(s) == true
    ensures Safe(Struck(s, app)) == true
  {
    ServeSafe(s, Struck(s, app));
  }

  lemma IntrudedSafe(s: State, app: App, scaling: Scaling)
    requires Safe(s) == true
    ensures Safe(Intruded(s, app, scaling)) == true
  {
    ServeSafe(s, Intruded(s, app, scaling));
  }

  lemma LandSafe(s: State, late: Late)
    requires Safe(s) == true
    ensures Safe(Landed(s, late)) == true
  {
    var t := s.(late := s.late - {late});
    ServeSafe(s, t);
    match late
    case LateDelete(app) => StruckSafe(t, app);
    case LateSubmit(m) => IntrudedSafe(t, AppOf(s.gw, m), m.scaling);
    case LateRescale(x) => IntrudedSafe(t, x.app, x.scaling);
  }

  lemma LoneSafe(s: State, l: Lone, t: State)
    requires ApplyLone(s, l) == Some(t) && Safe(s) == true && OrphanOk(s)
    ensures Safe(t) == true
  {
    match l
    case LoneDelete(app) => StruckSafe(s, app);
    case LoneRescale(x) => IntrudedSafe(s, x.app, x.scaling);
    case _ =>
      LoneQuiet(s, l, t);
      QuietSafe(s, t);
  }

  lemma LoneQuiet(s: State, l: Lone, t: State)
    requires ApplyLone(s, l) == Some(t) && OrphanOk(s) && !l.LoneDelete? && !l.LoneRescale?
    ensures t == s.(orphan := t.orphan, late := t.late, strays := t.strays, lock := t.lock)
    ensures t.lock == s.lock || exists op :: t.lock == s.lock + [op] && !IsWrite(op)
    ensures forall call :: call in t.strays && !call.CReset? ==> call in s.strays
  {
  }

  lemma DeliverSafe(s: State, call: Call)
    requires Inv(s) == true && Safe(s) == true && call in s.strays
    ensures Safe(Delivered(s, call)) == true
  {
    if (call.CSwitch? || call.CCommit?) && s.c.Accepts(call.id) {
      LetThrough(s, call);
      assert Pending(s.c.running, s.stage, s.worker.Some?, call);
    }
    QuietSafe(s, Delivered(s, call));
  }

  lemma CallSafe(s: State)
    requires Safe(s) == true && s.worker.Some? && Called(s).Some?
    ensures Safe(Called(s).value) == true
  {
    CalledQuiet(s);
    QuietSafe(s, Called(s).value);
  }

  /** A live worker's call changes who is told what; a write it queues is of the models it has brought up. */
  lemma CalledQuiet(s: State)
    requires s.worker.Some? && Called(s).Some?
    ensures var t, w := Called(s).value, s.worker.value;
            t.gw == s.gw && t.serve == s.serve && t.hit == s.hit && t.stored == s.stored && t.strays == s.strays && t.stage == s.stage && t.worker.Some? &&
            t.c.queue == s.c.queue && (t.c.running.Some? ==> s.c.running.Some? && t.c.running.value.request == s.c.running.value.request) &&
            (t.lock == s.lock || exists op :: t.lock == s.lock + [op] && (IsWrite(op) ==> w.pc.CallCommit? && w.pc.diff.models == Some(op.kind.models))) &&
            (if w.pc.CallSwitch? then t.worker.value.pc.CallMark? || t.worker.value.pc == AwaitSwitch(w.pc.diff)
             else if w.pc.CallCommit? then t.worker.value.pc.CallMark? || t.worker.value.pc == AwaitCommit(w.pc.diff)
             else t.worker.value.pc.RollingBack() && !t.worker.value.pc.CallMark?)
  {
  }

  lemma CancelSafe(s: State)
    requires CancelSeen(s).Some? && Safe(s) == true
    ensures Safe(CancelSeen(s).value) == true
  {
    QuietSafe(s, CancelSeen(s).value);
  }

  lemma FailSafe(s: State)
    requires Failing(s).Some? && Safe(s) == true
    ensures Safe(Failing(s).value) == true
  {
    MoveSafe(s, CallMark(Failed));
  }

  lemma AskSafe(s: State)
    requires Asked(s).Some? && Safe(s) == true
    ensures Safe(Asked(s).value) == true
  {
    QuietSafe(s, Asked(s).value);
  }

  lemma PollSafe(s: State)
    requires s.worker.Some? && Safe(s) == true
    ensures Safe(Polled(s).value) == true
  {
    MoveSafe(s, WithLeft(s.worker.value.pc, Left(s.worker.value.pc) * s.serve.Keys));
  }

  lemma RequestsSafe(s: State, o: Outside, t: State)
    requires (o.Submit? || o.Cancel? || o.LazyRead? || o.LazySet?) && ApplyOutside(s, o) == Some(t) && Safe(s) == true
    requires o.Submit? ==> o.request.strategy == BlueGreen
    ensures Safe(t) == true
  {
    QuietSafe(s, t);
  }

  // --- The version changes ---

  /** The head's write: the version it makes is intact, and a live worker counts on none of another's. */
  lemma WriteSafe(s: State, ok: bool, landed: bool)
    requires Inv(s) == true && Safe(s) == true && s.lock != [] && s.lock[0].kind.ForWrite?
    ensures Safe(WriteDone(s, ok, landed)) == true
  {
    assert IsWrite(s.lock[0]);
    WriteQuiet(s, ok, landed);
    if s.worker.Some? && !s.WaitsFor(s.lock[0]) {
      ForeignAhead(s.lock, s.worker.value, s.c.running);
    }
    VersionSafe(s, WriteDone(s, ok, landed), s.lock[0].kind.models);
  }

  /** All that the end of a write can change. */
  lemma WriteQuiet(s: State, ok: bool, landed: bool)
    requires s.lock != [] && s.lock[0].kind.ForWrite? && (s.WaitsFor(s.lock[0]) ==> s.worker.value.pc.AwaitCommit?)
    ensures var t := WriteDone(s, ok, landed);
            t.gw == s.gw && t.serve == s.serve && t.hit == s.hit && t.stage == s.stage && t.strays == s.strays && t.lock == s.lock[1..] && t.c.queue == s.c.queue &&
            (t.stored == s.stored || t.Committed() == Some(s.lock[0].kind.models)) && (t.worker.Some? <==> s.worker.Some?) &&
            (t.c.running == s.c.running || (s.c.running.Some? && t.c.running == Some(s.c.running.value.(phase := Retiring)))) &&
            ((t.worker == s.worker && !s.WaitsFor(s.lock[0])) || (s.WaitsFor(s.lock[0]) && (t.worker.value.pc.Retire? || t.worker.value.pc.CallMark?)))
  {
  }

  lemma VersionSafe(s: State, t: State, models: seq<Model>)
    requires Safe(s) == true && t.gw == s.gw && t.serve == s.serve && t.hit == s.hit && t.stage == s.stage && t.strays == s.strays && s.lock != [] && t.lock == s.lock[1..]
    requires BlueGreenOnly(t.c.queue, t.c.running) && (t.stored == s.stored || t.Committed() == Some(models)) && Intact(s.gw, s.Unhit(), models)
    requires t.worker.Some? ==> s.worker.Some? && Rising(s.gw, s.Unhit(), t.Committed(), t.worker.value.pc)
    requires t.worker.None? ==> s.worker.None?
    requires forall id :: RunsIn(t.c.running, id) ==> RunsIn(s.c.running, id)
    ensures Safe(t) == true
  {
    assert forall i :: 0 <= i < |t.lock| ==> t.lock[i] == s.lock[i + 1];
  }

  lemma ReadDoneQuiet(s: State, ok: bool)
    requires s.lock != [] && !s.lock[0].kind.ForWrite? && LockStep(s, ok, false).Some?
    ensures var t := LockStep(s, ok, false).value;
            t.gw == s.gw && t.serve == s.serve && t.hit == s.hit && t.stored == s.stored && t.strays == s.strays && t.stage == s.stage && t.lock == s.lock[1..] &&
            t.c.queue == s.c.queue && t.c.running == s.c.running && (t.worker.Some? <==> s.worker.Some?) &&
            (t.worker == s.worker || t.worker.value.pc.HaveCommitted? || t.worker.value.pc.CallMark? || t.worker.value.pc.RollingBack())
  {
  }

  lemma ReadDoneSafe(s: State, ok: bool)
    requires Safe(s) == true && s.lock != [] && !s.lock[0].kind.ForWrite? && LockStep(s, ok, false).Some?
    ensures Safe(LockStep(s, ok, false).value) == true
  {
    ReadDoneQuiet(s, ok);
    QuietSafe(s, LockStep(s, ok, false).value);
  }

  lemma LockSafe(s: State, ok: bool, landed: bool)
    requires Inv(s) == true && Safe(s) == true && s.lock != [] && LockStep(s, ok, landed).Some?
    ensures Safe(LockStep(s, ok, landed).value) == true
  {
    if s.lock[0].kind.ForWrite? {
      WriteSafe(s, ok, landed);
    } else {
      ReadDoneSafe(s, ok);
    }
  }

  lemma RestartSafe(s: State, clock: nat, landed: bool)
    requires Safe(s) == true && Restarted(s, clock, landed).Some?
    ensures Safe(Restarted(s, clock, landed).value) == true
  {
    if s.lock != [] && s.lock[0].kind.ForWrite? {
      assert IsWrite(s.lock[0]);
    }
  }

  // --- Whole runs ---

  lemma CallsSafe(s: State, d: Dealing, t: State)
    requires ApplyCall(s, d) == Some(t) && Inv(s) == true && Safe(s) == true
    ensures Safe(t) == true
  {
    match d
    case LockDone(ok, landed) =>
      LockSafe(s, ok, landed);
      ServeSafe(LockStep(s, ok, landed).value, t);
    case Deliver(call) => DeliverSafe(s, call);
    case CallOut => CallSafe(s);
    case AskDiff => AskSafe(s);
    case Die(sent) => DieSafe(s, sent);
    case DieCalling(late) => DieCallingSafe(s, late);
    case Land(late) => LandSafe(s, late);
  }

  lemma ChangeSafe(s: State, c: Change, t: State)
    requires ApplyChange(s, c) == Some(t) && Inv(s) == true && Safe(s) == true
    ensures Safe(t) == true
  {
    match c
    case ServeDelete(app) => DeleteSafe(s, app);
    case ServeSubmit(_) => ServeSafe(s, t);
    case SeeRunning(_) => MoveSafe(s, t.worker.value.pc);
    case ServeRescale(_) => ServeSafe(s, t);
  }

  lemma WorkSafe(s: State, w: Work, t: State)
    requires ApplyWork(s, w) == Some(t) && Inv(s) == true && Safe(s) == true
    ensures Safe(t) == true
  {
    match w
    case SeeCancel => CancelSafe(s);
    case Fail => FailSafe(s);
    case ReadServe(readable) => ReadSafe(s, readable);
    case Next => NextSafe(s);
    case Poll => PollSafe(s);
  }

  lemma TaskSafe(s: State, k: Task, t: State)
    requires ApplyTask(s, k) == Some(t) && CallsInv(s) == true && Safe(s) == true
    ensures Safe(t) == true
  {
    match k
    case Start(made) => StartSafe(s, made);
    case RecoverStart(found) => RecoverSafe(s, found);
    case RecoverAbandon => AbandonSafe(s);
    case Notice(made) => NoticeSafe(s, made);
    case _ => EndSafe(s, k, t);
  }

  lemma OutsideSafe(s: State, o: Outside, t: State)
    requires ApplyOutside(s, o) == Some(t) && Safe(s) == true && (o.Submit? ==> o.request.strategy == BlueGreen)
    ensures Safe(t) == true
  {
    match o
    case Restart(clock, landed) => RestartSafe(s, clock, landed);
    case _ => RequestsSafe(s, o, t);
  }

  lemma EventSafe(s: State, e: Event, t: State)
    requires ApplyEvent(s, e) == Some(t) && Safe(s) == true
    ensures Safe(t) == true
  {
    ServeSafe(s, t);
  }

  lemma StepSafe(s: State, a: Act, t: State)
    requires Apply(s, a) == Some(t) && BlueGreenAct(a) && Inv(s) == true && OrphanOk(s) && Safe(s) == true
    ensures Safe(t) == true
  {
    match a
    case FromOutside(o) => OutsideSafe(s, o, t);
    case OfServe(e) => EventSafe(s, e, t);
    case OfTask(k) => TaskSafe(s, k, t);
    case OfCall(d) => CallsSafe(s, d, t);
    case OfWorker(w) => WorkSafe(s, w, t);
    case OnServe(c) => ChangeSafe(s, c, t);
    case OfOrphan(l) => LoneSafe(s, l, t);
  }

  predicate BlueGreenAct(a: Act) { a.FromOutside? && a.outside.Submit? ==> a.outside.request.strategy == BlueGreen }

  /** What was deleted behind the worker's back, and is still there, is being deleted. */
  ghost predicate HitDeleting(s: State) { forall a :: a in s.hit && a in s.serve && a.Listed(s.gw) ==> s.serve[a].status == Deleting }

  lemma ServeHits(s: State, e: Event, t: State)
    requires ApplyEvent(s, e) == Some(t) && HitDeleting(s)
    ensures HitDeleting(t)
  {
  }

  lemma ChangeHits(s: State, c: Change, t: State)
    requires ApplyChange(s, c) == Some(t) && HitDeleting(s)
    ensures HitDeleting(t)
  {
  }

  lemma LandHits(s: State, late: Late)
    requires HitDeleting(s)
    ensures HitDeleting(Landed(s, late))
  {
  }

  lemma LoneHits(s: State, l: Lone, t: State)
    requires ApplyLone(s, l) == Some(t) && HitDeleting(s)
    ensures HitDeleting(t)
  {
  }

  // The other steps change nothing of Serve.

  lemma OutsideHits(s: State, o: Outside, t: State)
    requires ApplyOutside(s, o) == Some(t)
    ensures t.gw == s.gw && t.serve == s.serve && t.hit == s.hit && t.added == s.added && (t.orphan == s.orphan || t.orphan.None?)
  {
  }

  lemma TaskHits(s: State, k: Task, t: State)
    requires ApplyTask(s, k) == Some(t)
    ensures t.gw == s.gw && t.serve == s.serve && t.hit == s.hit && t.added == s.added && (k.RecoverAbandon? || t.orphan == s.orphan)
  {
  }

  lemma WorkHits(s: State, w: Work, t: State)
    requires ApplyWork(s, w) == Some(t)
    ensures t.gw == s.gw && t.serve == s.serve && t.hit == s.hit && (t.added == s.added || t.added == {}) && t.orphan == s.orphan
  {
  }

  lemma LockHits(s: State, ok: bool, landed: bool)
    requires s.lock != [] && LockStep(s, ok, landed).Some?
    ensures var t := LockStep(s, ok, landed).value;
            t.gw == s.gw && t.serve == s.serve && t.hit == s.hit && t.added == s.added
  {
  }

  lemma CalledHits(s: State)
    requires s.worker.Some? && Called(s).Some?
    ensures var t := Called(s).value;
            t.gw == s.gw && t.serve == s.serve && t.hit == s.hit && t.added == s.added && t.orphan == s.orphan
  {
  }

  lemma CallHits(s: State, d: Dealing, t: State)
    requires ApplyCall(s, d) == Some(t) && HitDeleting(s) == true
    ensures HitDeleting(t) == true
  {
    match d
    case LockDone(ok, landed) => LockHits(s, ok, landed);
    case CallOut => CalledHits(s);
    case Land(late) => LandHits(s, late);
    case _ =>
  }

  lemma StepHits(s: State, a: Act, t: State)
    requires Apply(s, a) == Some(t) && HitDeleting(s) == true
    ensures HitDeleting(t) == true
  {
    match a
    case FromOutside(o) => OutsideHits(s, o, t);
    case OfServe(e) => ServeHits(s, e, t);
    case OfTask(k) => TaskHits(s, k, t);
    case OfCall(d) => CallHits(s, d, t);
    case OfWorker(w) => WorkHits(s, w, t);
    case OnServe(c) => ChangeHits(s, c, t);
    case OfOrphan(l) => LoneHits(s, l, t);
  }

  lemma {:induction false} RunSafe(states: seq<State>, acts: seq<Act>, n: nat)
    requires IsRun(states, acts) && (forall i :: 0 <= i < |acts| ==> BlueGreenAct(acts[i])) && n <= |acts|
    requires Intact(states[0].gw, states[0].serve, Set(states[0].Committed())) == true
    ensures Safe(states[n]) == true && HitDeleting(states[n]) == true
  {
    if n == 0 {
      StartsSafe(states[0]);
    } else {
      RunSafe(states, acts, n - 1);
      RunKeeps(states, acts, n - 1);
      StepSafe(states[n - 1], acts[n - 1], states[n]);
      StepHits(states[n - 1], acts[n - 1], states[n]);
    }
  }

  lemma StartsSafe(s: State)
    requires Init(s) && Intact(s.gw, s.serve, Set(s.Committed()))
    ensures Safe(s) == true && HitDeleting(s) == true
  {
    assert s.Unhit() == s.serve;
  }

  /** However cancels, worker deaths, rollbacks and restarts fall among blue_green requests: at no point of the run does the
      worker delete an app the committed version names, and one of them is being deleted exactly when a dead worker's late
      call or an orphan of the recovery deleted it and nobody has submitted it since. */
  lemma CommittedNeverDeleted(states: seq<State>, acts: seq<Act>, n: nat, app: App)
    requires IsRun(states, acts) && (forall i :: 0 <= i < |acts| ==> BlueGreenAct(acts[i])) && n <= |acts|
    requires Intact(states[0].gw, states[0].serve, Set(states[0].Committed()))
    ensures var s := states[n];
            app in s.Named() ==>
              AppDeleted(s, app).None? && (app in s.serve && app.Listed(s.gw) ==> (s.serve[app].status == Deleting <==> app in s.hit))
  {
    RunSafe(states, acts, n);
    RunKeeps(states, acts, n);
    if AppDeleted(states[n], app).Some? {
      DeletesApart(states[n], app);
    }
    if app in states[n].Named() && app in states[n].serve && app.Listed(states[n].gw) {
      HitExactly(states[n], app);
    }
  }

  lemma HitExactly(s: State, app: App)
    requires Safe(s) && HitDeleting(s) && app in s.Named() && app in s.serve && app.Listed(s.gw)
    ensures s.serve[app].status == Deleting <==> app in s.hit
  {
    assert app !in s.hit ==> app in s.Unhit();
  }

  // --- Runs without late calls or an abandoned recovery ---

  /** No dead worker's call of that kind is handled, and no recovery ends with a rollback worker still at work. */
  predicate NoLateDelete(a: Act) { !(a.OfCall? && a.dealing.Land? && a.dealing.late.LateDelete?) }

  predicate NoLateSubmit(a: Act) { !(a.OfCall? && a.dealing.Land? && !a.dealing.late.LateDelete?) }

  predicate Awaited(a: Act) { !(a.OfTask? && a.task.RecoverAbandon?) }

  ghost predicate NewlyHit(s: State, t: State) { t.orphan.Some? || !(t.hit <= s.hit) }

  ghost predicate NewlyAdded(s: State, t: State) { t.orphan.Some? || !(t.added <= s.added) }

  lemma CallDisturbs(s: State, d: Dealing, t: State)
    requires ApplyCall(s, d) == Some(t) && s.orphan.None?
    ensures NewlyHit(s, t) ==> d.Land? && d.late.LateDelete?
    ensures NewlyAdded(s, t) ==> d.Land? && !d.late.LateDelete?
  {
    match d
    case LockDone(ok, landed) => LockHits(s, ok, landed);
    case CallOut => CalledHits(s);
    case _ =>
  }

  lemma StepDisturbs(s: State, a: Act, t: State)
    requires Apply(s, a) == Some(t) && s.orphan.None?
    ensures NewlyHit(s, t) ==> !NoLateDelete(a) || !Awaited(a)
    ensures NewlyAdded(s, t) ==> !NoLateSubmit(a) || !Awaited(a)
  {
    match a
    case FromOutside(o) => OutsideHits(s, o, t);
    case OfTask(k) => TaskHits(s, k, t);
    case OfCall(d) => CallDisturbs(s, d, t);
    case OfWorker(w) => WorkHits(s, w, t);
    case _ =>
  }

  lemma {:induction false} NoneHit(states: seq<State>, acts: seq<Act>, n: nat)
    requires IsRun(states, acts) && n <= |acts| && forall i :: 0 <= i < |acts| ==> NoLateDelete(acts[i]) && Awaited(acts[i])
    ensures states[n].hit == {} && states[n].orphan.None?
  {
    if n > 0 {
      NoneHit(states, acts, n - 1);
      StepDisturbs(states[n - 1], acts[n - 1], states[n]);
    }
  }

  lemma {:induction false} NoneAdded(states: seq<State>, acts: seq<Act>, n: nat)
    requires IsRun(states, acts) && n <= |acts| && forall i :: 0 <= i < |acts| ==> NoLateSubmit(acts[i]) && Awaited(acts[i])
    ensures states[n].added == {} && states[n].orphan.None?
  {
    if n > 0 {
      NoneAdded(states, acts, n - 1);
      StepDisturbs(states[n - 1], acts[n - 1], states[n]);
    }
  }

  /** So among blue_green requests no committed app is ever being deleted, if no dead worker's deletion is handled late and
      every recovery waits for its rollbacks. */
  lemma AwaitedNeverDeleted(states: seq<State>, acts: seq<Act>, n: nat, app: App)
    requires IsRun(states, acts) && (forall i :: 0 <= i < |acts| ==> BlueGreenAct(acts[i])) && n <= |acts|
    requires forall i :: 0 <= i < |acts| ==> NoLateDelete(acts[i]) && Awaited(acts[i])
    requires Intact(states[0].gw, states[0].serve, Set(states[0].Committed()))
    ensures var s := states[n];
            app in s.Named() && app in s.serve && app.Listed(s.gw) ==> s.serve[app].status != Deleting
  {
    CommittedNeverDeleted(states, acts, n, app);
    NoneHit(states, acts, n);
  }

  /** And a completed rollback leaves only committed apps, if no dead worker's submission or rescale is handled late. */
  lemma AwaitedRolledBack(states: seq<State>, acts: seq<Act>, n: nat)
    requires IsRun(states, acts) && n <= |acts| && forall i :: 0 <= i < |acts| ==> NoLateSubmit(acts[i]) && Awaited(acts[i])
    requires states[n].worker.Some? && (states[n].worker.value.pc.DoneBack? || states[n].worker.value.pc.DoneOk?)
    ensures OnlyNamed(states[n])
  {
    NoneAdded(states, acts, n);
    RunKeeps(states, acts, n);
    KnownCovered(states[n]);
  }

  lemma KnownCovered(s: State)
    requires Inv(s) == true && s.worker.Some? && (s.worker.value.pc.DoneBack? || s.worker.value.pc.DoneOk?) && s.added == {}
    ensures OnlyNamed(s)
  {
    assert s.Known() == s.serve;
  }
}
