/** Runs that break the deploy protocol's promises: a deletion or a submission a dead worker left with Serve, and a recovery
    that ends while one of its rollbacks goes on. */
module DeployProtocolLate {
  import opened Wrappers
  import opened AppNames
  import opened Ledger
  import opened DeployDiff
  import opened Coordinator
  import opened DeployProtocol
  import opened DeployProtocolTheorems
  import opened DeployProtocolSafety

  /** Which disturbance a run has: calls of Serve handled late, an abandoned recovery, or neither. */
  datatype Kind = LateCalls | Abandons | Calm

  predicate Allowed(kind: Kind, a: Act) {
    BlueGreenAct(a) &&
    match kind
    case LateCalls => Awaited(a)
    case Abandons => NoLateDelete(a) && NoLateSubmit(a)
    case Calm => Awaited(a) && NoLateDelete(a) && NoLateSubmit(a)
  }

  /** A run of blue_green requests with no other disturbance, from a state where no committed app is being deleted. */
  ghost predicate RunOf(kind: Kind, states: seq<State>, acts: seq<Act>) {
    IsRun(states, acts) && (forall i :: 0 <= i < |acts| ==> Allowed(kind, acts[i])) && Intact(states[0].gw, states[0].serve, Set(states[0].Committed()))
  }

  ghost predicate Comes(kind: Kind, s: State) {
    exists states, acts :: RunOf(kind, states, acts) && states[|acts|] == s
  }

  lemma ComesOn(kind: Kind, s: State, a: Act, t: State)
    requires Apply(s, a) == Some(t) && Allowed(kind, a) && Comes(kind, s)
    ensures Comes(kind, t)
  {
    var states, acts :| RunOf(kind, states, acts) && states[|acts|] == s;
    RunMore(states, acts, a, t);
    assert (states + [t])[0] == states[0];
    assert RunOf(kind, states + [t], acts + [a]);
  }

  // Each of the runs' kinds of step.

  lemma Tasks(kind: Kind, s: State, k: Task, t: State)
    requires ApplyTask(s, k) == Some(t) && (k.RecoverAbandon? ==> kind.Abandons?) && Comes(kind, s)
    ensures Comes(kind, t)
  {
    ComesOn(kind, s, OfTask(k), t);
  }

  lemma Deals(kind: Kind, s: State, d: Dealing, t: State)
    requires ApplyCall(s, d) == Some(t) && (d.Land? ==> kind.LateCalls?) && Comes(kind, s)
    ensures Comes(kind, t)
  {
    ComesOn(kind, s, OfCall(d), t);
  }

  lemma Works(kind: Kind, s: State, w: Work, t: State)
    requires ApplyWork(s, w) == Some(t) && Comes(kind, s)
    ensures Comes(kind, t)
  {
    ComesOn(kind, s, OfWorker(w), t);
  }

  lemma Changes(kind: Kind, s: State, c: Change, t: State)
    requires ApplyChange(s, c) == Some(t) && Comes(kind, s)
    ensures Comes(kind, t)
  {
    ComesOn(kind, s, OnServe(c), t);
  }

  lemma Serves(kind: Kind, s: State, e: Event, t: State)
    requires ApplyEvent(s, e) == Some(t) && Comes(kind, s)
    ensures Comes(kind, t)
  {
    ComesOn(kind, s, OfServe(e), t);
  }

  /** One step on. */
  lemma Moves(kind: Kind, s: State, pc: Pc)
    requires s.worker.Some? && Following(s.gw, RequestOf(s.worker.value.job), s.worker.value.pc) == Some(pc) && Comes(kind, s)
    ensures Comes(kind, s.Move(pc))
  {
    Works(kind, s, Next, s.Move(pc));
  }

  /** The head of the version lock's queue is done; it is not the orphan's. */
  lemma Answers(kind: Kind, s: State, landed: bool, t: State)
    requires s.lock != [] && LockStep(s, true, landed) == Some(t) && t.orphan == s.orphan && Comes(kind, s)
    requires s.orphan.Some? ==> s.orphan.value.wid != s.lock[0].wid
    ensures Comes(kind, t)
  {
    assert Answered(s, true) == s.orphan;
    assert t.(orphan := s.orphan) == t;
    Deals(kind, s, LockDone(true, landed), t);
  }

  // --- A rollback up to its deletions ---

  function UndoDiff(s: State): Diff { DiffOf(s.gw, Rollback(), s.Committed(), s.serve) }

  /** A rollback that has taken routing back and read Serve. */
  ghost function RolledTo(s: State, pc: Pc): State
    requires s.worker.Some?
  {
    s.(c := s.c.Reset(s.Committed()), added := {}).Move(pc)
  }

  function Asking(s: State, op: Op, pc: Pc): State
    requires s.worker.Some?
  {
    s.(lock := [op]).Move(pc)
  }

  lemma CallsReset(kind: Kind, s: State)
    requires s.worker.Some? && s.worker.value.pc.CallReset? && s.lock == [] && Comes(kind, s)
    ensures Comes(kind, Asking(s, Op(s.worker.value.wid, ForReset), AwaitReset(s.worker.value.pc.outcome)))
  {
    var op := Op(s.worker.value.wid, ForReset);
    assert s.lock + [op] == [op];
    Deals(kind, s, CallOut, Asking(s, op, AwaitReset(s.worker.value.pc.outcome)));
  }

  lemma ResetAnswered(s: State, outcome: Outcome)
    requires s.worker.Some? && s.lock == [] && s.added == {}
    ensures LockStep(Asking(s, Op(s.worker.value.wid, ForReset), AwaitReset(outcome)), true, false) == Some(RolledTo(s, AwaitBack(outcome)))
  {
    assert [Op(s.worker.value.wid, ForReset)][1..] == [];
  }

  lemma ResetsBack(kind: Kind, s: State)
    requires s.worker.Some? && s.worker.value.pc.CallReset? && s.lock == [] && s.orphan.None? && s.added == {} && Comes(kind, s)
    ensures Comes(kind, RolledTo(s, AwaitBack(s.worker.value.pc.outcome)))
  {
    var outcome := s.worker.value.pc.outcome;
    CallsReset(kind, s);
    ResetAnswered(s, outcome);
    Answers(kind, Asking(s, Op(s.worker.value.wid, ForReset), AwaitReset(outcome)), false, RolledTo(s, AwaitBack(outcome)));
  }

  lemma CallsBack(kind: Kind, s: State)
    requires s.worker.Some? && s.worker.value.pc.AskBack? && s.lock == [] && Comes(kind, s)
    ensures Comes(kind, Asking(s, Op(s.worker.value.wid, ForRollback), AwaitRollback(s.worker.value.pc.outcome)))
  {
    var op := Op(s.worker.value.wid, ForRollback);
    assert s.lock + [op] == [op];
    Deals(kind, s, CallOut, Asking(s, op, AwaitRollback(s.worker.value.pc.outcome)));
  }

  lemma BackAnswered(s: State, outcome: Outcome)
    requires s.worker.Some? && s.lock == []
    ensures LockStep(Asking(s, Op(s.worker.value.wid, ForRollback), AwaitRollback(outcome)), true, false) ==
            Some(s.Move(BackCommitted(outcome, s.Committed())))
  {
    assert [Op(s.worker.value.wid, ForRollback)][1..] == [];
  }

  lemma ReadsBack(kind: Kind, s: State)
    requires s.worker.Some? && s.worker.value.pc.AskBack? && s.lock == [] && s.orphan.None? && Comes(kind, s)
    ensures Comes(kind, s.Move(BackCommitted(s.worker.value.pc.outcome, s.Committed())))
  {
    var outcome := s.worker.value.pc.outcome;
    CallsBack(kind, s);
    BackAnswered(s, outcome);
    Answers(kind, Asking(s, Op(s.worker.value.wid, ForRollback), AwaitRollback(outcome)), false, s.Move(BackCommitted(outcome, s.Committed())));
  }

  lemma RollsBack(kind: Kind, s: State)
    requires s.worker.Some? && s.worker.value.pc.CallReset? && s.lock == [] && s.orphan.None? && s.added == {} && Comes(kind, s)
    ensures Comes(kind, RolledTo(s, Undo(s.worker.value.pc.outcome, UndoDiff(s), UndoDiff(s).leftovers)))
  {
    var outcome := s.worker.value.pc.outcome;
    ResetsBack(kind, s);
    Moves(kind, RolledTo(s, AwaitBack(outcome)), AskBack(outcome));
    ReadsBack(kind, RolledTo(s, AskBack(outcome)));
    RollbackReads(kind, RolledTo(s, BackCommitted(outcome, s.Committed())), UndoDiff(s));
  }

  lemma RollbackReads(kind: Kind, s: State, diff: Diff)
    requires s.worker.Some? && s.worker.value.pc.BackCommitted? && s.worker.value.pc.committed == s.Committed() && s.added == {}
    requires diff == UndoDiff(s) && Comes(kind, s)
    ensures Comes(kind, s.Move(Undo(s.worker.value.pc.outcome, diff, diff.leftovers)))
  {
    var t := s.Move(Undo(s.worker.value.pc.outcome, diff, diff.leftovers));
    RollbackRead(s, diff);
    Works(kind, s, ReadServe(true), t);
  }

  lemma RollbackRead(s: State, diff: Diff)
    requires s.worker.Some? && s.worker.value.pc.BackCommitted? && s.worker.value.pc.committed == s.Committed() && s.added == {} && diff == UndoDiff(s)
    ensures ServeRead(s, true) == Some(s.Move(Undo(s.worker.value.pc.outcome, diff, diff.leftovers)))
  {
  }

  // --- A recovery that finds an app nobody committed ---

  function Live(m: Model): ServeApp { ServeApp(Running, Some(ServeScaling(m.scaling))) }

  function Fresh(m: Model): ServeApp { ServeApp(Deploying, Some(ServeScaling(m.scaling))) }

  /** Nothing is committed, and the model's app runs. */
  function Found(gw: string, m: Model): State {
    State(gw, map[AppOf(gw, m) := Live(m)], None, Coord([], None, None, 0, 0, false, map[]), [], None, Idle, Unstarted, {}, {}, None, 0, None,
          {}, [], [], {}, false, {}, {})
  }

  function FoundDiff(gw: string, m: Model): Diff { DiffOf(gw, Rollback(), None, Found(gw, m).serve) }

  function Deleter(gw: string, m: Model): Worker {
    Worker(0, RecoverJob, Undo(Failed, FoundDiff(gw, m), FoundDiff(gw, m).leftovers))
  }

  /** The recovery is about to delete it. */
  lemma Recovers(kind: Kind, gw: string, m: Model)
    requires AppOf(gw, m).Listed(gw)
    ensures var s := Found(gw, m);
            Comes(kind, s.(c := Coord([], None, Some(Routing(1, None)), 1, 0, false, map[]), recovery := Underway, stage := Recovering,
                           worker := Some(Deleter(gw, m)), nextWid := 1))
    ensures FoundDiff(gw, m).leftovers == {AppOf(gw, m)}
  {
    var s, none := Found(gw, m), [];
    assert UniqueNames([]) && Init(s) && RunOf(kind, [s], none) && [s][|none|] == s;
    var a := s.(recovery := Underway, stage := Recovering, worker := Some(Worker(0, RecoverJob, CallReset(Failed))), nextWid := 1);
    Tasks(kind, s, RecoverStart(true), a);
    RollsBack(kind, a);
  }

  /** The recovery is over, with its worker dead or forgotten. */
  function Ready(gw: string, m: Model, late: set<Late>, orphan: Option<Worker>): State {
    Found(gw, m).(c := Coord([], None, Some(Routing(1, None)), 1, 0, false, map[]), recovery := Over, nextWid := 1, late := late, orphan := orphan)
  }

  /** Its worker dies as it deletes the app; or, with *sent* None, before it does. */
  lemma DiesDeleting(kind: Kind, gw: string, m: Model, sent: bool)
    requires AppOf(gw, m).Listed(gw) && (sent ==> kind.LateCalls?)
    ensures Comes(kind, Ready(gw, m, if sent then {LateDelete(AppOf(gw, m))} else {}, None))
  {
    Recovers(kind, gw, m);
    var t := Ready(gw, m, if sent then {LateDelete(AppOf(gw, m))} else {}, None);
    var dead := t.(recovery := Underway, stage := Recovering);
    var s := dead.(late := {}, worker := Some(Deleter(gw, m)));
    assert {} + {LateDelete(AppOf(gw, m))} == {LateDelete(AppOf(gw, m))};
    Deals(kind, s, if sent then DieCalling(LateDelete(AppOf(gw, m))) else Die(None), dead);
    Tasks(kind, dead, RecoverEnd, t);
  }

  /** Or another gateway's rollback worker can't be made. */
  lemma LeftBehind(gw: string, m: Model)
    requires AppOf(gw, m).Listed(gw)
    ensures Comes(Abandons, Ready(gw, m, {}, Some(Deleter(gw, m))))
  {
    Recovers(Abandons, gw, m);
    var t := Ready(gw, m, {}, Some(Deleter(gw, m)));
    Tasks(Abandons, t.(recovery := Underway, stage := Recovering, orphan := None, worker := Some(Deleter(gw, m))), RecoverAbandon, t);
  }

  // --- A request for the model ---

  function Adding(m: Model): Request { Request(Fold(Reconcile), BlueGreen, Some([m])) }

  function AddDiff(gw: string, m: Model): Diff { DiffOf(gw, Adding(m), None, Found(gw, m).serve) }

  lemma AddDeploys(gw: string, m: Model, serve: map<App, ServeApp>)
    ensures DeploysOf(gw, serve, [], [m]) == [m]
  {
    assert Named([], m.name).None? && ActionOf(gw, serve, None, m) == Add;
    assert [m][..0] == [] && DeploysOf(gw, serve, [], []) == [];
  }

  lemma AddRetires(gw: string, m: Model)
    ensures ReplacedOf(gw, [], [m]) + Apps(gw, RemovedModels(Adding(m), [], [m])) == {}
  {
    assert Names([]) == {} && Unnamed([], Names([m])) == [];
  }

  lemma AddDiffIs(gw: string, m: Model)
    requires AppOf(gw, m).Listed(gw)
    ensures var diff := AddDiff(gw, m);
            diff.leftovers == {AppOf(gw, m)} && diff.deploys == [m] && diff.retired == {} && diff.models == Some([m]) && diff.commits
    ensures WellNamed(Adding(m), None) && Apps(gw, [m]) == {AppOf(gw, m)}
  {
    AddDeploys(gw, m, Found(gw, m).serve);
    AddRetires(gw, m);
    assert Apps(gw, []) == {};
  }

  /** The request while it runs. */
  function During(gw: string, m: Model, late: set<Late>, orphan: Option<Worker>, serve: map<App, ServeApp>, phase: Phase, pc: Pc): State {
    Ready(gw, m, late, orphan).(serve := serve, c := Coord([], Some(Entry(0, Adding(m), phase, false, false, false)), Some(Routing(1, None)), 1, 1, true, map[]),
                                worker := Some(Worker(1, RunJob(0, Adding(m)), pc)), stage := Working, nextWid := 2, started := [0])
  }

  function Waiting(gw: string, m: Model, late: set<Late>, orphan: Option<Worker>): State {
    Ready(gw, m, late, orphan)
      .(c := Coord([Entry(0, Adding(m), Phase.Queued, false, false, false)], None, Some(Routing(1, None)), 1, 1, true, map[]))
  }

  lemma Queues(kind: Kind, gw: string, m: Model, late: set<Late>, orphan: Option<Worker>)
    requires Comes(kind, Ready(gw, m, late, orphan))
    ensures Comes(kind, Waiting(gw, m, late, orphan))
  {
    var entry := Entry(0, Adding(m), Phase.Queued, false, false, false);
    assert [] + [entry] == [entry];
    ComesOn(kind, Ready(gw, m, late, orphan), FromOutside(Submit(Adding(m))), Waiting(gw, m, late, orphan));
  }

  lemma Starts(kind: Kind, gw: string, m: Model, late: set<Late>, orphan: Option<Worker>)
    requires Comes(kind, Waiting(gw, m, late, orphan))
    ensures Comes(kind, During(gw, m, late, orphan, Found(gw, m).serve, Applying, Ask))
  {
    var s := Waiting(gw, m, late, orphan);
    assert s.c.queue[1..] == [] && s.started + [0] == [0];
    Tasks(kind, s, Start(true), During(gw, m, late, orphan, s.serve, Applying, Ask));
  }

  lemma Asks(kind: Kind, s: State)
    requires s.worker.Some? && s.worker.value.pc.Ask? && s.worker.value.job.RunJob? && s.c.Accepts(s.worker.value.job.id) && s.lock == [] && Comes(kind, s)
    ensures Comes(kind, Asking(s, Op(s.worker.value.wid, ForDiff), AwaitDiff))
  {
    var op := Op(s.worker.value.wid, ForDiff);
    assert s.lock + [op] == [op];
    Deals(kind, s, AskDiff, Asking(s, op, AwaitDiff));
  }

  lemma DiffAnswered(s: State)
    requires s.worker.Some? && s.lock == []
    ensures LockStep(Asking(s, Op(s.worker.value.wid, ForDiff), AwaitDiff), true, false) == Some(s.Move(HaveCommitted(s.Committed())))
  {
    assert [Op(s.worker.value.wid, ForDiff)][1..] == [];
  }

  lemma Reads(kind: Kind, s: State)
    requires s.worker.Some? && s.worker.value.pc.Ask? && s.worker.value.job.RunJob? && s.c.Accepts(s.worker.value.job.id) && s.lock == [] && Comes(kind, s)
    requires (s.orphan.Some? ==> s.orphan.value.wid != s.worker.value.wid) && WellNamed(s.worker.value.job.request, s.Committed()) && s.added == {}
    ensures var diff := DiffOf(s.gw, s.worker.value.job.request, s.Committed(), s.serve);
            Comes(kind, s.Move(Clear(diff, diff.leftovers)))
  {
    var w, diff := s.worker.value, DiffOf(s.gw, s.worker.value.job.request, s.Committed(), s.serve);
    Asks(kind, s);
    DiffAnswered(s);
    Answers(kind, Asking(s, Op(w.wid, ForDiff), AwaitDiff), false, s.Move(HaveCommitted(s.Committed())));
    DiffTaken(kind, s.Move(HaveCommitted(s.Committed())), diff);
  }

  lemma DiffTaken(kind: Kind, s: State, diff: Diff)
    requires s.worker.Some? && s.worker.value.pc == HaveCommitted(s.Committed()) && s.worker.value.job.RunJob? && s.added == {} && Comes(kind, s)
    requires WellNamed(s.worker.value.job.request, s.Committed()) && diff == DiffOf(s.gw, s.worker.value.job.request, s.Committed(), s.serve)
    ensures Comes(kind, s.Move(Clear(diff, diff.leftovers)))
  {
    Works(kind, s, ReadServe(true), s.Move(Clear(diff, diff.leftovers)));
  }

  /** The request is there and has read its diff. */
  lemma Begins(kind: Kind, gw: string, m: Model, late: set<Late>, orphan: Option<Worker>)
    requires Comes(kind, Ready(gw, m, late, orphan)) && AppOf(gw, m).Listed(gw) && (orphan.Some? ==> orphan.value.wid == 0)
    ensures Comes(kind, During(gw, m, late, orphan, Found(gw, m).serve, Applying, Clear(AddDiff(gw, m), {AppOf(gw, m)})))
  {
    AddDiffIs(gw, m);
    Queues(kind, gw, m, late, orphan);
    Starts(kind, gw, m, late, orphan);
    Reads(kind, During(gw, m, late, orphan, Found(gw, m).serve, Applying, Ask));
  }

  lemma Deletes(kind: Kind, gw: string, m: Model, late: set<Late>, orphan: Option<Worker>, diff: Diff)
    requires Comes(kind, During(gw, m, late, orphan, Found(gw, m).serve, Applying, Clear(diff, {AppOf(gw, m)})))
    ensures Comes(kind, During(gw, m, late, orphan, map[], Applying, Clear(diff, {})))
  {
    var app := AppOf(gw, m);
    var s := During(gw, m, late, orphan, Found(gw, m).serve, Applying, Clear(diff, {app}));
    var deleting := s.(serve := map[app := Live(m).(status := Deleting)]);
    var gone := s.(serve := map[]);
    assert s.serve[app := Live(m).(status := Deleting)] == deleting.serve && deleting.serve - {app} == map[] && gone.hit - {app} == {};
    Changes(kind, s, ServeDelete(app), deleting);
    Serves(kind, deleting, ServeGone(app), gone);
    assert Left(gone.worker.value.pc) * gone.serve.Keys == {};
    Works(kind, gone, Poll, gone.Move(Clear(diff, {})));
  }

  /** It deletes the app it finds, and is about to submit its own. */
  lemma Clears(kind: Kind, gw: string, m: Model, late: set<Late>, orphan: Option<Worker>)
    requires Comes(kind, Ready(gw, m, late, orphan)) && AppOf(gw, m).Listed(gw) && (orphan.Some? ==> orphan.value.wid == 0)
    ensures Comes(kind, During(gw, m, late, orphan, map[], Applying, BringUp(AddDiff(gw, m), {AppOf(gw, m)})))
  {
    var diff := AddDiff(gw, m);
    Begins(kind, gw, m, late, orphan);
    Deletes(kind, gw, m, late, orphan, diff);
    AddDiffIs(gw, m);
    GoesUp(kind, gw, m, late, orphan, diff);
  }

  lemma GoesUp(kind: Kind, gw: string, m: Model, late: set<Late>, orphan: Option<Worker>, diff: Diff)
    requires Comes(kind, During(gw, m, late, orphan, map[], Applying, Clear(diff, {}))) && Apps(gw, diff.deploys) == {AppOf(gw, m)}
    ensures Comes(kind, During(gw, m, late, orphan, map[], Applying, BringUp(diff, {AppOf(gw, m)})))
  {
    var s := During(gw, m, late, orphan, map[], Applying, Clear(diff, {}));
    Moves(kind, s, Lower(diff));
    Moves(kind, s.Move(Lower(diff)), BringUp(diff, {AppOf(gw, m)}));
  }

  lemma Submits(kind: Kind, gw: string, m: Model, late: set<Late>, orphan: Option<Worker>, diff: Diff)
    requires Comes(kind, During(gw, m, late, orphan, map[], Applying, BringUp(diff, {AppOf(gw, m)}))) && m in diff.deploys
    ensures Comes(kind, During(gw, m, late, orphan, Found(gw, m).serve, Applying, BringUp(diff, {})))
  {
    var app := AppOf(gw, m);
    var s := During(gw, m, late, orphan, map[], Applying, BringUp(diff, {app}));
    var deploying, up := s.(serve := map[app := Fresh(m)]), s.(serve := map[app := Live(m)]);
    assert s.serve[app := Fresh(m)] == deploying.serve && deploying.serve[app := Live(m)] == up.serve && s.hit - {app} == {} && {app} - {app} == {};
    Changes(kind, s, ServeSubmit(m), deploying);
    Serves(kind, deploying, ServeStatus(app, Live(m)), up);
    Changes(kind, up, SeeRunning(app), up.Move(BringUp(diff, {})));
  }

  lemma Raises(kind: Kind, gw: string, m: Model, late: set<Late>, orphan: Option<Worker>, diff: Diff)
    requires Comes(kind, During(gw, m, late, orphan, Found(gw, m).serve, Applying, BringUp(diff, {}))) && diff.commits
    ensures Comes(kind, During(gw, m, late, orphan, Found(gw, m).serve, Applying, CallSwitch(diff)))
  {
    var s := During(gw, m, late, orphan, Found(gw, m).serve, Applying, BringUp(diff, {}));
    Moves(kind, s, Raise(diff));
    Moves(kind, s.Move(Raise(diff)), CallSwitch(diff));
  }

  /** Its app comes up. */
  lemma ComesUp(kind: Kind, gw: string, m: Model, late: set<Late>, orphan: Option<Worker>)
    requires Comes(kind, During(gw, m, late, orphan, map[], Applying, BringUp(AddDiff(gw, m), {AppOf(gw, m)}))) && AppOf(gw, m).Listed(gw)
    ensures Comes(kind, During(gw, m, late, orphan, Found(gw, m).serve, Applying, CallSwitch(AddDiff(gw, m))))
  {
    AddDiffIs(gw, m);
    Submits(kind, gw, m, late, orphan, AddDiff(gw, m));
    Raises(kind, gw, m, late, orphan, AddDiff(gw, m));
  }

  /** Switched and committed, it has nothing to retire. */
  function Committed(gw: string, m: Model, late: set<Late>, orphan: Option<Worker>, diff: Diff): State {
    var s := During(gw, m, late, orphan, Found(gw, m).serve, Retiring, Retire(diff, {}));
    s.(c := Coord([], Some(Entry(0, Adding(m), Retiring, false, false, true)), Some(Routing(2, Some([m]))), 2, 1, true, map[]),
       stored := Some(CommitVersion(None, [m])), writes := [(0, [m])])
  }

  function Past(gw: string, m: Model, late: set<Late>, orphan: Option<Worker>, phase: Phase, lock: seq<Op>, pc: Pc): State {
    During(gw, m, late, orphan, Found(gw, m).serve, phase, pc)
      .(c := Coord([], Some(Entry(0, Adding(m), phase, false, false, true)), Some(Routing(2, Some([m]))), 2, 1, true, map[]), lock := lock)
  }

  lemma Switches(kind: Kind, gw: string, m: Model, late: set<Late>, orphan: Option<Worker>, diff: Diff)
    requires Comes(kind, During(gw, m, late, orphan, Found(gw, m).serve, Applying, CallSwitch(diff))) && diff.models == Some([m])
    ensures Comes(kind, Past(gw, m, late, orphan, Switching, [], CallCommit(diff)))
  {
    var t := Past(gw, m, late, orphan, Switching, [], AwaitSwitch(diff));
    Deals(kind, During(gw, m, late, orphan, Found(gw, m).serve, Applying, CallSwitch(diff)), CallOut, t);
    Moves(kind, t, CallCommit(diff));
  }

  lemma BeginsCommit(kind: Kind, gw: string, m: Model, late: set<Late>, orphan: Option<Worker>, diff: Diff)
    requires Comes(kind, Past(gw, m, late, orphan, Switching, [], CallCommit(diff))) && diff.models == Some([m])
    ensures Comes(kind, Past(gw, m, late, orphan, Committing, [Op(1, ForWrite(0, [m]))], AwaitCommit(diff)))
  {
    var s, t := Past(gw, m, late, orphan, Switching, [], CallCommit(diff)), Past(gw, m, late, orphan, Committing, [Op(1, ForWrite(0, [m]))], AwaitCommit(diff));
    assert s.lock + [Op(1, ForWrite(0, [m]))] == t.lock;
    assert Called(s) == Some(t);
    Deals(kind, s, CallOut, t);
  }

  lemma RequestBeginsCommit(kind: Kind, gw: string, m: Model, late: set<Late>, orphan: Option<Worker>)
    requires Comes(kind, Ready(gw, m, late, orphan)) && AppOf(gw, m).Listed(gw) && (orphan.Some? ==> orphan.value.wid == 0)
    ensures Comes(kind, Past(gw, m, late, orphan, Committing, [Op(1, ForWrite(0, [m]))], AwaitCommit(AddDiff(gw, m))))
  {
    Clears(kind, gw, m, late, orphan);
    ComesUp(kind, gw, m, late, orphan);
    AddDiffIs(gw, m);
    Switches(kind, gw, m, late, orphan, AddDiff(gw, m));
    BeginsCommit(kind, gw, m, late, orphan, AddDiff(gw, m));
  }

  lemma Written(gw: string, m: Model, late: set<Late>, orphan: Option<Worker>, diff: Diff)
    requires diff.retired == {}
    ensures LockStep(Past(gw, m, late, orphan, Committing, [Op(1, ForWrite(0, [m]))], AwaitCommit(diff)), true, true) ==
            Some(Committed(gw, m, late, orphan, diff))
  {
    var s := Past(gw, m, late, orphan, Committing, [Op(1, ForWrite(0, [m]))], AwaitCommit(diff));
    assert s.writes + [(0, [m])] == [(0, [m])] && s.lock[1..] == [];
  }

  lemma RequestCommits(kind: Kind, gw: string, m: Model, late: set<Late>, orphan: Option<Worker>)
    requires Comes(kind, Ready(gw, m, late, orphan)) && AppOf(gw, m).Listed(gw) && (orphan.Some? ==> orphan.value.wid == 0)
    ensures Comes(kind, Committed(gw, m, late, orphan, AddDiff(gw, m)))
  {
    RequestBeginsCommit(kind, gw, m, late, orphan);
    AddDiffIs(gw, m);
    Written(gw, m, late, orphan, AddDiff(gw, m));
    Answers(kind, Past(gw, m, late, orphan, Committing, [Op(1, ForWrite(0, [m]))], AwaitCommit(AddDiff(gw, m))), true,
            Committed(gw, m, late, orphan, AddDiff(gw, m)));
  }

  // --- What is broken ---

  /** The model's app is the committed version's, and is being deleted. */
  ghost predicate CommittedDeleting(s: State, app: App) {
    app in s.Named() && app.Listed(s.gw) && app in s.serve && s.serve[app].status == Deleting
  }

  lemma CommittedStruck(gw: string, m: Model, s: State)
    requires AppOf(gw, m).Listed(gw) && s.gw == gw && s.serve == Found(gw, m).serve && s.Committed() == Some([m])
    ensures CommittedDeleting(Struck(s, AppOf(gw, m)), AppOf(gw, m))
  {
    AddDiffIs(gw, m);
  }

  lemma Lands(gw: string, m: Model, s: State)
    requires AppOf(gw, m).Listed(gw) && s.gw == gw && s.serve == Found(gw, m).serve && s.Committed() == Some([m])
    requires LateDelete(AppOf(gw, m)) in s.late && Comes(LateCalls, s)
    ensures Comes(LateCalls, Landed(s, LateDelete(AppOf(gw, m)))) && CommittedDeleting(Landed(s, LateDelete(AppOf(gw, m))), AppOf(gw, m))
  {
    var call := LateDelete(AppOf(gw, m));
    Deals(LateCalls, s, Land(call), Landed(s, call));
    CommittedStruck(gw, m, s.(late := s.late - {call}));
  }

  /** A deletion that a dead recovery worker left with Serve, handled after a later request has committed the app: the
      committed app is deleted, though every recovery waited for its rollbacks. */
  lemma LateDeleteHitsCommitted(gw: string, m: Model) returns (t: State)
    requires AppOf(gw, m).Listed(gw)
    ensures Comes(LateCalls, t) && CommittedDeleting(t, AppOf(gw, m))
  {
    var call := LateDelete(AppOf(gw, m));
    DiesDeleting(LateCalls, gw, m, true);
    RequestCommits(LateCalls, gw, m, {call}, None);
    var s := Committed(gw, m, {call}, None, AddDiff(gw, m));
    t := Landed(s, call);
    Lands(gw, m, s);
  }

  lemma OrphanDeletes(gw: string, m: Model, s: State)
    requires AppOf(gw, m).Listed(gw) && s.gw == gw && s.serve == Found(gw, m).serve && s.Committed() == Some([m])
    requires s.orphan == Some(Deleter(gw, m)) && FoundDiff(gw, m).leftovers == {AppOf(gw, m)} && Comes(Abandons, s)
    ensures Comes(Abandons, Struck(s, AppOf(gw, m))) && CommittedDeleting(Struck(s, AppOf(gw, m)), AppOf(gw, m))
  {
    assert ApplyLone(s, LoneDelete(AppOf(gw, m))) == Some(Struck(s, AppOf(gw, m)));
    ComesOn(Abandons, s, OfOrphan(LoneDelete(AppOf(gw, m))), Struck(s, AppOf(gw, m)));
    CommittedStruck(gw, m, s);
  }

  /** A recovery that ends because another gateway's rollback worker can't be made leaves this gateway's at work: it deletes
      the app a request has committed meanwhile, with no worker dead and no call late. */
  lemma AbandonedRecoveryHitsCommitted(gw: string, m: Model) returns (t: State)
    requires AppOf(gw, m).Listed(gw)
    ensures Comes(Abandons, t) && CommittedDeleting(t, AppOf(gw, m))
  {
    LeftBehind(gw, m);
    RequestCommits(Abandons, gw, m, {}, Some(Deleter(gw, m)));
    Recovers(Abandons, gw, m);
    var s := Committed(gw, m, {}, Some(Deleter(gw, m)), AddDiff(gw, m));
    t := Struck(s, AppOf(gw, m));
    OrphanDeletes(gw, m, s);
  }

  // --- A submission handled after the rollback ---

  function DeadAfter(gw: string, m: Model): State {
    During(gw, m, {LateSubmit(m)}, None, map[], Applying, Ask).(worker := None)
  }

  /** The request's worker dies as it submits the app. */
  lemma DiesSubmitting(gw: string, m: Model)
    requires AppOf(gw, m).Listed(gw)
    ensures Comes(LateCalls, DeadAfter(gw, m))
  {
    DiesDeleting(LateCalls, gw, m, false);
    Clears(LateCalls, gw, m, {}, None);
    AddDiffIs(gw, m);
    DiesUnanswered(gw, m, AddDiff(gw, m));
  }

  lemma DiesUnanswered(gw: string, m: Model, diff: Diff)
    requires m in diff.deploys && Comes(LateCalls, During(gw, m, {}, None, map[], Applying, BringUp(diff, {AppOf(gw, m)})))
    ensures Comes(LateCalls, DeadAfter(gw, m))
  {
    assert {} + {LateSubmit(m)} == {LateSubmit(m)};
    Deals(LateCalls, During(gw, m, {}, None, map[], Applying, BringUp(diff, {AppOf(gw, m)})), DieCalling(LateSubmit(m)), DeadAfter(gw, m));
  }

  function RollingBack(gw: string, m: Model, pc: Pc): State {
    var s := DeadAfter(gw, m);
    s.(c := s.c.(running := Some(Entry(0, Adding(m), Phase.RollingBack, false, false, false))), stage := Rolling, worker := Some(Worker(2, RollJob, pc)), nextWid := 3)
  }

  lemma RollbackDone(gw: string, m: Model)
    requires AppOf(gw, m).Listed(gw)
    ensures Comes(LateCalls, RollingBack(gw, m, DoneBack(Failed)))
  {
    DiesSubmitting(gw, m);
    var start := RollingBack(gw, m, CallReset(Failed));
    assert Noticed(DeadAfter(gw, m), true) == Some(start);
    Tasks(LateCalls, DeadAfter(gw, m), Notice(true), start);
    RollsBack(LateCalls, start);
    var diff := UndoDiff(start);
    assert diff.leftovers == {} && start.c.Reset(None) == start.c;
    assert RolledTo(start, Undo(Failed, diff, {})) == RollingBack(gw, m, Undo(Failed, diff, {}));
    RollbackEnds(gw, m, diff);
  }

  lemma RollbackEnds(gw: string, m: Model, diff: Diff)
    requires Comes(LateCalls, RollingBack(gw, m, Undo(Failed, diff, {})))
    ensures Comes(LateCalls, RollingBack(gw, m, DoneBack(Failed)))
  {
    Moves(LateCalls, RollingBack(gw, m, Undo(Failed, diff, {})), Restore(Failed, diff));
    Moves(LateCalls, RollingBack(gw, m, Restore(Failed, diff)), DoneBack(Failed));
  }

  /** A submission that a dead worker left with Serve, handled once the rollback has read Serve: the rollback completes with
      the app there, though the committed version doesn't name it. */
  lemma LateSubmitOutlivesRollback(gw: string, m: Model) returns (t: State)
    requires AppOf(gw, m).Listed(gw)
    ensures Comes(LateCalls, t) && t.worker.Some? && t.worker.value.pc.DoneBack? && !OnlyNamed(t)
  {
    RollbackDone(gw, m);
    var s := RollingBack(gw, m, DoneBack(Failed));
    t := Landed(s, LateSubmit(m));
    Deals(LateCalls, s, Land(LateSubmit(m)), t);
    assert AppOf(gw, m) in t.serve && t.Named() == {};
  }
}
