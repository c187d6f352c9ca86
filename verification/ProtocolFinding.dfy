/** A run that takes routing back to apps being deleted: one dead worker's reset, handled late. */
module DeployProtocolFinding {
  import opened Wrappers
  import opened AppNames
  import opened Ledger
  import opened DeployDiff
  import opened Coordinator
  import opened DeployProtocol
  import opened DeployProtocolTheorems

  /** A reconcile to no models at all. */
  function Removal(): Request { Request(Fold(Reconcile), BlueGreen, Some([])) }

  function OneModel(gw: string, m: Model): State {
    State(gw, map[AppOf(gw, m) := ServeApp(Running, Some(ServeScaling(m.scaling)))], Some(CommitVersion(None, [m])),
          Coord([], None, None, 0, 0, false, map[]), [], None, Idle, Unstarted, {}, {}, None, 0, None, {}, [], [], {}, false, {}, {})
  }

  // Each of the run's kinds of step, from a reachable state.

  lemma Tasks(s: State, k: Task, t: State)
    requires ApplyTask(s, k) == Some(t) && Reachable(s)
    ensures Reachable(t)
  {
    ReachableStep(s, OfTask(k), t);
  }

  lemma Submits(s: State, t: State)
    requires t == Submitted(s, Removal()) && Reachable(s)
    ensures Reachable(t)
  {
    ReachableStep(s, FromOutside(Submit(Removal())), t);
  }

  lemma Deals(s: State, d: Dealing, t: State)
    requires ApplyCall(s, d) == Some(t) && Reachable(s)
    ensures Reachable(t)
  {
    ReachableStep(s, OfCall(d), t);
  }

  lemma Works(s: State, w: Work, t: State)
    requires ApplyWork(s, w) == Some(t) && Reachable(s)
    ensures Reachable(t)
  {
    ReachableStep(s, OfWorker(w), t);
  }

  function Between(gw: string, m: Model): State {
    OneModel(gw, m).(recovery := Over, strays := {CReset(0)}, nextWid := 1)
  }

  /** A recovery's worker dies as it resets routing. */
  lemma RecoveryDies(gw: string, m: Model)
    ensures Reachable(Between(gw, m))
  {
    var s, none := OneModel(gw, m), [];
    assert UniqueNames([m]) && Init(s) && IsRun([s], none) && [s][|none|] == s;
    var a := s.(recovery := Underway, stage := Recovering, worker := Some(Worker(0, RecoverJob, CallReset(Failed))), nextWid := 1);
    Tasks(s, RecoverStart(true), a);
    var b := a.(worker := None, strays := {CReset(0)});
    assert {} + {CReset(0)} == {CReset(0)};
    Deals(a, Die(Some(CReset(0))), b);
    Tasks(b, RecoverEnd, Between(gw, m));
  }

  lemma RemovalDiff(gw: string, m: Model)
    requires AppOf(gw, m).Listed(gw)
    ensures var diff := DiffOf(gw, Removal(), Some([m]), OneModel(gw, m).serve);
            diff.leftovers == {} && diff.deploys == [] && diff.retired == {AppOf(gw, m)} && diff.models == Some([]) && diff.commits
  {
    var diff := DiffOf(gw, Removal(), Some([m]), OneModel(gw, m).serve);
    assert Names([m]) == {m.name};
    assert m.name in Deployed(gw, [m]) && m.name !in Deployed(gw, []);
    assert Unnamed([m], Names([])) == [m] && Apps(gw, [m]) == {AppOf(gw, m)};
  }

  function Second(gw: string, m: Model, phase: Phase, switched: bool, routing: Option<Routing>, seqNo: nat, lock: seq<Op>, pc: Pc): State {
    Between(gw, m).(c := Coord([], Some(Entry(0, Removal(), phase, false, false, switched)), routing, seqNo, 1, true, map[]),
                    lock := lock, worker := Some(Worker(1, RunJob(0, Removal()), pc)), stage := Working, nextWid := 2, started := [0])
  }

  function Before(gw: string, m: Model, pc: Pc): State { Second(gw, m, Applying, false, None, 0, [], pc) }

  /** A request to remove the model starts. */
  lemma RequestStarts(gw: string, m: Model)
    requires Reachable(Between(gw, m))
    ensures Reachable(Before(gw, m, Ask))
  {
    var s, entry := Between(gw, m), Entry(0, Removal(), Phase.Queued, false, false, false);
    var t := s.(c := Coord([entry], None, None, 0, 1, true, map[]));
    assert [] + [entry] == [entry] && [entry][1..] == [];
    Submits(s, t);
    assert s.started + [0] == [0];
    Tasks(t, Start(true), Before(gw, m, Ask));
  }

  /** And reads its diff. */
  lemma RequestReads(gw: string, m: Model, diff: Diff)
    requires diff == DiffOf(gw, Removal(), Some([m]), OneModel(gw, m).serve) && diff.leftovers == {} && Reachable(Before(gw, m, Ask))
    ensures Reachable(Before(gw, m, Clear(diff, {})))
  {
    RequestAsks(gw, m);
    var b := Before(gw, m, HaveCommitted(Some([m])));
    assert WellNamed(Removal(), Some([m])) && ServeRead(b, true) == Some(b.Move(Clear(diff, {})));
    Works(b, ReadServe(true), Before(gw, m, Clear(diff, {})));
  }

  lemma RequestAsks(gw: string, m: Model)
    requires Reachable(Before(gw, m, Ask))
    ensures Reachable(Before(gw, m, HaveCommitted(Some([m]))))
  {
    var s, op := Before(gw, m, Ask), Op(1, ForDiff);
    var a := s.(lock := [op]).Move(AwaitDiff);
    assert s.lock + [op] == [op] && [op][1..] == [];
    Deals(s, AskDiff, a);
    assert LockStep(a, true, false) == Some(Before(gw, m, HaveCommitted(Some([m]))));
    Deals(a, LockDone(true, false), Before(gw, m, HaveCommitted(Some([m]))));
  }

  /** One step on. */
  lemma Moves(s: State, pc: Pc)
    requires s.worker.Some? && Following(s.gw, RequestOf(s.worker.value.job), s.worker.value.pc) == Some(pc) && Reachable(s)
    ensures Reachable(s.Move(pc))
  {
    Works(s, Next, s.Move(pc));
  }

  /** With nothing to bring up it comes to its switch. */
  lemma RequestBrings(gw: string, m: Model, diff: Diff)
    requires diff.deploys == [] && diff.commits && Reachable(Before(gw, m, Clear(diff, {})))
    ensures Reachable(Before(gw, m, CallSwitch(diff)))
  {
    var s := Before(gw, m, Clear(diff, {}));
    assert Apps(gw, diff.deploys) == {};
    Moves(s, Lower(diff));
    Moves(s.Move(Lower(diff)), BringUp(diff, {}));
    RequestRaises(gw, m, diff);
  }

  lemma RequestRaises(gw: string, m: Model, diff: Diff)
    requires diff.commits && Reachable(Before(gw, m, BringUp(diff, {})))
    ensures Reachable(Before(gw, m, CallSwitch(diff)))
  {
    var s := Before(gw, m, BringUp(diff, {}));
    Moves(s, Raise(diff));
    Moves(s.Move(Raise(diff)), CallSwitch(diff));
  }

  /** It switches; then the dead worker's reset is handled, and routing goes back to the version about to be replaced. */
  lemma StrayResets(gw: string, m: Model, diff: Diff)
    requires diff.models == Some([]) && Reachable(Before(gw, m, CallSwitch(diff)))
    ensures Reachable(Back(gw, m, diff))
  {
    var op, a := Op(0, ForReset), Second(gw, m, Switching, true, Some(Routing(1, Some([]))), 1, [], AwaitSwitch(diff));
    var b := a.(strays := {}, lock := [op]);
    Deals(Before(gw, m, CallSwitch(diff)), CallOut, a);
    assert [] + [op] == [op] && {CReset(0)} - {CReset(0)} == {} && [op][1..] == [];
    assert Delivered(a, CReset(0)) == b;
    Deals(a, Deliver(CReset(0)), b);
    assert LockStep(b, true, false) == Some(Back(gw, m, diff));
    Deals(b, LockDone(true, false), Back(gw, m, diff));
  }

  function Back(gw: string, m: Model, diff: Diff): State {
    Second(gw, m, Switching, true, Some(Routing(2, Some([m]))), 2, [], AwaitSwitch(diff)).(strays := {}, unswitched := true)
  }

  /** The request commits all the same. */
  lemma RequestCommits(gw: string, m: Model, diff: Diff) returns (t: State)
    requires diff.models == Some([]) && diff.retired == {AppOf(gw, m)} && Reachable(Back(gw, m, diff))
    ensures Reachable(t) && t.unswitched && t.gw == gw && t.c.routing == Some(Routing(2, Some([m]))) && t.Committed() == Some([])
    ensures t.worker.Some? && t.worker.value.pc == Retire(diff, {AppOf(gw, m)})
  {
    var s, op := Back(gw, m, diff), Op(1, ForWrite(0, []));
    Moves(s, CallCommit(diff));
    var a := s.Move(CallCommit(diff));
    var b := Second(gw, m, Committing, true, Some(Routing(2, Some([m]))), 2, [op], AwaitCommit(diff)).(strays := {}, unswitched := true);
    assert [] + [op] == [op];
    assert Called(a) == Some(b);
    Deals(a, CallOut, b);
    t := RequestWrites(gw, m, diff, b);
  }

  lemma RequestWrites(gw: string, m: Model, diff: Diff, s: State) returns (t: State)
    requires s == Second(gw, m, Committing, true, Some(Routing(2, Some([m]))), 2, [Op(1, ForWrite(0, []))], AwaitCommit(diff)).(strays := {}, unswitched := true)
    requires diff.models == Some([]) && diff.retired == {AppOf(gw, m)} && Reachable(s)
    ensures Reachable(t) && t.unswitched && t.gw == gw && t.c.routing == Some(Routing(2, Some([m]))) && t.Committed() == Some([])
    ensures t.worker.Some? && t.worker.value.pc == Retire(diff, {AppOf(gw, m)})
  {
    t := WriteDone(s, true, true);
    assert LockStep(s, true, true) == Some(t);
    Deals(s, LockDone(true, true), t);
  }

  lemma RunsBack(gw: string, m: Model, diff: Diff)
    requires diff == DiffOf(gw, Removal(), Some([m]), OneModel(gw, m).serve)
    requires diff.leftovers == {} && diff.deploys == [] && diff.models == Some([]) && diff.commits
    ensures Reachable(Back(gw, m, diff))
  {
    RecoveryDies(gw, m);
    RequestStarts(gw, m);
    RequestReads(gw, m, diff);
    RequestBrings(gw, m, diff);
    StrayResets(gw, m, diff);
  }

  /** For every gateway and committed model there is a run, of blue_green requests only, at whose end the worker may
      delete the model's app after its commit while the gateway is still routed to it. */
  lemma StrayResetRoutesToRetired(gw: string, m: Model) returns (t: State)
    requires AppOf(gw, m).Listed(gw)
    ensures Reachable(t) && t.worker.Some? && t.worker.value.pc.Retire? && t.unswitched
    ensures AppDeleted(t, AppOf(gw, m)).Some?
    ensures t.c.routing.Some? && AppOf(gw, m) in Apps(t.gw, Set(t.c.routing.value.models)) && AppOf(gw, m) !in t.Named()
  {
    var diff := DiffOf(gw, Removal(), Some([m]), OneModel(gw, m).serve);
    RemovalDiff(gw, m);
    RunsBack(gw, m, diff);
    t := RequestCommits(gw, m, diff);
    RoutedStill(gw, m, t);
  }

  lemma RoutedStill(gw: string, m: Model, t: State)
    requires t.gw == gw && t.c.routing == Some(Routing(2, Some([m]))) && t.Committed() == Some([])
    ensures AppOf(gw, m) in Apps(t.gw, Set(t.c.routing.value.models)) && AppOf(gw, m) !in t.Named()
  {
  }
}
