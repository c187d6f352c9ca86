/** The deploy protocol never gets stuck: wherever a run has come, the gateway can be idle again, and a request can come
    through with just what its diff's steps make of Serve. */
module DeployProtocolProgress {
  import opened Wrappers
  import opened AppNames
  import opened Ledger
  import opened DeployDiff
  import opened Rollout
  import opened Coordinator
  import opened DeployProtocol
  import opened DeployProtocolProofs
  import opened DeployProtocolTheorems

  // --- Continuations ---

  /** A run's states and steps from any state on. */
  ghost predicate Path(states: seq<State>, acts: seq<Act>) {
    |states| == |acts| + 1 && forall i {:trigger acts[i]} :: 0 <= i < |acts| ==> Apply(states[i], acts[i]) == Some(states[i + 1])
  }

  /** A run can go on from *s* to *t*. */
  ghost predicate GoesOn(s: State, t: State) { exists states, acts :: Path(states, acts) && states[0] == s && states[|acts|] == t }

  lemma PathMore(states: seq<State>, acts: seq<Act>, a: Act, t: State)
    requires Path(states, acts) && Apply(states[|acts|], a) == Some(t)
    ensures Path(states + [t], acts + [a]) == true
  {
    forall i {:trigger (acts + [a])[i]} | 0 <= i < |acts + [a]|
      ensures Apply((states + [t])[i], (acts + [a])[i]) == Some((states + [t])[i + 1])
    {
      if i < |acts| {
        assert (acts + [a])[i] == acts[i];
      }
    }
  }

  lemma PathJoin(states: seq<State>, acts: seq<Act>, states': seq<State>, acts': seq<Act>)
    requires Path(states, acts) && Path(states', acts') && states[|acts|] == states'[0]
    ensures Path(states[..|acts|] + states', acts + acts') == true
  {
    forall i {:trigger (acts + acts')[i]} | 0 <= i < |acts + acts'|
      ensures Apply((states[..|acts|] + states')[i], (acts + acts')[i]) == Some((states[..|acts|] + states')[i + 1])
    {
      if i < |acts| {
        assert (acts + acts')[i] == acts[i];
      } else {
        assert (acts + acts')[i] == acts'[i - |acts|];
      }
    }
  }

  lemma GoesFurther(s: State, t: State, u: State)
    requires GoesOn(s, t) && GoesOn(t, u)
    ensures GoesOn(s, u)
  {
    var states, acts :| Path(states, acts) && states[0] == s && states[|acts|] == t;
    var states', acts' :| Path(states', acts') && states'[0] == t && states'[|acts'|] == u;
    PathJoin(states, acts, states', acts');
    assert (states[..|acts|] + states')[0] == s && (states[..|acts|] + states')[|acts + acts'|] == u;
  }

  lemma StepOn(start: State, s: State, a: Act, t: State)
    requires GoesOn(start, s) && Apply(s, a) == Some(t)
    ensures GoesOn(start, t) == true
  {
    var states, acts :| Path(states, acts) && states[0] == start && states[|acts|] == s;
    PathMore(states, acts, a, t);
    assert (states + [t])[0] == start && (states + [t])[|acts + [a]|] == t;
  }

  /** Nothing fails: no death, no cancel, no call of a dead worker, and Serve drops only apps that are being deleted. */
  predicate Smooth(s: State, a: Act) {
    match a
    case OfTask(k) => k == Start(true) || k.RunEnd? || k.RollEnd?
    case OfServe(e) => e.ServeStatus? || (e.ServeGone? && (e.app in s.serve ==> s.serve[e.app].status == Deleting))
    case OfCall(d) => d == LockDone(true, true) || d.CallOut? || d.AskDiff?
    case OfWorker(w) => w == ReadServe(true) || w.Next? || w.Poll?
    case OnServe(_) => true
    case _ => false
  }

  ghost predicate AllSmooth(states: seq<State>, acts: seq<Act>)
    requires |states| == |acts| + 1
  {
    forall i {:trigger acts[i]} :: 0 <= i < |acts| ==> Smooth(states[i], acts[i])
  }

  /** And with nothing failing. */
  ghost predicate Leads(s: State, t: State) {
    exists states, acts :: Path(states, acts) && AllSmooth(states, acts) && states[0] == s && states[|acts|] == t
  }

  lemma Stays(s: State)
    ensures Leads(s, s) && GoesOn(s, s)
  {
    assert Path([s], []) && AllSmooth([s], []) && [s][0] == s;
  }

  lemma SmoothMore(states: seq<State>, acts: seq<Act>, a: Act, t: State)
    requires |states| == |acts| + 1 && AllSmooth(states, acts) && Smooth(states[|acts|], a)
    ensures AllSmooth(states + [t], acts + [a]) == true
  {
    forall i {:trigger (acts + [a])[i]} | 0 <= i < |acts + [a]|
      ensures Smooth((states + [t])[i], (acts + [a])[i])
    {
      if i < |acts| {
        assert (acts + [a])[i] == acts[i];
      }
    }
  }

  lemma LeadsOn(start: State, s: State, a: Act, t: State)
    requires Leads(start, s) && Smooth(s, a) == true && Apply(s, a) == Some(t)
    ensures Leads(start, t) == true
  {
    var states, acts :| Path(states, acts) && AllSmooth(states, acts) && states[0] == start && states[|acts|] == s;
    PathMore(states, acts, a, t);
    SmoothMore(states, acts, a, t);
    assert (states + [t])[0] == start && (states + [t])[|acts + [a]|] == t;
  }

  // Each of the kinds of step.

  lemma Tasks(start: State, s: State, k: Task, t: State)
    requires Leads(start, s) == true && ApplyTask(s, k) == Some(t) && (k == Start(true) || k.RunEnd? || k.RollEnd?)
    ensures Leads(start, t) == true
  {
    LeadsOn(start, s, OfTask(k), t);
  }

  lemma CallsOut(start: State, s: State, t: State)
    requires Leads(start, s) == true && s.worker.Some? && Called(s) == Some(t)
    ensures Leads(start, t) == true
  {
    LeadsOn(start, s, OfCall(CallOut), t);
  }

  /** The head of the version lock's queue is done. */
  lemma Answers(start: State, s: State) returns (t: State)
    requires Leads(start, s) == true && s.lock != [] && LockStep(s, true, true).Some?
    ensures Leads(start, t) == true && t == LockStep(s, true, true).value.(orphan := t.orphan)
  {
    t := LockStep(s, true, true).value.(orphan := Answered(s, true));
    LeadsOn(start, s, OfCall(LockDone(true, true)), t);
  }

  lemma Reads(start: State, s: State, t: State)
    requires Leads(start, s) == true && s.worker.Some? && ServeRead(s, true) == Some(t)
    ensures Leads(start, t) == true
  {
    LeadsOn(start, s, OfWorker(ReadServe(true)), t);
  }

  lemma Changes(start: State, s: State, c: Change, t: State)
    requires Leads(start, s) == true && ApplyChange(s, c) == Some(t)
    ensures Leads(start, t) == true
  {
    LeadsOn(start, s, OnServe(c), t);
  }

  lemma Moves(start: State, s: State, pc: Pc)
    requires Leads(start, s) == true && s.worker.Some? && Following(s.gw, RequestOf(s.worker.value.job), s.worker.value.pc) == Some(pc)
    ensures Leads(start, s.Move(pc)) == true
  {
    LeadsOn(start, s, OfWorker(Next), s.Move(pc));
  }

  // --- A step's own waits ---

  /** The worker deletes apps and Serve drops them. */
  lemma Vanish(start: State, s: State, apps: set<App>) returns (t: State)
    requires Leads(start, s) == true && s.worker.Some? && apps <= Left(s.worker.value.pc)
    ensures Leads(start, t) == true && t == s.(serve := s.serve - apps, hit := t.hit)
    decreases |apps|
  {
    if apps == {} {
      t := s;
      assert s.serve - {} == s.serve;
    } else {
      var app :| app in apps;
      var u := Vanish(start, s, apps - {app});
      t := VanishOne(start, u, app);
      assert s.serve - (apps - {app}) - {app} == s.serve - apps;
    }
  }

  lemma VanishOne(start: State, s: State, app: App) returns (t: State)
    requires Leads(start, s) == true && s.worker.Some? && app in Left(s.worker.value.pc)
    ensures Leads(start, t) == true && t == s.(serve := s.serve - {app}, hit := t.hit)
  {
    var u := AppDeleted(s, app).value;
    Changes(start, s, ServeDelete(app), u);
    t := u.(serve := u.serve - {app}, hit := u.hit - {app});
    LeadsOn(start, u, OfServe(ServeGone(app)), t);
    assert u.serve - {app} == s.serve - {app};
  }

  /** A deletion is waited for, and the worker goes on. */
  lemma Deletes(start: State, s: State, apps: set<App>, pc: Pc) returns (t: State)
    requires Leads(start, s) == true && s.worker.Some? && Left(s.worker.value.pc) == apps
    requires Following(s.gw, RequestOf(s.worker.value.job), WithLeft(s.worker.value.pc, {})) == Some(pc)
    ensures Leads(start, t) == true && t == s.(serve := s.serve - apps, hit := t.hit).Move(pc)
  {
    var u := Vanish(start, s, apps);
    assert apps * u.serve.Keys == {};
    var v := u.Move(WithLeft(u.worker.value.pc, {}));
    LeadsOn(start, u, OfWorker(Poll), v);
    t := v.Move(pc);
    LeadsOn(start, v, OfWorker(Next), t);
  }

  ghost predicate MayAll(pc: Pc, xs: seq<Rescale>) { forall x :: x in xs ==> MayRescale(pc, x) }

  /** The worker re-submits live apps, and each is RUNNING again. */
  lemma Rescaled(start: State, s: State, xs: seq<Rescale>) returns (t: State)
    requires Leads(start, s) == true && s.worker.Some? && MayAll(s.worker.value.pc, xs) == true && RescaleAll(s.serve, xs).Some?
    ensures Leads(start, t) == true && t == s.(serve := RescaleAll(s.serve, xs).value, hit := t.hit)
    decreases |xs|
  {
    if xs == [] {
      t := s;
    } else {
      var x := xs[|xs| - 1];
      MayHead(s.worker.value.pc, xs);
      var u := Rescaled(start, s, xs[..|xs| - 1]);
      t := RescaledOne(start, u, x);
    }
  }

  lemma MayHead(pc: Pc, xs: seq<Rescale>)
    requires MayAll(pc, xs) && xs != []
    ensures MayAll(pc, xs[..|xs| - 1]) == true && MayRescale(pc, xs[|xs| - 1])
  {
  }

  lemma RescaledOne(start: State, s: State, x: Rescale) returns (t: State)
    requires Leads(start, s) == true && s.worker.Some? && MayRescale(s.worker.value.pc, x)
    ensures Leads(start, t) == true && t == s.(serve := s.serve[x.app := ServeApp(Running, Some(ServeScaling(x.scaling)))], hit := t.hit)
  {
    var u := AppRescaled(s, x).value;
    Changes(start, s, ServeRescale(x), u);
    t := Runs(start, u, x.app);
    assert t.serve == s.serve[x.app := ServeApp(Running, Some(ServeScaling(x.scaling)))];
  }

  /** An app coming up is RUNNING at last. */
  lemma Runs(start: State, s: State, app: App) returns (t: State)
    requires Leads(start, s) == true && app in s.serve && s.serve[app].status == Deploying
    ensures Leads(start, t) == true && t == s.(serve := s.serve[app := ServeApp(Running, s.serve[app].scaling)])
  {
    var held := ServeApp(Running, s.serve[app].scaling);
    t := s.(serve := s.serve[app := held]);
    LeadsOn(start, s, OfServe(ServeStatus(app, held)), t);
  }

  /** The worker submits models and sees each RUNNING. */
  lemma BroughtUp(start: State, s: State, diff: Diff, pending: set<App>, n: nat) returns (t: State)
    requires Leads(start, s) == true && s.worker.Some? && s.worker.value.pc == BringUp(diff, pending) && n <= |diff.deploys|
    ensures Leads(start, t) == true
    ensures t == s.(serve := DeployAll(s.gw, s.serve, diff.deploys[..n]), hit := t.hit).Move(BringUp(diff, pending - Apps(s.gw, diff.deploys[..n])))
  {
    var some := diff.deploys[..n];
    if n == 0 {
      t := s;
      assert pending - Apps(s.gw, some) == pending;
    } else {
      var m, head := diff.deploys[n - 1], diff.deploys[..n - 1];
      var u := BroughtUp(start, s, diff, pending, n - 1);
      t := BroughtUpOne(start, u, m);
      DeployMore(s.gw, s.serve, diff.deploys, n, pending);
    }
  }

  lemma DeployMore(gw: string, serve: map<App, ServeApp>, deploys: seq<Model>, n: nat, pending: set<App>)
    requires 0 < n <= |deploys|
    ensures var m, head := deploys[n - 1], deploys[..n - 1];
            DeployAll(gw, serve, deploys[..n]) == DeployAll(gw, serve, head)[AppOf(gw, m) := ServeApp(Running, Some(ServeScaling(m.scaling)))] &&
            pending - Apps(gw, head) - {AppOf(gw, m)} == pending - Apps(gw, deploys[..n])
  {
    var m, head, some := deploys[n - 1], deploys[..n - 1], deploys[..n];
    assert some[..n - 1] == head && some[n - 1] == m && some == head + [m];
    assert Apps(gw, some) == Apps(gw, head) + {AppOf(gw, m)};
  }

  lemma BroughtUpOne(start: State, s: State, m: Model) returns (t: State)
    requires Leads(start, s) == true && s.worker.Some? && s.worker.value.pc.BringUp? && m in s.worker.value.pc.diff.deploys
    ensures Leads(start, t) == true
    ensures t == s.(serve := s.serve[AppOf(s.gw, m) := ServeApp(Running, Some(ServeScaling(m.scaling)))], hit := t.hit)
                  .Move(BringUp(s.worker.value.pc.diff, s.worker.value.pc.pending - {AppOf(s.gw, m)}))
  {
    var app := AppOf(s.gw, m);
    var u := AppSubmitted(s, m).value;
    Changes(start, s, ServeSubmit(m), u);
    var v := Runs(start, u, app);
    assert v.serve == s.serve[app := ServeApp(Running, Some(ServeScaling(m.scaling)))];
    t := RunningSeen(v, app).value;
    Changes(start, v, SeeRunning(app), t);
  }

  // --- A request's worker ---

  /** Its apps before they come up: leftovers and what stop_start retires are gone, live ones are lowered. */
  function Lowered(request: Request, diff: Diff, serve: map<App, ServeApp>): Option<map<App, ServeApp>> {
    var down := RescaleAll(serve - diff.leftovers, diff.scaleDowns);
    if down.None? then None else Some(if request.strategy == StopStart then down.value - diff.retired else down.value)
  }

  lemma Lowers(start: State, s: State, diff: Diff) returns (t: State)
    requires Leads(start, s) == true && s.worker.Some? && s.worker.value.pc == Clear(diff, diff.leftovers)
    requires Lowered(RequestOf(s.worker.value.job), diff, s.serve).Some?
    ensures Leads(start, t) == true
    ensures t == s.(serve := Lowered(RequestOf(s.worker.value.job), diff, s.serve).value, hit := t.hit).Move(BringUp(diff, Apps(s.gw, diff.deploys)))
  {
    var request := RequestOf(s.worker.value.job);
    var u := Deletes(start, s, diff.leftovers, Lower(diff));
    assert MayAll(Lower(diff), diff.scaleDowns);
    var v := Rescaled(start, u, diff.scaleDowns);
    if request.strategy == StopStart {
      Moves(start, v, Stop(diff, diff.retired));
      t := Deletes(start, v.Move(Stop(diff, diff.retired)), diff.retired, BringUp(diff, Apps(s.gw, diff.deploys)));
    } else {
      Moves(start, v, BringUp(diff, Apps(s.gw, diff.deploys)));
      t := v.Move(BringUp(diff, Apps(s.gw, diff.deploys)));
    }
  }

  lemma Raises(start: State, s: State, diff: Diff) returns (t: State)
    requires Leads(start, s) == true && s.worker.Some? && s.worker.value.pc == BringUp(diff, Apps(s.gw, diff.deploys))
    requires RescaleAll(DeployAll(s.gw, s.serve, diff.deploys), diff.scaleUps).Some?
    ensures Leads(start, t) == true
    ensures t == s.(serve := RescaleAll(DeployAll(s.gw, s.serve, diff.deploys), diff.scaleUps).value, hit := t.hit).Move(Raise(diff))
  {
    var u := BroughtUp(start, s, diff, Apps(s.gw, diff.deploys), |diff.deploys|);
    assert diff.deploys[..|diff.deploys|] == diff.deploys && Apps(s.gw, diff.deploys) - Apps(s.gw, diff.deploys) == {};
    Moves(start, u, Raise(diff));
    assert MayAll(Raise(diff), diff.scaleUps);
    t := Rescaled(start, u.Move(Raise(diff)), diff.scaleUps);
  }

  // --- Its switch and commit ---

  /** What a committed request leaves the coordinator and the store with. */
  ghost predicate CommittedSo(s: State, id: nat, diff: Diff, t: State) {
    t.stored == (if diff.commits then Some(CommitVersion(s.stored, Set(diff.models))) else s.stored) &&
    t.c.queue == s.c.queue && t.c.outcomes == s.c.outcomes && t.c.nextId == s.c.nextId && t.c.Runs(id) && t.lock == [] && t.gw == s.gw && t.serve == s.serve &&
    t.stage == s.stage && t.recovery == s.recovery &&
    (diff.commits ==> t.c.routing.Some? && t.c.routing.value.models == diff.models) && (!diff.commits ==> t.c == s.c)
  }

  /** Switched, and its write next for the version lock. */
  lemma Switches(start: State, s: State, diff: Diff, id: nat, request: Request) returns (t: State)
    requires Leads(start, s) == true && s.lock == [] && s.worker.Some? && s.worker.value.job == RunJob(id, request) && s.worker.value.pc == CallSwitch(diff)
    requires s.c.Accepts(id) && !s.c.running.value.cancelled && diff.models.Some?
    ensures Leads(start, t) == true
    ensures var op := Op(s.worker.value.wid, ForWrite(id, diff.models.value));
            t == s.(c := s.c.Switch(id, diff.models.value).CommitBegin(id), unswitched := false, lock := [op]).Move(AwaitCommit(diff))
  {
    var op := Op(s.worker.value.wid, ForWrite(id, diff.models.value));
    var u := s.(c := s.c.Switch(id, diff.models.value), unswitched := false).Move(AwaitSwitch(diff));
    CallsOut(start, s, u);
    Moves(start, u, CallCommit(diff));
    var v := u.Move(CallCommit(diff));
    t := v.(c := v.c.CommitBegin(id), lock := [op]).Move(AwaitCommit(diff));
    assert v.lock + [op] == [op];
    CallsOut(start, v, t);
  }

  lemma Writes(start: State, s: State, diff: Diff, id: nat, request: Request) returns (t: State)
    requires Leads(start, s) == true && s.worker.Some? && s.worker.value.job == RunJob(id, request) && s.worker.value.pc == AwaitCommit(diff)
    requires diff.models.Some? && s.lock == [Op(s.worker.value.wid, ForWrite(id, diff.models.value))]
    ensures Leads(start, t) == true
    ensures t == s.(c := s.c.CommitEnd(id), stored := Some(CommitVersion(s.stored, diff.models.value)), lock := [], writes := t.writes, orphan := t.orphan)
                  .Move(Retire(diff, RetiredAfter(request, diff)))
  {
    t := Answers(start, s);
  }

  lemma SwitchesOver(start: State, s: State, diff: Diff, id: nat, request: Request) returns (t: State)
    requires Leads(start, s) == true && s.lock == [] && s.worker.Some? && s.worker.value.job == RunJob(id, request) && s.worker.value.pc == Raise(diff)
    requires s.c.Accepts(id) && !s.c.running.value.cancelled && diff.commits && diff.models.Some?
    ensures Leads(start, t) == true
    ensures t == s.(c := s.c.Switch(id, diff.models.value).CommitBegin(id).CommitEnd(id), unswitched := false, lock := [],
                    stored := Some(CommitVersion(s.stored, diff.models.value)), writes := t.writes, orphan := t.orphan)
                  .Move(Retire(diff, RetiredAfter(request, diff)))
  {
    Moves(start, s, CallSwitch(diff));
    var u := Switches(start, s.Move(CallSwitch(diff)), diff, id, request);
    t := Writes(start, u, diff, id, request);
  }

  lemma CommitsSo(c: Coord, id: nat, models: seq<Model>)
    requires c.Accepts(id) && !c.running.value.cancelled
    ensures var d := c.Switch(id, models).CommitBegin(id).CommitEnd(id);
            d.queue == c.queue && d.outcomes == c.outcomes && d.nextId == c.nextId && d.Runs(id) && d.routing.Some? && d.routing.value.models == Some(models)
  {
  }

  lemma Commits(start: State, s: State, diff: Diff, id: nat, request: Request) returns (t: State)
    requires Leads(start, s) == true && s.lock == [] && s.worker.Some? && s.worker.value.job == RunJob(id, request) && s.worker.value.pc == Raise(diff)
    requires s.c.Accepts(id) && !s.c.running.value.cancelled && (diff.commits ==> diff.models.Some?)
    ensures Leads(start, t) == true && CommittedSo(s, id, diff, t) == true && t.worker == Some(s.worker.value.(pc := Retire(diff, RetiredAfter(request, diff))))
  {
    if diff.commits {
      t := SwitchesOver(start, s, diff, id, request);
      CommitsSo(s.c, id, diff.models.value);
    } else {
      Moves(start, s, Retire(diff, RetiredAfter(request, diff)));
      t := s.Move(Retire(diff, RetiredAfter(request, diff)));
    }
  }

  // --- A whole request ---

  function DiffFor(s: State, request: Request): Diff { DiffOf(s.gw, request, s.Committed(), s.serve) }

  /** Nothing runs and nothing holds the version lock; the recovery is over. */
  predicate AtRest(s: State) { s.stage == Idle && s.recovery == Over && s.worker.None? && s.c.running.None? && s.lock == [] }

  /** The request's apps, the committed version and routing are as its diff makes them, and it came out as succeeded. */
  ghost predicate CameSo(s: State, id: nat, request: Request, t: State) {
    var diff := DiffFor(s, request);
    Run(s.gw, request, diff, s.serve) == Some(t.serve) &&
    t.stored == (if diff.commits then Some(CommitVersion(s.stored, Set(diff.models))) else s.stored) &&
    (diff.commits ==> t.c.routing.Some? && t.c.routing.value.models == diff.models) &&
    t.c.outcomes == s.c.outcomes[id := Succeeded] && AtRest(t)
  }

  /** The worker asks for its diff and the committed version is read for it. */
  lemma Asks(start: State, s: State, id: nat, request: Request) returns (t: State)
    requires Leads(start, s) == true && s.lock == [] && s.worker.Some? && s.worker.value.job == RunJob(id, request) && s.worker.value.pc == Ask && s.c.Accepts(id)
    ensures Leads(start, t) == true && t == s.(orphan := t.orphan).Move(HaveCommitted(s.Committed()))
  {
    var op := Op(s.worker.value.wid, ForDiff);
    var u := s.(lock := [op]).Move(AwaitDiff);
    assert s.lock + [op] == [op];
    LeadsOn(start, s, OfCall(AskDiff), u);
    t := Answers(start, u);
  }

  /** Serve unreadable costs a request no more than another try. */
  lemma ReadsAgain(s: State, id: nat, request: Request) returns (t: State)
    requires s.lock == [] && s.worker.Some? && s.worker.value.job == RunJob(id, request) && s.worker.value.pc == HaveCommitted(s.Committed()) && s.c.Accepts(id)
    ensures ServeRead(s, false).Some? && Leads(ServeRead(s, false).value, t) && t == s.(orphan := t.orphan)
  {
    var u := s.Move(Ask);
    Stays(u);
    t := Asks(u, u, id, request);
  }

  /** The head of the queue starts, and its worker has read the committed version and Serve. */
  lemma Begins(s: State, entry: Entry) returns (t: State)
    requires AtRest(s) && s.c.drainer && s.c.queue != [] && entry == s.c.queue[0] && WellNamed(entry.request, s.Committed())
    ensures Leads(s, t) == true
    ensures t == s.(c := s.c.StartNext(), started := t.started, stage := Working, nextWid := t.nextWid, added := {}, orphan := t.orphan, worker := t.worker)
    ensures t.worker.Some? && t.worker.value.job == RunJob(entry.id, entry.request) &&
            t.worker.value.pc == Clear(DiffFor(s, entry.request), DiffFor(s, entry.request).leftovers)
  {
    Stays(s);
    var u := Started(s, true).value;
    Tasks(s, s, Start(true), u);
    var v := Asks(s, u, entry.id, entry.request);
    t := ServeRead(v, true).value;
    Reads(s, v, t);
  }

  /** Its worker carries the diff out up to the commit. */
  lemma Carries(start: State, s: State, diff: Diff) returns (t: State)
    requires Leads(start, s) == true && s.worker.Some? && s.worker.value.pc == Clear(diff, diff.leftovers)
    requires Run(s.gw, RequestOf(s.worker.value.job), diff, s.serve).Some?
    ensures Leads(start, t) == true && t == s.(serve := t.serve, hit := t.hit).Move(Raise(diff))
    ensures Run(s.gw, RequestOf(s.worker.value.job), diff, s.serve).value == t.serve - RetiredAfter(RequestOf(s.worker.value.job), diff)
  {
    var u := Lowers(start, s, diff);
    t := Raises(start, u, diff);
    KeepsAll(t.serve);
  }

  /** And from there on. */
  lemma Finishes(start: State, s: State, diff: Diff, id: nat, request: Request) returns (t: State)
    requires Leads(start, s) == true && s.lock == [] && s.worker.Some? && s.worker.value.job == RunJob(id, request) && s.worker.value.pc == Raise(diff)
    requires s.c.Accepts(id) && !s.c.running.value.cancelled && (diff.commits ==> diff.models.Some?) && s.stage == Working
    ensures Leads(start, t) == true && t.serve == s.serve - RetiredAfter(request, diff) && t.recovery == s.recovery && t.worker.None? && t.stage == Idle
    ensures t.stored == (if diff.commits then Some(CommitVersion(s.stored, Set(diff.models))) else s.stored)
    ensures diff.commits ==> t.c.routing.Some? && t.c.routing.value.models == diff.models
    ensures t.c.outcomes == s.c.outcomes[id := Succeeded] && t.c.queue == s.c.queue && t.c.running.None? && t.lock == []
  {
    var u := Commits(start, s, diff, id, request);
    t := Retires(start, u, diff, RetiredAfter(request, diff));
  }

  lemma Retires(start: State, s: State, diff: Diff, apps: set<App>) returns (t: State)
    requires Leads(start, s) == true && s.worker.Some? && s.worker.value.pc == Retire(diff, apps) && s.stage == Working
    ensures Leads(start, t) == true && t == s.(c := s.c.Finish(Succeeded), serve := s.serve - apps, hit := t.hit, stage := Idle, worker := None)
  {
    var u := Deletes(start, s, apps, DoneOk(diff));
    t := RunEnded(u).value;
    Tasks(start, u, RunEnd, t);
  }

  lemma Runnable(gw: string, request: Request, committed: Option<seq<Model>>, serve: map<App, ServeApp>)
    requires WellNamed(request, committed)
    ensures var diff := DiffOf(gw, request, committed, serve); Run(gw, request, diff, serve).Some? && (diff.commits ==> diff.models.Some?)
  {
    ReachesTarget(gw, request, committed, serve);
    DiffIsGood(gw, request, committed, serve);
  }

  /** From rest, nothing failing, the oldest request can come through, and leaves Serve as its diff's steps in order do. */
  lemma ComesThrough(s: State, entry: Entry) returns (t: State)
    requires AtRest(s) && s.c.Valid() && s.c.queue != [] && entry == s.c.queue[0] && WellNamed(entry.request, s.Committed())
    ensures Leads(s, t) == true && CameSo(s, entry.id, entry.request, t) == true && t.c.queue == s.c.queue[1..]
  {
    var diff := DiffFor(s, entry.request);
    Runnable(s.gw, entry.request, s.Committed(), s.serve);
    var u := Begins(s, entry);
    var v := Carries(s, u, diff);
    t := Finishes(s, v, diff, entry.id, entry.request);
  }

  lemma KeepsAll(serve: map<App, ServeApp>)
    ensures serve - {} == serve
  {
  }

  // --- A rollback ---

  /** Serve once a rollback has deleted what the committed version doesn't name and rescaled the rest. */
  function Restored(gw: string, committed: Option<seq<Model>>, serve: map<App, ServeApp>): Option<map<App, ServeApp>> {
    var diff := DiffOf(gw, Rollback(), committed, serve);
    RescaleAll(serve - diff.leftovers, diff.scaleDowns + diff.scaleUps)
  }

  /** No listed app but the committed ones is left, and those still live have the committed replica counts. */
  lemma RestoredMeans(gw: string, committed: Option<seq<Model>>, serve: map<App, ServeApp>)
    requires UniqueNames(Set(committed))
    ensures Restored(gw, committed, serve).Some?
    ensures forall a: App :: a in Restored(gw, committed, serve).value <==> a in serve && (a.Listed(gw) ==> a in Apps(gw, Set(committed)))
    ensures forall m :: m in Set(committed) && AppOf(gw, m) in serve && serve[AppOf(gw, m)].status.Live() ==>
              Rollout.Settled(gw, Restored(gw, committed, serve).value, m)
  {
    var diff := DiffOf(gw, Rollback(), committed, serve);
    RestoresStage(gw, committed, serve);
    RestoredKeys(gw, committed, serve, Restored(gw, committed, serve).value);
    forall m | m in Set(committed) && AppOf(gw, m) in serve && serve[AppOf(gw, m)].status.Live()
      ensures Rollout.Settled(gw, Restored(gw, committed, serve).value, m)
    {
      LiveUndeployed(gw, Set(committed), serve, m);
      ModelSound(gw, committed, serve, m);
      RestoredOne(gw, committed, serve, m);
    }
  }

  lemma RestoresStage(gw: string, committed: Option<seq<Model>>, serve: map<App, ServeApp>)
    requires UniqueNames(Set(committed))
    ensures Restored(gw, committed, serve).Some?
    ensures var diff := DiffOf(gw, Rollback(), committed, serve);
            RescaleStage(serve - diff.leftovers, diff.scaleDowns + diff.scaleUps, Restored(gw, committed, serve).value) == true
  {
    var diff := DiffOf(gw, Rollback(), committed, serve);
    DiffSound(gw, Rollback(), committed, serve);
    RescaleAllMeans(serve - diff.leftovers, diff.scaleDowns + diff.scaleUps);
  }

  lemma LiveUndeployed(gw: string, current: seq<Model>, serve: map<App, ServeApp>, m: Model)
    requires UniqueNames(current) && m in current && AppOf(gw, m) in serve && serve[AppOf(gw, m)].status.Live()
    ensures m !in DeploysOf(gw, serve, current, current)
  {
    NamePins(current, m, Named(current, m.name).value);
    DeploysMeans(gw, serve, current, current);
  }

  lemma ModelSound(gw: string, committed: Option<seq<Model>>, serve: map<App, ServeApp>, m: Model)
    requires UniqueNames(Set(committed)) && m in Set(committed)
    ensures SoundModel(gw, serve, DiffOf(gw, Rollback(), committed, serve), m) == true
  {
    DiffSound(gw, Rollback(), committed, serve);
  }

  lemma RestoredKeys(gw: string, committed: Option<seq<Model>>, serve: map<App, ServeApp>, restored: map<App, ServeApp>)
    requires restored.Keys == serve.Keys - LeftoversOf(gw, serve, Set(committed))
    ensures forall a: App :: a in restored <==> a in serve && (a.Listed(gw) ==> a in Apps(gw, Set(committed)))
  {
  }

  lemma RestoredOne(gw: string, committed: Option<seq<Model>>, serve: map<App, ServeApp>, m: Model)
    requires UniqueNames(Set(committed)) && m in Set(committed) && AppOf(gw, m) in serve && serve[AppOf(gw, m)].status.Live()
    requires var diff := DiffOf(gw, Rollback(), committed, serve);
             var kept, xs := serve - diff.leftovers, diff.scaleDowns + diff.scaleUps;
             SoundModel(gw, serve, diff, m) && RescaleAll(kept, xs).Some? && RescaleStage(kept, xs, RescaleAll(kept, xs).value) && m !in diff.deploys
    ensures Rollout.Settled(gw, Restored(gw, committed, serve).value, m)
  {
    var diff := DiffOf(gw, Rollback(), committed, serve);
    var app, xs := AppOf(gw, m), diff.scaleDowns + diff.scaleUps;
    assert app !in diff.leftovers;
    if x :| x in diff.scaleDowns && x.app == app {
      assert x in xs;
    }
    if x :| x in diff.scaleUps && x.app == app {
      assert x in xs;
    }
  }

  lemma Resets(start: State, s: State) returns (t: State)
    requires Leads(start, s) == true && s.lock == [] && s.worker.Some? && s.worker.value.pc.CallReset?
    ensures Leads(start, t) == true && t == s.(c := s.c.Reset(s.Committed()), orphan := t.orphan).Move(AwaitBack(s.worker.value.pc.outcome))
  {
    var wid, outcome := s.worker.value.wid, s.worker.value.pc.outcome;
    var u := s.(lock := [Op(wid, ForReset)]).Move(AwaitReset(outcome));
    assert s.lock + [Op(wid, ForReset)] == [Op(wid, ForReset)];
    CallsOut(start, s, u);
    t := Answers(start, u);
  }

  lemma AsksBack(start: State, s: State) returns (t: State)
    requires Leads(start, s) == true && s.lock == [] && s.worker.Some? && s.worker.value.pc.AskBack?
    ensures Leads(start, t) == true && t == s.(orphan := t.orphan).Move(BackCommitted(s.worker.value.pc.outcome, s.Committed()))
  {
    var wid, outcome := s.worker.value.wid, s.worker.value.pc.outcome;
    var u := s.(lock := [Op(wid, ForRollback)]).Move(AwaitRollback(outcome));
    assert s.lock + [Op(wid, ForRollback)] == [Op(wid, ForRollback)];
    CallsOut(start, s, u);
    t := Answers(start, u);
  }

  lemma MayRestore(outcome: Outcome, diff: Diff)
    ensures MayAll(Restore(outcome, diff), diff.scaleDowns + diff.scaleUps) == true
  {
  }

  /** As for a request's diff. */
  lemma ReadsBackAgain(s: State) returns (t: State)
    requires s.lock == [] && s.worker.Some? && s.worker.value.pc.BackCommitted? && s.worker.value.pc.committed == s.Committed()
    ensures ServeRead(s, false).Some? && Leads(ServeRead(s, false).value, t) && t == s.(orphan := t.orphan)
  {
    var u := s.Move(AskBack(s.worker.value.pc.outcome));
    Stays(u);
    t := AsksBack(u, u);
  }

  /** It deletes and rescales. */
  lemma Restores(start: State, s: State, outcome: Outcome, diff: Diff) returns (t: State)
    requires Leads(start, s) == true && s.worker.Some? && s.worker.value.pc == Undo(outcome, diff, diff.leftovers)
    requires RescaleAll(s.serve - diff.leftovers, diff.scaleDowns + diff.scaleUps).Some?
    ensures Leads(start, t) == true
    ensures t == s.(serve := RescaleAll(s.serve - diff.leftovers, diff.scaleDowns + diff.scaleUps).value, hit := t.hit).Move(DoneBack(outcome))
  {
    var u := Deletes(start, s, diff.leftovers, Restore(outcome, diff));
    t := ScalesBack(start, u, outcome, diff);
  }

  lemma ScalesBack(start: State, s: State, outcome: Outcome, diff: Diff) returns (t: State)
    requires Leads(start, s) == true && s.worker.Some? && s.worker.value.pc == Restore(outcome, diff)
    requires RescaleAll(s.serve, diff.scaleDowns + diff.scaleUps).Some?
    ensures Leads(start, t) == true
    ensures t == s.(serve := RescaleAll(s.serve, diff.scaleDowns + diff.scaleUps).value, hit := t.hit).Move(DoneBack(outcome))
  {
    MayRestore(outcome, diff);
    var u := Rescaled(start, s, diff.scaleDowns + diff.scaleUps);
    t := u.Move(DoneBack(outcome));
    Moves(start, u, DoneBack(outcome));
  }

  lemma Undoes(start: State, s: State) returns (t: State)
    requires Leads(start, s) == true && s.worker.Some? && s.worker.value.pc.BackCommitted? && UniqueNames(Set(s.worker.value.pc.committed))
    ensures Leads(start, t) == true && Restored(s.gw, s.worker.value.pc.committed, s.serve) == Some(t.serve)
    ensures t == s.(serve := t.serve, added := {}, hit := t.hit).Move(DoneBack(s.worker.value.pc.outcome))
  {
    var outcome, committed := s.worker.value.pc.outcome, s.worker.value.pc.committed;
    var diff := DiffOf(s.gw, Rollback(), committed, s.serve);
    var u := s.(added := {}).Move(Undo(outcome, diff, diff.leftovers));
    Reads(start, s, u);
    RestoredMeans(s.gw, committed, s.serve);
    t := Restores(start, u, outcome, diff);
  }

  /** Nothing failing, a rollback takes routing and Serve back to the committed version. */
  lemma RollsBack(start: State, s: State) returns (t: State)
    requires Leads(start, s) == true && s.lock == [] && s.worker.Some? && s.worker.value.pc.CallReset? && UniqueNames(Set(s.Committed()))
    ensures Leads(start, t) == true && Restored(s.gw, s.Committed(), s.serve) == Some(t.serve)
    ensures t == s.(c := s.c.Reset(s.Committed()), serve := t.serve, added := {}, hit := t.hit, orphan := t.orphan).Move(DoneBack(s.worker.value.pc.outcome))
  {
    var outcome := s.worker.value.pc.outcome;
    var u := Resets(start, s);
    Moves(start, u, AskBack(outcome));
    var v := AsksBack(start, u.Move(AskBack(outcome)));
    t := Undoes(start, v);
  }

  /** And the request ends. */
  lemma RollsOut(s: State) returns (t: State)
    requires s.stage == Rolling && s.c.running.Some? && s.lock == [] && s.worker.Some? && s.worker.value.pc.CallReset? && UniqueNames(Set(s.Committed()))
    ensures Leads(s, t) == true && Restored(s.gw, s.Committed(), s.serve) == Some(t.serve) && t.stored == s.stored && t.stage == Idle
    ensures t.c == s.c.Reset(s.Committed()).Finish(s.c.OutcomeAfterDeath())
  {
    Stays(s);
    var u := RollsBack(s, s);
    t := RollEnded(u).value;
    Tasks(s, u, RollEnd, t);
  }

  lemma Marks(s: State, id: nat, request: Request) returns (t: State)
    requires s.c.Runs(id) && s.worker.Some? && s.worker.value.job == RunJob(id, request) && s.worker.value.pc.CallMark?
    ensures Leads(s, t) == true && t == s.(c := s.c.MarkRollingBack(id)).Move(CallReset(s.worker.value.pc.outcome))
  {
    Stays(s);
    t := s.(c := s.c.MarkRollingBack(id)).Move(CallReset(s.worker.value.pc.outcome));
    CallsOut(s, s, t);
  }

  lemma Returns(start: State, s: State, outcome: Outcome) returns (t: State)
    requires Leads(start, s) == true && s.stage == Working && s.worker.Some? && s.worker.value.pc == DoneBack(outcome)
    ensures Leads(start, t) == true && t == s.(c := s.c.Finish(outcome), stage := Idle, worker := None)
  {
    t := RunEnded(s).value;
    Tasks(start, s, RunEnd, t);
  }

  lemma OwnJob(s: State, id: nat)
    requires Reachable(s) && s.stage == Working && s.c.Runs(id) && s.worker.Some?
    ensures s.worker.value.job == RunJob(id, s.c.running.value.request) && UniqueNames(Set(s.Committed())) == true
  {
    ReachableInv(s);
  }

  /** A worker that backs out, as cancelled or failed, can roll back by itself, and its request comes out so. */
  lemma BacksOut(s: State, id: nat) returns (t: State)
    requires Reachable(s) && s.stage == Working && s.c.Runs(id) && s.lock == [] && s.worker.Some? && s.worker.value.pc.CallMark?
    ensures Leads(s, t) == true && Restored(s.gw, s.Committed(), s.serve) == Some(t.serve) && t.stored == s.stored && t.stage == Idle
    ensures t.c == s.c.MarkRollingBack(id).Reset(s.Committed()).Finish(s.worker.value.pc.outcome)
  {
    OwnJob(s, id);
    var u := Marks(s, id, s.c.running.value.request);
    var v := RollsBack(s, u);
    t := Returns(s, v, s.worker.value.pc.outcome);
  }

  // --- Coming to rest ---

  predicate Kept(s: State, t: State) { t.gw == s.gw && t.serve == s.serve && t.stored == s.stored && t.c.nextId == s.c.nextId }

  /** A run can go on from *s* to *t*, leaving Serve's apps and the version store alone. */
  ghost predicate Settles(s: State, t: State) {
    Reachable(t) && Kept(s, t) && GoesOn(s, t)
  }

  lemma SettlesOn(start: State, s: State, a: Act, t: State)
    requires Settles(start, s) && Apply(s, a) == Some(t) && Kept(s, t)
    ensures Settles(start, t) == true
  {
    StepOn(start, s, a, t);
    ReachableStep(s, a, t);
  }

  /** The worker dies. */
  lemma Quits(s: State) returns (t: State)
    requires Reachable(s)
    ensures Settles(s, t) == true && t == s.(worker := None)
  {
    Stays(s);
    t := s.(worker := None);
    if s.worker.Some? {
      SettlesOn(s, s, OfCall(Die(None)), t);
    } else {
      assert t == s;
    }
  }

  /** And what it ran ends. */
  lemma Ends(start: State, s: State) returns (t: State)
    requires Settles(start, s) == true && s.worker.None?
    ensures Settles(start, t) == true && t.stage == Idle && t.recovery == Over && t.worker.None? && t.c.running.None?
  {
    ReachableInv(s);
    var k := if s.recovery == Unstarted then RecoverStart(false) else if s.stage == Recovering then RecoverEnd
             else if s.stage == Working then Notice(false) else RollEnd;
    t := s;
    if s.recovery == Unstarted || s.stage != Idle {
      t := ApplyTask(s, k).value;
      SettlesOn(start, s, OfTask(k), t);
    }
  }

  /** The queued requests fail for want of a worker. */
  lemma EmptiesQueue(start: State, s: State) returns (t: State)
    requires Settles(start, s) == true && s.stage == Idle && s.recovery == Over && s.worker.None? && s.c.running.None?
    ensures Settles(start, t) == true && t.stage == Idle && t.recovery == Over && t.worker.None? && t.c.running.None? && t.c.queue == []
    decreases |s.c.queue|
  {
    t := s;
    if s.c.queue != [] {
      ReachableInv(s);
      var u := Started(s, false).value;
      SettlesOn(start, s, OfTask(Start(false)), u);
      t := EmptiesQueue(start, u);
    }
  }

  /** What waits for the version lock fails. */
  lemma EmptiesLock(start: State, s: State) returns (t: State)
    requires Settles(start, s) == true && s.worker.None?
    ensures Settles(start, t) == true && t.lock == [] && t.c == s.c && t.worker.None? && t.stage == s.stage && t.recovery == s.recovery
    decreases |s.lock|
  {
    t := s;
    if s.lock != [] {
      var u := s.(lock := s.lock[1..], orphan := Answered(s, false));
      assert LockStep(s, false, false) == Some(s.(lock := s.lock[1..]));
      SettlesOn(start, s, OfCall(LockDone(false, false)), u);
      t := EmptiesLock(start, u);
    }
  }

  /** Wherever a run has come, the gateway can be at rest again with Serve and the store as they are, and then any request whose
      names are sound, once submitted, can come through with nothing failing. */
  lemma NeverStuck(s: State, request: Request) returns (rest: State, t: State)
    requires Reachable(s) && WellNamed(request, s.Committed())
    ensures Settles(s, rest) && AtRest(rest) && rest.c.queue == []
    ensures Leads(Submitted(rest, request), t) && CameSo(Submitted(rest, request), rest.c.nextId, request, t)
  {
    var u := Quits(s);
    u := Ends(s, u);
    var v := EmptiesQueue(s, u);
    rest := EmptiesLock(s, v);
    ReachableInv(rest);
    SubmitValid(rest.c, request);
    t := ComesThrough(Submitted(rest, request), Submitted(rest, request).c.queue[0]);
  }

  /** A dead worker's request rolls back. */
  lemma Rolls(start: State, s: State) returns (t: State)
    requires Settles(start, s) == true && s.worker.None? && s.stage == Working
    ensures Settles(start, t) == true && t.stage == Rolling && t.worker.Some? && t.worker.value.pc.CallReset? && t.c == s.c.NoticeDeath() && t.lock == s.lock
  {
    t := Noticed(s, true).value;
    SettlesOn(start, s, OfTask(Notice(true)), t);
  }

  /** And wherever a request runs, it can be ended by a rollback that completes, whatever waits for the lock failing first. */
  lemma CanRollBack(s: State, id: nat) returns (rest: State, t: State)
    requires Reachable(s) && s.stage == Working && s.c.Runs(id)
    ensures Settles(s, rest) == true && Leads(rest, t) == true && t.stage == Idle
    ensures t.c.routing.Some? && t.c.routing.value.models == s.Committed() && t.stored == s.stored && Restored(s.gw, s.Committed(), s.serve) == Some(t.serve)
    ensures id in t.c.outcomes && t.c.queue == s.c.queue
  {
    var u := Quits(s);
    var v := EmptiesLock(s, u);
    rest := Rolls(s, v);
    ReachableInv(rest);
    t := RollsOut(rest);
  }

  /** So the gateway's apps can always be taken to what a request asks for. */
  lemma AlwaysReaches(s: State, request: Request) returns (t: State)
    requires Reachable(s) && WellNamed(request, s.Committed())
    ensures GoesOn(s, t) && s.c.nextId in t.c.outcomes && t.c.outcomes[s.c.nextId] == Succeeded
    ensures forall a: App :: a.Listed(s.gw) ==> (a in t.serve <==> Targeted(s.gw, request, s.Committed(), s.serve, a))
    ensures forall m :: m in Wanted(request, s.Committed()) ==> Rollout.Settled(s.gw, t.serve, m)
  {
    var rest;
    rest, t := NeverStuck(s, request);
    ReachesTarget(s.gw, request, s.Committed(), s.serve);
    StepOn(s, rest, FromOutside(Submit(request)), Submitted(rest, request));
    GoesFurther(s, Submitted(rest, request), t);
  }
}
