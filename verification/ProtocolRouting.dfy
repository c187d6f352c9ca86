/** Over every run: what a gateway is routed by, and under which seq. */
module DeployProtocolRouting {
  import opened Wrappers
  import opened AppNames
  import opened Ledger
  import opened DeployDiff
  import opened Coordinator
  import opened DeployProtocol
  import opened DeployProtocolProofs
  import opened DeployProtocolTheorems

  // --- A gateway with no routing yet ---

  /** No write waits, no commit can be let through, and what was read of the committed version still is it. */
  ghost predicate Fresh(s: State) {
    s.c.routing.None? ==>
      !WriteWaits(s.lock) && (s.lazy.Some? ==> s.lazy.value == s.Committed()) &&
      forall call :: call in s.strays && call.CCommit? ==> !RunsIn(s.c.running, call.id)
  }

  /** A step that keeps all of that: it queues and stores no write, adds no commit, and starts no request of one. */
  ghost predicate Settled(s: State, t: State) {
    t.c.routing.None? ==>
      s.c.routing.None? && (WriteWaits(t.lock) ==> WriteWaits(s.lock)) && t.stored == s.stored && (t.lazy == s.lazy || t.lazy == Some(s.Committed())) &&
      (forall call :: call in t.strays && call.CCommit? ==> call in s.strays) &&
      (t.c.running.Some? ==> RunsIn(s.c.running, t.c.running.value.id) || InQueue(s.c.queue, t.c.running.value.id))
  }

  lemma SettledFresh(s: State, t: State)
    requires Settled(s, t) && Fresh(s) && CallsInv(s) == true
    ensures Fresh(t) == true
  {
    if t.c.routing.None? {
      forall call | call in t.strays && call.CCommit?
        ensures !RunsIn(t.c.running, call.id)
      {
        assert call in s.strays && !InQueue(s.c.queue, call.id);
      }
    }
  }

  lemma OutsideSettled(s: State, o: Outside, t: State)
    requires ApplyOutside(s, o) == Some(t) && !o.Restart?
    ensures Settled(s, t) == true
  {
  }

  lemma RestartFresh(s: State, clock: nat, landed: bool)
    requires Restarted(s, clock, landed).Some?
    ensures Fresh(Restarted(s, clock, landed).value) == true
  {
  }

  lemma EventSettled(s: State, e: Event, t: State)
    requires ApplyEvent(s, e) == Some(t)
    ensures Settled(s, t) == true
  {
  }

  lemma TaskSettled(s: State, k: Task, t: State)
    requires ApplyTask(s, k) == Some(t)
    ensures Settled(s, t) == true
  {
  }

  lemma ChangeSettled(s: State, c: Change, t: State)
    requires ApplyChange(s, c) == Some(t)
    ensures Settled(s, t) == true
  {
  }

  lemma ReadSettled(s: State, readable: bool)
    requires s.worker.Some? && ServeRead(s, readable).Some?
    ensures Settled(s, ServeRead(s, readable).value) == true
  {
  }

  lemma WorkSettled(s: State, w: Work, t: State)
    requires ApplyWork(s, w) == Some(t)
    ensures Settled(s, t) == true
  {
    if w.ReadServe? {
      ReadSettled(s, w.readable);
    }
  }

  lemma JoinsWaits(lock: seq<Op>, op: Op)
    requires !IsWrite(op)
    ensures WriteWaits(lock + [op]) ==> WriteWaits(lock)
  {
    if WriteWaits(lock + [op]) {
      var i :| 0 <= i < |lock + [op]| && IsWrite((lock + [op])[i]);
      assert lock[i] == (lock + [op])[i];
    }
  }

  lemma LeavesWaits(lock: seq<Op>)
    requires lock != []
    ensures WriteWaits(lock[1..]) ==> WriteWaits(lock)
  {
    if WriteWaits(lock[1..]) {
      var i :| 0 <= i < |lock[1..]| && IsWrite(lock[1..][i]);
      assert IsWrite(lock[i + 1]);
    }
  }

  lemma LoneSettled(s: State, l: Lone, t: State)
    requires ApplyLone(s, l) == Some(t) && (s.orphan.Some? ==> !s.orphan.value.job.RunJob?)
    ensures Settled(s, t) == true
  {
    if s.orphan.Some? {
      JoinsWaits(s.lock, Op(s.orphan.value.wid, ForReset));
      JoinsWaits(s.lock, Op(s.orphan.value.wid, ForRollback));
    }
  }

  lemma LockSettled(s: State, ok: bool, landed: bool)
    requires s.lock != [] && LockStep(s, ok, landed).Some? && Fresh(s)
    ensures Settled(s, LockStep(s, ok, landed).value) == true
  {
    LeavesWaits(s.lock);
    assert s.lock[0].kind.ForWrite? ==> IsWrite(s.lock[0]);
  }

  lemma DeliverSettled(s: State, call: Call)
    requires call in s.strays && Fresh(s)
    ensures Settled(s, Delivered(s, call)) == true
  {
    if call.CReset? {
      JoinsWaits(s.lock, Op(call.wid, ForReset));
    }
  }

  /** A worker past its switch has a routing. */
  lemma SwitchedRouted(s: State)
    requires WorkerInv(s) == true && s.worker.Some? && s.worker.value.pc.Switched()
    ensures s.c.routing.Some?
  {
  }

  lemma CalledSettled(s: State)
    requires s.worker.Some? && Called(s).Some? && (s.worker.value.pc.CallCommit? ==> s.c.routing.Some?)
    ensures Settled(s, Called(s).value) == true
  {
    JoinsWaits(s.lock, Op(s.worker.value.wid, ForReset));
    JoinsWaits(s.lock, Op(s.worker.value.wid, ForRollback));
  }

  lemma DiedSettled(s: State, sent: Option<Call>)
    requires Died(s, sent).Some? && (s.worker.value.pc.CallCommit? ==> s.c.routing.Some?)
    ensures Settled(s, Died(s, sent).value) == true
  {
  }

  lemma LandSettled(s: State, late: Late)
    ensures Settled(s, Landed(s, late)) == true
  {
  }

  lemma CallSettled(s: State, d: Dealing, t: State)
    requires ApplyCall(s, d) == Some(t) && Inv(s) == true && Fresh(s)
    ensures Settled(s, t) == true
  {
    if s.worker.Some? && s.worker.value.pc.CallCommit? {
      SwitchedRouted(s);
    }
    match d
    case LockDone(ok, landed) => LockSettled(s, ok, landed);
    case Deliver(call) => DeliverSettled(s, call);
    case CallOut => CalledSettled(s);
    case AskDiff => JoinsWaits(s.lock, Op(s.worker.value.wid, ForDiff));
    case Die(sent) => DiedSettled(s, sent);
    case DieCalling(late) =>
    case Land(late) => LandSettled(s, late);
  }

  lemma StepFresh(s: State, a: Act, t: State)
    requires Apply(s, a) == Some(t) && Inv(s) == true && OrphanOk(s) && Fresh(s) == true
    ensures Fresh(t) == true
  {
    if a.FromOutside? && a.outside.Restart? {
      RestartFresh(s, a.outside.clock, a.outside.landed);
    } else {
      StepSettled(s, a, t);
      SettledFresh(s, t);
    }
  }

  lemma StepSettled(s: State, a: Act, t: State)
    requires Apply(s, a) == Some(t) && Inv(s) == true && OrphanOk(s) && Fresh(s) == true && !(a.FromOutside? && a.outside.Restart?)
    ensures Settled(s, t) == true
  {
    match a
    case FromOutside(o) => OutsideSettled(s, o, t);
    case OfServe(e) => EventSettled(s, e, t);
    case OfTask(k) => TaskSettled(s, k, t);
    case OfCall(d) => CallSettled(s, d, t);
    case OfWorker(w) => WorkSettled(s, w, t);
    case OnServe(c) => ChangeSettled(s, c, t);
    case OfOrphan(l) => LoneSettled(s, l, t);
  }

  lemma {:induction false} RunFresh(states: seq<State>, acts: seq<Act>, n: nat)
    requires IsRun(states, acts) && n <= |acts|
    ensures Fresh(states[n]) == true
  {
    if n > 0 {
      RunKeeps(states, acts, n - 1);
      RunFresh(states, acts, n - 1);
      StepFresh(states[n - 1], acts[n - 1], states[n]);
    }
  }

  // --- Every routing version ---

  /** The models a step switches the gateway to: those of a live worker's call, or of a dead one's. */
  predicate Switches(s: State, a: Act, models: Option<seq<Model>>) {
    (a == OfCall(CallOut) && s.worker.Some? && s.worker.value.pc.CallSwitch? && models == s.worker.value.pc.diff.models) ||
    (a.OfCall? && a.dealing.Deliver? && a.dealing.call.CSwitch? && models == Some(a.dealing.call.models))
  }

  /** After a step the routing is as it was, or gone with a restart, or new: under a seq past every one given out before, by
      *committed* or by the models the step switches to. */
  ghost predicate Rerouted(s: State, a: Act, t: State) {
    s.c.seqNo <= t.c.seqNo &&
    (t.c.routing == s.c.routing || t.c.routing.None? ||
     (s.c.seqNo < t.c.routing.value.seqNo == t.c.seqNo &&
      (t.c.routing.value.models == s.Committed() || Switches(s, a, t.c.routing.value.models))))
  }

  lemma OutsideReroutes(s: State, o: Outside, t: State)
    requires ApplyOutside(s, o) == Some(t) && Fresh(s)
    ensures Rerouted(s, FromOutside(o), t) == true
  {
  }

  lemma TaskReroutes(s: State, k: Task, t: State)
    requires ApplyTask(s, k) == Some(t)
    ensures Rerouted(s, OfTask(k), t) == true
  {
  }

  lemma LockReroutes(s: State, ok: bool, landed: bool)
    requires s.lock != [] && LockStep(s, ok, landed).Some?
    ensures Rerouted(s, OfCall(LockDone(ok, landed)), LockStep(s, ok, landed).value) == true
  {
  }

  lemma DeliverReroutes(s: State, call: Call)
    ensures Rerouted(s, OfCall(Deliver(call)), Delivered(s, call)) == true
  {
  }

  lemma CalledReroutes(s: State)
    requires s.worker.Some? && Called(s).Some?
    ensures Rerouted(s, OfCall(CallOut), Called(s).value) == true
  {
  }

  lemma LandReroutes(s: State, late: Late)
    ensures Rerouted(s, OfCall(Land(late)), Landed(s, late)) == true
  {
  }

  lemma CallReroutes(s: State, d: Dealing, t: State)
    requires ApplyCall(s, d) == Some(t)
    ensures Rerouted(s, OfCall(d), t) == true
  {
    match d
    case LockDone(ok, landed) => LockReroutes(s, ok, landed);
    case Deliver(call) => DeliverReroutes(s, call);
    case CallOut => CalledReroutes(s);
    case Land(late) => LandReroutes(s, late);
    case _ =>
  }

  lemma WorkReroutes(s: State, w: Work, t: State)
    requires ApplyWork(s, w) == Some(t)
    ensures Rerouted(s, OfWorker(w), t) == true
  {
  }

  lemma ServeReroutes(s: State, a: Act, t: State)
    requires (a.OfServe? || a.OnServe? || a.OfOrphan?) && Apply(s, a) == Some(t)
    ensures Rerouted(s, a, t) == true
  {
  }

  /** Whatever happens, a gateway is routed anew only by its committed version or by the models of a switch let through, each time
      under a seq past all those given out before. */
  lemma RoutedAnew(s: State, a: Act, t: State)
    requires Apply(s, a) == Some(t) && Reachable(s)
    ensures Rerouted(s, a, t)
  {
    var states, acts :| IsRun(states, acts) && states[|acts|] == s;
    RunFresh(states, acts, |acts|);
    match a
    case FromOutside(o) => OutsideReroutes(s, o, t);
    case OfTask(k) => TaskReroutes(s, k, t);
    case OfCall(d) => CallReroutes(s, d, t);
    case OfWorker(w) => WorkReroutes(s, w, t);
    case _ => ServeReroutes(s, a, t);
  }

  /** The first answer to who asks for a gateway's routing: it is routed by its committed version from then on, if it wasn't yet. */
  lemma RoutedOnRequest(s: State, t: State)
    requires Apply(s, FromOutside(LazySet)) == Some(t) && Reachable(s)
    ensures t.c.routing.Some? && (s.c.routing.Some? ==> t.c.routing == s.c.routing) && (s.c.routing.None? ==> t.c.routing.value.models == s.Committed())
  {
    var states, acts :| IsRun(states, acts) && states[|acts|] == s;
    RunFresh(states, acts, |acts|);
  }

  // --- What a worker puts up ---

  /** An app submitted or rescaled is put up with the replica counts its model asks for, and no other app is touched. */
  lemma PutUp(s: State, t: State, app: App, scaling: Scaling)
    requires (exists m :: AppSubmitted(s, m) == Some(t) && app == AppOf(s.gw, m) && scaling == m.scaling) ||
             (exists x :: AppRescaled(s, x) == Some(t) && app == x.app && scaling == x.scaling)
    ensures app in t.serve && t.serve[app].status == Deploying && t.serve[app].scaling == Some(ServeScaling(scaling))
    ensures forall other :: other != app ==> (other in t.serve <==> other in s.serve) && (other in s.serve ==> t.serve[other] == s.serve[other])
  {
  }
}
