/** Over every run: whether what a request came out as says truly if its version was written, then and ever after. */
module DeployProtocolOutcome {
  import opened Wrappers
  import opened Ledger
  import opened DeployDiff
  import opened Coordinator
  import opened DeployProtocol
  import opened DeployProtocolProofs
  import opened DeployProtocolTheorems

  ghost predicate Stores(writes: seq<(nat, seq<Model>)>, id: nat) { exists k :: 0 <= k < |writes| && writes[k].0 == id }

  /** The request's version is written. */
  ghost predicate Wrote(s: State, id: nat) { Stores(s.writes, id) }

  predicate WritesFor(op: Op, id: nat) { op.kind.ForWrite? && op.kind.id == id }

  ghost predicate Queues(lock: seq<Op>, id: nat) { exists i :: 0 <= i < |lock| && WritesFor(lock[i], id) }

  /** Its write waits for the version lock. */
  ghost predicate WriteWaiting(s: State, id: nat) { Queues(s.lock, id) }

  lemma StoresMore(writes: seq<(nat, seq<Model>)>, id: nat, last: (nat, seq<Model>))
    ensures Stores(writes + [last], id) <==> Stores(writes, id) || last.0 == id
  {
    var more := writes + [last];
    assert more[|writes|] == last && forall k :: 0 <= k < |writes| ==> more[k] == writes[k];
  }

  lemma QueuesMore(lock: seq<Op>, id: nat, op: Op)
    ensures Queues(lock + [op], id) <==> Queues(lock, id) || WritesFor(op, id)
  {
    var more := lock + [op];
    assert more[|lock|] == op && forall i :: 0 <= i < |lock| ==> more[i] == lock[i];
  }

  lemma QueuesTail(lock: seq<Op>, id: nat)
    requires lock != []
    ensures Queues(lock, id) <==> WritesFor(lock[0], id) || Queues(lock[1..], id)
  {
    var tail := lock[1..];
    assert forall i :: 0 <= i < |tail| ==> tail[i] == lock[i + 1];
    assert forall i :: 0 < i < |lock| ==> lock[i] == tail[i - 1];
  }

  /** The request came out, and as succeeded exactly when it has written its version. */
  ghost predicate Agrees(s: State, id: nat) { id in s.c.outcomes && (s.c.outcomes[id] == Succeeded <==> Wrote(s, id)) }

  /** The request's write is stored, and its store call raises all the same. */
  ghost predicate RaisesStored(s: State, a: Act, id: nat) {
    a == OfCall(LockDone(false, true)) && s.lock != [] && WritesFor(s.lock[0], id)
  }

  ghost predicate Raised(states: seq<State>, acts: seq<Act>, n: nat, id: nat)
    requires n <= |acts| <= |states|
  {
    exists j :: 0 <= j < n && RaisesStored(states[j], acts[j], id)
  }

  // --- What a step does to a request's write and phase ---

  /** Running, and not committing yet. */
  predicate Uncommitted(s: State, id: nat) { s.c.Runs(id) && (s.c.running.value.phase == Applying || s.c.running.value.phase == Switching) }

  predicate RetiringNow(s: State, id: nat) { s.c.Runs(id) && s.c.running.value.phase == Retiring }

  /** A step that isn't the end of the request's write: it stores none, queues one only of a request not committing yet,
      and neither begins nor ends its last phase, except with its run. */
  ghost predicate Steady(s: State, t: State, id: nat) {
    (Wrote(t, id) <==> Wrote(s, id)) && (WriteWaiting(t, id) ==> WriteWaiting(s, id) || Uncommitted(s, id)) &&
    (t.c.Runs(id) ==> if s.c.Runs(id) then RetiringNow(t, id) <==> RetiringNow(s, id) else !RetiringNow(t, id) && InQueue(s.c.queue, id))
  }

  lemma OutsideSteady(s: State, o: Outside, t: State, id: nat)
    requires ApplyOutside(s, o) == Some(t) && !o.Restart?
    ensures Steady(s, t, id) == true
  {
  }

  lemma TaskSteady(s: State, k: Task, t: State, id: nat)
    requires ApplyTask(s, k) == Some(t) && s.c.Valid()
    ensures Steady(s, t, id) == true
  {
  }

  lemma WorkSteady(s: State, w: Work, t: State, id: nat)
    requires ApplyWork(s, w) == Some(t)
    ensures Steady(s, t, id) == true
  {
  }

  lemma EventSteady(s: State, e: Event, t: State, id: nat)
    requires ApplyEvent(s, e) == Some(t)
    ensures Steady(s, t, id) == true
  {
  }

  lemma ChangeSteady(s: State, c: Change, t: State, id: nat)
    requires ApplyChange(s, c) == Some(t)
    ensures Steady(s, t, id) == true
  {
  }

  lemma LoneSteady(s: State, l: Lone, t: State, id: nat)
    requires ApplyLone(s, l) == Some(t)
    ensures Steady(s, t, id) == true
  {
  }

  lemma LandSteady(s: State, late: Late, id: nat)
    ensures Steady(s, Landed(s, late), id) == true
  {
  }

  lemma DeliverSteady(s: State, call: Call, id: nat)
    requires Inv(s) == true && call in s.strays
    ensures Steady(s, Delivered(s, call), id) == true
  {
  }

  lemma CallsOutSteady(s: State, id: nat)
    requires s.worker.Some? && Called(s).Some? && !s.worker.value.pc.CallCommit?
    requires s.worker.value.job.RunJob? && (s.worker.value.pc.CallMark? || s.worker.value.pc.CallSwitch?) ==> !RetiringNow(s, s.worker.value.job.id)
    ensures Steady(s, Called(s).value, id) == true
  {
    var op := Op(s.worker.value.wid, ForReset);
    QueuesMore(s.lock, id, op);
    QueuesMore(s.lock, id, op.(kind := ForRollback));
  }

  lemma CommitsSteady(s: State, id: nat)
    requires s.worker.Some? && Called(s).Some? && s.worker.value.pc.CallCommit?
    requires s.worker.value.job.RunJob? && s.c.Runs(s.worker.value.job.id) ==> Uncommitted(s, s.worker.value.job.id)
    ensures Steady(s, Called(s).value, id) == true
  {
    var w := s.worker.value;
    if w.pc.diff.models.Some? && w.job.RunJob? {
      QueuesMore(s.lock, id, Op(w.wid, ForWrite(w.job.id, w.pc.diff.models.value)));
    }
  }

  lemma CallerPhase(s: State)
    requires Inv(s) == true && s.worker.Some? && s.worker.value.job.RunJob?
    ensures s.worker.value.pc.CallMark? || s.worker.value.pc.CallSwitch? ==> !RetiringNow(s, s.worker.value.job.id)
    ensures s.worker.value.pc.CallCommit? ==> Uncommitted(s, s.worker.value.job.id)
  {
  }

  lemma CalledSteady(s: State, id: nat)
    requires Inv(s) == true && s.worker.Some? && Called(s).Some?
    ensures Steady(s, Called(s).value, id) == true
  {
    if s.worker.value.job.RunJob? {
      CallerPhase(s);
    }
    if s.worker.value.pc.CallCommit? {
      CommitsSteady(s, id);
    } else {
      CallsOutSteady(s, id);
    }
  }

  /** The lock's head is done, and isn't the request's write. */
  lemma LockSteady(s: State, ok: bool, landed: bool, id: nat)
    requires s.lock != [] && LockStep(s, ok, landed).Some? && !WritesFor(s.lock[0], id)
    ensures Steady(s, LockStep(s, ok, landed).value, id) == true
  {
    QueuesTail(s.lock, id);
    if s.lock[0].kind.ForWrite? {
      WriteSteady(s, ok, landed, id);
    }
  }

  lemma WriteSteady(s: State, ok: bool, landed: bool, id: nat)
    requires s.lock != [] && s.lock[0].kind.ForWrite? && LockStep(s, ok, landed).Some? && !WritesFor(s.lock[0], id)
    ensures Steady(s, LockStep(s, ok, landed).value, id) == true
  {
    QueuesTail(s.lock, id);
    StoresMore(s.writes, id, (s.lock[0].kind.id, s.lock[0].kind.models));
  }

  lemma CallSteady(s: State, d: Dealing, t: State, id: nat)
    requires ApplyCall(s, d) == Some(t) && Inv(s) == true && (d.LockDone? ==> !WritesFor(s.lock[0], id))
    ensures Steady(s, t, id) == true
  {
    match d
    case LockDone(ok, landed) => LockSteady(s, ok, landed, id);
    case Deliver(call) => DeliverSteady(s, call, id);
    case CallOut => CalledSteady(s, id);
    case Land(late) => LandSteady(s, late, id);
    case AskDiff => QueuesMore(s.lock, id, Op(s.worker.value.wid, ForDiff));
    case _ =>
  }

  /** Every step but a restart and the end of the request's own write. */
  lemma StepSteady(s: State, a: Act, t: State, id: nat)
    requires Apply(s, a) == Some(t) && Inv(s) == true && !(a.FromOutside? && a.outside.Restart?)
    requires a.OfCall? && a.dealing.LockDone? ==> !WritesFor(s.lock[0], id)
    ensures Steady(s, t, id) == true
  {
    match a
    case FromOutside(o) => OutsideSteady(s, o, t, id);
    case OfServe(e) => EventSteady(s, e, t, id);
    case OfTask(k) => TaskSteady(s, k, t, id);
    case OfCall(d) => CallSteady(s, d, t, id);
    case OfWorker(w) => WorkSteady(s, w, t, id);
    case OnServe(c) => ChangeSteady(s, c, t, id);
    case OfOrphan(l) => LoneSteady(s, l, t, id);
  }

  // --- What a running request's phase says of its write ---

  /** A request has written or waits to, never both; while it runs, it is in its last phase exactly when it has written and
      its store call did not raise. */
  ghost predicate Truthful(s: State, id: nat, raised: bool) {
    (raised ==> Wrote(s, id)) && (Wrote(s, id) ==> !WriteWaiting(s, id)) && (s.c.Runs(id) ==> (RetiringNow(s, id) <==> Wrote(s, id) && !raised))
  }

  /** A request not committing yet, or not even running, has written nothing. */
  lemma NothingWrittenYet(s: State, id: nat)
    requires QueueInv(s) == true
    ensures Uncommitted(s, id) || InQueue(s.c.queue, id) ==> !Wrote(s, id)
  {
  }

  lemma SteadyTruthful(s: State, t: State, id: nat, raised: bool)
    requires Steady(s, t, id) && Inv(s) == true && Truthful(s, id, raised)
    ensures Truthful(t, id, raised) == true
  {
    NothingWrittenYet(s, id);
  }

  /** No other write of the request waits behind its first. */
  lemma OnlyWrite(s: State, id: nat)
    requires CallsInv(s) == true && s.lock != [] && WritesFor(s.lock[0], id)
    ensures WriteWaiting(s, id) && !Queues(s.lock[1..], id) && (s.c.Runs(id) ==> s.c.running.value.phase == Committing)
  {
    assert IsWrite(s.lock[0]);
    forall i | 0 <= i < |s.lock[1..]|
      ensures !WritesFor(s.lock[1..][i], id)
    {
      assert !IsWrite(s.lock[i + 1]);
    }
  }

  lemma WriteTruthful(s: State, ok: bool, landed: bool, id: nat)
    requires Inv(s) == true && Truthful(s, id, false) && s.lock != [] && WritesFor(s.lock[0], id) && LockStep(s, ok, landed).Some?
    ensures Truthful(LockStep(s, ok, landed).value, id, !ok && landed) == true
  {
    OnlyWrite(s, id);
    StoresMore(s.writes, id, (s.lock[0].kind.id, s.lock[0].kind.models));
  }

  lemma RestartTruthful(s: State, clock: nat, landed: bool, id: nat, raised: bool)
    requires Inv(s) == true && Truthful(s, id, raised) && Restarted(s, clock, landed).Some?
    ensures Truthful(Restarted(s, clock, landed).value, id, raised) == true
  {
    if s.lock != [] && s.lock[0].kind.ForWrite? {
      StoresMore(s.writes, id, (s.lock[0].kind.id, s.lock[0].kind.models));
    }
  }

  lemma StepTruthful(s: State, a: Act, t: State, id: nat, raised: bool)
    requires Apply(s, a) == Some(t) && Inv(s) == true && Truthful(s, id, raised) == true
    ensures Truthful(t, id, raised || RaisesStored(s, a, id)) == true
  {
    if a.FromOutside? && a.outside.Restart? {
      RestartTruthful(s, a.outside.clock, a.outside.landed, id, raised);
    } else if a.OfCall? && a.dealing.LockDone? && WritesFor(s.lock[0], id) {
      OnlyWrite(s, id);
      WriteTruthful(s, a.dealing.ok, a.dealing.landed, id);
    } else {
      StepSteady(s, a, t, id);
      SteadyTruthful(s, t, id, raised);
    }
  }

  lemma {:induction false} RunTruthful(states: seq<State>, acts: seq<Act>, n: nat, id: nat)
    requires IsRun(states, acts) && n <= |acts|
    ensures Truthful(states[n], id, Raised(states, acts, n, id)) == true
  {
    if n > 0 {
      RunKeeps(states, acts, n - 1);
      RunTruthful(states, acts, n - 1, id);
      StepTruthful(states[n - 1], acts[n - 1], states[n], id, Raised(states, acts, n - 1, id));
      assert Raised(states, acts, n, id) <==> Raised(states, acts, n - 1, id) || RaisesStored(states[n - 1], acts[n - 1], id);
    }
  }

  // --- What a request comes out as ---

  /** The step that ends a started request's run, its worker's or the rollback's end, with a diff to commit if it came through. */
  ghost predicate Ends(s: State, a: Act, id: nat) {
    s.c.Runs(id) && a.OfTask? &&
    ((a.task.RunEnd? && (s.worker.Some? && s.worker.value.pc.DoneOk? ==> s.worker.value.pc.diff.commits)) || a.task.RollEnd?)
  }

  lemma EndTells(s: State, a: Act, t: State, id: nat)
    requires Apply(s, a) == Some(t) && Inv(s) == true && Ends(s, a, id)
    ensures id in t.c.outcomes && (t.c.outcomes[id] == Succeeded <==> RetiringNow(s, id)) && t.writes == s.writes && t.lock == s.lock
  {
    if a.task.RunEnd? {
      assert s.worker.value.job == RunJob(id, s.c.running.value.request);
      assert Phased(s.c.running, s.worker.value);
    }
  }

  /** A request comes out as succeeded exactly when its version is written, unless its store call raised with the write
      stored: then it does not, though its version is written. */
  lemma EndAgrees(states: seq<State>, acts: seq<Act>, n: nat, id: nat)
    requires IsRun(states, acts) && n < |acts| && Ends(states[n], acts[n], id)
    ensures Agrees(states[n + 1], id) <==> !Raised(states, acts, n, id)
    ensures id in states[n + 1].c.outcomes
  {
    RunKeeps(states, acts, n);
    RunTruthful(states, acts, n, id);
    EndTells(states[n], acts[n], states[n + 1], id);
  }

  /** A request whose rollback can't be begun comes out as failed, written or not. */
  lemma UnrolledAgrees(s: State, t: State, id: nat)
    requires Apply(s, OfTask(Notice(false))) == Some(t) && s.c.Runs(id) && Reachable(s)
    ensures id in t.c.outcomes && t.c.outcomes[id] == Failed && (Agrees(t, id) <==> !Wrote(s, id))
  {
    ReachableInv(s);
  }

  /** None of the request's writes waits any more once its own worker has returned, or its rollback completed. */
  lemma NoneWaits(s: State, a: Act, t: State, id: nat)
    requires Apply(s, a) == Some(t) && Ends(s, a, id) && Reachable(s)
    requires a.task.RollEnd? ==> s.worker.Some? && s.worker.value.pc.DoneBack?
    ensures !WriteWaiting(t, id)
  {
    ReachableInv(s);
    EndTells(s, a, t, id);
    if a.task.RunEnd? {
      OwnWritesGone(s);
    } else {
      NoWriteYet(s);
    }
  }

  // --- Ever after ---

  /** *states* goes on from *s* by *acts*. */
  ghost predicate Follows(s: State, states: seq<State>, acts: seq<Act>) {
    |states| == |acts| + 1 && states[0] == s && forall i {:trigger acts[i]} :: 0 <= i < |acts| ==> Apply(states[i], acts[i]) == Some(states[i + 1])
  }

  ghost predicate AgreesEver(s: State, id: nat) {
    forall states, acts :: Follows(s, states, acts) ==> Agrees(states[|acts|], id)
  }

  lemma Settled(s: State, a: Act, t: State, id: nat)
    requires Apply(s, a) == Some(t) && Reachable(s) && id in s.c.outcomes && !WriteWaiting(s, id)
    ensures id in t.c.outcomes && t.c.outcomes[id] == s.c.outcomes[id] && !WriteWaiting(t, id) && (Wrote(t, id) <==> Wrote(s, id))
  {
    ReachableInv(s);
    OutcomeOnce(s, a, t, id);
    if a.FromOutside? && a.outside.Restart? {
      RestartSettled(s, a.outside.clock, a.outside.landed, id);
    } else {
      StepSteady(s, a, t, id);
    }
  }

  lemma RestartSettled(s: State, clock: nat, landed: bool, id: nat)
    requires Restarted(s, clock, landed).Some? && !WriteWaiting(s, id)
    ensures var t := Restarted(s, clock, landed).value;
            !WriteWaiting(t, id) && (Wrote(t, id) <==> Wrote(s, id))
  {
    if s.lock != [] && s.lock[0].kind.ForWrite? {
      StoresMore(s.writes, id, (s.lock[0].kind.id, s.lock[0].kind.models));
    }
  }

  lemma {:induction false} SettledOn(s: State, states: seq<State>, acts: seq<Act>, n: nat, id: nat)
    requires Follows(s, states, acts) && n <= |acts| && Reachable(s) && Agrees(s, id) && !WriteWaiting(s, id)
    ensures Reachable(states[n]) && Agrees(states[n], id) && !WriteWaiting(states[n], id)
  {
    if n > 0 {
      SettledOn(s, states, acts, n - 1, id);
      Settled(states[n - 1], acts[n - 1], states[n], id);
      ReachableStep(states[n - 1], acts[n - 1], states[n]);
    }
  }

  /** A waiting write can come to be stored with no request's outcome changed. */
  lemma {:induction false} WaitingLands(s: State, id: nat) returns (states: seq<State>, acts: seq<Act>)
    requires WriteWaiting(s, id)
    ensures Follows(s, states, acts) && Wrote(states[|acts|], id) && states[|acts|].c.outcomes == s.c.outcomes
    decreases |s.lock|
  {
    var d := LockDone(true, true);
    var t := LockStep(s, true, true).value.(orphan := Answered(s, true));
    CallSetsNone(s, d, t);
    QueuesTail(s.lock, id);
    if WritesFor(s.lock[0], id) {
      StoresMore(s.writes, id, (s.lock[0].kind.id, s.lock[0].kind.models));
      states, acts := [s, t], [OfCall(d)];
    } else {
      var later, calls := WaitingLands(t, id);
      states, acts := [s] + later, [OfCall(d)] + calls;
      assert forall i :: 0 < i < |acts| ==> acts[i] == calls[i - 1];
    }
  }

  /** What a request came out as says truly, for good, if its version is written: exactly when it does now and no write of
      it waits any more. */
  lemma AgreesForGood(s: State, id: nat)
    requires Reachable(s)
    ensures AgreesEver(s, id) <==> Agrees(s, id) && !WriteWaiting(s, id)
  {
    if Agrees(s, id) && !WriteWaiting(s, id) {
      forall states, acts | Follows(s, states, acts)
        ensures Agrees(states[|acts|], id)
      {
        SettledOn(s, states, acts, |acts|, id);
      }
    }
    var none := [];
    assert Follows(s, [s], none) && [s][|none|] == s;
    if Agrees(s, id) && WriteWaiting(s, id) {
      WrittenApart(s, id);
      var states, acts := WaitingLands(s, id);
      assert !Agrees(states[|acts|], id);
    }
  }

  lemma WrittenApart(s: State, id: nat)
    requires Reachable(s) && WriteWaiting(s, id)
    ensures !Wrote(s, id)
  {
    var states, acts :| IsRun(states, acts) && states[|acts|] == s;
    RunTruthful(states, acts, |acts|, id);
  }

  /** However cancels, deaths and store failures fall: what a request comes out as says truly, for good, whether its version
      is written exactly when no store call of its raised with the write stored, and no write of it was left waiting by a
      rollback that did not complete. */
  lemma OutcomeIsTrue(states: seq<State>, acts: seq<Act>, n: nat, id: nat)
    requires IsRun(states, acts) && n < |acts| && Ends(states[n], acts[n], id)
    ensures AgreesEver(states[n + 1], id) <==> !Raised(states, acts, n, id) && !WriteWaiting(states[n + 1], id)
    ensures acts[n].task.RunEnd? || (states[n].worker.Some? && states[n].worker.value.pc.DoneBack?) ==> !WriteWaiting(states[n + 1], id)
  {
    PrefixReachable(states, acts, n);
    PrefixReachable(states, acts, n + 1);
    EndAgrees(states, acts, n, id);
    AgreesForGood(states[n + 1], id);
    if acts[n].task.RunEnd? || (states[n].worker.Some? && states[n].worker.value.pc.DoneBack?) {
      NoneWaits(states[n], acts[n], states[n + 1], id);
    }
  }

  lemma PrefixReachable(states: seq<State>, acts: seq<Act>, n: nat)
    requires IsRun(states, acts) && n <= |acts|
    ensures Reachable(states[n])
  {
    var before, steps := states[..n + 1], acts[..n];
    forall i | 0 <= i < |steps|
      ensures Apply(before[i], steps[i]) == Some(before[i + 1])
    {
      assert steps[i] == acts[i];
    }
    assert IsRun(before, steps) && before[|steps|] == states[n];
  }

  /** A request whose rollback can't be begun comes out as failed: truly, for good, exactly when it has not written and
      no write of it waits. */
  lemma UnrolledIsTrue(s: State, t: State, id: nat)
    requires Apply(s, OfTask(Notice(false))) == Some(t) && s.c.Runs(id) && Reachable(s)
    ensures t.c.outcomes == s.c.outcomes[id := Failed]
    ensures AgreesEver(t, id) <==> !Wrote(s, id) && !WriteWaiting(s, id)
  {
    UnrolledAgrees(s, t, id);
    ReachableStep(s, OfTask(Notice(false)), t);
    AgreesForGood(t, id);
  }
}
