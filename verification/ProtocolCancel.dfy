/** Over every run: which cancels are taken, who is told of one, and when a request comes out as cancelled. */
module DeployProtocolCancel {
  import opened Wrappers
  import opened Ledger
  import opened DeployDiff
  import opened Coordinator
  import opened DeployProtocol
  import opened DeployProtocolProofs
  import opened DeployProtocolTheorems
  import opened DeployProtocolOutcome

  // --- Cancelling ---

  lemma QueuedIndex(c: Coord, id: nat)
    ensures c.IndexOf(id) < |c.queue| <==> InQueue(c.queue, id)
  {
  }

  lemma TakenExactly(s: State, id: nat)
    requires Inv(s) == true
    ensures s.c.CancelAccepted(id) ==> id in s.accepted || InQueue(s.c.queue, id) || Uncommitted(s, id)
    ensures InQueue(s.c.queue, id) || Uncommitted(s, id) ==> s.c.CancelAccepted(id)
    ensures InQueue(s.c.queue, id) ==> !s.c.Runs(id)
  {
    QueuedIndex(s.c, id);
  }

  /** A cancel is taken exactly of a request that waits, or runs and neither commits, retires nor rolls back yet; and again of
      one whose cancel was taken. */
  lemma CancelTaken(s: State, id: nat, t: State)
    requires Apply(s, FromOutside(Cancel(id))) == Some(t) && Reachable(s)
    ensures id in t.accepted <==> id in s.accepted || InQueue(s.c.queue, id) || Uncommitted(s, id)
  {
    ReachableInv(s);
    TakenExactly(s, id);
  }

  /** A request that waited comes out as cancelled at once; one that runs goes on, flagged if its cancel was taken; and a cancel
      of any other changes nothing. */
  lemma CancelEffect(s: State, id: nat, t: State)
    requires Apply(s, FromOutside(Cancel(id))) == Some(t) && Reachable(s)
    ensures InQueue(s.c.queue, id) ==> !InQueue(t.c.queue, id) && t.c.outcomes == s.c.outcomes[id := Cancelled]
    ensures s.c.Runs(id) ==> t.c.Runs(id) && t.c.outcomes == s.c.outcomes && (t.c.running.value.cancelled <==> id in t.accepted)
    ensures !InQueue(s.c.queue, id) && !s.c.Runs(id) ==> t.c == s.c
  {
    ReachableInv(s);
    ReachableStep(s, FromOutside(Cancel(id)), t);
    ReachableInv(t);
    TakenExactly(s, id);
    QueuedIndex(s.c, id);
    if InQueue(s.c.queue, id) {
      Dequeued(s.c, id);
    }
  }

  lemma Dequeued(c: Coord, id: nat)
    requires c.Valid() && InQueue(c.queue, id)
    ensures !InQueue(c.Cancel(id).queue, id) && c.Cancel(id).outcomes == c.outcomes[id := Cancelled]
  {
    QueuedIndex(c, id);
    var i := c.IndexOf(id);
    var rest := c.queue[..i] + c.queue[i + 1..];
    forall j | 0 <= j < |rest|
      ensures rest[j].id != id
    {
      assert rest[j] == c.queue[if j < i then j else j + 1];
    }
  }

  /** The running request counts as cancelled exactly once its cancel was taken; one that doesn't run always does. */
  lemma CancelTold(s: State, id: nat)
    requires Reachable(s)
    ensures s.c.ToldCancelled(id) <==> (s.c.Runs(id) ==> id in s.accepted)
  {
    ReachableInv(s);
  }

  /** A worker that polls is told exactly then. */
  lemma CancelHeard(s: State)
    requires Reachable(s) && s.worker.Some? && s.worker.value.job.RunJob? && s.worker.value.pc.Polls()
    ensures CancelSeen(s).Some? <==> s.worker.value.job.id in s.accepted
    ensures CancelSeen(s).Some? ==>
              CancelSeen(s).value.worker == Some(s.worker.value.(pc := CallMark(Cancelled))) &&
              CancelSeen(s).value.c.Runs(s.worker.value.job.id) && CancelSeen(s).value.c.running.value.cancelSeen
  {
    ReachableInv(s);
    assert Staged(s.c.running, s.stage, s.recovery, s.worker);
  }

  // --- A request whose worker died ---

  /** Once a rollback has ended, the request comes out as cancelled exactly if its cancel was taken. */
  lemma RollEndCancelled(s: State, t: State, id: nat)
    requires Apply(s, OfTask(RollEnd)) == Some(t) && s.c.Runs(id) && Reachable(s)
    ensures id in t.c.outcomes && (t.c.outcomes[id] == Cancelled <==> id in s.accepted)
  {
    ReachableInv(s);
  }

  /** So it comes out as succeeded if it has written and its store call did not raise, as cancelled if its cancel was taken,
      and else as failed. */
  lemma RollEndIs(states: seq<State>, acts: seq<Act>, n: nat, id: nat)
    requires IsRun(states, acts) && n < |acts| && acts[n] == OfTask(RollEnd) && states[n].c.Runs(id)
    ensures states[n + 1].c.outcomes == states[n].c.outcomes[id := if Wrote(states[n], id) && !Raised(states, acts, n, id) then Succeeded
                                                                   else if id in states[n].accepted then Cancelled else Failed]
  {
    PrefixReachable(states, acts, n);
    RollEndCancelled(states[n], states[n + 1], id);
    RunKeeps(states, acts, n);
    RunTruthful(states, acts, n, id);
    EndTells(states[n], acts[n], states[n + 1], id);
  }

  // --- A request whose worker returned ---

  /** Rolling back by itself, or about to. */
  predicate TurnedBack(pc: Pc) { pc.CallMark? || (pc.RollingBack() && !pc.DoneRaised?) }

  predicate WorksFor(w: Option<Worker>, id: nat) { w.Some? && w.value.job.RunJob? && w.value.job.id == id }

  /** The request's worker goes ahead; rolls back as cancelled; or rolls back as failed. */
  predicate GoesAhead(w: Option<Worker>, id: nat) { WorksFor(w, id) && !TurnedBack(w.value.pc) && !w.value.pc.DoneRaised? }

  predicate BacksOut(w: Option<Worker>, id: nat) { WorksFor(w, id) && TurnedBack(w.value.pc) && w.value.pc.outcome == Cancelled }

  predicate GivesUpOn(w: Option<Worker>, id: nat) { WorksFor(w, id) && TurnedBack(w.value.pc) && w.value.pc.outcome != Cancelled }

  /** The request's worker is told of its cancel: as it polls, or by the commit it calls for. */
  predicate Learns(s: State, a: Act, id: nat) {
    WorksFor(s.worker, id) && (a == OfWorker(SeeCancel) || (a == OfCall(CallOut) && s.worker.value.pc.CallCommit? && id in s.accepted))
  }

  ghost predicate Learned(states: seq<State>, acts: seq<Act>, n: nat, id: nat)
    requires n <= |acts| <= |states|
  {
    exists j :: 0 <= j < n && Learns(states[j], acts[j], id)
  }

  /** A step that tells the worker nothing of a cancel: it backs out only if it did, and goes ahead only if it did or is new. */
  ghost predicate Untold(s: State, t: State, id: nat) {
    (BacksOut(t.worker, id) ==> BacksOut(s.worker, id)) &&
    (GoesAhead(t.worker, id) ==> GoesAhead(s.worker, id) || InQueue(s.c.queue, id)) &&
    (GivesUpOn(t.worker, id) ==> GivesUpOn(s.worker, id) || GoesAhead(s.worker, id)) &&
    s.started <= t.started
  }

  lemma OutsideUntold(s: State, o: Outside, t: State, id: nat)
    requires ApplyOutside(s, o) == Some(t)
    ensures Untold(s, t, id) == true
  {
  }

  lemma TaskUntold(s: State, k: Task, t: State, id: nat)
    requires ApplyTask(s, k) == Some(t)
    ensures Untold(s, t, id) == true
  {
  }

  lemma EventUntold(s: State, e: Event, t: State, id: nat)
    requires ApplyEvent(s, e) == Some(t)
    ensures Untold(s, t, id) == true
  {
  }

  lemma ChangeUntold(s: State, c: Change, t: State, id: nat)
    requires ApplyChange(s, c) == Some(t)
    ensures Untold(s, t, id) == true
  {
  }

  lemma LoneUntold(s: State, l: Lone, t: State, id: nat)
    requires ApplyLone(s, l) == Some(t)
    ensures Untold(s, t, id) == true
  {
  }

  lemma NextUntold(s: State, id: nat)
    requires Stepped(s).Some?
    ensures Untold(s, Stepped(s).value, id) == true
  {
  }

  lemma ReadUntold(s: State, readable: bool, id: nat)
    requires s.worker.Some? && ServeRead(s, readable).Some?
    ensures Untold(s, ServeRead(s, readable).value, id) == true
  {
  }

  lemma WorkUntold(s: State, w: Work, t: State, id: nat)
    requires ApplyWork(s, w) == Some(t) && (w.SeeCancel? ==> !WorksFor(s.worker, id))
    ensures Untold(s, t, id) == true
  {
    match w
    case Next => NextUntold(s, id);
    case ReadServe(readable) => ReadUntold(s, readable, id);
    case _ =>
  }

  lemma LockUntold(s: State, ok: bool, landed: bool, id: nat)
    requires s.lock != [] && LockStep(s, ok, landed).Some?
    ensures Untold(s, LockStep(s, ok, landed).value, id) == true
  {
  }

  lemma DeliverUntold(s: State, call: Call, id: nat)
    ensures Untold(s, Delivered(s, call), id) == true
  {
  }

  lemma LandUntold(s: State, late: Late, id: nat)
    ensures Untold(s, Landed(s, late), id) == true
  {
  }

  lemma CalledUntold(s: State, id: nat)
    requires s.worker.Some? && Called(s).Some?
    requires WorksFor(s.worker, id) && s.worker.value.pc.CallCommit? ==> s.c.CommitReplyTo(id) != NothingWritten
    ensures Untold(s, Called(s).value, id) == true
  {
  }

  /** A live worker's commit writes nothing exactly for a request whose cancel was taken. */
  lemma NothingExactly(s: State, id: nat)
    requires Inv(s) == true && WorksFor(s.worker, id) && s.worker.value.pc.CallCommit?
    ensures s.c.CommitReplyTo(id) == NothingWritten <==> id in s.accepted
  {
    CommitAnswered(s);
    assert Staged(s.c.running, s.stage, s.recovery, s.worker);
  }

  lemma CallOutUntold(s: State, id: nat)
    requires s.worker.Some? && Called(s).Some? && Inv(s) == true && !Learns(s, OfCall(CallOut), id)
    ensures Untold(s, Called(s).value, id) == true
  {
    if WorksFor(s.worker, id) && s.worker.value.pc.CallCommit? {
      NothingExactly(s, id);
    }
    CalledUntold(s, id);
  }

  lemma DeathUntold(s: State, d: Dealing, t: State, id: nat)
    requires ApplyCall(s, d) == Some(t) && (d.AskDiff? || d.Die? || d.DieCalling?)
    ensures Untold(s, t, id) == true
  {
  }

  lemma AsideUntold(s: State, t: State, orphan: Option<Worker>, id: nat)
    requires Untold(s, t, id)
    ensures Untold(s, t.(orphan := orphan), id) == true
  {
  }

  lemma CallUntold(s: State, d: Dealing, t: State, id: nat)
    requires ApplyCall(s, d) == Some(t) && Inv(s) == true && !Learns(s, OfCall(d), id)
    ensures Untold(s, t, id) == true
  {
    match d
    case LockDone(ok, landed) =>
      LockUntold(s, ok, landed, id);
      AsideUntold(s, LockStep(s, ok, landed).value, Answered(s, ok), id);
    case Deliver(call) => DeliverUntold(s, call, id);
    case CallOut => CallOutUntold(s, id);
    case Land(late) => LandUntold(s, late, id);
    case _ => DeathUntold(s, d, t, id);
  }

  lemma StepUntold(s: State, a: Act, t: State, id: nat)
    requires Apply(s, a) == Some(t) && Inv(s) == true && !Learns(s, a, id)
    ensures Untold(s, t, id) == true
  {
    match a
    case FromOutside(o) => OutsideUntold(s, o, t, id);
    case OfServe(e) => EventUntold(s, e, t, id);
    case OfTask(k) => TaskUntold(s, k, t, id);
    case OfCall(d) => CallUntold(s, d, t, id);
    case OfWorker(w) => WorkUntold(s, w, t, id);
    case OnServe(c) => ChangeUntold(s, c, t, id);
    case OfOrphan(l) => LoneUntold(s, l, t, id);
  }

  /** A worker that learns of the cancel went ahead so far and backs out from then on. */
  lemma StepLearns(s: State, a: Act, t: State, id: nat)
    requires Apply(s, a) == Some(t) && Inv(s) == true && Learns(s, a, id)
    ensures GoesAhead(s.worker, id) && BacksOut(t.worker, id) && id in s.accepted && t.started == s.started && s.c.Runs(id)
  {
    assert Staged(s.c.running, s.stage, s.recovery, s.worker);
    if a.OfCall? {
      NothingExactly(s, id);
    }
  }

  ghost predicate Aware(s: State, id: nat, learned: bool) {
    (learned ==> id in s.started && id in s.accepted) && (BacksOut(s.worker, id) ==> learned) && (GoesAhead(s.worker, id) || GivesUpOn(s.worker, id) ==> !learned)
  }

  lemma AcceptedStays(s: State, a: Act, t: State, id: nat)
    requires Apply(s, a) == Some(t) && id in s.accepted
    ensures id in t.accepted
  {
    match a
    case FromOutside(o) => OutsideAccepted(s, o, t, id);
    case OfTask(k) => TaskAccepted(s, k, t);
    case OfCall(d) => CallAccepted(s, d, t);
    case OfWorker(w) => WorkAccepted(s, w, t);
    case _ => ServeAccepted(s, a, t);
  }

  lemma OutsideAccepted(s: State, o: Outside, t: State, id: nat)
    requires ApplyOutside(s, o) == Some(t) && id in s.accepted
    ensures id in t.accepted
  {
  }

  lemma TaskAccepted(s: State, k: Task, t: State)
    requires ApplyTask(s, k) == Some(t)
    ensures t.accepted == s.accepted
  {
  }

  lemma WorkAccepted(s: State, w: Work, t: State)
    requires ApplyWork(s, w) == Some(t)
    ensures t.accepted == s.accepted
  {
  }

  lemma ServeAccepted(s: State, a: Act, t: State)
    requires (a.OfServe? || a.OnServe? || a.OfOrphan?) && Apply(s, a) == Some(t)
    ensures t.accepted == s.accepted
  {
  }

  lemma CallAccepted(s: State, d: Dealing, t: State)
    requires ApplyCall(s, d) == Some(t)
    ensures t.accepted == s.accepted
  {
    match d
    case LockDone(ok, landed) => LockAccepted(s, ok, landed);
    case CallOut => CalledAccepted(s);
    case _ =>
  }

  lemma LockAccepted(s: State, ok: bool, landed: bool)
    requires s.lock != [] && LockStep(s, ok, landed).Some?
    ensures LockStep(s, ok, landed).value.accepted == s.accepted
  {
  }

  lemma CalledAccepted(s: State)
    requires s.worker.Some? && Called(s).Some?
    ensures Called(s).value.accepted == s.accepted
  {
  }

  lemma StepAware(s: State, a: Act, t: State, id: nat, learned: bool)
    requires Apply(s, a) == Some(t) && Inv(s) == true && Aware(s, id, learned)
    ensures Aware(t, id, learned || Learns(s, a, id)) == true
  {
    if id in s.accepted {
      AcceptedStays(s, a, t, id);
    }
    if Learns(s, a, id) {
      StepLearns(s, a, t, id);
      RunningStarted(s, id);
    } else {
      StepUntold(s, a, t, id);
      UntoldAware(s, t, id, learned);
    }
  }

  lemma UntoldAware(s: State, t: State, id: nat, learned: bool)
    requires Untold(s, t, id) && Inv(s) == true && Aware(s, id, learned) && (id in s.accepted ==> id in t.accepted)
    ensures Aware(t, id, learned) == true
  {
    if learned {
      StartedStays(s.started, t.started, id);
    }
    if InQueue(s.c.queue, id) {
      QueuedUnstarted(s, id);
    }
  }

  lemma StartedStays(before: seq<nat>, now: seq<nat>, id: nat)
    requires before <= now && id in before
    ensures id in now
  {
    var i :| 0 <= i < |before| && before[i] == id;
    assert now[i] == id;
  }

  lemma RunningStarted(s: State, id: nat)
    requires QueueInv(s) == true && s.c.Runs(id)
    ensures id in s.started
  {
  }

  lemma QueuedUnstarted(s: State, id: nat)
    requires QueueInv(s) == true && InQueue(s.c.queue, id)
    ensures id !in s.started
  {
  }

  lemma {:induction false} RunAware(states: seq<State>, acts: seq<Act>, n: nat, id: nat)
    requires IsRun(states, acts) && n <= |acts|
    ensures Aware(states[n], id, Learned(states, acts, n, id)) == true
  {
    if n > 0 {
      RunKeeps(states, acts, n - 1);
      RunAware(states, acts, n - 1, id);
      StepAware(states[n - 1], acts[n - 1], states[n], id, Learned(states, acts, n - 1, id));
      LearnedMore(states, acts, n - 1, id);
    } else {
      StartsAware(states[0], id);
    }
  }

  lemma StartsAware(s: State, id: nat)
    requires Init(s)
    ensures Aware(s, id, false) == true
  {
  }

  lemma LearnedMore(states: seq<State>, acts: seq<Act>, n: nat, id: nat)
    requires n < |acts| <= |states|
    ensures Learned(states, acts, n + 1, id) <==> Learned(states, acts, n, id) || Learns(states[n], acts[n], id)
  {
  }

  /** A request whose worker returned comes out as succeeded if it came through, as cancelled if the worker was told of its
      cancel and its rollback completed, and else as failed; and it is told only of a cancel that was taken. */
  lemma RunEndIs(states: seq<State>, acts: seq<Act>, n: nat, id: nat)
    requires IsRun(states, acts) && n < |acts| && acts[n] == OfTask(RunEnd) && states[n].c.Runs(id)
    ensures states[n].worker.Some? &&
            states[n + 1].c.outcomes == states[n].c.outcomes[id := if states[n].worker.value.pc.DoneOk? then Succeeded
                                                                   else if states[n].worker.value.pc.DoneBack? && Learned(states, acts, n, id) then Cancelled
                                                                   else Failed]
    ensures Learned(states, acts, n, id) ==> id in states[n].accepted
  {
    RunKeeps(states, acts, n);
    RunAware(states, acts, n, id);
    ReturnsSo(states[n], states[n + 1], id, Learned(states, acts, n, id));
  }

  lemma ReturnsSo(s: State, t: State, id: nat, learned: bool)
    requires Apply(s, OfTask(RunEnd)) == Some(t) && s.c.Runs(id) && Inv(s) == true && Aware(s, id, learned)
    ensures s.worker.Some? &&
            t.c.outcomes == s.c.outcomes[id := if s.worker.value.pc.DoneOk? then Succeeded
                                               else if s.worker.value.pc.DoneBack? && learned then Cancelled else Failed]
  {
    assert Staged(s.c.running, s.stage, s.recovery, s.worker) && Phased(s.c.running, s.worker.value);
  }
}
