/** One node's deploy lease over time: acquires, store operations that fail or outlast the coordinator, checks, releases
    and coordinator restarts in any order. */
module NodeLeaseRuns {
  import opened Wrappers
  import opened NodeLeases

  /** A store operation on the node's key; they complete in the order they were issued in. */
  datatype Op = Write(lease: Lease) | Delete(lease: Lease)

  datatype State = State(
    // None until a coordinator has read the stored leases back
    memory: Option<Memory>,
    stored: Option<Lease>,
    ops: seq<Op>,
    // the lease a check has come to and how Serve listed its replica
    checking: Option<(Lease, Listing)>,
    // granted and not freed yet; whose latest acquire was answered with the grant
    granted: set<Lease>,
    told: set<Lease>,
    // replicas RUNNING, which ask no more, and replicas gone
    running: set<Lease>,
    gone: set<Lease>)

  datatype Act =
    | Ask(lease: Lease) | OpDone(ok: bool, landed: bool) | Come(listing: Listing) | Judge
    | Run(lease: Lease) | Go(lease: Lease) | Crash(stored: Option<Lease>) | Load

  function Land(stored: Option<Lease>, op: Op): Option<Lease> { if op.Write? then Some(op.lease) else None }

  /** What the store can hold once each of *ops* has landed or never will. */
  ghost predicate MayHold(stored: Option<Lease>, ops: seq<Op>, now: Option<Lease>)
    decreases |ops|
  {
    if ops == [] then now == stored else MayHold(stored, ops[1..], now) || MayHold(Land(stored, ops[0]), ops[1..], now)
  }

  /** The head operation is over; *ok* when it returned, else it raised, landed or not. */
  function Completed(s: State, ok: bool, landed: bool): State
    requires s.memory.Some? && s.ops != []
  {
    var op, t := s.ops[0], s.(ops := s.ops[1..], stored := if landed then Land(s.stored, s.ops[0]) else s.stored);
    match op
    case Write(lease) =>
      if ok then t.(granted := s.granted + {lease}, told := s.told + {lease})
      else t.(memory := Some(WriteFailed(s.memory.value, lease)))
    case Delete(lease) =>
      t.(memory := Some(Released(s.memory.value, lease)), granted := s.granted - {lease}, checking := None)
  }

  ghost function Apply(s: State, a: Act): Option<State> {
    match a
    case Ask(lease) =>
      if s.memory.None? || lease in s.running || lease in s.gone then None else (
      var t := s.(told := s.told - {lease}, memory := Some(Asked(s.memory.value, lease)));
      match ReplyTo(s.memory.value, lease)
      case Refused(_) => Some(t)
      case Again => Some(t.(granted := s.granted + {lease}, told := s.told + {lease}))
      case ToStore => Some(t.(ops := s.ops + [Write(lease)])))
    case OpDone(ok, landed) => if s.memory.None? || s.ops == [] || (ok && !landed) then None else Some(Completed(s, ok, landed))
    // a check reads Serve and comes to the node's lease
    case Come(listing) =>
      if s.memory.None? || s.checking.Some? || s.memory.value.held.None? then None
      else if listing.Running? && s.memory.value.held.value !in s.running then None
      else Some(s.(checking := Some((s.memory.value.held.value, listing))))
    // and deals with it; a replica unlisted on two checks in a row is gone
    case Judge =>
      if s.memory.None? || s.checking.None? || Releasing(s.ops) then None else
        var (lease, listing) := s.checking.value;
        var t, frees := s.(memory := Some(Checked(s.memory.value, listing))), Frees(s.memory.value, listing);
        if frees && listing.Unlisted? && lease !in s.gone then None
        else Some(if frees then t.(ops := s.ops + [Delete(lease)]) else t.(checking := None))
    case Run(lease) => if lease in s.told then Some(s.(running := s.running + {lease})) else None
    case Go(lease) => Some(s.(gone := s.gone + {lease}))
    case Crash(stored) =>
      if !MayHold(s.stored, s.ops, stored) then None
      else Some(s.(memory := None, ops := [], checking := None, stored := stored, granted := set l | l in s.granted && stored == Some(l)))
    case Load => if s.memory.None? then Some(s.(memory := Some(Memory(s.stored, 0)))) else None
  }

  ghost predicate Releasing(ops: seq<Op>) { exists i :: 0 <= i < |ops| && ops[i].Delete? }

  ghost predicate Writing(ops: seq<Op>) { exists i :: 0 <= i < |ops| && ops[i].Write? }

  // --- The invariant ---

  ghost predicate Init(s: State) {
    s.memory.None? && s.ops == [] && s.checking.None? && s.granted == {} && s.told == {} && s.running == {} && s.gone == {}
  }

  /** No lease is written twice at a time or deleted twice; one deleted is of a replica that asks no more. */
  ghost predicate OpsInv(held: Option<Lease>, ops: seq<Op>, told: set<Lease>, running: set<Lease>, gone: set<Lease>) {
    (forall i :: 0 <= i < |ops| && ops[i].Write? ==> held == Some(ops[i].lease) && ops[i].lease !in told && ops[i].lease !in running) &&
    (forall i :: 0 <= i < |ops| && ops[i].Delete? ==> ops[i].lease in running || ops[i].lease in gone) &&
    (forall i, j :: 0 <= i < j < |ops| ==> ops[i].Write? != ops[j].Write?) &&
    (forall i, j :: 0 <= i < j < |ops| && ops[i].Write? ==> ops[j].lease == ops[i].lease) &&
    (forall i, j :: 0 <= i < j < |ops| && ops[i].Delete? ==> ops[j].lease != ops[i].lease)
  }

  /** A lease held with no write of it waiting is the stored one; only its own delete can be on its way. */
  ghost predicate HeldInv(held: Option<Lease>, stored: Option<Lease>, ops: seq<Op>) {
    held.Some? && !Writing(ops) ==> stored == held && forall i :: 0 <= i < |ops| ==> ops[i].lease == held.value
  }

  ghost predicate CheckInv(m: Memory, ops: seq<Op>, checking: Option<(Lease, Listing)>, running: set<Lease>) {
    (forall i :: 0 <= i < |ops| && ops[i].Delete? ==> checking.Some? && checking.value.0 == ops[i].lease) &&
    (checking.Some? && !Releasing(ops) ==>
      (m.held.Some? && m.held.value != checking.value.0 ==> m.unlisted == 0) &&
      (checking.value.1.Running? ==> checking.value.0 in running && m.held == Some(checking.value.0)))
  }

  ghost predicate Inv(s: State) {
    s.running <= s.told &&
    (forall l :: l in s.granted ==> s.stored == Some(l)) &&
    if s.memory.None? then s.ops == [] && s.checking.None?
    else
      OpsInv(s.memory.value.held, s.ops, s.told, s.running, s.gone) && HeldInv(s.memory.value.held, s.stored, s.ops) &&
      CheckInv(s.memory.value, s.ops, s.checking, s.running) &&
      forall l :: l in s.granted ==> s.memory.value.held == Some(l) && !Writing(s.ops)
  }

  /** A replica's second acquire, handled while its first one's write is still on its way. */
  ghost predicate Early(s: State, a: Act) { a.Ask? && s.memory.Some? && exists i :: 0 <= i < |s.ops| && s.ops[i] == Write(a.lease) }

  lemma AskKeeps(s: State, lease: Lease)
    requires Inv(s) && Apply(s, Ask(lease)).Some? && !Early(s, Ask(lease))
    ensures Inv(Apply(s, Ask(lease)).value)
  {
    var t := Apply(s, Ask(lease)).value;
    if ReplyTo(s.memory.value, lease).ToStore? {
      assert forall i :: 0 <= i < |s.ops| ==> t.ops[i] == s.ops[i];
      assert t.ops[|s.ops|] == Write(lease);
    } else if ReplyTo(s.memory.value, lease).Again? {
      assert forall i :: 0 <= i < |s.ops| ==> s.ops[i] != Write(lease);
    }
  }

  lemma WriteDoneKeeps(s: State, ok: bool, landed: bool)
    requires Inv(s) && s.memory.Some? && s.ops != [] && s.ops[0].Write? && (ok ==> landed)
    ensures Inv(Completed(s, ok, landed)) == true
  {
    var rest := s.ops[1..];
    assert forall i :: 0 <= i < |rest| ==> rest[i] == s.ops[i + 1];
  }

  lemma DeleteDoneKeeps(s: State, ok: bool, landed: bool)
    requires Inv(s) && s.memory.Some? && s.ops != [] && s.ops[0].Delete?
    ensures Inv(Completed(s, ok, landed)) == true
  {
    var rest := s.ops[1..];
    assert forall i :: 0 <= i < |rest| ==> rest[i] == s.ops[i + 1];
  }

  lemma OpDoneKeeps(s: State, ok: bool, landed: bool)
    requires Inv(s) == true && Apply(s, OpDone(ok, landed)).Some?
    ensures Inv(Completed(s, ok, landed)) == true
  {
    if s.ops[0].Write? {
      WriteDoneKeeps(s, ok, landed);
    } else {
      DeleteDoneKeeps(s, ok, landed);
    }
  }

  lemma JudgeKeeps(s: State)
    requires Inv(s) && Apply(s, Judge).Some?
    ensures Inv(Apply(s, Judge).value)
  {
    var t := Apply(s, Judge).value;
    if t.ops != s.ops {
      assert forall i :: 0 <= i < |s.ops| ==> t.ops[i] == s.ops[i];
      assert t.ops[|s.ops|] == Delete(s.checking.value.0);
    }
  }

  lemma CrashKeeps(s: State, stored: Option<Lease>)
    requires Inv(s) && Apply(s, Crash(stored)).Some?
    ensures Inv(Apply(s, Crash(stored)).value)
  {
  }

  lemma {:induction false} DeletesHold(stored: Option<Lease>, ops: seq<Op>, now: Option<Lease>)
    requires (forall i :: 0 <= i < |ops| ==> ops[i].Delete?) && MayHold(stored, ops, now)
    ensures now == stored || now.None?
    decreases |ops|
  {
    if ops != [] {
      assert ops[0].Delete?;
      if MayHold(stored, ops[1..], now) {
        DeletesHold(stored, ops[1..], now);
      } else {
        DeletesHold(None, ops[1..], now);
      }
    }
  }

  /** A restart takes a grant back only where the lease's own delete was on its way, and has landed. */
  lemma CrashFreesDeleted(s: State, stored: Option<Lease>, l: Lease)
    requires Inv(s) && Apply(s, Crash(stored)).Some? && l in s.granted && l !in Apply(s, Crash(stored)).value.granted
    ensures Delete(l) in s.ops && stored.None?
  {
    assert s.memory.None? ==> MayHold(s.stored, [], stored);
    DeletesHold(s.stored, s.ops, stored);
    assert s.ops != [] ==> s.ops[0] == Delete(l);
  }

  lemma StepKeeps(s: State, a: Act)
    requires Inv(s) && Apply(s, a).Some? && !Early(s, a)
    ensures Inv(Apply(s, a).value)
  {
    match a
    case Ask(lease) => AskKeeps(s, lease);
    case OpDone(ok, landed) => OpDoneKeeps(s, ok, landed);
    case Judge => JudgeKeeps(s);
    case Crash(stored) => CrashKeeps(s, stored);
    case _ =>
  }

  /** A run; None when a step can't happen. *patient* ones have no early acquire. */
  ghost function After(s: State, acts: seq<Act>, patient: bool): Option<State> {
    if acts == [] then Some(s) else
      var t := After(s, acts[..|acts| - 1], patient);
      if t.None? || (patient && Early(t.value, acts[|acts| - 1])) then None else Apply(t.value, acts[|acts| - 1])
  }

  lemma {:induction false} RunKeeps(s0: State, acts: seq<Act>)
    requires Init(s0) && After(s0, acts, true).Some?
    ensures Inv(After(s0, acts, true).value)
  {
    if acts != [] {
      RunKeeps(s0, acts[..|acts| - 1]);
      StepKeeps(After(s0, acts[..|acts| - 1], true).value, acts[|acts| - 1]);
    }
  }

  /** In every patient run at most one replica holds a granted lease not freed yet, its lease is the stored one, and a
      coordinator that has read the store back holds it: it grants the node to nobody else. */
  lemma OneHolder(s0: State, acts: seq<Act>, l: Lease)
    requires Init(s0) && After(s0, acts, true).Some? && l in After(s0, acts, true).value.granted
    ensures var s := After(s0, acts, true).value;
            s.granted == {l} && s.stored == Some(l) && (s.memory.Some? ==> s.memory.value.held == Some(l)) &&
            forall other :: other != l && s.memory.Some? ==> ReplyTo(s.memory.value, other) == Refused(l)
  {
    RunKeeps(s0, acts);
  }

  lemma Append(s0: State, acts: seq<Act>, a: Act)
    requires After(s0, acts, false).Some?
    ensures After(s0, acts + [a], false) == Apply(After(s0, acts, false).value, a)
  {
    assert (acts + [a])[..|acts|] == acts;
  }

  lemma AppendTwo(s: State, acts: seq<Act>, a: Act, b: Act)
    requires After(s, acts, false).Some? && Apply(After(s, acts, false).value, a).Some?
    ensures After(s, acts + [a], false) == Apply(After(s, acts, false).value, a)
    ensures After(s, acts + [a, b], false) == Apply(Apply(After(s, acts, false).value, a).value, b)
  {
    Append(s, acts, a);
    Append(s, acts + [a], b);
    assert acts + [a] + [b] == acts + [a, b];
  }

  // --- What is granted is freed ---

  /** Between checks, a lease whose replica runs is freed by the next one: then nobody holds the node, and whoever asks next
      is granted it once its write is stored. */
  lemma RunningFreed(s: State, l: Lease, other: Lease, ok: bool, landed: bool)
    requires Inv(s) && s.memory.Some? && l in s.granted && l in s.running && s.ops == [] && s.checking.None? && (ok ==> landed)
    requires other !in s.running + s.gone
    ensures var t := After(s, [Come(Running), Judge, OpDone(ok, landed)], true);
            t.Some? && t.value.granted == {} && t.value.memory.value.held.None? && t.value.checking.None? && t.value.ops == [] &&
            (landed ==> t.value.stored.None?) &&
            ReplyTo(t.value.memory.value, other) == ToStore &&
            After(t.value, [Ask(other), OpDone(true, true)], true).Some? &&
            After(t.value, [Ask(other), OpDone(true, true)], true).value.granted == {other}
  {
    var free := [Come(Running), Judge, OpDone(ok, landed)];
    assert free[..2] == [Come(Running), Judge] && free[..2][..1] == [Come(Running)] && [Come(Running)][..0] == [];
    RunningStep(s, l);
    NextGranted(After(s, free, true).value, other);
  }

  /** Whoever asks for a free node is granted it once its write is stored. */
  lemma NextGranted(s: State, other: Lease)
    requires s.memory.Some? && s.memory.value.held.None? && s.ops == [] && s.granted == {} && other !in s.running + s.gone
    ensures var t := After(s, [Ask(other), OpDone(true, true)], true);
            ReplyTo(s.memory.value, other) == ToStore && t.Some? && t.value.granted == {other} && t.value.stored == Some(other)
  {
    var take := [Ask(other), OpDone(true, true)];
    assert take[..1] == [Ask(other)] && [Ask(other)][..0] == [] && s.ops + [Write(other)] == [Write(other)];
    var asked := s.(told := s.told - {other}, memory := Some(Memory(Some(other), 0)), ops := [Write(other)]);
    assert Apply(s, Ask(other)) == Some(asked);
    assert After(s, [], true) == Some(s) && After(s, [Ask(other)], true) == Some(asked);
    assert take[|take| - 1] == OpDone(true, true) && asked.ops[1..] == [];
  }

  lemma RunningStep(s: State, l: Lease)
    requires Inv(s) && s.memory.Some? && l in s.granted && l in s.running && s.ops == [] && s.checking.None?
    ensures s.granted == {l} && s.memory.value.held == Some(l)
    ensures After(s, [Come(Running)], true).Some? && After(s, [Come(Running)], true).value.checking == Some((l, Running))
    ensures After(s, [Come(Running), Judge], true).Some? && After(s, [Come(Running), Judge], true).value.ops == [Delete(l)]
  {
    var two := [Come(Running), Judge];
    assert two[..1] == [Come(Running)] && [Come(Running)][..0] == [];
  }

  /** Where an acquire comes early, its write is on its way, with at most another replica's delete ahead of it. */
  lemma EarlyOps(s: State, l: Lease)
    requires Inv(s) && Apply(s, Ask(l)).Some? && Early(s, Ask(l))
    ensures s.memory.value.held == Some(l)
    ensures s.ops == [Write(l)] || (|s.ops| == 2 && s.ops[0].Delete? && s.ops[0].lease != l && s.ops[1] == Write(l))
  {
    var i :| 0 <= i < |s.ops| && s.ops[i] == Write(l);
    if |s.ops| >= 3 {
      TwoAlike(s.ops);
    } else if |s.ops| == 2 {
      var first, second := s.ops[0], s.ops[1];
      assert first.Write? != second.Write? && (first.Write? ==> second.lease == first.lease);
    }
  }

  lemma TwoAlike(ops: seq<Op>)
    requires |ops| >= 3
    ensures exists i, j :: 0 <= i < j < |ops| && ops[i].Write? == ops[j].Write?
  {
    assert ops[0].Write? == ops[1].Write? || ops[1].Write? == ops[2].Write? || ops[0].Write? == ops[2].Write?;
  }

  /** Once the early answer has been given: the first write fails, and another replica is granted the node beside it. */
  lemma WriteFails(s: State, l: Lease, other: Lease)
    requires s.memory.Some? && s.memory.value.held == Some(l) && s.ops == [Write(l)] && l in s.granted && l != other && other !in s.running + s.gone
    ensures var acts := [OpDone(false, false), Ask(other), OpDone(true, true)];
            After(s, acts, false).Some? && {l, other} <= After(s, acts, false).value.granted
  {
    AppendTwo(s, [], OpDone(false, false), Ask(other));
    assert [] + [OpDone(false, false), Ask(other)] == [OpDone(false, false), Ask(other)];
    Append(s, [OpDone(false, false), Ask(other)], OpDone(true, true));
    assert [OpDone(false, false), Ask(other)] + [OpDone(true, true)] == [OpDone(false, false), Ask(other), OpDone(true, true)];
  }

  lemma {:induction false} AfterJoin(s: State, first: seq<Act>, more: seq<Act>)
    requires After(s, first, false).Some?
    ensures After(s, first + more, false) == After(After(s, first, false).value, more, false)
  {
    if more == [] {
      assert first + more == first;
    } else {
      AfterJoin(s, first, more[..|more| - 1]);
      assert (first + more)[..|first + more| - 1] == first + more[..|more| - 1];
    }
  }

  /** And whenever an acquire can come early, it can break it: its own write may fail after the second answer, and then
      another replica is granted the node beside it. */
  lemma EarlyBreaks(s: State, l: Lease, other: Lease) returns (acts: seq<Act>)
    requires Inv(s) && Apply(s, Ask(l)).Some? && Early(s, Ask(l)) && other != l && other !in s.running + s.gone
    ensures acts != [] && acts[0] == Ask(l)
    ensures After(s, acts, false).Some? && {l, other} <= After(s, acts, false).value.granted
  {
    EarlyOps(s, l);
    var t := Apply(s, Ask(l)).value;
    var first := [Ask(l)];
    Append(s, [], Ask(l));
    assert [] + [Ask(l)] == first;
    if |s.ops| == 2 {
      Append(s, first, OpDone(true, true));
      first := first + [OpDone(true, true)];
      t := Completed(t, true, true);
      assert s.ops[1..] == [Write(l)];
    }
    WriteFails(t, l, other);
    acts := first + [OpDone(false, false), Ask(other), OpDone(true, true)];
    AfterJoin(s, first, [OpDone(false, false), Ask(other), OpDone(true, true)]);
  }

  /** Such a moment comes two steps into a run, when the replica asks again, so exclusion needs replicas to wait for an answer
      before they do. */
  lemma EarlyHappens(s0: State, l: Lease)
    requires Init(s0) && s0.stored.None?
    ensures var s := After(s0, [Load, Ask(l)], true);
            s.Some? && Inv(s.value) && Apply(s.value, Ask(l)).Some? && Early(s.value, Ask(l))
  {
    var a, acts := s0.(memory := Some(Memory(None, 0))), [Load, Ask(l)];
    assert acts[..1] == [Load] && [Load][..0] == [] && After(s0, [Load], true) == Some(a);
    assert acts[1] == Ask(l);
    RunKeeps(s0, acts);
    assert After(s0, acts, true).value.ops == [Write(l)];
  }
}
