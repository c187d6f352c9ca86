/** Runs in which a request comes out as failed with its models the committed version, though no call is handled late and
    every recovery waits for its rollbacks. */
module DeployProtocolMisreports {
  import opened Wrappers
  import opened AppNames
  import opened Ledger
  import opened DeployDiff
  import opened Coordinator
  import opened DeployProtocol
  import opened DeployProtocolLate

  /** The only request failed, and its models are the committed version. */
  ghost predicate FailedYetCommitted(s: State, m: Model) {
    s.c.outcomes == map[0 := Failed] && s.writes == [(0, [m])] && s.Committed() == Some([m])
  }

  /** The request's worker is dead, and its write *waits* for the version lock or is stored. */
  function Dead(gw: string, m: Model, waits: bool): State {
    var s := Past(gw, m, {}, None, Committing, [Op(1, ForWrite(0, [m]))], Ask).(worker := None);
    if waits then s else Stored(s, m)
  }

  function Stored(s: State, m: Model): State {
    s.(lock := [], stored := Some(CommitVersion(None, [m])), writes := [(0, [m])])
  }

  lemma DiesCommitting(gw: string, m: Model)
    requires AppOf(gw, m).Listed(gw)
    ensures Comes(Calm, Dead(gw, m, true))
  {
    DiesDeleting(Calm, gw, m, false);
    RequestBeginsCommit(Calm, gw, m, {}, None);
    Deals(Calm, Past(gw, m, {}, None, Committing, [Op(1, ForWrite(0, [m]))], AwaitCommit(AddDiff(gw, m))), Die(None), Dead(gw, m, true));
  }

  /** The write at the head of the version lock's queue is stored, by a request that runs no more or whose call raises. */
  lemma Lands(s: State, m: Model, ok: bool)
    requires s.lock == [Op(1, ForWrite(0, [m]))] && s.stored.None? && s.writes == [] && s.worker.None? && s.orphan.None? && Comes(Calm, s)
    requires ok ==> !s.c.Runs(0)
    ensures Comes(Calm, Stored(s, m))
  {
    assert s.lock[1..] == [] && s.writes + [(0, [m])] == [(0, [m])];
    assert LockStep(s, ok, true) == Some(Stored(s, m)) && Answered(s, ok) == s.orphan;
    Deals(Calm, s, LockDone(ok, true), Stored(s, m));
  }

  // --- The store call raises ---

  function Rolls(s: State, pc: Pc): State {
    s.(stage := Rolling, worker := Some(Worker(2, RollJob, pc)), nextWid := 3)
  }

  lemma RollBegins(gw: string, m: Model, waits: bool)
    requires Comes(Calm, Dead(gw, m, waits))
    ensures Comes(Calm, Rolls(Dead(gw, m, waits), CallReset(Failed)))
  {
    Tasks(Calm, Dead(gw, m, waits), Notice(true), Rolls(Dead(gw, m, waits), CallReset(Failed)));
  }

  lemma NothingToUndo(s: State, gw: string, m: Model)
    requires AppOf(gw, m).Listed(gw) && s.gw == gw && s.serve == Found(gw, m).serve && s.Committed() == Some([m])
    ensures UndoDiff(s).leftovers == {}
  {
    AddDiffIs(gw, m);
  }

  lemma RollReads(gw: string, m: Model, diff: Diff)
    requires Comes(Calm, Rolls(Dead(gw, m, false), CallReset(Failed)))
    requires diff == UndoDiff(Rolls(Dead(gw, m, false), CallReset(Failed))) && diff.leftovers == {}
    ensures Comes(Calm, Rolls(Dead(gw, m, false), Undo(Failed, diff, {})))
  {
    var start := Rolls(Dead(gw, m, false), CallReset(Failed));
    RollsBack(Calm, start);
    assert RolledTo(start, Undo(Failed, diff, {})) == Rolls(Dead(gw, m, false), Undo(Failed, diff, {}));
  }

  lemma RollCompletes(gw: string, m: Model)
    requires AppOf(gw, m).Listed(gw) && Comes(Calm, Rolls(Dead(gw, m, false), CallReset(Failed)))
    ensures Comes(Calm, Rolls(Dead(gw, m, false), DoneBack(Failed)))
  {
    var start := Rolls(Dead(gw, m, false), CallReset(Failed));
    var diff := UndoDiff(start);
    NothingToUndo(start, gw, m);
    RollReads(gw, m, diff);
    RollEnds(Rolls(Dead(gw, m, false), Undo(Failed, diff, {})), diff);
  }

  lemma RollEnds(s: State, diff: Diff)
    requires s.worker.Some? && s.worker.value.pc == Undo(Failed, diff, {}) && Comes(Calm, s)
    ensures Comes(Calm, s.Move(DoneBack(Failed)))
  {
    Moves(Calm, s, Restore(Failed, diff));
    Moves(Calm, s.Move(Restore(Failed, diff)), DoneBack(Failed));
  }

  function CameOutFailed(s: State): State {
    s.(c := s.c.Finish(Failed), stage := Idle, worker := None)
  }

  /** The worker dies while its write is under way, the store call raises after the write, and the rollback completes. */
  lemma RaisedWriteFails(gw: string, m: Model) returns (t: State)
    requires AppOf(gw, m).Listed(gw)
    ensures Comes(Calm, t) && FailedYetCommitted(t, m)
  {
    DiesCommitting(gw, m);
    Lands(Dead(gw, m, true), m, false);
    RollBegins(gw, m, false);
    RollCompletes(gw, m);
    var s := Rolls(Dead(gw, m, false), DoneBack(Failed));
    t := CameOutFailed(s);
    Tasks(Calm, s, RollEnd, t);
  }

  // --- The rollback does not complete, and the write is stored after it ---

  /** No rollback worker can be made. */
  lemma UnrolledWriteLands(gw: string, m: Model) returns (t: State)
    requires AppOf(gw, m).Listed(gw)
    ensures Comes(Calm, t) && FailedYetCommitted(t, m)
  {
    DiesCommitting(gw, m);
    var s := CameOutFailed(Dead(gw, m, true));
    Tasks(Calm, Dead(gw, m, true), Notice(false), s);
    Lands(s, m, true);
    t := Stored(s, m);
  }

  /** The rollback's worker dies too. */
  lemma DeadRollbackWriteLands(gw: string, m: Model) returns (t: State)
    requires AppOf(gw, m).Listed(gw)
    ensures Comes(Calm, t) && FailedYetCommitted(t, m)
  {
    DiesCommitting(gw, m);
    RollBegins(gw, m, true);
    var rolling := Rolls(Dead(gw, m, true), CallReset(Failed));
    var died := rolling.(worker := None);
    Deals(Calm, rolling, Die(None), died);
    var s := CameOutFailed(died);
    Tasks(Calm, died, RollEnd, s);
    Lands(s, m, true);
    t := Stored(s, m);
  }
}
