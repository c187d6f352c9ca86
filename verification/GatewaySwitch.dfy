/** A gateway's replicas following its routing versions: the gateway coordinator's passes, the replicas' polls and
    snapshots in any order, with replicas that come and go and a gateway coordinator that restarts. */
module GatewaySwitch {
  import opened Wrappers
  import opened GatewayTables
  import opened GatewayReplica

  /** A replica's table as the steps see it. *high* is the newest seq it applied a snapshot of, all of it or not. */
  datatype Follower = Follower(table: map<string, string>, gen: nat, seqNo: Option<nat>, high: Option<nat>)

  datatype Poll = Poll(id: string, seqNo: nat, gen: nat)

  datatype State = State(
    now: real,
    // every routing version the deploy coordinator has made: seq -> its targets
    versions: map<nat, seq<Target>>,
    // the newest seq the gateway coordinator, or one before it, has read
    read: nat,
    tables: Tables,
    followers: map<string, Follower>,
    // replica ids ever used
    used: set<string>,
    // polls sent and not handled; a snapshot on its way to its replica
    polls: set<Poll>,
    fetched: map<string, Snapshot>)

  datatype Act =
    | Wait(now: real) | NewVersion(seqNo: nat, targets: seq<Target>)
    | Pass(read: Reading, fetched: Option<nat>) | Restart(clock: nat)
    | Join(id: string) | Quit(id: string)
    | SendPoll(id: string) | HandlePoll(poll: Poll) | Fetch(id: string) | ApplySnapshot(id: string, ready: set<string>)

  function AppsOf(targets: seq<Target>): set<string> { set t | t in targets :: t.app }

  function Followed(f: Follower, snapshot: Snapshot, ready: set<string>): Follower {
    var table, high := Reconciled(f.table, snapshot.models, ready), if snapshot.seqNo.Some? then snapshot.seqNo else f.high;
    if snapshot.models.Keys <= f.table.Keys + ready then Follower(table, snapshot.gen, snapshot.seqNo, high)
    else f.(table := table, high := high)
  }

  ghost function Apply(gateway: string, s: State, a: Act): Option<State> {
    match a
    case Wait(now) => if s.now <= now then Some(s.(now := now)) else None
    case NewVersion(seqNo, targets) =>
      // a seq past all others: it is a clock's, and counts up
      if forall k :: k in s.versions ==> k < seqNo then Some(s.(versions := s.versions[seqNo := targets])) else None
    case Pass(read, fetched) =>
      // versions are read in turn, so none read is older than one read before
      if fetched.Some? && !(fetched.value in s.versions && s.read <= fetched.value) then None else
        var version := if fetched.Some? then Some(Version(fetched.value, s.versions[fetched.value])) else None;
        Some(s.(tables := s.tables.Passed(gateway, read, version), read := if fetched.Some? then fetched.value else s.read))
    case Restart(clock) =>
      // generations start at a clock's milliseconds and count up by one a pass at most
      if clock <= s.tables.Gen() then None
      else Some(s.(tables := Tables(None, None, None, clock, None, false, {}, map[])))
    case Join(id) => if id in s.used then None else Some(s.(used := s.used + {id}, followers := s.followers[id := Follower(map[], 0, None, None)]))
    case Quit(id) => Some(s.(followers := s.followers - {id}, fetched := s.fetched - {id}))
    case SendPoll(id) =>
      if id !in s.followers || s.followers[id].seqNo.None? then None
      else Some(s.(polls := s.polls + {Poll(id, s.followers[id].seqNo.value, s.followers[id].gen)}))
    case HandlePoll(poll) =>
      if poll !in s.polls then None
      else Some(s.(polls := s.polls - {poll}, tables := s.tables.Reported(poll.id, Report(poll.seqNo, poll.gen, s.now))))
    case Fetch(id) =>
      if id !in s.followers || id in s.fetched || !s.tables.computed then None
      else Some(s.(fetched := s.fetched[id := s.tables.Current()]))
    case ApplySnapshot(id, ready) =>
      if id !in s.followers || id !in s.fetched then None
      else Some(s.(fetched := s.fetched - {id}, followers := s.followers[id := Followed(s.followers[id], s.fetched[id], ready)]))
  }

  ghost predicate Init(s: State) {
    s.versions == map[] && s.tables == Tables(None, None, None, s.tables.firstGen, None, false, {}, map[]) && s.tables.firstGen > 0 && s.followers == map[] &&
    s.used == {} && s.polls == {} && s.fetched == map[]
  }

  ghost function After(gateway: string, s: State, acts: seq<Act>): Option<State> {
    if acts == [] then Some(s) else
      var t := After(gateway, s, acts[..|acts| - 1]);
      if t.None? then None else Apply(gateway, t.value, acts[|acts| - 1])
  }

  ghost predicate Reachable(gateway: string, s: State) {
    exists s0, acts :: Init(s0) && After(gateway, s0, acts) == Some(s)
  }

  // --- The invariant ---

  /** The table of version *seqNo* or part of it. */
  ghost predicate Of(versions: map<nat, seq<Target>>, models: map<string, string>, seqNo: nat) {
    seqNo in versions && models.Keys <= AppsOf(versions[seqNo])
  }

  /** What has been published: from a version read, the newest read by any gateway coordinator so far. */
  ghost predicate PublishedInv(versions: map<nat, seq<Target>>, read: nat, tables: Tables) {
    (tables.version.Some? ==>
      tables.version.value.seqNo == read && read in versions && versions[read] == tables.version.value.targets) &&
    (tables.routing.Some? <==> tables.seqNo.Some?) &&
    (tables.seqNo.Some? ==> tables.seqNo.value <= read && Of(versions, tables.routing.value.models, tables.seqNo.value))
  }

  /** A seq given out is at most the published one, or what the next table is published from. */
  predicate Past(read: nat, tables: Tables, seqNo: nat) {
    seqNo <= read && (tables.seqNo.Some? ==> seqNo <= tables.seqNo.value)
  }

  ghost predicate SnapshotInv(versions: map<nat, seq<Target>>, read: nat, tables: Tables, f: Follower, snapshot: Snapshot) {
    f.gen <= snapshot.gen <= tables.Gen() && (snapshot.gen == tables.Gen() ==> snapshot == tables.Current()) &&
    (if snapshot.seqNo.Some? then
       Past(read, tables, snapshot.seqNo.value) && Of(versions, snapshot.models, snapshot.seqNo.value) &&
       (f.high.Some? ==> f.high.value <= snapshot.seqNo.value)
     else snapshot.models == map[])
  }

  ghost predicate FollowerInv(versions: map<nat, seq<Target>>, read: nat, tables: Tables, f: Follower) {
    f.gen <= tables.Gen() && (f.gen == tables.Gen() ==> f.table.Keys == tables.Current().models.Keys && f.seqNo == tables.Current().seqNo) &&
    (f.seqNo.Some? ==> f.high.Some? && f.seqNo.value <= f.high.value) &&
    (if f.high.Some? then Past(read, tables, f.high.value) && Of(versions, f.table, f.high.value) else f.table == map[])
  }

  /** A replica's poll or report of *seqNo*: it had applied that seq's table by then. */
  predicate Held(followers: map<string, Follower>, id: string, seqNo: nat) {
    id in followers ==> followers[id].high.Some? && seqNo <= followers[id].high.value
  }

  ghost predicate Inv(s: State) {
    PublishedInv(s.versions, s.read, s.tables) && s.tables.Gen() > 0 &&
    (forall id :: id in s.followers ==> id in s.used && FollowerInv(s.versions, s.read, s.tables, s.followers[id])) &&
    (forall id :: id in s.fetched ==> id in s.followers && SnapshotInv(s.versions, s.read, s.tables, s.followers[id], s.fetched[id])) &&
    (forall poll :: poll in s.polls ==> poll.id in s.used && Held(s.followers, poll.id, poll.seqNo)) &&
    (forall id :: id in s.tables.reports ==> id in s.used && Held(s.followers, id, s.tables.reports[id].seqNo))
  }

  lemma PassedPublished(gateway: string, s: State, read: Reading, fetched: Option<nat>)
    requires PublishedInv(s.versions, s.read, s.tables) && Apply(gateway, s, Pass(read, fetched)).Some?
    ensures var t := Apply(gateway, s, Pass(read, fetched)).value;
            PublishedInv(t.versions, t.read, t.tables) && s.read <= t.read && s.tables.Gen() <= t.tables.Gen() &&
            (t.tables.Gen() == s.tables.Gen() ==> t.tables.Current() == s.tables.Current()) &&
            forall seqNo :: Past(s.read, s.tables, seqNo) ==> Past(t.read, t.tables, seqNo)
  {
    var t := Apply(gateway, s, Pass(read, fetched)).value;
    if t.tables.version.Some? && t.tables.routing.Some? {
      ServedWithin(t.tables.version.value.targets, read.apps);
    }
  }

  lemma ServedWithin(targets: seq<Target>, apps: map<string, AppStatus>)
    ensures Serving(targets, apps).Keys <= AppsOf(targets)
  {
    var serving := Serving(targets, apps);
    forall a | a in serving
      ensures a in AppsOf(targets)
    {
      assert Target(serving[a], a) in targets;
    }
  }

  lemma PassKeeps(gateway: string, s: State, read: Reading, fetched: Option<nat>)
    requires Inv(s) && Apply(gateway, s, Pass(read, fetched)).Some?
    ensures Inv(Apply(gateway, s, Pass(read, fetched)).value)
  {
    PassedPublished(gateway, s, read, fetched);
  }

  lemma FollowKeeps(gateway: string, s: State, id: string, ready: set<string>)
    requires Inv(s) && Apply(gateway, s, ApplySnapshot(id, ready)).Some?
    ensures Inv(Apply(gateway, s, ApplySnapshot(id, ready)).value)
  {
    ReconciledWithin(s.followers[id].table, s.fetched[id].models, ready);
  }

  lemma CoordinatorKeeps(gateway: string, s: State, a: Act)
    requires Inv(s) && (a.Wait? || a.NewVersion? || a.Restart?) && Apply(gateway, s, a).Some?
    ensures Inv(Apply(gateway, s, a).value)
  {
  }

  lemma PollKeeps(gateway: string, s: State, a: Act)
    requires Inv(s) && (a.SendPoll? || a.HandlePoll? || a.Fetch?) && Apply(gateway, s, a).Some?
    ensures Inv(Apply(gateway, s, a).value)
  {
  }

  lemma ReplicaKeeps(gateway: string, s: State, a: Act)
    requires Inv(s) && (a.Join? || a.Quit?) && Apply(gateway, s, a).Some?
    ensures Inv(Apply(gateway, s, a).value)
  {
  }

  lemma StepKeeps(gateway: string, s: State, a: Act)
    requires Inv(s) && Apply(gateway, s, a).Some?
    ensures Inv(Apply(gateway, s, a).value)
  {
    match a
    case Pass(read, fetched) => PassKeeps(gateway, s, read, fetched);
    case ApplySnapshot(id, ready) => FollowKeeps(gateway, s, id, ready);
    case _ =>
      if a.Wait? || a.NewVersion? || a.Restart? {
        CoordinatorKeeps(gateway, s, a);
      } else if a.Join? || a.Quit? {
        ReplicaKeeps(gateway, s, a);
      } else {
        PollKeeps(gateway, s, a);
      }
  }

  lemma {:induction false} RunKeeps(gateway: string, s: State, acts: seq<Act>)
    requires Inv(s) && After(gateway, s, acts).Some?
    ensures Inv(After(gateway, s, acts).value)
  {
    if acts != [] {
      RunKeeps(gateway, s, acts[..|acts| - 1]);
      StepKeeps(gateway, After(gateway, s, acts[..|acts| - 1]).value, acts[|acts| - 1]);
    }
  }

  lemma ReachableInv(gateway: string, s: State)
    requires Reachable(gateway, s)
    ensures Inv(s)
  {
    var s0, acts :| Init(s0) && After(gateway, s0, acts) == Some(s);
    RunKeeps(gateway, s0, acts);
  }

  // --- The switch ---

  /** Once a gateway counts as switched to *seqNo*, no replica the last pass saw RUNNING routes outside that version's apps. */
  lemma SwitchedFollow(gateway: string, s: State, seqNo: nat, id: string)
    requires Reachable(gateway, s) && s.tables.Switched(s.now, seqNo) && id in s.tables.replicas && id in s.followers
    ensures seqNo in s.versions && s.followers[id].table.Keys <= AppsOf(s.versions[seqNo])
  {
    ReachableInv(gateway, s);
    assert s.tables.Fresh(s.now)[id].seqNo == seqNo;
  }

  /** A step takes no replica back to an older seq, and no version away. */
  lemma StepRises(gateway: string, s: State, a: Act, id: string, seqNo: nat)
    requires Inv(s) && Apply(gateway, s, a).Some? && id in s.used && Held(s.followers, id, seqNo) && seqNo in s.versions
    ensures var t := Apply(gateway, s, a).value;
            id in t.used && Held(t.followers, id, seqNo) && seqNo in t.versions && t.versions[seqNo] == s.versions[seqNo]
  {
  }

  lemma {:induction false} RunRises(gateway: string, s: State, acts: seq<Act>, id: string, seqNo: nat)
    requires Inv(s) && After(gateway, s, acts).Some? && id in s.used && Held(s.followers, id, seqNo) && seqNo in s.versions
    ensures var t := After(gateway, s, acts).value;
            id in t.used && Held(t.followers, id, seqNo) && seqNo in t.versions && t.versions[seqNo] == s.versions[seqNo]
  {
    if acts != [] {
      var rest := acts[..|acts| - 1];
      RunKeeps(gateway, s, rest);
      RunRises(gateway, s, rest, id, seqNo);
      StepRises(gateway, After(gateway, s, rest).value, acts[|acts| - 1], id, seqNo);
    }
  }

  /** And it stays so, whatever happens, until a table of a newer seq is published: a gateway coordinator restart included. */
  lemma SwitchedStays(gateway: string, s: State, acts: seq<Act>, seqNo: nat, id: string)
    requires Reachable(gateway, s) && s.tables.Switched(s.now, seqNo) && id in s.tables.replicas && id in s.followers
    requires After(gateway, s, acts).Some?
    ensures var t := After(gateway, s, acts).value;
            seqNo in s.versions &&
            ((t.tables.seqNo == Some(seqNo) || t.read == seqNo) && id in t.followers ==>
              seqNo in t.versions && t.versions[seqNo] == s.versions[seqNo] && t.followers[id].table.Keys <= AppsOf(s.versions[seqNo]))
  {
    ReachableInv(gateway, s);
    assert s.tables.Fresh(s.now)[id].seqNo == seqNo;
    RunRises(gateway, s, acts, id, seqNo);
    RunKeeps(gateway, s, acts);
  }

  /** Nothing older than *seqNo* is published or read any more, nor has a replica that came after *before* been given it. */
  ghost predicate Onward(s: State, before: set<string>, seqNo: nat) {
    before <= s.used && seqNo <= s.read && (s.tables.seqNo.Some? ==> seqNo <= s.tables.seqNo.value) &&
    (forall id :: id in s.followers && id !in before && s.followers[id].high.Some? ==> seqNo <= s.followers[id].high.value) &&
    (forall id :: id in s.fetched && id !in before && s.fetched[id].seqNo.Some? ==> seqNo <= s.fetched[id].seqNo.value)
  }

  lemma PassOnward(gateway: string, s: State, read: Reading, fetched: Option<nat>, before: set<string>, seqNo: nat)
    requires PublishedInv(s.versions, s.read, s.tables) && Onward(s, before, seqNo) && Apply(gateway, s, Pass(read, fetched)).Some?
    ensures Onward(Apply(gateway, s, Pass(read, fetched)).value, before, seqNo) == true
  {
  }

  lemma FollowOnward(gateway: string, s: State, id: string, ready: set<string>, before: set<string>, seqNo: nat)
    requires Onward(s, before, seqNo) && Apply(gateway, s, ApplySnapshot(id, ready)).Some?
    ensures Onward(Apply(gateway, s, ApplySnapshot(id, ready)).value, before, seqNo) == true
  {
  }

  lemma OtherOnward(gateway: string, s: State, a: Act, before: set<string>, seqNo: nat)
    requires Onward(s, before, seqNo) && Apply(gateway, s, a).Some? && !a.Pass? && !a.ApplySnapshot?
    ensures Onward(Apply(gateway, s, a).value, before, seqNo) == true
  {
  }

  lemma StepOnward(gateway: string, s: State, a: Act, before: set<string>, seqNo: nat)
    requires Inv(s) && Onward(s, before, seqNo) == true && Apply(gateway, s, a).Some?
    ensures Onward(Apply(gateway, s, a).value, before, seqNo) == true
  {
    match a
    case Pass(read, fetched) => PassOnward(gateway, s, read, fetched, before, seqNo);
    case ApplySnapshot(id, ready) => FollowOnward(gateway, s, id, ready, before, seqNo);
    case _ => OtherOnward(gateway, s, a, before, seqNo);
  }

  lemma {:induction false} RunOnward(gateway: string, s: State, acts: seq<Act>, before: set<string>, seqNo: nat)
    requires Inv(s) && Onward(s, before, seqNo) && After(gateway, s, acts).Some?
    ensures Onward(After(gateway, s, acts).value, before, seqNo) == true
  {
    if acts != [] {
      var rest := acts[..|acts| - 1];
      RunKeeps(gateway, s, rest);
      RunOnward(gateway, s, rest, before, seqNo);
      StepOnward(gateway, After(gateway, s, rest).value, acts[|acts| - 1], before, seqNo);
    }
  }

  /** A replica that comes after a version has been published routes within its apps, until one of a newer seq is read. */
  lemma NewcomersFollow(gateway: string, s: State, acts: seq<Act>, seqNo: nat, id: string)
    requires Reachable(gateway, s) && s.tables.seqNo == Some(seqNo) && id !in s.used && After(gateway, s, acts).Some?
    ensures var t := After(gateway, s, acts).value;
            t.read == seqNo && id in t.followers ==> t.followers[id].table == map[] || (seqNo in t.versions && t.followers[id].table.Keys <= AppsOf(t.versions[seqNo]))
  {
    ReachableInv(gateway, s);
    RunOnward(gateway, s, acts, s.used, seqNo);
    RunKeeps(gateway, s, acts);
  }

  /** A replica's poll waits only when its table and its seq are the published ones: no change is missed. */
  lemma WaitsWhenCurrent(gateway: string, s: State, id: string)
    requires Reachable(gateway, s) && id in s.followers && s.followers[id].gen == s.tables.Gen()
    ensures s.followers[id].table.Keys == s.tables.Current().models.Keys && s.followers[id].seqNo == s.tables.seqNo
  {
    ReachableInv(gateway, s);
  }

  // --- A switch can complete ---

  /** A replica takes a snapshot's generation and seq over exactly when it can resolve all its handles; its table then routes to
      exactly the snapshot's apps. */
  lemma FollowedIs(f: Follower, snapshot: Snapshot, ready: set<string>)
    ensures var g := Followed(f, snapshot, ready);
            (forall app :: app in g.table <==> app in snapshot.models && (app in f.table || app in ready)) &&
            if snapshot.models.Keys <= f.table.Keys + ready
            then g.gen == snapshot.gen && g.seqNo == snapshot.seqNo && g.table.Keys == snapshot.models.Keys
            else g.gen == f.gen && g.seqNo == f.seqNo
  {
  }

  /** What a replica that can resolve every handle does to report the published seq. */
  function Reporting(s: State, id: string): seq<Act>
    requires s.tables.seqNo.Some?
  {
    [Fetch(id), ApplySnapshot(id, s.tables.Current().models.Keys), SendPoll(id), HandlePoll(Poll(id, s.tables.seqNo.value, s.tables.Gen()))]
  }

  /** The replica has the published table, and has just reported it. */
  function Reported(s: State, id: string): State
    requires id in s.followers && s.tables.seqNo.Some?
  {
    s.(followers := s.followers[id := Followed(s.followers[id], s.tables.Current(), s.tables.Current().models.Keys)],
       tables := s.tables.Reported(id, Report(s.tables.seqNo.value, s.tables.Gen(), s.now)),
       polls := s.polls - {Poll(id, s.tables.seqNo.value, s.tables.Gen())})
  }

  lemma ReportsFirst(gateway: string, s: State, id: string)
    requires id in s.followers && id !in s.fetched && s.tables.computed && s.tables.seqNo.Some?
    ensures var ready, u := s.tables.Current().models.Keys,
                            s.(followers := s.followers[id := Followed(s.followers[id], s.tables.Current(), s.tables.Current().models.Keys)]);
            Apply(gateway, s, Fetch(id)).Some? && Apply(gateway, Apply(gateway, s, Fetch(id)).value, ApplySnapshot(id, ready)) == Some(u)
  {
    var fetched := s.fetched[id := s.tables.Current()];
    assert fetched - {id} == s.fetched;
  }

  lemma ReportsThen(gateway: string, s: State, u: State, id: string)
    requires id in s.followers && s.tables.seqNo.Some?
    requires u == s.(followers := s.followers[id := Followed(s.followers[id], s.tables.Current(), s.tables.Current().models.Keys)])
    ensures Apply(gateway, u, SendPoll(id)).Some?
    ensures Apply(gateway, Apply(gateway, u, SendPoll(id)).value, HandlePoll(Poll(id, s.tables.seqNo.value, s.tables.Gen()))) == Some(Reported(s, id))
  {
    var poll := Poll(id, s.tables.seqNo.value, s.tables.Gen());
    assert u.polls + {poll} - {poll} == s.polls - {poll};
  }

  lemma AfterFour(gateway: string, s: State, a: Act, b: Act, c: Act, d: Act)
    requires Apply(gateway, s, a).Some? && Apply(gateway, Apply(gateway, s, a).value, b).Some?
    ensures var u := Apply(gateway, Apply(gateway, s, a).value, b).value;
            Apply(gateway, u, c).Some? ==> After(gateway, s, [a, b, c, d]) == Apply(gateway, Apply(gateway, u, c).value, d)
  {
    assert [a, b, c, d][..3] == [a, b, c] && [a, b, c][..2] == [a, b] && [a, b][..1] == [a] && [a][..0] == [];
    assert After(gateway, s, []) == Some(s) && After(gateway, s, [a]) == Apply(gateway, s, a);
    assert After(gateway, s, [a, b]) == Apply(gateway, Apply(gateway, s, a).value, b);
  }

  /** A replica that can resolve every handle comes to have the published table and to have said so. */
  lemma CatchesUp(gateway: string, s: State, id: string)
    requires id in s.followers && id !in s.fetched && s.tables.computed && s.tables.seqNo.Some?
    ensures After(gateway, s, Reporting(s, id)) == Some(Reported(s, id))
    ensures Reported(s, id).followers[id].table.Keys == s.tables.Current().models.Keys
    ensures id in Reported(s, id).tables.Fresh(s.now) && Reported(s, id).tables.Fresh(s.now)[id].seqNo == s.tables.seqNo.value
  {
    var ready := s.tables.Current().models.Keys;
    ReportsFirst(gateway, s, id);
    ReportsThen(gateway, s, s.(followers := s.followers[id := Followed(s.followers[id], s.tables.Current(), ready)]), id);
    AfterFour(gateway, s, Fetch(id), ApplySnapshot(id, ready), SendPoll(id), HandlePoll(Poll(id, s.tables.seqNo.value, s.tables.Gen())));
  }

  lemma {:induction false} AfterJoin(gateway: string, s: State, first: seq<Act>, more: seq<Act>)
    requires After(gateway, s, first).Some?
    ensures After(gateway, s, first + more) == After(gateway, After(gateway, s, first).value, more)
  {
    if more == [] {
      assert first + more == first;
    } else {
      AfterJoin(gateway, s, first, more[..|more| - 1]);
      assert (first + more)[..|first + more| - 1] == first + more[..|more| - 1];
    }
  }

  /** The replica has reported the published seq not too long ago. */
  predicate Counted(s: State, id: string)
    requires s.tables.seqNo.Some?
  {
    id in s.tables.Fresh(s.now) && s.tables.Fresh(s.now)[id].seqNo == s.tables.seqNo.value
  }

  /** Wherever a table is published and the replicas of the last pass are there and have nothing on its way to them, the gateway
      can come to count as switched: once those in *left*, all but the ones already counted, have caught up. */
  lemma {:induction false} SwitchCompletes(gateway: string, s: State, left: set<string>) returns (acts: seq<Act>)
    requires s.tables.computed && s.tables.seqNo.Some? && left <= s.followers.Keys && left !! s.fetched.Keys
    requires forall id :: id in s.tables.replicas && id !in left ==> Counted(s, id)
    ensures After(gateway, s, acts).Some? && After(gateway, s, acts).value.tables.Switched(After(gateway, s, acts).value.now, s.tables.seqNo.value)
    decreases |left|
  {
    if left == {} {
      acts := [];
      return;
    }
    var id :| id in left;
    CatchesUp(gateway, s, id);
    var t := Reported(s, id);
    forall other | other in t.tables.replicas && other !in left - {id}
      ensures Counted(t, other)
    {
      assert other != id ==> Counted(s, other);
    }
    var more := SwitchCompletes(gateway, t, left - {id});
    acts := Reporting(s, id) + more;
    AfterJoin(gateway, s, Reporting(s, id), more);
  }
}
