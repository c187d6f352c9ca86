/** One gateway's slice of the deploy coordinator: its queue, its running request and its routing version. */
module Coordinator {
  import opened Wrappers
  import opened Ledger
  import opened DeployDiff

  datatype Phase = Queued | Applying | Switching | Committing | Retiring | RollingBack

  datatype Entry = Entry(
    id: nat,
    request: Request,
    phase: Phase,
    // a cancel was accepted
    cancelled: bool,
    // and its worker has learned of it
    cancelSeen: bool,
    // a switch of it was let through, whether or not it was rolled back since
    switched: bool)

  datatype Outcome = Succeeded | Failed | Cancelled

  /** What the gateway coordinator routes by; *models* is None without a committed version. */
  datatype Routing = Routing(seqNo: nat, models: Option<seq<Model>>)

  /** What a commit call is answered before any write. */
  datatype CommitReply = Refused | NothingWritten | Writing

  datatype Coord = Coord(
    queue: seq<Entry>,
    running: Option<Entry>,
    routing: Option<Routing>,
    seqNo: nat,
    nextId: nat,
    drainer: bool,
    outcomes: map<nat, Outcome>)
  {
    ghost predicate Valid() {
      (forall i, j :: 0 <= i < j < |queue| ==> queue[i].id < queue[j].id) &&
      (forall i :: 0 <= i < |queue| ==> queue[i].id < nextId && queue[i].phase == Queued && !queue[i].cancelled && queue[i].id !in outcomes) &&
      (running.Some? ==> running.value.phase != Queued && running.value.id < nextId && running.value.id !in outcomes) &&
      (running.Some? ==> forall i :: 0 <= i < |queue| ==> running.value.id < queue[i].id) &&
      (forall id :: id in outcomes ==> id < nextId) &&
      (routing.Some? ==> routing.value.seqNo <= seqNo) &&
      (queue != [] || running.Some? ==> drainer)
    }

    predicate Runs(id: nat) { running.Some? && running.value.id == id }

    /** Whether a switch, commit or diff call of request *id* is let through. */
    predicate Accepts(id: nat) { Runs(id) && running.value.phase != RollingBack }

    function Submit(request: Request): Coord {
      this.(queue := queue + [Entry(nextId, request, Queued, false, false, false)], nextId := nextId + 1, drainer := true)
    }

    function IndexOf(id: nat): (i: nat)
      ensures i <= |queue| && (i < |queue| ==> queue[i].id == id)
      ensures forall k :: 0 <= k < i ==> queue[k].id != id
    {
      Position(queue, id)
    }

    predicate CancelAccepted(id: nat) {
      IndexOf(id) < |queue| ||
      (Runs(id) && running.value.phase !in {Committing, Retiring} && (running.value.phase == RollingBack ==> running.value.cancelled))
    }

    function Cancel(id: nat): Coord {
      var i := IndexOf(id);
      if i < |queue| then this.(queue := queue[..i] + queue[i + 1..], outcomes := outcomes[id := Cancelled])
      else if CancelAccepted(id) then this.(running := Some(running.value.(cancelled := true)))
      else this
    }

    predicate ToldCancelled(id: nat) { Runs(id) ==> running.value.cancelled }

    function Told(id: nat): Coord {
      if Runs(id) && running.value.cancelled then this.(running := Some(running.value.(cancelSeen := true))) else this
    }

    function MarkRollingBack(id: nat): Coord {
      if Runs(id) then this.(running := Some(running.value.(phase := RollingBack))) else this
    }

    function Switch(id: nat, models: seq<Model>): Coord {
      if !Accepts(id) then this else
        this.(running := Some(running.value.(phase := Switching, switched := true)),
              seqNo := seqNo + 1, routing := Some(Routing(seqNo + 1, Some(models))))
    }

    /** Routes by *committed* again, under a new seq unless that is what it routes by. */
    function Reset(committed: Option<seq<Model>>): Coord {
      if routing.Some? && routing.value.models == committed then this
      else this.(seqNo := seqNo + 1, routing := Some(Routing(seqNo + 1, committed)))
    }

    /** The first routing version of a gateway that has none; kept if one was set meanwhile. */
    function RouteIfAbsent(committed: Option<seq<Model>>): Coord {
      if routing.Some? then this else this.(seqNo := seqNo + 1, routing := Some(Routing(seqNo + 1, committed)))
    }

    function CommitReplyTo(id: nat): CommitReply {
      if !Accepts(id) then Refused else if running.value.cancelled then NothingWritten else Writing
    }

    function CommitBegin(id: nat): Coord {
      if CommitReplyTo(id) == Writing then this.(running := Some(running.value.(phase := Committing))) else this
    }

    function CommitEnd(id: nat): Coord {
      if Runs(id) then this.(running := Some(running.value.(phase := Retiring))) else this
    }

    function StartNext(): Coord {
      if running.Some? || queue == [] then this
      else this.(queue := queue[1..], running := Some(queue[0].(phase := Applying)))
    }

    /** The worker is seen dead: unless its commit was let through, later calls of it are refused. */
    function NoticeDeath(): Coord {
      if running.Some? && running.value.phase !in {Committing, Retiring} then
        this.(running := Some(running.value.(phase := RollingBack)))
      else this
    }

    /** What a request whose worker died comes out as, once its rollback has ended. */
    function OutcomeAfterDeath(): Outcome
      requires running.Some?
    {
      if running.value.phase == Retiring then Succeeded else if running.value.cancelled then Cancelled else Failed
    }

    function Finish(outcome: Outcome): Coord {
      if running.Some? then this.(running := None, outcomes := outcomes[running.value.id := outcome]) else this
    }

    function EndDrain(): Coord {
      if queue == [] && running.None? then this.(drainer := false) else this
    }
  }

  function Position(queue: seq<Entry>, id: nat): (i: nat)
    ensures i <= |queue| && (i < |queue| ==> queue[i].id == id)
    ensures forall k :: 0 <= k < i ==> queue[k].id != id
  {
    if queue == [] || queue[0].id == id then 0 else 1 + Position(queue[1..], id)
  }

  lemma SubmitValid(c: Coord, request: Request)
    requires c.Valid()
    ensures c.Submit(request).Valid()
  {
  }

  lemma CancelValid(c: Coord, id: nat)
    requires c.Valid()
    ensures c.Cancel(id).Valid()
  {
  }

  lemma StartValid(c: Coord)
    requires c.Valid()
    ensures c.StartNext().Valid()
  {
  }

  lemma FinishValid(c: Coord, outcome: Outcome)
    requires c.Valid()
    ensures c.Finish(outcome).Valid()
  {
  }

  /** The coordinator's fields for one gateway, and its await-free handlers. */
  class GatewayDeploys {
    var queue: seq<Entry>
    var running: Option<Entry>
    var routing: Option<Routing>
    var seqNo: nat
    var nextId: nat
    var drainer: bool
    var outcomes: map<nat, Outcome>

    function View(): Coord
      reads this
    {
      Coord(queue, running, routing, seqNo, nextId, drainer, outcomes)
    }

    ghost predicate Valid()
      reads this
    {
      View().Valid()
    }

    constructor (clock: nat)
      ensures Valid() && View() == Coord([], None, None, clock, 0, false, map[])
    {
      queue, running, routing, seqNo, nextId, drainer, outcomes := [], None, None, clock, 0, false, map[];
    }

    /** Queues *request*; answers its id and the request it waits behind. A drain starts unless one is running. */
    method Submit(request: Request) returns (id: nat, behind: Option<nat>)
      requires Valid()
      modifies this
      ensures Valid() && View() == old(View()).Submit(request)
      ensures id == old(nextId) && id !in old(outcomes)
      ensures behind.Some? <==> old(queue) != [] || old(running).Some?
      ensures behind.Some? ==> behind.value < id
      ensures drainer
    {
      id := nextId;
      behind := if queue != [] then Some(queue[|queue| - 1].id)
                else if running.Some? then Some(running.value.id) else None;
      nextId := nextId + 1;
      queue := queue + [Entry(id, request, Queued, false, false, false)];
      if !drainer {
        drainer := true;
      }
    }

    /** Drops a queued request, or flags a running one that hasn't begun to commit and isn't rolling back by itself. */
    method Cancel(id: nat) returns (accepted: bool)
      requires Valid()
      modifies this
      ensures Valid() == true && View() == old(View()).Cancel(id)
      ensures accepted == old(View()).CancelAccepted(id)
      ensures accepted <==> (exists k :: 0 <= k < |old(queue)| && old(queue)[k].id == id) ||
                            (old(View()).Runs(id) && (old(running).value.phase in {Applying, Switching} ||
                                                      (old(running).value.phase == RollingBack && old(running).value.cancelled)))
      ensures !accepted ==> View() == old(View())
      ensures accepted ==> (id in outcomes && outcomes[id] == Cancelled && !View().Runs(id)) || (View().Runs(id) && running.value.cancelled)
    {
      CancelValid(View(), id);
      var i := Position(queue, id);
      if i < |queue| {
        queue := queue[..i] + queue[i + 1..];
        outcomes := outcomes[id := Cancelled];
        return true;
      }
      if running.None? || running.value.id != id {
        return false;
      }
      var entry := running.value;
      if entry.phase == Committing || entry.phase == Retiring {
        return false;
      }
      if entry.phase == RollingBack && !entry.cancelled {
        return false;
      }
      if !entry.cancelled {
        running := Some(entry.(cancelled := true));
      }
      return true;
    }

    method IsCancelled(id: nat) returns (cancelled: bool)
      requires Valid()
      modifies this
      ensures Valid() && View() == old(View()).Told(id) && cancelled == old(View()).ToldCancelled(id)
      ensures !cancelled <==> old(View()).Runs(id) && !old(running).value.cancelled
      ensures View().Runs(id) ==> running.value.cancelSeen == (cancelled || old(running).value.cancelSeen)
    {
      if running.None? || running.value.id != id {
        return true;
      }
      cancelled := running.value.cancelled;
      if cancelled {
        running := Some(running.value.(cancelSeen := true));
      }
    }

    method RollingBackNow(id: nat)
      requires Valid()
      modifies this
      ensures Valid() && View() == old(View()).MarkRollingBack(id)
    {
      if running.Some? && running.value.id == id {
        running := Some(running.value.(phase := RollingBack));
      }
    }

    /** Routes by *models* under a seq no routing had before; None, changing nothing, when the call is refused. */
    method Switch(id: nat, models: seq<Model>) returns (r: Option<nat>)
      requires Valid()
      modifies this
      ensures Valid() && View() == old(View()).Switch(id, models)
      ensures r.Some? <==> old(View()).Accepts(id)
      ensures r.Some? ==> routing == Some(Routing(r.value, Some(models))) && (old(routing).Some? ==> old(routing).value.seqNo < r.value)
    {
      if running.None? || running.value.id != id || running.value.phase == RollingBack {
        return None;
      }
      running := Some(running.value.(phase := Switching, switched := true));
      seqNo := seqNo + 1;
      routing := Some(Routing(seqNo, Some(models)));
      return Some(seqNo);
    }

    /** The rest of a reset once the committed version has been read under the version lock. */
    method ResetRouting(committed: Option<seq<Model>>) returns (r: nat)
      requires Valid()
      modifies this
      ensures Valid() && View() == old(View()).Reset(committed)
      ensures routing == Some(Routing(r, committed))
    {
      if routing.None? || routing.value.models != committed {
        seqNo := seqNo + 1;
        routing := Some(Routing(seqNo, committed));
      }
      return routing.value.seqNo;
    }

    /** A commit call up to the version lock: refused, answered None for a cancelled request, or let through to write. */
    method CommitBegin(id: nat) returns (r: CommitReply)
      requires Valid()
      modifies this
      ensures Valid() && View() == old(View()).CommitBegin(id) && r == old(View()).CommitReplyTo(id)
      ensures r == Writing ==> View().Runs(id) && !running.value.cancelled && !View().CancelAccepted(id)
    {
      if running.None? || running.value.id != id || running.value.phase == RollingBack {
        return Refused;
      }
      if running.value.cancelled {
        return NothingWritten;
      }
      running := Some(running.value.(phase := Committing));
      r := Writing;
      assert forall i :: 0 <= i < |queue| ==> queue[i].id != id;
    }

    method CommitEnd(id: nat)
      requires Valid()
      modifies this
      ensures Valid() && View() == old(View()).CommitEnd(id)
      ensures View().Runs(id) ==> running.value.phase == Retiring
    {
      if running.Some? && running.value.id == id {
        running := Some(running.value.(phase := Retiring));
      }
    }

    /** The drain loop's head: the oldest queued request starts, or the drain ends with nothing queued behind it. */
    method DrainNext() returns (more: bool)
      requires Valid() && running.None? && drainer
      modifies this
      ensures Valid() && more == (old(queue) != [])
      ensures View() == if more then old(View()).StartNext() else old(View()).EndDrain()
    {
      if queue == [] {
        drainer := false;
        return false;
      }
      running := Some(queue[0].(phase := Applying));
      queue := queue[1..];
      return true;
    }

    /** Sets the running request's outcome; nothing else ever set it. */
    method Finish(outcome: Outcome)
      requires Valid() && running.Some?
      modifies this
      ensures Valid() && View() == old(View()).Finish(outcome)
      ensures old(running).value.id !in old(outcomes) && outcomes[old(running).value.id] == outcome
    {
      outcomes := outcomes[running.value.id := outcome];
      running := None;
    }

    method NoticeDeath()
      requires Valid()
      modifies this
      ensures Valid() && View() == old(View()).NoticeDeath()
      ensures running.Some? ==> running.value.phase == if old(running).value.phase in {Committing, Retiring} then old(running).value.phase else RollingBack
    {
      if running.Some? && running.value.phase != Committing && running.value.phase != Retiring {
        running := Some(running.value.(phase := RollingBack));
      }
    }
  }
}
