/** The deploy coordinator's per-node deploy leases: replicas sharing a node load their models one at a time. */
module NodeLeases {
  import opened Wrappers

  /** The holder's Serve replica. */
  type Lease = string

  /** What the coordinator remembers of one node: its lease, and checks in a row that didn't list its replica. */
  datatype Memory = Memory(held: Option<Lease>, unlisted: nat)

  const UNLISTED_CHECKS := 2

  /** An acquire up to its store write: refused, granted at once to the lease's own holder, or to be stored first. */
  datatype Reply = Refused(holder: Lease) | Again | ToStore

  /** How Serve lists a replica. */
  datatype Listing = Unlisted | Starting | Running

  function ReplyTo(m: Memory, lease: Lease): Reply {
    if m.held.None? then ToStore else if m.held.value == lease then Again else Refused(m.held.value)
  }

  function Asked(m: Memory, lease: Lease): Memory { if m.held.None? then Memory(Some(lease), 0) else m }

  function WriteFailed(m: Memory, lease: Lease): Memory { if m.held == Some(lease) then m.(held := None) else m }

  /** Whether a check frees *lease*, listed as *listing*. */
  predicate Frees(m: Memory, listing: Listing) { listing.Running? || (listing.Unlisted? && m.unlisted + 1 >= UNLISTED_CHECKS) }

  function Checked(m: Memory, listing: Listing): Memory {
    match listing
    case Unlisted => m.(unlisted := m.unlisted + 1)
    case Starting => m.(unlisted := 0)
    case Running => m
  }

  /** The end of a release: its store key has gone first. */
  function Released(m: Memory, lease: Lease): Memory { Memory(if m.held == Some(lease) then None else m.held, 0) }

  /** What the coordinator remembers after checks that found the replica listed so, one after the other. */
  function Watched(m: Memory, listings: seq<Listing>): Memory {
    if listings == [] then m else Checked(Watched(m, listings[..|listings| - 1]), listings[|listings| - 1])
  }

  lemma {:induction false} WatchedCounts(m: Memory, listings: seq<Listing>)
    requires m.unlisted == 0 && Running !in listings
    ensures Watched(m, listings).held == m.held
    ensures Watched(m, listings).unlisted >= 1 <==> listings != [] && listings[|listings| - 1] == Unlisted
    ensures listings != [] && listings[|listings| - 1] == Starting ==> Watched(m, listings).unlisted == 0
  {
    if listings != [] {
      WatchedCounts(m, listings[..|listings| - 1]);
    }
  }

  /** From its grant on, a lease is freed by the first check that finds its replica RUNNING, or doesn't find it as the check
      before didn't; and by no other. */
  lemma FreedExactly(key: Lease, listings: seq<Listing>, now: Listing)
    requires Running !in listings
    ensures var m := Watched(Asked(Memory(None, 0), key), listings);
            m.held == Some(key) &&
            (Frees(m, now) <==> now == Running || (now == Unlisted && listings != [] && listings[|listings| - 1] == Unlisted))
  {
    WatchedCounts(Asked(Memory(None, 0), key), listings);
  }

  /** Who is answered what, before and after a lease is given up. */
  lemma AskedAnswers(m: Memory, lease: Lease, other: Lease)
    requires m.held.None? && other != lease
    ensures var held := Asked(m, lease);
            ReplyTo(m, lease) == ToStore && ReplyTo(held, lease) == Again && ReplyTo(held, other) == Refused(lease) &&
            ReplyTo(Released(held, lease), other) == ToStore && ReplyTo(WriteFailed(held, lease), other) == ToStore &&
            ReplyTo(Released(held, other), other) == Refused(lease) && ReplyTo(WriteFailed(held, other), other) == Refused(lease)
  {
  }

  class LeaseTable {
    var leases: map<string, Lease>
    var unlisted: map<string, nat>

    constructor ()
      ensures forall key :: Of(key) == Memory(None, 0)
    {
      leases, unlisted := map[], map[];
    }

    function Of(key: string): Memory
      reads this
    {
      Memory(if key in leases then Some(leases[key]) else None, if key in unlisted then unlisted[key] else 0)
    }

    /** An acquire up to its store write. */
    method Acquire(key: string, lease: Lease) returns (r: Reply)
      modifies this
      ensures r == ReplyTo(old(Of(key)), lease) && Of(key) == Asked(old(Of(key)), lease)
      ensures forall other :: other != key ==> Of(other) == old(Of(other))
    {
      if key in leases {
        return if leases[key] == lease then Again else Refused(leases[key]);
      }
      leases := leases[key := lease];
      unlisted := unlisted - {key};
      return ToStore;
    }

    method StoreFailed(key: string, lease: Lease)
      modifies this
      ensures Of(key) == WriteFailed(old(Of(key)), lease)
      ensures forall other :: other != key ==> Of(other) == old(Of(other))
    {
      if key in leases && leases[key] == lease {
        leases := leases - {key};
      }
    }

    /** One lease's turn in a check. */
    method Check(key: string, listing: Listing) returns (free: bool)
      modifies this
      ensures free == Frees(old(Of(key)), listing) && Of(key) == Checked(old(Of(key)), listing)
      ensures free <==> listing == Running || (listing == Unlisted && key in old(unlisted) && old(unlisted)[key] >= 1)
      ensures forall other :: other != key ==> Of(other) == old(Of(other))
    {
      if listing.Unlisted? {
        unlisted := unlisted[key := (if key in unlisted then unlisted[key] else 0) + 1];
        return unlisted[key] >= UNLISTED_CHECKS;
      } else if listing != Listing.Running {
        unlisted := unlisted - {key};
        return false;
      }
      return true;
    }

    method Release(key: string, lease: Lease)
      modifies this
      ensures Of(key) == Released(old(Of(key)), lease)
      ensures forall other :: other != key ==> Of(other) == old(Of(other))
    {
      if key in leases && leases[key] == lease {
        leases := leases - {key};
      }
      unlisted := unlisted - {key};
    }
  }
}
