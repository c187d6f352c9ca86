/** The download lease service: one lease per key, reaped once it expires and freed once its holder's leftovers are gone. */
module DownloadLeases {
  import opened Wrappers

  const LEASE_SECONDS := 30.0
  const RENEW_SECONDS := 10.0
  const RPC_TIMEOUT := 5.0
  const IDLE_EXIT_SECONDS := 60.0

  datatype Lease = Lease(holder: string, expires: real, cleaning: bool)

  /** What keeps a key from being granted. */
  datatype Blocker = ShuttingDown | Starting | CleaningUp(holder: string) | HeldBy(holder: string)

  datatype Service = Service(leases: map<string, Lease>, grantsFrom: real, lastCall: real, closing: bool)
  {
    function Blocks(key: string, now: real): Option<Blocker> {
      if closing then Some(ShuttingDown)
      else if now < grantsFrom then Some(Starting)
      else if key in leases then Some(if leases[key].cleaning then CleaningUp(leases[key].holder) else HeldBy(leases[key].holder))
      else None
    }

    function Acquire(key: string, holder: string, now: real): Service {
      var t := this.(lastCall := now);
      if Blocks(key, now).Some? then t else t.(leases := leases[key := Lease(holder, now + LEASE_SECONDS, false)])
    }

    /** Whether *holder* holds *key*, and its leftovers aren't being removed. */
    predicate Holds(key: string, holder: string) { key in leases && !leases[key].cleaning && leases[key].holder == holder }

    function Renew(key: string, holder: string, now: real): Service {
      var t := this.(lastCall := now);
      if Holds(key, holder) then t.(leases := leases[key := leases[key].(expires := now + LEASE_SECONDS)]) else t
    }

    function Release(key: string, holder: string, now: real): Service {
      var t := this.(lastCall := now);
      if Holds(key, holder) then t.(leases := leases - {key}) else t
    }

    predicate Expired(key: string, now: real) { key in leases && !leases[key].cleaning && leases[key].expires <= now }

    /** Every expired lease is marked; one cleanup starts for each. */
    function Reap(now: real): Service {
      this.(leases := map key | key in leases :: if Expired(key, now) then leases[key].(cleaning := true) else leases[key])
    }

    predicate Idle(now: real) { leases == map[] && now - lastCall >= IDLE_EXIT_SECONDS }

    function Cleaned(key: string, now: real): Service { this.(leases := leases - {key}, lastCall := now) }
  }

  function Fresh(now: real): Service { Service(map[], now + LEASE_SECONDS, now, false) }

  class LeaseService {
    var leases: map<string, Lease>
    var grantsFrom: real
    var lastCall: real
    var closing: bool
    // the keys whose cleanup task runs
    var cleanups: set<string>

    function View(): Service
      reads this
    {
      Service(leases, grantsFrom, lastCall, closing)
    }

    /** A cleanup runs for exactly the leases marked cleaning, so it always finds its own. */
    predicate Valid()
      reads this
    {
      cleanups == set key | key in leases && leases[key].cleaning
    }

    constructor (now: real)
      ensures Valid() && View() == Fresh(now) && leases == map[] && grantsFrom == now + 30.0 && !closing
    {
      leases, grantsFrom, lastCall, closing, cleanups := map[], now + LEASE_SECONDS, now, false, {};
    }

    method Acquire(key: string, holder: string, now: real) returns (r: Option<Blocker>)
      requires Valid()
      modifies this
      ensures Valid() && View() == old(View()).Acquire(key, holder, now) && r == old(View()).Blocks(key, now)
      ensures r.None? <==> !closing && now >= grantsFrom && key !in old(leases)
      ensures leases == if r.None? then old(leases)[key := Lease(holder, now + 30.0, false)] else old(leases)
      ensures cleanups == old(cleanups)
    {
      lastCall := now;
      if closing {
        return Some(ShuttingDown);
      }
      if now < grantsFrom {
        return Some(Starting);
      }
      if key in leases {
        return Some(if leases[key].cleaning then CleaningUp(leases[key].holder) else HeldBy(leases[key].holder));
      }
      leases := leases[key := Lease(holder, now + LEASE_SECONDS, false)];
      return None;
    }

    method Renew(key: string, holder: string, now: real) returns (ok: bool)
      requires Valid()
      modifies this
      ensures Valid() && View() == old(View()).Renew(key, holder, now) && ok == old(View()).Holds(key, holder)
      ensures ok <==> key in old(leases) && old(leases)[key].holder == holder && !old(leases)[key].cleaning
      ensures leases == if ok then old(leases)[key := Lease(holder, now + 30.0, false)] else old(leases)
      ensures cleanups == old(cleanups)
    {
      lastCall := now;
      if key !in leases || leases[key].cleaning || leases[key].holder != holder {
        return false;
      }
      leases := leases[key := leases[key].(expires := now + LEASE_SECONDS)];
      return true;
    }

    method Release(key: string, holder: string, now: real)
      requires Valid()
      modifies this
      ensures Valid() && View() == old(View()).Release(key, holder, now) && cleanups == old(cleanups)
      ensures leases == if key in old(leases) && old(leases)[key].holder == holder && !old(leases)[key].cleaning then old(leases) - {key} else old(leases)
    {
      lastCall := now;
      if key in leases && !leases[key].cleaning && leases[key].holder == holder {
        leases := leases - {key};
      }
    }

    /** Marks each expired lease and starts its cleanup; closes an idle service. */
    method Reap(now: real)
      requires Valid()
      modifies this
      ensures Valid() && leases == old(View()).Reap(now).leases && grantsFrom == old(grantsFrom) && lastCall == old(lastCall)
      ensures cleanups == old(cleanups) + set key | key in old(leases) && old(View()).Expired(key, now)
      ensures closing == (old(closing) || old(View()).Idle(now))
      ensures closing <==> old(closing) || (old(leases) == map[] && now - lastCall >= 60.0)
      ensures forall key :: key in leases <==> key in old(leases)
      ensures forall key :: key in leases ==>
                leases[key] == old(leases)[key].(cleaning := old(leases)[key].cleaning || old(leases)[key].expires <= now)
    {
      var left := leases.Keys;
      while left != {}
        invariant Valid() && left <= leases.Keys == old(leases).Keys
        invariant lastCall == old(lastCall) && grantsFrom == old(grantsFrom) && closing == old(closing)
        invariant forall key :: key in left ==> leases[key] == old(leases)[key]
        invariant forall key :: key in leases && key !in left ==> leases[key] == old(View()).Reap(now).leases[key]
        decreases left
      {
        var key :| key in left;
        left := left - {key};
        if !leases[key].cleaning && leases[key].expires <= now {
          leases := leases[key := leases[key].(cleaning := true)];
          cleanups := cleanups + {key};
        }
      }
      assert leases == old(View()).Reap(now).leases;
      if !closing && leases == map[] && now - lastCall >= IDLE_EXIT_SECONDS {
        closing := true;
      }
    }

    /** The end of a cleanup, whether or not the leftovers could be removed: its lease is there to free. */
    method Clean(key: string, now: real)
      requires Valid() && key in cleanups
      modifies this
      ensures Valid() && key in old(leases) && old(leases)[key].cleaning
      ensures View() == old(View()).Cleaned(key, now) && cleanups == old(cleanups) - {key}
    {
      leases := leases - {key};
      cleanups := cleanups - {key};
      lastCall := now;
    }
  }

  /** A key under cleanup is neither granted, renewed nor released: its lease stays as it is until the cleanup ends. */
  lemma CleaningStays(s: Service, key: string, other: string, holder: string, now: real)
    requires key in s.leases && s.leases[key].cleaning
    ensures s.Blocks(key, now).Some?
    ensures forall t :: t in {s.Acquire(other, holder, now), s.Renew(other, holder, now), s.Release(other, holder, now), s.Reap(now)} ==>
              key in t.leases && t.leases[key] == s.leases[key]
  {
  }
}
