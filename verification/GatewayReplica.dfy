/** A gateway replica's routing table, reconciled to the snapshots it fetches. */
module GatewayReplica {
  import opened Wrappers
  import opened GatewayTables

  /** What reconciling *had* to *desired* leaves when only *ready* apps' handles can be resolved. */
  function Reconciled(had: map<string, string>, desired: map<string, string>, ready: set<string>): map<string, string> {
    map app | app in desired && (app in had || app in ready) :: if app in had then had[app] else desired[app]
  }

  /** It routes to exactly the desired apps it had or can resolve now, under the model it had or the desired one. */
  lemma ReconciledIs(had: map<string, string>, desired: map<string, string>, ready: set<string>, app: string)
    ensures var table := Reconciled(had, desired, ready);
            (app in table <==> app in desired && (app in had || app in ready)) &&
            (app in table ==> table[app] == if app in had then had[app] else desired[app])
  {
  }

  /** The table once the *done* ones of the desired apps have been registered, as far as they could be. */
  function Grown(had: map<string, string>, desired: map<string, string>, ready: set<string>, done: set<string>): map<string, string> {
    had + map app | app in desired && app in done && app !in had && app in ready :: desired[app]
  }

  lemma GrownStep(had: map<string, string>, desired: map<string, string>, ready: set<string>, done: set<string>, app: string)
    requires app in desired && app !in done
    ensures Grown(had, desired, ready, done + {app}) ==
              if app !in had && app in ready then Grown(had, desired, ready, done)[app := desired[app]] else Grown(had, desired, ready, done)
    ensures app !in had ==> app !in Grown(had, desired, ready, done)
  {
  }

  /** Registering what is missing and dropping what is stale is reconciling. */
  lemma GrownReconciled(had: map<string, string>, desired: map<string, string>, ready: set<string>)
    ensures Grown(had, desired, ready, desired.Keys) - (had.Keys - desired.Keys) == Reconciled(had, desired, ready)
  {
  }

  /** The table only ever routes to desired apps, however much of the snapshot could be applied. */
  lemma ReconciledWithin(had: map<string, string>, desired: map<string, string>, ready: set<string>)
    ensures Reconciled(had, desired, ready).Keys <= desired.Keys
    ensures desired.Keys <= had.Keys + ready ==> Reconciled(had, desired, ready).Keys == desired.Keys
    ensures Reconciled(Reconciled(had, desired, ready), desired, ready) == Reconciled(had, desired, ready)
  {
  }

  class Replica {
    // model -> its apps, a handle each
    var models: map<string, set<string>>
    // a card per model, in order of registration
    var cards: seq<string>
    var expected: seq<string>
    var gen: nat
    var seqNo: Option<nat>
    // app -> model, of every handle
    ghost var table: map<string, string>

    ghost predicate Valid()
      reads this
    {
      (forall m :: m in models ==> models[m] != {}) &&
      (forall m, app :: m in models && app in models[m] ==> app in table && table[app] == m) &&
      (forall app :: app in table ==> table[app] in models && app in models[table[app]]) &&
      (forall i, j :: 0 <= i < j < |cards| ==> cards[i] != cards[j]) &&
      (forall m :: m in cards <==> m in models)
    }

    function Routed(): (r: set<string>)
      requires Valid()
      reads this
      ensures r == table.Keys
    {
      var r := set m, app | m in models && app in models[m] :: app;
      assert forall app :: app in table ==> app in models[table[app]];
      r
    }

    constructor ()
      ensures Valid() && table == map[] && gen == 0 && seqNo.None?
    {
      models, cards, expected, gen, seqNo, table := map[], [], [], 0, None, map[];
    }

    /** Puts *app* into the table unless its handle can't be resolved yet. */
    method Register(app: string, model: string, ready: bool) returns (ok: bool)
      requires Valid() && app !in Routed()
      modifies `models, `cards, `table
      ensures Valid() && ok == ready
      ensures table == if ready then old(table)[app := model] else old(table)
    {
      if !ready {
        return false;
      }
      if model !in models {
        models := models[model := {}];
        cards := cards + [model];
      }
      models := models[model := models[model] + {app}];
      table := table[app := model];
      ok := true;
    }

    /** Takes *app* out of its model's handles; the model goes with its last one. */
    method Drop(app: string) returns (removed: Option<string>)
      requires Valid()
      modifies `models, `cards, `table
      ensures Valid() && table == old(table) - {app}
      ensures removed.Some? ==> removed.value in old(models) && models.Keys == old(models.Keys) - {removed.value}
      ensures removed.None? ==> models.Keys == old(models.Keys)
    {
      if app !in Routed() {
        return None;
      }
      var m :| m in models && app in models[m];
      table := table - {app};
      var handles := models[m] - {app};
      if handles != {} {
        models := models[m := handles];
        removed := None;
      } else {
        models := models - {m};
        DropCard(m);
        removed := Some(m);
      }
    }

    /** Takes the model's card off the list. */
    method DropCard(m: string)
      requires m in cards && forall i, j :: 0 <= i < j < |cards| ==> cards[i] != cards[j]
      modifies `cards
      ensures forall i, j :: 0 <= i < j < |cards| ==> cards[i] != cards[j]
      ensures forall c :: c in cards <==> c in old(cards) && c != m
    {
      var k :| 0 <= k < |cards| && cards[k] == m;
      CardsWithout(cards, k);
      cards := cards[..k] + cards[k + 1..];
    }

    static lemma CardsWithout(cards: seq<string>, k: nat)
      requires k < |cards| && forall i, j :: 0 <= i < j < |cards| ==> cards[i] != cards[j]
      ensures var rest := cards[..k] + cards[k + 1..];
              (forall i, j :: 0 <= i < j < |rest| ==> rest[i] != rest[j]) && forall c :: c in rest <==> c in cards && c != cards[k]
    {
      var rest := cards[..k] + cards[k + 1..];
      forall c | c in cards && c != cards[k]
        ensures c in rest
      {
        var i :| 0 <= i < |cards| && cards[i] == c;
        assert rest[if i < k then i else i - 1] == c;
      }
    }

    static lemma LessOne(had: map<string, string>, apps: set<string>, left: set<string>, app: string)
      requires app in left && left <= apps
      ensures had - (apps - left) - {app} == had - (apps - (left - {app}))
    {
    }

    /** Drops *apps*; answers the models left without any. */
    method DropApps(apps: set<string>) returns (removed: set<string>)
      requires Valid() == true
      modifies `models, `cards, `table
      ensures Valid() == true && table == old(table) - apps
      ensures models.Keys == old(models.Keys) - removed && removed <= old(models.Keys)
    {
      removed := {};
      var left := apps;
      ghost var had, were := table, models.Keys;
      while left != {}
        invariant Valid() == true && left <= apps && table == had - (apps - left)
        invariant models.Keys == were - removed && removed <= were
        decreases left
      {
        var app :| app in left;
        LessOne(had, apps, left, app);
        left := left - {app};
        var gone := Drop(app);
        if gone.Some? {
          removed := removed + {gone.value};
        }
      }
    }

    /** A desired app's turn: nothing to do once it is routed to. */
    method RegisterOne(app: string, model: string, routed: bool, ready: bool) returns (ok: bool)
      requires Valid() && (!routed ==> app !in table)
      modifies `models, `cards, `table
      ensures Valid() && ok == (routed || ready)
      ensures table == if !routed && ready then old(table)[app := model] else old(table)
    {
      if routed {
        return true;
      }
      ok := Register(app, model, ready);
    }

    /** Registers each desired app not routed to yet; answers those that couldn't be. */
    method RegisterMissing(desired: map<string, string>, ready: set<string>) returns (failed: set<string>)
      requires Valid()
      modifies `models, `cards, `table
      ensures Valid() && table == Grown(old(table), desired, ready, desired.Keys)
      ensures forall app :: app in failed <==> app in desired && app !in old(table) && app !in ready
    {
      var routed := Routed();
      ghost var had := table;
      failed := {};
      var done: set<string> := {};
      while done != desired.Keys
        invariant Valid() && done <= desired.Keys
        invariant table == Grown(had, desired, ready, done)
        invariant forall app :: app in failed <==> app in done && app !in had && app !in ready
        decreases desired.Keys - done
      {
        var app :| app in desired && app !in done;
        var registered := RegisterOne(app, desired[app], app in routed, app in ready);
        GrownStep(had, desired, ready, done, app);
        done := done + {app};
        if !registered {
          failed := failed + {app};
        }
      }
    }

    /** Reconciles the table to *desired*, as far as the apps' handles can be resolved; false when one couldn't be. */
    method ApplyRouting(desired: map<string, string>, ready: set<string>) returns (ok: bool)
      requires Valid()
      modifies `models, `cards, `table
      ensures Valid() && table == Reconciled(old(table), desired, ready)
      ensures ok <==> desired.Keys <= old(table).Keys + ready
      ensures forall app :: app in table <==> app in desired && (app in old(table) || app in ready)
      ensures forall app :: app in table ==> table[app] == if app in old(table) then old(table)[app] else desired[app]
    {
      var routed := Routed();
      var failed := RegisterMissing(desired, ready);
      var removed := DropApps(routed - desired.Keys);
      GrownReconciled(old(table), desired, ready);
      ok := failed == {};
    }

    /** Applies a snapshot; its generation and seq are taken over only when all of it could be. */
    method ApplySnapshot(snapshot: Snapshot, ready: set<string>) returns (ok: bool)
      requires Valid()
      modifies this
      ensures Valid() && table == Reconciled(old(table), snapshot.models, ready) && expected == snapshot.expected
      ensures ok <==> snapshot.models.Keys <= old(table).Keys + ready
      ensures if ok then gen == snapshot.gen && seqNo == snapshot.seqNo else gen == old(gen) && seqNo == old(seqNo)
    {
      expected := snapshot.expected;
      ok := ApplyRouting(snapshot.models, ready);
      if ok {
        gen, seqNo := snapshot.gen, snapshot.seqNo;
      }
    }
  }
}
