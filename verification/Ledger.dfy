/** A gateway's model sets and versions: the fold of a request into the committed set, and what a commit writes. */
module Ledger {
  import opened Wrappers
  import opened AppNames

  /** The autoscaling fields as a config gives them; unset tunables are absent from *tuning*. */
  datatype Autoscaling = Autoscaling(minReplicas: nat, maxReplicas: nat, tuning: map<string, real>)

  /** A config's replica-count fields. */
  datatype Scaling = Scaling(numReplicas: nat, autoscaling: Option<Autoscaling>)

  /** One raw model dict: its name, the fingerprint of what drives placement, its replica-count fields and the rest. */
  datatype Model = Model(name: string, fingerprint: Fingerprint, scaling: Scaling, rest: int)

  function AppOf(gateway: string, m: Model): App {
    App(gateway, m.name, m.fingerprint)
  }

  function Names(models: seq<Model>): set<string> {
    set m | m in models :: m.name
  }

  function Apps(gateway: string, models: seq<Model>): set<App> {
    set m | m in models :: AppOf(gateway, m)
  }

  ghost predicate UniqueNames(models: seq<Model>) {
    forall i, j :: 0 <= i < j < |models| ==> models[i].name != models[j].name
  }

  lemma NamePins(models: seq<Model>, a: Model, b: Model)
    requires UniqueNames(models) && a in models && b in models && a.name == b.name
    ensures a == b
  {
    var i :| 0 <= i < |models| && models[i] == a;
    var j :| 0 <= j < |models| && models[j] == b;
    assert i == j;
  }

  /** A repeated name in a request, with the same fingerprint or with another. */
  datatype Duplicate = SameConfig(name: string) | OtherConfig(name: string)

  /** The unique-name check a request's models pass before anything else reads them. */
  method CheckUniqueNames(models: seq<Model>) returns (r: Option<Duplicate>)
    ensures r.None? <==> UniqueNames(models)
    ensures r.Some? ==> exists i, j :: 0 <= i < j < |models| && models[i].name == models[j].name == r.value.name &&
                                       (r.value.SameConfig? <==> models[i].fingerprint == models[j].fingerprint)
  {
    var seen: map<string, Fingerprint> := map[];
    for k := 0 to |models|
      invariant UniqueNames(models[..k])
      invariant forall i :: 0 <= i < k ==> models[i].name in seen && seen[models[i].name] == models[i].fingerprint
      invariant forall name :: name in seen ==> exists i :: 0 <= i < k && models[i].name == name
    {
      var m := models[k];
      if m.name in seen {
        var i :| 0 <= i < k && models[i].name == m.name;
        return Some(if seen[m.name] == m.fingerprint then SameConfig(m.name) else OtherConfig(m.name));
      }
      seen := seen[m.name := m.fingerprint];
    }
    assert models[..|models|] == models;
    return None;
  }

  datatype Mode = Additive | Reconcile

  function Without(models: seq<Model>, name: string): (r: seq<Model>)
    ensures forall m :: m in r <==> m in models && m.name != name
  {
    if models == [] then [] else
      (if models[0].name == name then [] else [models[0]]) + Without(models[1..], name)
  }

  function IndexOfApp(models: seq<Model>, name: string, fingerprint: Fingerprint): (i: nat)
    ensures i <= |models|
    ensures i < |models| ==> models[i].name == name && models[i].fingerprint == fingerprint
    ensures forall k :: 0 <= k < i ==> !(models[k].name == name && models[k].fingerprint == fingerprint)
  {
    if models == [] || (models[0].name == name && models[0].fingerprint == fingerprint) then 0
    else 1 + IndexOfApp(models[1..], name, fingerprint)
  }

  /** One entry of the input folded in: onto its own app's entry where there is one, else in place of its name's. */
  function Override(models: seq<Model>, d: Model): seq<Model> {
    var i := IndexOfApp(models, d.name, d.fingerprint);
    if i < |models| then models[i := d] else Without(models, d.name) + [d]
  }

  function Overridden(models: seq<Model>, input: seq<Model>): seq<Model> {
    if input == [] then models else Override(Overridden(models, input[..|input| - 1]), input[|input| - 1])
  }

  function Merged(committed: seq<Model>, input: seq<Model>, mode: Mode): seq<Model> {
    if mode == Reconcile then input else Overridden(committed, input)
  }

  // --- What the fold means ---

  lemma WithoutKeepsUnique(models: seq<Model>, name: string)
    requires UniqueNames(models)
    ensures UniqueNames(Without(models, name))
    ensures name !in Names(models) ==> Without(models, name) == models
  {
    if models != [] {
      WithoutKeepsUnique(models[1..], name);
      var rest := Without(models[1..], name);
      forall j | 0 <= j < |rest|
        ensures rest[j].name != models[0].name
      {
        assert rest[j] in models[1..];
      }
      assert name !in Names(models) ==> models[0].name != name && Names(models[1..]) <= Names(models);
    }
  }

  lemma OverrideMeans(models: seq<Model>, d: Model)
    requires UniqueNames(models)
    ensures UniqueNames(Override(models, d))
    ensures forall m :: m in Override(models, d) <==> m == d || (m in models && m.name != d.name)
  {
    var i := IndexOfApp(models, d.name, d.fingerprint);
    if i < |models| {
      var r := models[i := d];
      forall m | m in models && m.name != d.name
        ensures m in r
      {
        var k :| 0 <= k < |models| && models[k] == m;
        assert r[k] == m;
      }
      assert r[i] == d;
    } else {
      WithoutKeepsUnique(models, d.name);
      var rest := Without(models, d.name);
      forall k | 0 <= k < |rest|
        ensures rest[k].name != d.name
      {
        assert rest[k] in rest;
      }
    }
  }

  /** The fold is name-wise override: the input's entries, and the committed ones whose name the input doesn't use. */
  lemma {:induction false} OverriddenMeans(models: seq<Model>, input: seq<Model>)
    requires UniqueNames(models) && UniqueNames(input)
    ensures UniqueNames(Overridden(models, input))
    ensures forall m :: m in Overridden(models, input) <==> m in input || (m in models && m.name !in Names(input))
  {
    if input != [] {
      var head, d := input[..|input| - 1], input[|input| - 1];
      assert input == head + [d];
      OverriddenMeans(models, head);
      OverrideMeans(Overridden(models, head), d);
      assert Names(input) == Names(head) + {d.name};
      forall m | m in head
        ensures m.name != d.name
      {
        var k :| 0 <= k < |head| && head[k] == m;
        assert input[k] == m;
      }
    }
  }

  lemma OverrideAgain(models: seq<Model>, d: Model)
    requires UniqueNames(models) && d in models
    ensures Override(models, d) == models
  {
    var i := IndexOfApp(models, d.name, d.fingerprint);
    var k :| 0 <= k < |models| && models[k] == d;
    assert i <= k;
  }

  lemma {:induction false} OverriddenAgain(models: seq<Model>, input: seq<Model>)
    requires UniqueNames(models) && forall d :: d in input ==> d in models
    ensures Overridden(models, input) == models
  {
    if input != [] {
      OverriddenAgain(models, input[..|input| - 1]);
      OverrideAgain(models, input[|input| - 1]);
    }
  }

  /** Merging the same input twice gives the identical list, entry order included, in either mode. */
  lemma MergeTwice(committed: seq<Model>, input: seq<Model>, mode: Mode)
    requires UniqueNames(committed) && UniqueNames(input)
    ensures Merged(Merged(committed, input, mode), input, mode) == Merged(committed, input, mode)
  {
    if mode == Additive {
      OverriddenMeans(committed, input);
      OverriddenAgain(Overridden(committed, input), input);
    }
  }

  // --- The order of what a merge leaves ---

  /** A committed entry after the merge: the input's entry of its app, or none where its name has another app there, or itself. */
  function Kept(m: Model, input: seq<Model>): seq<Model> {
    var i := IndexOfApp(input, m.name, m.fingerprint);
    if i < |input| then [input[i]] else if m.name in Names(input) then [] else [m]
  }

  /** The committed entries after the merge, in their old order. */
  function Front(models: seq<Model>, input: seq<Model>): seq<Model> {
    if models == [] then [] else Kept(models[0], input) + Front(models[1..], input)
  }

  /** The input's entries of apps that weren't committed, in the input's order. */
  function Back(models: seq<Model>, input: seq<Model>): seq<Model> {
    if input == [] then [] else
      var last := input[|input| - 1];
      Back(models, input[..|input| - 1]) + if IndexOfApp(models, last.name, last.fingerprint) < |models| then [] else [last]
  }

  lemma {:induction false} IndexMore(models: seq<Model>, more: seq<Model>, name: string, fingerprint: Fingerprint)
    ensures IndexOfApp(models + more, name, fingerprint) ==
              if IndexOfApp(models, name, fingerprint) < |models| then IndexOfApp(models, name, fingerprint)
              else |models| + IndexOfApp(more, name, fingerprint)
  {
    if models == [] {
      assert models + more == more;
    } else {
      IndexMore(models[1..], more, name, fingerprint);
      assert (models + more)[1..] == models[1..] + more;
    }
  }

  lemma KeptMore(m: Model, head: seq<Model>, d: Model)
    requires d.name !in Names(head)
    ensures Kept(m, head + [d]) == if m.name != d.name then Kept(m, head) else if m.fingerprint == d.fingerprint then [d] else []
    ensures m.name == d.name ==> Kept(m, head) == [m]
    ensures forall x :: x in Kept(m, head) ==> x.name == m.name
  {
    IndexMore(head, [d], m.name, m.fingerprint);
    assert Names(head + [d]) == Names(head) + {d.name};
    var i := IndexOfApp(head, m.name, m.fingerprint);
    if i < |head| {
      assert head[i] in head;
    }
  }

  lemma {:induction false} FrontNames(models: seq<Model>, input: seq<Model>)
    ensures Names(Front(models, input)) <= Names(models)
  {
    if models != [] {
      FrontNames(models[1..], input);
      KeptNames(models[0], input);
      assert Names(models) == {models[0].name} + Names(models[1..]);
    }
  }

  lemma KeptNames(m: Model, input: seq<Model>)
    ensures forall x :: x in Kept(m, input) ==> x.name == m.name
  {
  }

  /** A name none of them has changes none of them. */
  lemma {:induction false} FrontApart(models: seq<Model>, head: seq<Model>, d: Model)
    requires d.name !in Names(head) && d.name !in Names(models)
    ensures Front(models, head + [d]) == Front(models, head)
  {
    if models != [] {
      KeptMore(models[0], head, d);
      assert models[0].name in Names(models);
      FrontApart(models[1..], head, d);
    }
  }

  lemma {:induction false} OthersAll(models: seq<Model>, name: string)
    requires name !in Names(models)
    ensures Others(models, name) == models
  {
    if models != [] {
      assert models[0].name in Names(models);
      OthersAll(models[1..], name);
    }
  }

  lemma Regroup(x: seq<Model>, y: seq<Model>, z: seq<Model>)
    ensures x + (y + z) == x + y + z
  {
  }

  /** The entries of other names, in order. */
  function Others(models: seq<Model>, name: string): seq<Model> {
    if models == [] then [] else (if models[0].name == name then [] else [models[0]]) + Others(models[1..], name)
  }

  lemma {:induction false} WithoutOthers(models: seq<Model>, name: string)
    ensures Without(models, name) == Others(models, name)
  {
    if models != [] {
      WithoutOthers(models[1..], name);
    }
  }

  lemma {:induction false} OthersMore(xs: seq<Model>, ys: seq<Model>, name: string)
    ensures Others(xs + ys, name) == Others(xs, name) + Others(ys, name)
  {
    if xs == [] {
      assert xs + ys == ys;
    } else {
      OthersMore(xs[1..], ys, name);
      assert (xs + ys)[1..] == xs[1..] + ys;
      Regroup(if xs[0].name == name then [] else [xs[0]], Others(xs[1..], name), Others(ys, name));
    }
  }

  lemma RestUnique(models: seq<Model>)
    requires UniqueNames(models) && models != []
    ensures UniqueNames(models[1..]) && models[0].name !in Names(models[1..])
  {
    forall m | m in models[1..]
      ensures m.name != models[0].name
    {
      var i :| 0 <= i < |models[1..]| && models[1..][i] == m;
      assert models[i + 1] == m;
    }
  }

  /** One more entry of the input: in its app's place if that was committed, else its name's entry goes. */
  ghost predicate FrontTakes(models: seq<Model>, head: seq<Model>, d: Model) {
    var front, i := Front(models, head), IndexOfApp(Front(models, head), d.name, d.fingerprint);
    if IndexOfApp(models, d.name, d.fingerprint) < |models| then i < |front| && Front(models, head + [d]) == front[i := d]
    else i == |front| && Front(models, head + [d]) == Others(front, d.name)
  }

  lemma FrontFirst(models: seq<Model>, head: seq<Model>, d: Model)
    requires UniqueNames(models) && models != [] && d.name !in Names(head) && models[0].name == d.name
    ensures FrontTakes(models, head, d)
  {
    var m, rest := models[0], models[1..];
    RestUnique(models);
    KeptMore(m, head, d);
    FrontApart(rest, head, d);
    FrontNames(rest, head);
    OthersAll(Front(rest, head), d.name);
    assert Front(models, head) == [m] + Front(rest, head);
    if m.fingerprint != d.fingerprint {
      AbsentApp(rest, d.name, d.fingerprint);
      AbsentApp(Front(rest, head), d.name, d.fingerprint);
      assert ([m] + Front(rest, head))[1..] == Front(rest, head);
    }
  }

  lemma AbsentApp(models: seq<Model>, name: string, fingerprint: Fingerprint)
    requires name !in Names(models)
    ensures IndexOfApp(models, name, fingerprint) == |models|
  {
    assert forall k :: 0 <= k < |models| ==> models[k].name in Names(models);
  }

  lemma FrontLater(models: seq<Model>, head: seq<Model>, d: Model)
    requires models != [] && d.name !in Names(head) && models[0].name != d.name && FrontTakes(models[1..], head, d)
    ensures FrontTakes(models, head, d)
  {
    var kept, front := Kept(models[0], head), Front(models[1..], head);
    KeptMore(models[0], head, d);
    AbsentApp(kept, d.name, d.fingerprint);
    IndexMore(kept, front, d.name, d.fingerprint);
    OthersMore(kept, front, d.name);
    OthersAll(kept, d.name);
    assert IndexOfApp(models, d.name, d.fingerprint) == 1 + IndexOfApp(models[1..], d.name, d.fingerprint);
    ReplaceBehind(kept, front, IndexOfApp(front, d.name, d.fingerprint), d);
  }

  lemma ReplaceBehind(xs: seq<Model>, ys: seq<Model>, i: nat, d: Model)
    ensures i < |ys| ==> (xs + ys)[|xs| + i := d] == xs + ys[i := d]
  {
  }

  lemma {:induction false} FrontMore(models: seq<Model>, head: seq<Model>, d: Model)
    requires UniqueNames(models) && d.name !in Names(head)
    ensures FrontTakes(models, head, d)
  {
    if models != [] {
      RestUnique(models);
      if models[0].name == d.name {
        FrontFirst(models, head, d);
      } else {
        FrontMore(models[1..], head, d);
        FrontLater(models, head, d);
      }
    }
  }

  lemma {:induction false} BackNames(models: seq<Model>, input: seq<Model>)
    ensures Names(Back(models, input)) <= Names(input)
  {
    if input != [] {
      var head, last := input[..|input| - 1], input[|input| - 1];
      BackNames(models, head);
      assert input == head + [last];
      assert Names(head + [last]) == Names(head) + {last.name} && Names(Back(models, head) + [last]) == Names(Back(models, head)) + {last.name};
      assert Back(models, head) + [] == Back(models, head);
    }
  }

  /** A merge leaves the committed entries that stay where they were, each with the input's entry of its app if there is one, and
      puts the input's other entries behind them, in the input's order. */
  lemma {:induction false} MergeOrder(models: seq<Model>, input: seq<Model>)
    requires UniqueNames(models) && UniqueNames(input)
    ensures Overridden(models, input) == Front(models, input) + Back(models, input)
  {
    if input == [] {
      FrontNone(models);
    } else {
      var head, d := input[..|input| - 1], input[|input| - 1];
      assert input == head + [d];
      LastUnique(input);
      MergeOrder(models, head);
      FrontMore(models, head, d);
      BackNames(models, head);
      OverrideEnds(Front(models, head), Back(models, head), d);
    }
  }

  lemma LastUnique(input: seq<Model>)
    requires UniqueNames(input) && input != []
    ensures UniqueNames(input[..|input| - 1]) && input[|input| - 1].name !in Names(input[..|input| - 1])
  {
  }

  lemma {:induction false} FrontNone(models: seq<Model>)
    ensures Front(models, []) == models
  {
    if models != [] {
      FrontNone(models[1..]);
    }
  }

  lemma OverrideEnds(front: seq<Model>, back: seq<Model>, d: Model)
    requires d.name !in Names(back)
    ensures var i := IndexOfApp(front, d.name, d.fingerprint);
            Override(front + back, d) == if i < |front| then front[i := d] + back else Others(front, d.name) + back + [d]
  {
    IndexMore(front, back, d.name, d.fingerprint);
    AbsentApp(back, d.name, d.fingerprint);
    WithoutOthers(front + back, d.name);
    OthersMore(front, back, d.name);
    OthersAll(back, d.name);
  }

  // --- The merge as it runs: an insertion-ordered dict keyed by app, and a name -> app index ---

  /** The index is the inverse of the dict's keys: each entry's name leads to its app, and each name to an entry. */
  ghost predicate IndexAgrees(gateway: string, merged: seq<Model>, index: map<string, App>) {
    UniqueNames(merged) && index.Keys == Names(merged) &&
    forall m :: m in merged ==> index[m.name] == AppOf(gateway, m)
  }

  /** The dict without *app*'s entry. */
  function Pop(gateway: string, merged: seq<Model>, app: App): seq<Model> {
    if merged == [] then [] else
      (if AppOf(gateway, merged[0]) == app then [] else [merged[0]]) + Pop(gateway, merged[1..], app)
  }

  /** Popping the app a name leads to is dropping the name. */
  lemma {:induction false} PopIsWithout(gateway: string, merged: seq<Model>, app: App)
    requires forall m :: m in merged && m.name == app.model ==> AppOf(gateway, m) == app
    ensures Pop(gateway, merged, app) == Without(merged, app.model)
  {
    if merged != [] {
      PopIsWithout(gateway, merged[1..], app);
    }
  }

  /** Folds one entry of the input into the dict and its index. */
  method FoldIn(gateway: string, merged: seq<Model>, index: map<string, App>, d: Model)
      returns (merged': seq<Model>, index': map<string, App>)
    requires IndexAgrees(gateway, merged, index)
    ensures merged' == Override(merged, d) && IndexAgrees(gateway, merged', index')
  {
    merged', index' := merged, index;
    var i := IndexOfApp(merged, d.name, d.fingerprint);
    if i < |merged| {
      assert merged[i] in merged;
      merged' := merged[i := d];
    } else {
      if d.name in index {
        NameLeads(gateway, merged, index, d.name);
        PopIsWithout(gateway, merged, index[d.name]);
        merged' := Pop(gateway, merged, index[d.name]);
      } else {
        WithoutKeepsUnique(merged, d.name);
      }
      merged', index' := merged' + [d], index'[d.name := AppOf(gateway, d)];
    }
    IndexFollows(gateway, merged, index', d);
  }

  method Merge(committed: seq<Model>, input: seq<Model>, gateway: string, mode: Mode)
      returns (r: Result<seq<Model>, Duplicate>)
    requires UniqueNames(committed)
    ensures r.Ok? <==> UniqueNames(input)
    ensures r.Ok? ==> r.value == Merged(committed, input, mode)
  {
    var duplicate := CheckUniqueNames(input);
    if duplicate.Some? {
      return Err(duplicate.value);
    }
    if mode == Reconcile {
      return Ok(input);
    }
    var merged: seq<Model>, index: map<string, App> := [], map[];
    for k := 0 to |committed|
      invariant merged == committed[..k] && IndexAgrees(gateway, merged, index)
    {
      var m := committed[k];
      assert committed[..k + 1] == committed[..k] + [m];
      IndexInsert(gateway, merged, index, m);
      merged, index := merged + [m], index[m.name := AppOf(gateway, m)];
    }
    assert committed[..|committed|] == committed;
    for k := 0 to |input|
      invariant merged == Overridden(committed, input[..k]) && IndexAgrees(gateway, merged, index)
    {
      assert input[..k + 1][..k] == input[..k];
      merged, index := FoldIn(gateway, merged, index, input[k]);
    }
    assert input[..|input|] == input;
    r := Ok(merged);
  }

  lemma IndexInsert(gateway: string, merged: seq<Model>, index: map<string, App>, m: Model)
    requires IndexAgrees(gateway, merged, index) && UniqueNames(merged + [m])
    ensures IndexAgrees(gateway, merged + [m], index[m.name := AppOf(gateway, m)])
  {
    assert Names(merged + [m]) == Names(merged) + {m.name};
    forall x | x in merged
      ensures x.name != m.name
    {
      var i :| 0 <= i < |merged| && merged[i] == x;
      assert (merged + [m])[i] == x && (merged + [m])[|merged|] == m;
    }
  }

  lemma NameLeads(gateway: string, merged: seq<Model>, index: map<string, App>, name: string)
    requires IndexAgrees(gateway, merged, index) && name in index
    ensures index[name].model == name
    ensures forall m :: m in merged && m.name == name ==> AppOf(gateway, m) == index[name]
  {
    var m :| m in merged && m.name == name;
  }

  lemma IndexFollows(gateway: string, before: seq<Model>, index: map<string, App>, d: Model)
    requires UniqueNames(before) && index.Keys == Names(before) + {d.name} && index[d.name] == AppOf(gateway, d)
    requires forall m :: m in before && m.name != d.name ==> index[m.name] == AppOf(gateway, m)
    ensures IndexAgrees(gateway, Override(before, d), index)
  {
    OverrideMeans(before, d);
    forall name | name in Names(before) + {d.name}
      ensures name in Names(Override(before, d))
    {
      if name == d.name {
        assert d in Override(before, d);
      } else {
        var m :| m in before && m.name == name;
        assert m in Override(before, d);
      }
    }
    assert Names(Override(before, d)) == Names(before) + {d.name};
  }

  // --- Versions ---

  datatype Version = Version(number: nat, models: seq<Model>)

  /** What the store holds under a gateway's key. */
  datatype Stored = Stored(current: Version, previous: Option<Version>)

  function CommittedIn(stored: Option<Stored>): Option<Version> {
    if stored.Some? then Some(stored.value.current) else None
  }

  /** The store value a commit writes: the next number, keeping the committed version as its previous. */
  function CommitVersion(stored: Option<Stored>, models: seq<Model>): (r: Stored)
    ensures r.current.models == models && r.previous == CommittedIn(stored)
    ensures stored.Some? ==> r.current.number == stored.value.current.number + 1
  {
    match stored
    case None => Stored(Version(1, models), None)
    case Some(s) => Stored(Version(s.current.number + 1, models), Some(s.current))
  }

  function CommitAll(stored: Option<Stored>, sets: seq<seq<Model>>): Option<Stored> {
    if sets == [] then stored else Some(CommitVersion(CommitAll(stored, sets[..|sets| - 1]), sets[|sets| - 1]))
  }

  /** From an empty store, *n* commits leave version *n* with the last set, and the one before it as previous. */
  lemma {:induction false} CommitsCount(sets: seq<seq<Model>>)
    requires sets != []
    ensures CommitAll(None, sets) == Some(Stored(
              Version(|sets|, sets[|sets| - 1]),
              if |sets| == 1 then None else Some(Version(|sets| - 1, sets[|sets| - 2]))))
  {
    if |sets| > 1 {
      CommitsCount(sets[..|sets| - 1]);
    }
  }
}
