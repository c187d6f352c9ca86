/** Running a diff's steps in order: where the gateway's apps end, and that a second run has nothing to do. */
module Rollout {
  import opened Wrappers
  import opened AppNames
  import opened Ledger
  import opened DeployDiff

  // --- What the diff's lists hold ---

  lemma {:induction false} DeploysMeans(gateway: string, apps: map<App, ServeApp>, current: seq<Model>, wanted: seq<Model>)
    ensures forall m :: m in DeploysOf(gateway, apps, current, wanted)
                   <==> m in wanted && Deploys(ActionOf(gateway, apps, Named(current, m.name), m))
  {
    if wanted != [] {
      DeploysMeans(gateway, apps, current, wanted[..|wanted| - 1]);
      assert wanted == wanted[..|wanted| - 1] + [wanted[|wanted| - 1]];
    }
  }

  lemma {:induction false} UpOf(gateway: string, apps: map<App, ServeApp>, current: seq<Model>, wanted: seq<Model>, m: Model)
    requires m in wanted && ScalesUp(gateway, apps, current, m)
    ensures RescaleFor(gateway, m) in ScaleUpsOf(gateway, apps, current, wanted)
  {
    if m != wanted[|wanted| - 1] {
      UpOf(gateway, apps, current, wanted[..|wanted| - 1], m);
    }
  }

  lemma {:induction false} UpFrom(gateway: string, apps: map<App, ServeApp>, current: seq<Model>, wanted: seq<Model>, x: Rescale) returns (m: Model)
    requires x in ScaleUpsOf(gateway, apps, current, wanted)
    ensures m in wanted && ScalesUp(gateway, apps, current, m) && x == RescaleFor(gateway, m)
  {
    m := wanted[|wanted| - 1];
    if !ScalesUp(gateway, apps, current, m) || x != RescaleFor(gateway, m) {
      m := UpFrom(gateway, apps, current, wanted[..|wanted| - 1], x);
    }
  }

  lemma {:induction false} DownOf(gateway: string, request: Request, apps: map<App, ServeApp>, current: seq<Model>, wanted: seq<Model>, m: Model)
    requires m in wanted && ScaleDownOf(gateway, request, apps, current, m).Some?
    ensures ScaleDownOf(gateway, request, apps, current, m).value in ScaleDownsOf(gateway, request, apps, current, wanted)
  {
    if m != wanted[|wanted| - 1] {
      DownOf(gateway, request, apps, current, wanted[..|wanted| - 1], m);
    }
  }

  lemma {:induction false} DownFrom(gateway: string, request: Request, apps: map<App, ServeApp>, current: seq<Model>, wanted: seq<Model>, x: Rescale) returns (m: Model)
    requires x in ScaleDownsOf(gateway, request, apps, current, wanted)
    ensures m in wanted && ScaleDownOf(gateway, request, apps, current, m) == Some(x)
  {
    m := wanted[|wanted| - 1];
    if ScaleDownOf(gateway, request, apps, current, m) != Some(x) {
      m := DownFrom(gateway, request, apps, current, wanted[..|wanted| - 1], x);
    }
  }

  // --- One step of a run that meets no failure ---

  /** A rescale re-submits the app under its new replica-count fields and waits until it is RUNNING; None when it is gone. */
  function RescaleAll(apps: map<App, ServeApp>, rescales: seq<Rescale>): Option<map<App, ServeApp>> {
    if rescales == [] then Some(apps) else
      var rest, x := RescaleAll(apps, rescales[..|rescales| - 1]), rescales[|rescales| - 1];
      if rest.None? || x.app !in rest.value then None
      else Some(rest.value[x.app := ServeApp(Running, Some(ServeScaling(x.scaling)))])
  }

  function DeployAll(gateway: string, apps: map<App, ServeApp>, deploys: seq<Model>): map<App, ServeApp> {
    if deploys == [] then apps else
      var m := deploys[|deploys| - 1];
      DeployAll(gateway, apps, deploys[..|deploys| - 1])[AppOf(gateway, m) := ServeApp(Running, Some(ServeScaling(m.scaling)))]
  }

  /** The diff's steps in the worker's order; None when a rescale finds its app gone. */
  function Run(gateway: string, request: Request, diff: Diff, apps: map<App, ServeApp>): Option<map<App, ServeApp>> {
    var down := RescaleAll(apps - diff.leftovers, diff.scaleDowns);
    if down.None? then None else
      var stopped := if request.strategy == StopStart then down.value - diff.retired else down.value;
      var up := RescaleAll(DeployAll(gateway, stopped, diff.deploys), diff.scaleUps);
      if up.None? then None else
        Some(if request.strategy == BlueGreen then up.value - diff.retired else up.value)
  }

  ghost predicate RescaledBy(rescales: seq<Rescale>, app: App, held: ServeApp) {
    exists x :: x in rescales && x.app == app && held == ServeApp(Running, Some(ServeScaling(x.scaling)))
  }

  ghost predicate Rescales(rescales: seq<Rescale>, app: App) {
    exists x :: x in rescales && x.app == app
  }

  /** Rescaling re-submits exactly the named apps. */
  ghost predicate RescaleStage(before: map<App, ServeApp>, rescales: seq<Rescale>, after: map<App, ServeApp>) {
    after.Keys == before.Keys &&
    forall a :: a in before ==> if Rescales(rescales, a) then RescaledBy(rescales, a, after[a]) else after[a] == before[a]
  }

  /** Deploying puts every model's app up with its fields and leaves the others. */
  ghost predicate DeployStage(gateway: string, before: map<App, ServeApp>, deploys: seq<Model>, after: map<App, ServeApp>) {
    after.Keys == before.Keys + Apps(gateway, deploys) &&
    (forall a :: a in before && a !in Apps(gateway, deploys) ==> after[a] == before[a]) &&
    (forall m :: m in deploys ==> after[AppOf(gateway, m)] == ServeApp(Running, Some(ServeScaling(m.scaling))))
  }

  lemma {:induction false} RescaleAllMeans(apps: map<App, ServeApp>, rescales: seq<Rescale>)
    requires forall x :: x in rescales ==> x.app in apps
    ensures RescaleAll(apps, rescales).Some? && RescaleStage(apps, rescales, RescaleAll(apps, rescales).value)
  {
    if rescales != [] {
      var head, x := rescales[..|rescales| - 1], rescales[|rescales| - 1];
      assert rescales == head + [x];
      RescaleAllMeans(apps, head);
      var rest, r := RescaleAll(apps, head).value, RescaleAll(apps, rescales).value;
      forall a | a in apps
        ensures if Rescales(rescales, a) then RescaledBy(rescales, a, r[a]) else r[a] == apps[a]
      {
        if a == x.app {
          assert x in rescales;
        } else if y :| y in rescales && y.app == a {
          assert y in head;
          var z :| z in head && z.app == a && rest[a] == ServeApp(Running, Some(ServeScaling(z.scaling)));
          assert z in rescales;
        }
      }
    }
  }

  lemma {:induction false} DeployAllMeans(gateway: string, apps: map<App, ServeApp>, deploys: seq<Model>)
    requires forall m, m' :: m in deploys && m' in deploys && m.name == m'.name ==> m == m'
    ensures DeployStage(gateway, apps, deploys, DeployAll(gateway, apps, deploys))
  {
    if deploys != [] {
      var head, m := deploys[..|deploys| - 1], deploys[|deploys| - 1];
      assert deploys == head + [m];
      DeployAllMeans(gateway, apps, head);
      assert Apps(gateway, deploys) == Apps(gateway, head) + {AppOf(gateway, m)};
    }
  }

  // --- What any diff keeps to ---

  lemma BeforePins(current: seq<Model>, m: Model)
    requires UniqueNames(current) && m in current
    ensures Named(current, m.name) == Some(m)
  {
    NamePins(current, m, Named(current, m.name).value);
  }

  /** Leftovers are listed apps no committed model names, and every such app is one. */
  ghost predicate SoundLeftovers(gateway: string, apps: map<App, ServeApp>, current: seq<Model>, diff: Diff) {
    forall a :: a in diff.leftovers <==> a in apps && a.Listed(gateway) && a !in Apps(gateway, current)
  }

  /** Retired apps are the committed ones of replaced and of removed models, none of them a wanted model's app. */
  ghost predicate SoundRetired(gateway: string, request: Request, current: seq<Model>, wanted: seq<Model>, diff: Diff) {
    diff.retired <= Apps(gateway, current) && diff.retired !! Apps(gateway, wanted) &&
    forall m :: m in current ==> (AppOf(gateway, m) in diff.retired <==>
      if m.name in Names(wanted) then AppOf(gateway, m) !in Apps(gateway, wanted) else request.mode == Fold(Reconcile))
  }

  /** Every rescale's app is a committed one Serve holds, still there when its step runs. */
  ghost predicate SoundRescales(gateway: string, apps: map<App, ServeApp>, current: seq<Model>, diff: Diff) {
    (forall x :: x in diff.scaleDowns ==> x.app in apps && x.app in Apps(gateway, current)) &&
    (forall x :: x in diff.scaleUps ==> x.app in apps && x.app in Apps(gateway, current) && x.app !in diff.retired)
  }

  /** A wanted model is deployed, or its app is live and right already or rescaled; no other rescale touches its app. */
  ghost predicate SoundModel(gateway: string, apps: map<App, ServeApp>, diff: Diff, m: Model) {
    var app := AppOf(gateway, m);
    (forall x :: x in diff.scaleDowns && x.app == app ==> x.scaling == m.scaling) &&
    (forall x :: x in diff.scaleUps && x.app == app ==> x.scaling == m.scaling) &&
    (m in diff.deploys ||
     (app in apps && app !in diff.leftovers && apps[app].status.Live() &&
      (apps[app].scaling == Some(ServeScaling(m.scaling)) || Rescales(diff.scaleDowns, app) || Rescales(diff.scaleUps, app))))
  }

  ghost predicate Sound(gateway: string, request: Request, apps: map<App, ServeApp>, current: seq<Model>, wanted: seq<Model>, diff: Diff) {
    SoundLeftovers(gateway, apps, current, diff) && SoundRetired(gateway, request, current, wanted, diff) &&
    SoundRescales(gateway, apps, current, diff) && (forall m :: m in diff.deploys ==> m in wanted) &&
    forall m :: m in wanted ==> SoundModel(gateway, apps, diff, m)
  }

  lemma RetiredIs(gateway: string, request: Request, current: seq<Model>, wanted: seq<Model>, diff: Diff)
    requires UniqueNames(current) && UniqueNames(wanted)
    requires diff.retired == ReplacedOf(gateway, current, wanted) + Apps(gateway, RemovedModels(request, current, wanted))
    ensures SoundRetired(gateway, request, current, wanted, diff)
  {
    forall m | m in wanted && Named(current, m.name).Some? && AppOf(gateway, Named(current, m.name).value) != AppOf(gateway, m)
      ensures AppOf(gateway, Named(current, m.name).value) !in Apps(gateway, wanted)
    {
      if m' :| m' in wanted && AppOf(gateway, m') == AppOf(gateway, Named(current, m.name).value) {
        NamePins(wanted, m, m');
      }
    }
    forall m | m in current
      ensures AppOf(gateway, m) in diff.retired <==>
        if m.name in Names(wanted) then AppOf(gateway, m) !in Apps(gateway, wanted) else request.mode == Fold(Reconcile)
    {
      BeforePins(current, m);
      if w :| w in wanted && w.name == m.name {
        assert AppOf(gateway, w) in Apps(gateway, wanted);
      }
      if m' :| m' in RemovedModels(request, current, wanted) && AppOf(gateway, m') == AppOf(gateway, m) {
        NamePins(current, m, m');
      }
    }
  }

  lemma ModelIs(gateway: string, request: Request, apps: map<App, ServeApp>, current: seq<Model>, wanted: seq<Model>, diff: Diff, m: Model)
    requires UniqueNames(current) && UniqueNames(wanted) && m in wanted
    requires SoundLeftovers(gateway, apps, current, diff)
    requires diff.deploys == DeploysOf(gateway, apps, current, wanted)
    requires diff.scaleDowns == ScaleDownsOf(gateway, request, apps, current, wanted)
    requires diff.scaleUps == ScaleUpsOf(gateway, apps, current, wanted)
    ensures SoundModel(gateway, apps, diff, m)
  {
    var app := AppOf(gateway, m);
    forall x | x in diff.scaleDowns && x.app == app
      ensures x.scaling == m.scaling
    {
      var m' := DownFrom(gateway, request, apps, current, wanted, x);
      NamePins(wanted, m, m');
    }
    forall x | x in diff.scaleUps && x.app == app
      ensures x.scaling == m.scaling
    {
      var m' := UpFrom(gateway, apps, current, wanted, x);
      NamePins(wanted, m, m');
    }
    DeploysMeans(gateway, apps, current, wanted);
    if ActionOf(gateway, apps, Named(current, m.name), m) == Rescaled {
      if RescaleRises(gateway, apps, m) {
        UpOf(gateway, apps, current, wanted, m);
      } else {
        DownOf(gateway, request, apps, current, wanted, m);
      }
    }
    if m !in diff.deploys {
      assert AppOf(gateway, Named(current, m.name).value) in Apps(gateway, current);
    }
  }

  lemma RescalesAre(gateway: string, request: Request, apps: map<App, ServeApp>, current: seq<Model>, wanted: seq<Model>, diff: Diff)
    requires diff.scaleDowns == ScaleDownsOf(gateway, request, apps, current, wanted)
    requires diff.scaleUps == ScaleUpsOf(gateway, apps, current, wanted)
    requires SoundRetired(gateway, request, current, wanted, diff)
    ensures SoundRescales(gateway, apps, current, diff)
  {
    forall x | x in diff.scaleDowns
      ensures x.app in apps && x.app in Apps(gateway, current)
    {
      var m := DownFrom(gateway, request, apps, current, wanted, x);
      assert AppOf(gateway, Named(current, m.name).value) in Apps(gateway, current);
    }
    forall x | x in diff.scaleUps
      ensures x.app in apps && x.app in Apps(gateway, current) && x.app !in diff.retired
    {
      var m := UpFrom(gateway, apps, current, wanted, x);
      assert AppOf(gateway, Named(current, m.name).value) in Apps(gateway, current);
      assert AppOf(gateway, m) in Apps(gateway, wanted);
    }
  }

  lemma DiffSound(gateway: string, request: Request, committed: Option<seq<Model>>, apps: map<App, ServeApp>)
    requires WellNamed(request, committed)
    ensures Sound(gateway, request, apps, Set(committed), Wanted(request, committed), DiffOf(gateway, request, committed, apps))
  {
    var current, wanted, diff := Set(committed), Wanted(request, committed), DiffOf(gateway, request, committed, apps);
    RetiredIs(gateway, request, current, wanted, diff);
    RescalesAre(gateway, request, apps, current, wanted, diff);
    forall m | m in wanted
      ensures SoundModel(gateway, apps, diff, m)
    {
      ModelIs(gateway, request, apps, current, wanted, diff, m);
    }
    DeploysMeans(gateway, apps, current, wanted);
  }

  // --- The target ---

  /** The app is up, or on its way up, with the model's replica-count fields. */
  predicate Settled(gateway: string, apps: map<App, ServeApp>, m: Model) {
    var app := AppOf(gateway, m);
    app in apps && apps[app].status.Live() && apps[app].scaling == Some(ServeScaling(m.scaling))
  }

  /** Where a sound diff's steps end: which apps are left, every wanted model settled, every stranger as it was. */
  lemma RunMeans(gateway: string, request: Request, apps: map<App, ServeApp>, current: seq<Model>, wanted: seq<Model>, diff: Diff)
    requires UniqueNames(wanted) && Sound(gateway, request, apps, current, wanted, diff)
    ensures Run(gateway, request, diff, apps).Some?
    ensures var final := Run(gateway, request, diff, apps).value;
            final.Keys == apps.Keys - diff.leftovers - diff.retired + Apps(gateway, diff.deploys) &&
            (forall m :: m in wanted ==> Settled(gateway, final, m)) &&
            (forall a :: a in final && a !in Apps(gateway, wanted) && a !in Apps(gateway, current) ==> final[a] == apps[a])
  {
    var kept := apps - diff.leftovers;
    RescaleAllMeans(kept, diff.scaleDowns);
    var down := RescaleAll(kept, diff.scaleDowns).value;
    var stopped := if request.strategy == StopStart then down - diff.retired else down;
    forall m, m' | m in diff.deploys && m' in diff.deploys && m.name == m'.name
      ensures m == m'
    {
      NamePins(wanted, m, m');
    }
    DeployAllMeans(gateway, stopped, diff.deploys);
    var deployed := DeployAll(gateway, stopped, diff.deploys);
    DeploysAreWanted(gateway, wanted, diff.deploys);
    RescaleAllMeans(deployed, diff.scaleUps);
    var up := RescaleAll(deployed, diff.scaleUps).value;
    forall m | m in wanted
      ensures Settled(gateway, up, m) && AppOf(gateway, m) !in diff.retired
    {
      assert AppOf(gateway, m) in Apps(gateway, wanted);
      assert SoundModel(gateway, apps, diff, m);
      SettledStep(gateway, diff, kept, down, stopped, deployed, up, m);
    }
    StrangersKept(gateway, apps, current, wanted, diff, kept, down, stopped, deployed, up);
  }

  lemma DeploysAreWanted(gateway: string, wanted: seq<Model>, deploys: seq<Model>)
    requires UniqueNames(wanted) && forall d :: d in deploys ==> d in wanted
    ensures Apps(gateway, deploys) <= Apps(gateway, wanted)
    ensures forall m :: m in wanted && m !in deploys ==> AppOf(gateway, m) !in Apps(gateway, deploys)
  {
    forall m, m' | m in wanted && m' in deploys && AppOf(gateway, m) == AppOf(gateway, m')
      ensures m == m'
    {
      NamePins(wanted, m, m');
    }
  }

  /** One wanted model through the steps. */
  lemma SettledStep(gateway: string, diff: Diff, kept: map<App, ServeApp>, down: map<App, ServeApp>,
                    stopped: map<App, ServeApp>, deployed: map<App, ServeApp>, up: map<App, ServeApp>, m: Model)
    requires forall x :: (x in diff.scaleDowns || x in diff.scaleUps) && x.app == AppOf(gateway, m) ==> x.scaling == m.scaling
    requires var app := AppOf(gateway, m);
             if m in diff.deploys then app in Apps(gateway, diff.deploys) else (
               app !in Apps(gateway, diff.deploys) && app in kept && app in stopped && kept[app].status.Live() &&
               (kept[app].scaling == Some(ServeScaling(m.scaling)) || Rescales(diff.scaleDowns, app) || Rescales(diff.scaleUps, app)))
    requires RescaleStage(kept, diff.scaleDowns, down) && (forall a :: a in stopped ==> a in down && stopped[a] == down[a])
    requires DeployStage(gateway, stopped, diff.deploys, deployed) && RescaleStage(deployed, diff.scaleUps, up)
    ensures Settled(gateway, up, m)
  {
    var app := AppOf(gateway, m);
    assert app in deployed && (m in diff.deploys || deployed[app] == down[app]);
  }

  /** An app neither wanted nor committed is as it was. */
  lemma StrangersKept(gateway: string, apps: map<App, ServeApp>, current: seq<Model>, wanted: seq<Model>, diff: Diff, kept: map<App, ServeApp>,
                      down: map<App, ServeApp>, stopped: map<App, ServeApp>, deployed: map<App, ServeApp>, up: map<App, ServeApp>)
    requires SoundRescales(gateway, apps, current, diff) && Apps(gateway, diff.deploys) <= Apps(gateway, wanted)
    requires kept == apps - diff.leftovers && RescaleStage(kept, diff.scaleDowns, down)
    requires stopped == down || stopped == down - diff.retired
    requires DeployStage(gateway, stopped, diff.deploys, deployed) && RescaleStage(deployed, diff.scaleUps, up)
    ensures forall a :: a in up && a !in Apps(gateway, wanted) && a !in Apps(gateway, current) ==> a in apps && up[a] == apps[a]
  {
  }

  lemma DeployedPins(gateway: string, xs: seq<Model>, ys: seq<Model>, x: Model)
    requires UniqueNames(xs) && x in xs && Deployed(gateway, xs) == Deployed(gateway, ys)
    ensures Named(ys, x.name).Some? && AppOf(gateway, Named(ys, x.name).value) == AppOf(gateway, x)
  {
    BeforePins(xs, x);
    assert x.name in Deployed(gateway, xs);
    assert Deployed(gateway, xs)[x.name] == Deployed(gateway, ys)[x.name];
  }

  lemma DeployedApps(gateway: string, xs: seq<Model>, ys: seq<Model>)
    requires UniqueNames(xs) && UniqueNames(ys) && Deployed(gateway, xs) == Deployed(gateway, ys)
    ensures Apps(gateway, xs) == Apps(gateway, ys)
  {
    forall x | x in xs
      ensures AppOf(gateway, x) in Apps(gateway, ys)
    {
      DeployedPins(gateway, xs, ys, x);
    }
    forall y | y in ys
      ensures AppOf(gateway, y) in Apps(gateway, xs)
    {
      DeployedPins(gateway, ys, xs, y);
    }
  }

  /** What a proposing request's result names: its proposal's apps, written down or named by the version already. */
  lemma ResultIs(gateway: string, request: Request, committed: Option<seq<Model>>)
    requires WellNamed(request, committed) && request.Proposes()
    ensures var models := ResultModels(gateway, request, committed);
            models.Some? && UniqueNames(models.value) && UniqueNames(Proposed(request, committed)) &&
            Apps(gateway, models.value) == Apps(gateway, Proposed(request, committed)) &&
            Deployed(gateway, models.value) == Deployed(gateway, Proposed(request, committed))
    ensures forall m :: m in Proposed(request, committed) <==>
              m in request.models.value ||
              (request.mode == Fold(Additive) && m in Set(committed) && m.name !in Names(request.models.value))
  {
    OverriddenMeans(Set(committed), request.models.value);
    if !Commits(gateway, request, committed) {
      DeployedApps(gateway, committed.value, Proposed(request, committed));
    }
  }

  /** An app of the resulting version; of an additive request, one it names the model of or one that was there. */
  predicate Targeted(gateway: string, request: Request, committed: Option<seq<Model>>, apps: map<App, ServeApp>, a: App) {
    a in Apps(gateway, Set(ResultModels(gateway, request, committed))) &&
    (request.mode == Fold(Additive) && request.Proposes() ==> a.model in Names(Wanted(request, committed)) || a in apps)
  }

  /** Running the diff's steps in order leaves, of the gateway's listed apps, exactly the resulting version's; an
      additive request alone leaves out the apps of models it doesn't name that were missing before. */
  lemma ReachesTarget(gateway: string, request: Request, committed: Option<seq<Model>>, apps: map<App, ServeApp>)
    requires WellNamed(request, committed)
    ensures var diff := DiffOf(gateway, request, committed, apps);
            Run(gateway, request, diff, apps).Some?
    ensures var diff := DiffOf(gateway, request, committed, apps);
            var final := Run(gateway, request, diff, apps).value;
            (forall a: App :: a.Listed(gateway) ==> (a in final <==> Targeted(gateway, request, committed, apps, a))) &&
            (forall m :: m in Wanted(request, committed) ==> Settled(gateway, final, m))
  {
    var current, wanted, diff := Set(committed), Wanted(request, committed), DiffOf(gateway, request, committed, apps);
    DiffSound(gateway, request, committed, apps);
    RunMeans(gateway, request, apps, current, wanted, diff);
    var final := Run(gateway, request, diff, apps).value;
    if request.Proposes() {
      ResultIs(gateway, request, committed);
    }
    WantedPresent(gateway, wanted, final);
    DeploysAreWanted(gateway, wanted, diff.deploys);
    forall a: App | a.Listed(gateway)
      ensures a in final <==> Targeted(gateway, request, committed, apps, a)
    {
      TargetOne(gateway, request, committed, apps, diff, final, a);
    }
  }

  lemma WantedPresent(gateway: string, wanted: seq<Model>, final: map<App, ServeApp>)
    requires forall m :: m in wanted ==> Settled(gateway, final, m)
    ensures Apps(gateway, wanted) <= final.Keys
  {
  }

  lemma TargetOne(gateway: string, request: Request, committed: Option<seq<Model>>, apps: map<App, ServeApp>, diff: Diff,
                  final: map<App, ServeApp>, a: App)
    requires WellNamed(request, committed) && a.Listed(gateway)
    requires SoundLeftovers(gateway, apps, Set(committed), diff)
    requires SoundRetired(gateway, request, Set(committed), Wanted(request, committed), diff)
    requires diff.models == ResultModels(gateway, request, committed)
    requires Apps(gateway, diff.deploys) <= Apps(gateway, Wanted(request, committed)) <= final.Keys
    requires final.Keys == apps.Keys - diff.leftovers - diff.retired + Apps(gateway, diff.deploys)
    ensures a in final <==> Targeted(gateway, request, committed, apps, a)
  {
    var current, wanted := Set(committed), Wanted(request, committed);
    if request.Proposes() {
      ResultIs(gateway, request, committed);
      if a in Apps(gateway, current) {
        var m :| m in current && AppOf(gateway, m) == a;
        if m.name !in Names(wanted) && request.mode == Fold(Additive) {
          assert m in Proposed(request, committed);
        }
      }
      if a in Apps(gateway, Proposed(request, committed)) {
        var m :| m in Proposed(request, committed) && AppOf(gateway, m) == a;
      }
    }
  }

  /** A second build of the same request, against what the first run left, has nothing to do. */
  ghost predicate NothingToDo(diff: Diff) {
    diff.leftovers == {} && diff.scaleDowns == [] && diff.deploys == [] && diff.scaleUps == [] && diff.retired == {} && !diff.commits
  }

  lemma Convergence(gateway: string, request: Request, committed: Option<seq<Model>>, apps: map<App, ServeApp>)
    requires WellNamed(request, committed)
    ensures var diff := DiffOf(gateway, request, committed, apps);
            var final := Run(gateway, request, diff, apps);
            final.Some? && NothingToDo(DiffOf(gateway, request, diff.models, final.value)) &&
            DiffOf(gateway, request, diff.models, final.value).models == diff.models
  {
    ReachesTarget(gateway, request, committed, apps);
    var final := Run(gateway, request, DiffOf(gateway, request, committed, apps), apps).value;
    var models := ResultModels(gateway, request, committed);
    if request.Proposes() {
      SecondCommit(gateway, request, committed);
    }
    SecondKeeps(gateway, request, committed, final);
    AllKept(gateway, request, final, Set(models), Wanted(request, models));
    if request.mode == Fold(Reconcile) {
      ReconcileRemovesNone(gateway, request, committed);
    }
    assert LeftoversOf(gateway, final, Set(models)) == {};
  }

  lemma SecondKeeps(gateway: string, request: Request, committed: Option<seq<Model>>, final: map<App, ServeApp>)
    requires WellNamed(request, committed)
    requires forall m :: m in Wanted(request, committed) ==> Settled(gateway, final, m)
    ensures var models := ResultModels(gateway, request, committed);
            Wanted(request, models) == Wanted(request, committed) &&
            forall m :: m in Wanted(request, models) ==> ActionOf(gateway, final, Named(Set(models), m.name), m) == Keep
  {
    var models, wanted := ResultModels(gateway, request, committed), Wanted(request, committed);
    forall m | m in wanted
      ensures ActionOf(gateway, final, Named(Set(models), m.name), m) == Keep
    {
      NamedByResult(gateway, request, committed, m);
      assert Settled(gateway, final, m);
    }
  }

  lemma NamedByResult(gateway: string, request: Request, committed: Option<seq<Model>>, m: Model)
    requires WellNamed(request, committed) && m in Wanted(request, committed)
    ensures var named := Named(Set(ResultModels(gateway, request, committed)), m.name);
            named.Some? && AppOf(gateway, named.value) == AppOf(gateway, m)
  {
    if request.Proposes() {
      ResultIs(gateway, request, committed);
      DeployedPins(gateway, Proposed(request, committed), ResultModels(gateway, request, committed).value, m);
    } else {
      BeforePins(Set(committed), m);
    }
  }

  lemma SecondCommit(gateway: string, request: Request, committed: Option<seq<Model>>)
    requires WellNamed(request, committed) && request.Proposes()
    ensures !Commits(gateway, request, ResultModels(gateway, request, committed))
  {
    if Commits(gateway, request, committed) {
      MergeTwice(Set(committed), request.models.value, request.mode.mode);
    }
  }

  lemma {:induction false} AllKept(gateway: string, request: Request, apps: map<App, ServeApp>, current: seq<Model>, wanted: seq<Model>)
    requires forall m :: m in wanted ==> ActionOf(gateway, apps, Named(current, m.name), m) == Keep
    ensures DeploysOf(gateway, apps, current, wanted) == [] && ScaleUpsOf(gateway, apps, current, wanted) == []
    ensures ScaleDownsOf(gateway, request, apps, current, wanted) == [] && ReplacedOf(gateway, current, wanted) == {}
  {
    forall m | m in wanted
      ensures Named(current, m.name).Some? && AppOf(gateway, Named(current, m.name).value) == AppOf(gateway, m)
    {
      assert ActionOf(gateway, apps, Named(current, m.name), m) == Keep;
    }
    if wanted != [] {
      AllKept(gateway, request, apps, current, wanted[..|wanted| - 1]);
      assert wanted[|wanted| - 1] in wanted;
    }
  }

  lemma HasOne(models: seq<Model>)
    ensures models == [] || exists m :: m in models
  {
    if models != [] {
      assert models[0] in models;
    }
  }

  lemma ReconcileRemovesNone(gateway: string, request: Request, committed: Option<seq<Model>>)
    requires WellNamed(request, committed) && request.mode == Fold(Reconcile)
    ensures RemovedModels(request, Set(ResultModels(gateway, request, committed)), Wanted(request, ResultModels(gateway, request, committed))) == []
  {
    var models := ResultModels(gateway, request, committed);
    if request.Proposes() {
      ResultIs(gateway, request, committed);
      forall m | m in models.value
        ensures m.name in Names(request.models.value)
      {
        DeployedPins(gateway, models.value, Proposed(request, committed), m);
      }
    }
    var removed := Unnamed(Set(models), Names(Wanted(request, models)));
    HasOne(removed);
  }

  /** A diff of one gateway deletes and deploys none of another's apps. */
  lemma OtherGatewaysApart(gateway: string, request: Request, committed: Option<seq<Model>>, apps: map<App, ServeApp>, a: App)
    requires WellNamed(request, committed) && a.gateway != gateway && a in apps
    ensures var diff := DiffOf(gateway, request, committed, apps);
            var final := Run(gateway, request, diff, apps);
            final.Some? && a in final.value && final.value[a] == apps[a]
  {
    DiffSound(gateway, request, committed, apps);
    RunMeans(gateway, request, apps, Set(committed), Wanted(request, committed), DiffOf(gateway, request, committed, apps));
  }
}
