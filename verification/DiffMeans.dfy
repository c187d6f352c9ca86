/** What a diff decides, in the request's own terms: each model's action, which rescales come before the deploys, and whether
    there is anything to commit. */
module DeployDiffMeans {
  import opened Wrappers
  import opened AppNames
  import opened Ledger
  import opened DeployDiff
  import opened Rollout

  // --- Actions ---

  /** The action for *m* when *before* is the committed model of its name. */
  predicate ActsOn(gateway: string, apps: map<App, ServeApp>, before: Model, m: Model, action: Action) {
    var app := AppOf(gateway, m);
    if before.fingerprint != m.fingerprint then action == Replace
    else if app !in apps || apps[app].status in {DeployFailed, Deleting} then action == Redeploy
    else if apps[app].scaling != Some(ServeScaling(m.scaling)) then action == Rescaled
    else action == Action.Keep
  }

  lemma DecidedFor(gateway: string, request: Request, committed: Option<seq<Model>>, apps: map<App, ServeApp>, m: Model)
    requires WellNamed(request, committed) && m in Wanted(request, committed)
    ensures var actions := DiffOf(gateway, request, committed, apps).actions;
            m.name in actions && actions[m.name] == ActionOf(gateway, apps, Named(Set(committed), m.name), m)
  {
    BeforePins(Wanted(request, committed), m);
    assert m.name !in Names(RemovedModels(request, Set(committed), Wanted(request, committed)));
  }

  lemma ActsSo(gateway: string, apps: map<App, ServeApp>, before: Model, m: Model)
    requires before.name == m.name
    ensures ActsOn(gateway, apps, before, m, ActionOf(gateway, apps, Some(before), m))
  {
  }

  /** A wanted model is added without a committed one of its name; replaced when what drives its placement changes; deployed again
      when Serve has no live app of it; rescaled when its replica counts there differ; and else kept. */
  lemma ActionIs(gateway: string, request: Request, committed: Option<seq<Model>>, apps: map<App, ServeApp>, m: Model)
    requires WellNamed(request, committed) && m in Wanted(request, committed)
    ensures var actions := DiffOf(gateway, request, committed, apps).actions;
            m.name in actions && (m.name !in Names(Set(committed)) ==> actions[m.name] == Add) &&
            forall before :: before in Set(committed) && before.name == m.name ==> ActsOn(gateway, apps, before, m, actions[m.name])
  {
    DecidedFor(gateway, request, committed, apps, m);
    var action := ActionOf(gateway, apps, Named(Set(committed), m.name), m);
    forall before | before in Set(committed) && before.name == m.name
      ensures ActsOn(gateway, apps, before, m, action)
    {
      BeforePins(Set(committed), before);
      ActsSo(gateway, apps, before, m);
    }
  }

  /** Nothing else has an action but the committed models a reconcile leaves out, which it removes. */
  lemma ActionsOnly(gateway: string, request: Request, committed: Option<seq<Model>>, apps: map<App, ServeApp>, name: string)
    requires WellNamed(request, committed) && name !in Names(Wanted(request, committed))
    ensures var actions := DiffOf(gateway, request, committed, apps).actions;
            (name in actions <==> request.mode == Fold(Reconcile) && name in Names(Set(committed))) && (name in actions ==> actions[name] == Remove)
  {
    var current, wanted := Set(committed), Wanted(request, committed);
    var removed := RemovedModels(request, current, wanted);
    if request.mode == Fold(Reconcile) && name in Names(current) {
      var m :| m in current && m.name == name;
      assert m in removed;
    }
  }

  // --- Replica counts ---

  /** Serve holds a config's replica counts: its number, or its autoscaling bounds with each tunable as given or as Serve's own. */
  lemma ScalingIs(s: Scaling)
    ensures match s.autoscaling
            case None => ServeScaling(s) == Fixed(s.numReplicas)
            case Some(a) =>
              var held := ServeScaling(s);
              held.Auto? && held.minReplicas == a.minReplicas && held.maxReplicas == a.maxReplicas &&
              (forall key :: key in held.tuning <==> key in a.tuning || key in SERVE_DEFAULTS) &&
              forall key :: key in held.tuning ==> held.tuning[key] == if key in a.tuning then a.tuning[key] else SERVE_DEFAULTS[key]
  {
  }

  /** The fewest and the most replicas asked for. */
  function Fewest(s: Scaling): nat { if s.autoscaling.Some? then s.autoscaling.value.minReplicas else s.numReplicas }

  function Most(s: Scaling): nat { if s.autoscaling.Some? then s.autoscaling.value.maxReplicas else s.numReplicas }

  /** Those Serve holds. */
  function HeldFewest(h: Held): nat { if h.Auto? then h.minReplicas else h.replicas }

  function HeldMost(h: Held): nat { if h.Auto? then h.maxReplicas else h.replicas }

  /** Asking for *s* raises no limit of *h*. */
  predicate NoHigher(h: Held, s: Scaling) { Fewest(s) <= HeldFewest(h) && Most(s) <= HeldMost(h) }

  predicate Alive(apps: map<App, ServeApp>, app: App) { app in apps && apps[app].status !in {DeployFailed, Deleting} }

  /** *x* takes *m*'s own live app to its replica counts, which differ. */
  ghost predicate RescalesOwn(gateway: string, apps: map<App, ServeApp>, current: seq<Model>, m: Model, x: Rescale) {
    x == Rescale(m.name, AppOf(gateway, m), m.scaling) && Alive(apps, x.app) && apps[x.app].scaling != Some(ServeScaling(m.scaling)) &&
    exists before :: before in current && before.name == m.name && before.fingerprint == m.fingerprint
  }

  /** *x* takes the live app that *m* replaces down to *m*'s replica counts, neither limit of which it raises. */
  ghost predicate ShrinksReplaced(gateway: string, request: Request, apps: map<App, ServeApp>, current: seq<Model>, m: Model, x: Rescale) {
    request.strategy == BlueGreen &&
    exists before :: before in current && before.name == m.name && before.fingerprint != m.fingerprint &&
                     x == Rescale(m.name, AppOf(gateway, before), m.scaling) && Alive(apps, x.app) && apps[x.app].scaling.Some? &&
                     NoHigher(apps[x.app].scaling.value, m.scaling) &&
                     (Fewest(m.scaling) < HeldFewest(apps[x.app].scaling.value) || Most(m.scaling) < HeldMost(apps[x.app].scaling.value))
  }

  lemma DownIs(gateway: string, request: Request, apps: map<App, ServeApp>, current: seq<Model>, m: Model, x: Rescale)
    requires UniqueNames(current)
    ensures ScaleDownOf(gateway, request, apps, current, m) == Some(x) <==>
              (RescalesOwn(gateway, apps, current, m, x) && apps[x.app].scaling.Some? && NoHigher(apps[x.app].scaling.value, m.scaling)) ||
              ShrinksReplaced(gateway, request, apps, current, m, x)
  {
    if m.name in Names(current) {
      var before :| before in current && before.name == m.name;
      BeforePins(current, before);
      forall other | other in current && other.name == m.name
        ensures other == before
      {
        NamePins(current, other, before);
      }
    }
  }

  lemma UpIs(gateway: string, apps: map<App, ServeApp>, current: seq<Model>, m: Model)
    requires UniqueNames(current)
    ensures var x := RescaleFor(gateway, m);
            ScalesUp(gateway, apps, current, m) <==>
              RescalesOwn(gateway, apps, current, m, x) && !(apps[x.app].scaling.Some? && NoHigher(apps[x.app].scaling.value, m.scaling))
  {
    if m.name in Names(current) {
      var before :| before in current && before.name == m.name;
      BeforePins(current, before);
      forall other | other in current && other.name == m.name
        ensures other == before
      {
        NamePins(current, other, before);
      }
    }
  }

  /** Before the deploys exactly those apps are taken to other replica counts that this raises no limit of: a wanted model's own,
      or in blue_green one that is replaced. */
  lemma ScaledDown(gateway: string, request: Request, committed: Option<seq<Model>>, apps: map<App, ServeApp>, x: Rescale)
    requires WellNamed(request, committed)
    ensures var current := Set(committed);
            x in DiffOf(gateway, request, committed, apps).scaleDowns <==>
              exists m :: m in Wanted(request, committed) &&
                ((RescalesOwn(gateway, apps, current, m, x) && apps[x.app].scaling.Some? && NoHigher(apps[x.app].scaling.value, m.scaling)) ||
                 ShrinksReplaced(gateway, request, apps, current, m, x))
  {
    var current, wanted := Set(committed), Wanted(request, committed);
    if x in ScaleDownsOf(gateway, request, apps, current, wanted) {
      var m := DownFrom(gateway, request, apps, current, wanted, x);
      DownIs(gateway, request, apps, current, m, x);
    }
    forall m | m in wanted &&
               ((RescalesOwn(gateway, apps, current, m, x) && apps[x.app].scaling.Some? && NoHigher(apps[x.app].scaling.value, m.scaling)) ||
                ShrinksReplaced(gateway, request, apps, current, m, x))
      ensures x in ScaleDownsOf(gateway, request, apps, current, wanted)
    {
      DownIs(gateway, request, apps, current, m, x);
      DownOf(gateway, request, apps, current, wanted, m);
    }
  }

  /** After them, exactly the wanted models' other live apps whose replica counts differ. */
  lemma ScaledUp(gateway: string, request: Request, committed: Option<seq<Model>>, apps: map<App, ServeApp>, x: Rescale)
    requires WellNamed(request, committed)
    ensures var current := Set(committed);
            x in DiffOf(gateway, request, committed, apps).scaleUps <==>
              exists m :: m in Wanted(request, committed) && RescalesOwn(gateway, apps, current, m, x) &&
                          !(apps[x.app].scaling.Some? && NoHigher(apps[x.app].scaling.value, m.scaling))
  {
    var current, wanted := Set(committed), Wanted(request, committed);
    if x in ScaleUpsOf(gateway, apps, current, wanted) {
      var m := UpFrom(gateway, apps, current, wanted, x);
      UpIs(gateway, apps, current, m);
    }
    forall m | m in wanted && RescalesOwn(gateway, apps, current, m, x) &&
               !(apps[x.app].scaling.Some? && NoHigher(apps[x.app].scaling.value, m.scaling))
      ensures x in ScaleUpsOf(gateway, apps, current, wanted)
    {
      UpIs(gateway, apps, current, m);
      UpOf(gateway, apps, current, wanted, m);
    }
  }

  // --- What is committed ---

  /** The two sets have the same models, each with the same placement and replica counts. */
  ghost predicate SameDeployed(xs: seq<Model>, ys: seq<Model>) {
    (forall x :: x in xs ==> exists y :: y in ys && y.name == x.name && y.fingerprint == x.fingerprint && y.scaling == x.scaling) && Names(ys) <= Names(xs)
  }

  lemma DeployedSame(gateway: string, xs: seq<Model>, ys: seq<Model>)
    requires UniqueNames(xs) && UniqueNames(ys)
    ensures Deployed(gateway, xs) == Deployed(gateway, ys) <==> SameDeployed(xs, ys)
  {
    if Deployed(gateway, xs) == Deployed(gateway, ys) {
      forall x | x in xs
        ensures exists y :: y in ys && y.name == x.name && y.fingerprint == x.fingerprint && y.scaling == x.scaling
      {
        BeforePins(xs, x);
        assert x.name in Deployed(gateway, xs);
        var y := Named(ys, x.name).value;
        assert Deployed(gateway, ys)[x.name] == (AppOf(gateway, y), y.scaling);
      }
      forall name | name in Names(ys)
        ensures name in Names(xs)
      {
        assert name in Deployed(gateway, ys);
      }
    }
    if SameDeployed(xs, ys) {
      SameNames(xs, ys);
      forall name | name in Names(xs)
        ensures Deployed(gateway, xs)[name] == Deployed(gateway, ys)[name]
      {
        var x := Named(xs, name).value;
        var y :| y in ys && y.name == x.name && y.fingerprint == x.fingerprint && y.scaling == x.scaling;
        BeforePins(ys, y);
      }
    }
  }

  lemma SameNames(xs: seq<Model>, ys: seq<Model>)
    requires SameDeployed(xs, ys)
    ensures Names(xs) == Names(ys)
  {
  }

  /** A request commits exactly if it proposes models and there is no committed version, or one that differs in which models it
      has or in some model's placement or replica counts; what it then commits is what it proposes. */
  lemma CommitsExactly(gateway: string, request: Request, committed: Option<seq<Model>>, apps: map<App, ServeApp>)
    requires WellNamed(request, committed)
    ensures var diff := DiffOf(gateway, request, committed, apps);
            (diff.commits <==> request.Proposes() && (committed.None? || !SameDeployed(Proposed(request, committed), committed.value))) &&
            diff.models == if diff.commits then Some(Proposed(request, committed)) else committed
  {
    if request.Proposes() && committed.Some? {
      ResultIs(gateway, request, committed);
      ProposedUnique(request, committed);
      DeployedSame(gateway, Proposed(request, committed), committed.value);
    }
  }

  lemma ProposedUnique(request: Request, committed: Option<seq<Model>>)
    requires WellNamed(request, committed) && request.Proposes()
    ensures UniqueNames(Proposed(request, committed))
  {
    if request.mode.mode == Additive {
      OverriddenMeans(Set(committed), request.models.value);
    }
  }
}
