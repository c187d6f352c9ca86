/** What a deploy request changes on its gateway, from the request, the committed version and Serve's apps. */
module DeployDiff {
  import opened Wrappers
  import opened AppNames
  import opened Ledger

  datatype Status = NotStarted | Deploying | Running | Unhealthy | DeployFailed | Deleting
  {
    /** Serve has stopped starting replicas for the others; submitting again replaces the app. */
    predicate Live() { this != DeployFailed && this != Deleting }
  }

  /** How Serve sizes an app: by a fixed count, or by bounds and tunables of which none is left open. */
  datatype Held = Fixed(replicas: nat) | Auto(minReplicas: nat, maxReplicas: nat, tuning: map<string, real>)

  /** Serve's apps; a status without a deployment has no replica-count fields. */
  datatype ServeApp = ServeApp(status: Status, scaling: Option<Held>)

  // Serve's own defaults for unset tunables; no statement below depends on their values
  const SERVE_DEFAULTS: map<string, real> := map["target_ongoing_requests" := 2.0, "upscale_delay_s" := 30.0]

  function ServeScaling(s: Scaling): Held {
    match s.autoscaling
    case None => Fixed(s.numReplicas)
    case Some(a) => Auto(a.minReplicas, a.maxReplicas, SERVE_DEFAULTS + a.tuning)
  }

  /** The fewest and the most replicas *h* allows. */
  function Limits(h: Held): (nat, nat) {
    if h.Fixed? then (h.replicas, h.replicas) else (h.minReplicas, h.maxReplicas)
  }

  predicate Rises(have: Held, want: Held) {
    Limits(want).0 > Limits(have).0 || Limits(want).1 > Limits(have).1
  }

  /** Whether a replaced app is live and *want* lowers a replica limit of it without raising the other. */
  predicate Shrinks(prior: ServeApp, want: Held) {
    prior.status.Live() && prior.scaling.Some? && Limits(want) != Limits(prior.scaling.value) && !Rises(prior.scaling.value, want)
  }

  datatype RequestMode = Fold(mode: Mode) | Bare
  datatype Strategy = BlueGreen | StopStart

  datatype Request = Request(mode: RequestMode, strategy: Strategy, models: Option<seq<Model>>)
  {
    /** Whether it proposes models; a bare request, or one without models, redeploys what is committed. */
    predicate Proposes() { mode.Fold? && models.Some? }
  }

  datatype Action = Add | Replace | Rescaled | Redeploy | Remove | Keep

  datatype Rescale = Rescale(model: string, app: App, scaling: Scaling)

  datatype Diff = Diff(
    actions: map<string, Action>,
    leftovers: set<App>,
    scaleDowns: seq<Rescale>,
    deploys: seq<Model>,
    scaleUps: seq<Rescale>,
    retired: set<App>,
    models: Option<seq<Model>>,
    commits: bool)

  // --- What the diff is, part by part ---

  function Set(committed: Option<seq<Model>>): seq<Model> {
    if committed.Some? then committed.value else []
  }

  function Named(models: seq<Model>, name: string): (r: Option<Model>)
    ensures r.Some? <==> name in Names(models)
    ensures r.Some? ==> r.value in models && r.value.name == name
  {
    if models == [] then None else if models[0].name == name then Some(models[0]) else
      var r := Named(models[1..], name);
      assert Names(models) == {models[0].name} + Names(models[1..]);
      r
  }

  function Wanted(request: Request, committed: Option<seq<Model>>): seq<Model> {
    if request.Proposes() then request.models.value else Set(committed)
  }

  function Proposed(request: Request, committed: Option<seq<Model>>): seq<Model>
    requires request.Proposes()
  {
    Merged(Set(committed), request.models.value, request.mode.mode)
  }

  /** Each model's app and replica-count fields, by name. */
  function Deployed(gateway: string, models: seq<Model>): map<string, (App, Scaling)> {
    map name | name in Names(models) :: var m := Named(models, name).value; (AppOf(gateway, m), m.scaling)
  }

  predicate Commits(gateway: string, request: Request, committed: Option<seq<Model>>) {
    request.Proposes() &&
    (committed.None? || Deployed(gateway, Proposed(request, committed)) != Deployed(gateway, committed.value))
  }

  /** The gateway's models once the request has succeeded. */
  function ResultModels(gateway: string, request: Request, committed: Option<seq<Model>>): Option<seq<Model>> {
    if Commits(gateway, request, committed) then Some(Proposed(request, committed)) else committed
  }

  /** What happens to the wanted model *m*, committed as *before*. */
  function ActionOf(gateway: string, apps: map<App, ServeApp>, before: Option<Model>, m: Model): Action {
    var app := AppOf(gateway, m);
    if before.None? then Add
    else if AppOf(gateway, before.value) != app then Replace
    else if app !in apps || !apps[app].status.Live() then Redeploy
    else if apps[app].scaling != Some(ServeScaling(m.scaling)) then Rescaled
    else Keep
  }

  predicate Deploys(action: Action) { action == Add || action == Replace || action == Redeploy }

  /** Whether a rescale of *m*'s app raises a replica limit, or can't be told not to. */
  predicate RescaleRises(gateway: string, apps: map<App, ServeApp>, m: Model) {
    var app := AppOf(gateway, m);
    app in apps && (apps[app].scaling.None? || Rises(apps[app].scaling.value, ServeScaling(m.scaling)))
  }

  function DeploysOf(gateway: string, apps: map<App, ServeApp>, current: seq<Model>, wanted: seq<Model>): seq<Model> {
    if wanted == [] then [] else
      var m := wanted[|wanted| - 1];
      DeploysOf(gateway, apps, current, wanted[..|wanted| - 1]) +
      if Deploys(ActionOf(gateway, apps, Named(current, m.name), m)) then [m] else []
  }

  function ScaleUpsOf(gateway: string, apps: map<App, ServeApp>, current: seq<Model>, wanted: seq<Model>): seq<Rescale> {
    if wanted == [] then [] else
      var m := wanted[|wanted| - 1];
      ScaleUpsOf(gateway, apps, current, wanted[..|wanted| - 1]) +
      if ScalesUp(gateway, apps, current, m) then [RescaleFor(gateway, m)] else []
  }

  predicate ScalesUp(gateway: string, apps: map<App, ServeApp>, current: seq<Model>, m: Model) {
    ActionOf(gateway, apps, Named(current, m.name), m) == Rescaled && RescaleRises(gateway, apps, m)
  }

  function RescaleFor(gateway: string, m: Model): Rescale { Rescale(m.name, AppOf(gateway, m), m.scaling) }

  /** The rescale of the step before deploys: of the model's own app, or of the app it replaces. */
  function ScaleDownOf(gateway: string, request: Request, apps: map<App, ServeApp>, current: seq<Model>, m: Model): Option<Rescale> {
    var before := Named(current, m.name);
    var action := ActionOf(gateway, apps, before, m);
    if action == Rescaled && !RescaleRises(gateway, apps, m) then Some(RescaleFor(gateway, m))
    else if action == Replace && request.strategy == BlueGreen && AppOf(gateway, before.value) in apps &&
            Shrinks(apps[AppOf(gateway, before.value)], ServeScaling(m.scaling)) then
      Some(Rescale(m.name, AppOf(gateway, before.value), m.scaling))
    else None
  }

  function ScaleDownsOf(gateway: string, request: Request, apps: map<App, ServeApp>, current: seq<Model>, wanted: seq<Model>): seq<Rescale> {
    if wanted == [] then [] else
      var down := ScaleDownOf(gateway, request, apps, current, wanted[|wanted| - 1]);
      ScaleDownsOf(gateway, request, apps, current, wanted[..|wanted| - 1]) + if down.Some? then [down.value] else []
  }

  /** The apps of the replaced models among *wanted*. */
  function ReplacedOf(gateway: string, current: seq<Model>, wanted: seq<Model>): set<App> {
    set m | m in wanted && Named(current, m.name).Some? && AppOf(gateway, Named(current, m.name).value) != AppOf(gateway, m)
      :: AppOf(gateway, Named(current, m.name).value)
  }

  /** The committed models a reconcile removes, in order. */
  function RemovedModels(request: Request, current: seq<Model>, wanted: seq<Model>): seq<Model> {
    if request.mode == Fold(Reconcile) then Unnamed(current, Names(wanted)) else []
  }

  function Unnamed(models: seq<Model>, names: set<string>): (r: seq<Model>)
    ensures forall m :: m in r <==> m in models && m.name !in names
  {
    if models == [] then [] else
      (if models[0].name in names then [] else [models[0]]) + Unnamed(models[1..], names)
  }

  function DecidedOf(gateway: string, apps: map<App, ServeApp>, current: seq<Model>, wanted: seq<Model>): map<string, Action> {
    map name | name in Names(wanted) :: ActionOf(gateway, apps, Named(current, name), Named(wanted, name).value)
  }

  function ActionsOf(gateway: string, request: Request, apps: map<App, ServeApp>, current: seq<Model>, wanted: seq<Model>): map<string, Action> {
    DecidedOf(gateway, apps, current, wanted) + RemovalsOf(Names(RemovedModels(request, current, wanted)))
  }

  function RemovalsOf(names: set<string>): map<string, Action> {
    map name | name in names :: Remove
  }

  function LeftoversOf(gateway: string, apps: map<App, ServeApp>, current: seq<Model>): set<App> {
    set a | a in apps && a.Listed(gateway) && a !in Apps(gateway, current)
  }

  function DiffOf(gateway: string, request: Request, committed: Option<seq<Model>>, apps: map<App, ServeApp>): Diff {
    var current, wanted := Set(committed), Wanted(request, committed);
    Diff(
      ActionsOf(gateway, request, apps, current, wanted),
      LeftoversOf(gateway, apps, current),
      ScaleDownsOf(gateway, request, apps, current, wanted),
      DeploysOf(gateway, apps, current, wanted),
      ScaleUpsOf(gateway, apps, current, wanted),
      ReplacedOf(gateway, current, wanted) + Apps(gateway, RemovedModels(request, current, wanted)),
      ResultModels(gateway, request, committed),
      Commits(gateway, request, committed))
  }

  ghost predicate WellNamed(request: Request, committed: Option<seq<Model>>) {
    UniqueNames(Set(committed)) && (request.Proposes() ==> UniqueNames(request.models.value))
  }

  // --- The diff as it is built ---

  /** The committed models by name. */
  method ByName(rows: seq<Model>) returns (current: map<string, Model>)
    requires UniqueNames(rows)
    ensures current.Keys == Names(rows)
    ensures forall name :: name in current ==> Named(rows, name) == Some(current[name])
  {
    current := map[];
    for k := 0 to |rows|
      invariant current.Keys == Names(rows[..k])
      invariant forall name :: name in current ==> current[name] in rows && current[name].name == name
    {
      assert rows[..k + 1] == rows[..k] + [rows[k]];
      assert Names(rows[..k + 1]) == Names(rows[..k]) + {rows[k].name};
      current := current[rows[k].name := rows[k]];
    }
    assert rows[..|rows|] == rows;
    forall name | name in current
      ensures Named(rows, name) == Some(current[name])
    {
      NamePins(rows, current[name], Named(rows, name).value);
    }
  }

  /** Fails on a request that repeats a model name; else the diff, decided model by model. */
  method BuildDiff(gateway: string, request: Request, committed: Option<seq<Model>>, apps: map<App, ServeApp>)
      returns (r: Result<Diff, Duplicate>)
    requires UniqueNames(Set(committed))
    ensures r.Ok? <==> WellNamed(request, committed)
    ensures r.Ok? ==> r.value == DiffOf(gateway, request, committed, apps)
  {
    var rows := Set(committed);
    var current := ByName(rows);
    var leftovers := LeftoversOf(gateway, apps, rows);
    var wanted, models, commits := rows, committed, false;
    if request.Proposes() {
      wanted := request.models.value;
      var proposed := Merge(rows, request.models.value, gateway, request.mode.mode);
      if proposed.Err? {
        return Err(proposed.error);
      }
      commits := committed.None? || Deployed(gateway, proposed.value) != Deployed(gateway, rows);
      if commits {
        models := Some(proposed.value);
      }
    }
    var actions, deploys, downs, ups, retired := DecideAll(gateway, request, apps, current, rows, wanted);
    var removed := if request.mode == Fold(Reconcile) then Unnamed(rows, Names(wanted)) else [];
    actions, retired := actions + RemovalsOf(Names(removed)), retired + Apps(gateway, removed);
    r := Ok(Diff(actions, leftovers, downs, deploys, ups, retired, models, commits));
  }

  /** The decisions on every wanted model, in order. */
  method DecideAll(gateway: string, request: Request, apps: map<App, ServeApp>, current: map<string, Model>, ghost rows: seq<Model>, wanted: seq<Model>)
      returns (actions: map<string, Action>, deploys: seq<Model>, downs: seq<Rescale>, ups: seq<Rescale>, retired: set<App>)
    requires current.Keys == Names(rows) && forall name :: name in current ==> Named(rows, name) == Some(current[name])
    requires UniqueNames(wanted)
    ensures actions == DecidedOf(gateway, apps, rows, wanted)
    ensures Decided(gateway, request, apps, rows, wanted, deploys, downs, ups, retired)
  {
    actions, deploys, downs, ups, retired := map[], [], [], [], {};
    for k := 0 to |wanted|
      invariant actions == DecidedOf(gateway, apps, rows, wanted[..k])
      invariant Decided(gateway, request, apps, rows, wanted[..k], deploys, downs, ups, retired)
    {
      var m := wanted[k];
      PrefixStep(wanted, k);
      var before := if m.name in current then Some(current[m.name]) else None;
      var action, down, up, replaced := Decide(gateway, request, apps, rows, before, m);
      DecidedStep(gateway, request, apps, rows, wanted[..k], deploys, downs, ups, retired, m);
      DecidedActions(gateway, apps, rows, wanted[..k], m);
      actions := actions[m.name := action];
      deploys := deploys + if Deploys(action) then [m] else [];
      downs, ups := downs + if down.Some? then [down.value] else [], ups + if up then [RescaleFor(gateway, m)] else [];
      retired := retired + replaced;
    }
    assert wanted[..|wanted|] == wanted;
  }

  ghost predicate Decided(gateway: string, request: Request, apps: map<App, ServeApp>, rows: seq<Model>, wanted: seq<Model>,
                          deploys: seq<Model>, downs: seq<Rescale>, ups: seq<Rescale>, retired: set<App>) {
    deploys == DeploysOf(gateway, apps, rows, wanted) && downs == ScaleDownsOf(gateway, request, apps, rows, wanted) &&
    ups == ScaleUpsOf(gateway, apps, rows, wanted) && retired == ReplacedOf(gateway, rows, wanted)
  }

  lemma DecidedStep(gateway: string, request: Request, apps: map<App, ServeApp>, rows: seq<Model>, wanted: seq<Model>,
                    deploys: seq<Model>, downs: seq<Rescale>, ups: seq<Rescale>, retired: set<App>, m: Model)
    requires Decided(gateway, request, apps, rows, wanted, deploys, downs, ups, retired)
    ensures var action, down := ActionOf(gateway, apps, Named(rows, m.name), m), ScaleDownOf(gateway, request, apps, rows, m);
            Decided(gateway, request, apps, rows, wanted + [m],
                    deploys + (if Deploys(action) then [m] else []), downs + (if down.Some? then [down.value] else []),
                    ups + (if ScalesUp(gateway, apps, rows, m) then [RescaleFor(gateway, m)] else []),
                    retired + ReplacedOf(gateway, rows, [m]))
  {
    assert (wanted + [m])[..|wanted|] == wanted && (wanted + [m])[|wanted|] == m;
    ReplacedStep(gateway, rows, wanted, m);
  }

  lemma DecidedActions(gateway: string, apps: map<App, ServeApp>, rows: seq<Model>, wanted: seq<Model>, m: Model)
    requires UniqueNames(wanted + [m])
    ensures DecidedOf(gateway, apps, rows, wanted + [m])
         == DecidedOf(gateway, apps, rows, wanted)[m.name := ActionOf(gateway, apps, Named(rows, m.name), m)]
  {
    var all := wanted + [m];
    assert Names(all) == Names(wanted) + {m.name};
    forall name | name in Names(all)
      ensures Named(all, name) == if name == m.name then Some(m) else Named(wanted, name)
    {
      assert m in all;
      NamePins(all, Named(all, name).value, if name == m.name then m else Named(wanted, name).value);
    }
  }

  lemma PrefixStep(wanted: seq<Model>, k: nat)
    requires k < |wanted| && UniqueNames(wanted)
    ensures wanted[..k + 1] == wanted[..k] + [wanted[k]] && wanted[..k + 1][..k] == wanted[..k]
    ensures Names(wanted[..k + 1]) == Names(wanted[..k]) + {wanted[k].name} && wanted[k].name !in Names(wanted[..k])
  {
    assert wanted[..k + 1] == wanted[..k] + [wanted[k]];
  }

  lemma ReplacedStep(gateway: string, current: seq<Model>, wanted: seq<Model>, m: Model)
    ensures ReplacedOf(gateway, current, wanted + [m]) == ReplacedOf(gateway, current, wanted) + ReplacedOf(gateway, current, [m])
  {
    forall x | x in wanted + [m]
      ensures x in wanted || x in [m]
    {
    }
  }

  /** One wanted model's action, the rescales it adds and the app it retires. */
  method Decide(gateway: string, request: Request, apps: map<App, ServeApp>, ghost rows: seq<Model>, before: Option<Model>, m: Model)
      returns (action: Action, down: Option<Rescale>, up: bool, replaced: set<App>)
    requires before == Named(rows, m.name)
    ensures action == ActionOf(gateway, apps, before, m)
    ensures down == ScaleDownOf(gateway, request, apps, rows, m)
    ensures up == ScalesUp(gateway, apps, rows, m)
    ensures replaced == ReplacedOf(gateway, rows, [m])
  {
    down, up, replaced := None, false, {};
    if before.None? {
      return Add, None, false, {};
    }
    var app, want, oldApp := AppOf(gateway, m), ServeScaling(m.scaling), AppOf(gateway, before.value);
    if oldApp != app {
      action, replaced := Replace, {oldApp};
      assert m in [m];
      if request.strategy == BlueGreen && oldApp in apps && Shrinks(apps[oldApp], want) {
        down := Some(Rescale(m.name, oldApp, m.scaling));
      }
      return;
    }
    if app !in apps || !apps[app].status.Live() {
      action := Redeploy;
    } else if apps[app].scaling != Some(want) {
      action := Rescaled;
      up := apps[app].scaling.None? || Rises(apps[app].scaling.value, want);
      if !up {
        down := Some(Rescale(m.name, app, m.scaling));
      }
    } else {
      action := Keep;
    }
  }
}
