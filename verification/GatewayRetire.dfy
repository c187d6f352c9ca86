/** The deploy protocol and the gateway's replicas together: what a request deletes once it has committed, no replica counted
    for its switch routes to. */
module GatewayRetire {
  import opened Wrappers
  import opened AppNames
  import opened Ledger
  import opened DeployDiff
  import Deploy = DeployProtocol
  import Theorems = DeployProtocolTheorems
  import Tables = GatewayTables
  import Switch = GatewaySwitch

  function NameOf(app: App): string { DeploymentName(app.gateway, app.model, app.fingerprint) }

  /** The targets a routing version of *models* gives the gateway's replicas. */
  function TargetsOf(gw: string, models: seq<Model>): seq<Tables.Target> {
    seq(|models|, i requires 0 <= i < |models| => Tables.Target(models[i].name, NameOf(AppOf(gw, models[i]))))
  }

  /** An app is a target of the models that name it, and of no others. */
  lemma TargetNames(gw: string, models: seq<Model>, app: App)
    requires app.gateway == gw && '.' !in gw
    ensures NameOf(app) in Switch.AppsOf(TargetsOf(gw, models)) <==> app in Apps(gw, models)
  {
    var targets := TargetsOf(gw, models);
    if NameOf(app) in Switch.AppsOf(targets) {
      var i :| 0 <= i < |targets| && targets[i].app == NameOf(app);
      DeploymentNameInjective(gw, models[i].name, models[i].fingerprint, app.gateway, app.model, app.fingerprint);
      assert AppOf(gw, models[i]) == app;
    }
    if app in Apps(gw, models) {
      var i :| 0 <= i < |models| && AppOf(gw, models[i]) == app;
      assert targets[i].app == NameOf(app);
    }
  }

  /** Once the gateway has counted as switched to the routing in force while a request deletes an app after its commit, no
      replica counted for that switch routes to the app, nor one that came later, whatever has happened meanwhile short of a
      newer seq being read; unless a dead worker's reset came between switch and write. */
  lemma RetiredUnheld(s: Deploy.State, app: App, g: Switch.State, acts: seq<Switch.Act>, id: string)
    requires Deploy.Reachable(s) && Deploy.AppDeleted(s, app).Some? && s.worker.value.pc.Retire? && !s.unswitched && '.' !in s.gw
    requires Switch.Reachable(s.gw, g) && ((id in g.tables.replicas && id in g.followers) || id !in g.used)
    requires s.c.routing.Some? && g.tables.Switched(g.now, s.c.routing.value.seqNo) && Switch.After(s.gw, g, acts).Some?
    requires var routing, t := s.c.routing.value, Switch.After(s.gw, g, acts).value;
             t.read == routing.seqNo && (routing.seqNo in t.versions ==> t.versions[routing.seqNo] == TargetsOf(s.gw, Set(routing.models)))
    ensures var t := Switch.After(s.gw, g, acts).value;
            id in t.followers ==> NameOf(app) !in t.followers[id].table.Keys
  {
    var routing := s.c.routing.value;
    Theorems.RetiredUnrouted(s, app);
    if id in g.used {
      Switch.SwitchedStays(s.gw, g, acts, routing.seqNo, id);
    } else {
      Switch.NewcomersFollow(s.gw, g, acts, routing.seqNo, id);
    }
    TargetNames(s.gw, Set(routing.models), app);
  }
}
