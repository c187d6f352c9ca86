/** One gateway's part of the gateway coordinator: its published table, its generations and its replicas' reports. */
module GatewayTables {
  import opened Wrappers
  import opened DeployDiff

  /** The deploy coordinator's routing version: its seq and each model's app, in order. */
  datatype Target = Target(model: string, app: string)
  datatype Version = Version(seqNo: nat, targets: seq<Target>)

  /** app -> model, and the models reported ready only once they are in it. */
  datatype Routing = Routing(models: map<string, string>, expected: seq<string>)

  /** An app's status in Serve and how many of its replicas are RUNNING. */
  datatype AppStatus = AppStatus(status: Status, running: nat)
  {
    predicate CanServe() { status != Deleting && (status == Running || running > 0) }
  }

  /** What a replica reported: the seq its table was built from and the generation it polled with, and when. */
  datatype Report = Report(seqNo: nat, gen: nat, at: real)

  datatype Snapshot = Snapshot(models: map<string, string>, expected: seq<string>, gen: nat, seqNo: Option<nat>)

  /** One read of Serve. */
  datatype Reading = Reading(apps: map<string, AppStatus>, running: set<string>)

  const REPORT_TTL := 60.0

  function ModelsOf(targets: seq<Target>): seq<string> {
    seq(|targets|, i requires 0 <= i < |targets| => targets[i].model)
  }

  /** The targets that can serve, app to model. */
  function Serving(targets: seq<Target>, apps: map<string, AppStatus>): (r: map<string, string>)
    ensures forall a :: a in r ==> a in apps && apps[a].CanServe() && Target(r[a], a) in targets
    ensures forall t :: t in targets && t.app in apps && apps[t.app].CanServe() ==> t.app in r
  {
    if targets == [] then map[] else
      var last := targets[|targets| - 1];
      var rest := Serving(targets[..|targets| - 1], apps);
      assert targets == targets[..|targets| - 1] + [last];
      if last.app in apps && apps[last.app].CanServe() then rest[last.app := last.model] else rest
  }

  /** None without the gateway's own app. */
  function ComputeRouting(gateway: string, targets: seq<Target>, apps: map<string, AppStatus>): Option<Routing> {
    if gateway !in apps then None else Some(Routing(Serving(targets, apps), ModelsOf(targets)))
  }

  datatype Tables = Tables(
    routing: Option<Routing>,
    version: Option<Version>,
    // the seq the published table was computed from
    seqNo: Option<nat>,
    firstGen: nat,
    generation: Option<nat>,
    computed: bool,
    // the gateway's RUNNING replicas as of the last pass
    replicas: set<string>,
    reports: map<string, Report>)
  {
    function Gen(): nat { if generation.Some? then generation.value else firstGen }

    function Bumped(): Tables { this.(generation := Some(Gen() + 1)) }

    function Published(next: Routing, seqNo': nat): Tables {
      var t := this.(routing := Some(next), seqNo := Some(seqNo'));
      if routing != Some(next) || seqNo != Some(seqNo') then t.Bumped() else t
    }

    /** A pass over what Serve shows, with the version read for it; None keeps the last one. */
    function Passed(gateway: string, read: Reading, fetched: Option<Version>): Tables {
      var version' := if fetched.Some? then fetched else version;
      var t := this.(version := version', computed := true);
      if version'.None? then t else
        var next := ComputeRouting(gateway, version'.value.targets, read.apps);
        if next.None? then t else t.(replicas := read.running).Published(next.value, version'.value.seqNo)
    }

    function Current(): Snapshot {
      if routing.Some? then Snapshot(routing.value.models, routing.value.expected, Gen(), seqNo)
      else Snapshot(map[], [], Gen(), seqNo)
    }

    function Reported(id: string, report: Report): Tables { this.(reports := reports[id := report]) }

    /** The reports not too old to count. */
    function Fresh(now: real): map<string, Report> {
      map id | id in reports && now - reports[id].at <= REPORT_TTL :: reports[id]
    }

    predicate Switched(now: real, seqNo': nat) {
      computed && seqNo == Some(seqNo') && forall id :: id in replicas ==> id in Fresh(now) && Fresh(now)[id].seqNo == seqNo'
    }
  }

  /** An app is routed to exactly if it is a target, is not being deleted, and is RUNNING or has a running replica. */
  lemma ServedExactly(targets: seq<Target>, apps: map<string, AppStatus>, app: string)
    ensures app in Serving(targets, apps) <==>
              (exists i :: 0 <= i < |targets| && targets[i].app == app) && app in apps && apps[app].status != Deleting &&
              (apps[app].status == Running || apps[app].running > 0)
    ensures app in Serving(targets, apps) ==> exists i :: 0 <= i < |targets| && targets[i] == Target(Serving(targets, apps)[app], app)
  {
  }

  /** A pass keeps the version it read, or the last one; it publishes by that version exactly if there is one and Serve holds the
      gateway's own app; and the generation moves on by one exactly if the table, the models expected or the seq changed. */
  lemma PassIs(t: Tables, gateway: string, read: Reading, fetched: Option<Version>)
    ensures var u, version := t.Passed(gateway, read, fetched), if fetched.Some? then fetched else t.version;
            u.computed && u.version == version && u.reports == t.reports &&
            if version.None? || gateway !in read.apps then u.routing == t.routing && u.seqNo == t.seqNo && u.replicas == t.replicas && u.Gen() == t.Gen()
            else
              u.replicas == read.running && u.seqNo == Some(version.value.seqNo) && u.routing.Some? &&
              u.routing.value.models == Serving(version.value.targets, read.apps) &&
              |u.routing.value.expected| == |version.value.targets| &&
              (forall i :: 0 <= i < |version.value.targets| ==> u.routing.value.expected[i] == version.value.targets[i].model) &&
              u.Gen() == t.Gen() + if u.routing != t.routing || u.seqNo != t.seqNo then 1 else 0
  {
  }

  class GatewayCoordinator {
    const gateway: string
    const firstGen: nat
    var routing: Option<Routing>
    var version: Option<Version>
    var seqNo: Option<nat>
    var generation: Option<nat>
    var computed: bool
    var replicas: set<string>
    var reports: map<string, Report>

    function View(): Tables
      reads this
    {
      Tables(routing, version, seqNo, firstGen, generation, computed, replicas, reports)
    }

    constructor (gateway: string, clock: nat)
      ensures View() == Tables(None, None, None, clock, None, false, {}, map[]) && this.gateway == gateway
    {
      this.gateway, firstGen := gateway, clock;
      routing, version, seqNo, generation, computed, replicas, reports := None, None, None, None, false, {}, map[];
    }

    /** Drops every report older than its time to live. */
    method FreshReports(now: real)
      modifies `reports
      ensures reports == old(View()).Fresh(now)
      ensures forall id :: id in reports <==> id in old(reports) && now - old(reports)[id].at <= 60.0
    {
      var left := reports.Keys;
      while left != {}
        invariant left <= reports.Keys
        invariant forall id :: id in reports ==> id in old(reports) && reports[id] == old(reports)[id]
        invariant forall id :: id in reports && id !in left ==> now - reports[id].at <= REPORT_TTL
        invariant forall id :: id in old(reports) && now - old(reports)[id].at <= REPORT_TTL ==> id in reports
        decreases left
      {
        var id :| id in left;
        left := left - {id};
        if now - reports[id].at > REPORT_TTL {
          reports := reports - {id};
        }
      }
    }

    /** Every RUNNING replica of the last pass holds *seqNo'* by a report still fresh; stale ones are dropped. */
    method IsSwitched(now: real, seqNo': nat) returns (r: bool)
      modifies `reports
      ensures r == old(View()).Switched(now, seqNo')
      ensures r <==> computed && seqNo == Some(seqNo') &&
                     forall id :: id in replicas ==> id in old(reports) && old(reports)[id].seqNo == seqNo' && now - old(reports)[id].at <= 60.0
      ensures reports == old(reports) || reports == old(View()).Fresh(now)
    {
      if !computed || seqNo != Some(seqNo') {
        return false;
      }
      FreshReports(now);
      var holding := set id | id in reports && reports[id].seqNo == seqNo';
      r := replicas <= holding;
    }

    /** A replica's poll as it arrives: its report, when it has a table, and the answer if it needn't wait. */
    method Poll(sinceGen: nat, now: real, id: string, seqNo': Option<nat>) returns (r: Option<nat>)
      modifies `reports
      ensures View() == if seqNo'.Some? then old(View()).Reported(id, Report(seqNo'.value, sinceGen, now)) else old(View())
      ensures seqNo'.Some? ==> reports == old(reports)[id := Report(seqNo'.value, sinceGen, now)]
      ensures r.Some? <==> computed && View().Gen() != sinceGen
      ensures r.Some? ==> r.value == View().Gen()
    {
      if seqNo'.Some? {
        reports := reports[id := Report(seqNo'.value, sinceGen, now)];
      }
      if !computed {
        return None;
      }
      var current := if generation.Some? then generation.value else firstGen;
      r := if current != sinceGen then Some(current) else None;
    }

    method Bump()
      modifies `generation
      ensures View() == old(View()).Bumped() && generation == Some(old(View()).Gen() + 1)
    {
      generation := Some((if generation.Some? then generation.value else firstGen) + 1);
    }

    method Publish(next: Routing, seqNo': nat)
      modifies `routing, `seqNo, `generation
      ensures View() == old(View()).Published(next, seqNo')
      ensures routing == Some(next) && seqNo == Some(seqNo')
      ensures View().Gen() == old(View()).Gen() + if old(routing) == Some(next) && old(seqNo) == Some(seqNo') then 0 else 1
    {
      var previous := routing;
      routing := Some(next);
      var changed := previous.None? || previous.value.models != next.models || previous.value.expected != next.expected;
      if changed || seqNo != Some(seqNo') {
        Bump();
      }
      seqNo := Some(seqNo');
    }

    method Pass(read: Reading, fetched: Option<Version>, now: real)
      modifies this
      ensures View() == old(View()).Passed(gateway, read, fetched) ||
              View() == old(View()).Passed(gateway, read, fetched).(reports := old(View()).Fresh(now))
    {
      if fetched.Some? {
        version := fetched;
      }
      computed := true;
      if version.Some? {
        var next := ComputeRouting(gateway, version.value.targets, read.apps);
        if next.Some? {
          replicas := read.running;
          Publish(next.value, version.value.seqNo);
          FreshReports(now);
        }
      }
    }

    method GetRouting() returns (r: Snapshot)
      ensures r == View().Current() && r.gen == View().Gen() && r.seqNo == seqNo
      ensures if routing.Some? then r.models == routing.value.models && r.expected == routing.value.expected else r.models == map[] && r.expected == []
    {
      r := Snapshot(if routing.Some? then routing.value.models else map[], if routing.Some? then routing.value.expected else [],
                    if generation.Some? then generation.value else firstGen, seqNo);
    }
  }
}
