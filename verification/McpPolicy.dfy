/** Which of an MCP server's tools a request may call, and which of those need approval first. */
module McpPolicy {
  import opened Wrappers

  /** A tool as its server lists it. */
  datatype Listed = Listed(name: string, readOnly: bool)

  /** allowed_tools: unset, a list of names, or an object. */
  datatype Allowed = Everything | OnlyNames(names: seq<string>) | OnlyThose(named: Option<seq<string>>, readOnly: bool)

  /** require_approval: unset or "always", "never", or an object of two buckets. */
  datatype Bucket = Bucket(named: Option<seq<string>>, readOnly: bool)
  {
    predicate Names(tool: Listed) { named.Some? && tool.name in named.value }
  }
  datatype Asking = Always | Never | ByTool(never: Bucket, always: Bucket)

  datatype Spec = Spec(server: string, allowed: Allowed, asking: Asking)

  predicate Allows(allowed: Allowed, tool: Listed) {
    match allowed
    case Everything => true
    case OnlyNames(names) => tool.name in names
    case OnlyThose(named, readOnly) => (named.Some? ==> tool.name in named.value) && (readOnly ==> tool.readOnly)
  }

  function Keep(tools: seq<Listed>, names: seq<string>): seq<Listed> {
    if tools == [] then [] else Keep(tools[..|tools| - 1], names) + if tools[|tools| - 1].name in names then [tools[|tools| - 1]] else []
  }

  function KeepReadOnly(tools: seq<Listed>): seq<Listed> {
    if tools == [] then [] else KeepReadOnly(tools[..|tools| - 1]) + if tools[|tools| - 1].readOnly then [tools[|tools| - 1]] else []
  }

  /** The names first, then read-only, as they are applied. */
  function FilterTools(spec: Spec, tools: seq<Listed>): seq<Listed> {
    match spec.allowed
    case Everything => tools
    case OnlyNames(names) => Keep(tools, names)
    case OnlyThose(named, readOnly) =>
      var some := if named.Some? then Keep(tools, named.value) else tools;
      if readOnly then KeepReadOnly(some) else some
  }

  lemma {:induction false} KeepIs(tools: seq<Listed>, names: seq<string>)
    ensures forall t :: t in Keep(tools, names) <==> t in tools && t.name in names
  {
    if tools != [] {
      KeepIs(tools[..|tools| - 1], names);
      assert tools == tools[..|tools| - 1] + [tools[|tools| - 1]];
    }
  }

  lemma {:induction false} KeepReadOnlyIs(tools: seq<Listed>)
    ensures forall t :: t in KeepReadOnly(tools) <==> t in tools && t.readOnly
  {
    if tools != [] {
      KeepReadOnlyIs(tools[..|tools| - 1]);
      assert tools == tools[..|tools| - 1] + [tools[|tools| - 1]];
    }
  }

  /** Exactly the listed tools the spec allows are left. */
  lemma FilterIs(spec: Spec, tools: seq<Listed>, tool: Listed)
    ensures tool in FilterTools(spec, tools) <==> tool in tools && Allows(spec.allowed, tool)
  {
    match spec.allowed
    case Everything =>
    case OnlyNames(names) => KeepIs(tools, names);
    case OnlyThose(named, readOnly) =>
      var some := if named.Some? then Keep(tools, named.value) else tools;
      if named.Some? {
        KeepIs(tools, named.value);
      }
      KeepReadOnlyIs(some);
  }

  /** The allowed tools, in the order they are listed in. */
  function Sieve(allowed: Allowed, tools: seq<Listed>): seq<Listed> {
    if tools == [] then [] else
      Sieve(allowed, tools[..|tools| - 1]) + if Allows(allowed, tools[|tools| - 1]) then [tools[|tools| - 1]] else []
  }

  /** Filtering by names and then by read-only sieves the list once: nothing is reordered, repeated or lost. */
  lemma {:induction false} FilterSieves(spec: Spec, tools: seq<Listed>)
    ensures FilterTools(spec, tools) == Sieve(spec.allowed, tools)
  {
    if tools != [] {
      var head, last := tools[..|tools| - 1], tools[|tools| - 1];
      FilterSieves(spec, head);
      assert tools == head + [last];
      FilterMore(spec, head, last);
    }
  }

  lemma FilterMore(spec: Spec, head: seq<Listed>, last: Listed)
    ensures FilterTools(spec, head + [last]) == FilterTools(spec, head) + if Allows(spec.allowed, last) then [last] else []
  {
    assert (head + [last])[..|head|] == head;
    match spec.allowed
    case OnlyThose(named, readOnly) =>
      var some := if named.Some? then Keep(head, named.value) else head;
      assert (some + [last])[..|some|] == some && some + [] == some;
    case _ =>
  }

  function RequiresApproval(spec: Spec, tool: Listed): bool {
    match spec.asking
    case Always => true
    case Never => false
    case ByTool(never, always) =>
      if never.Names(tool) then false
      else if always.Names(tool) then true
      else if never.readOnly && tool.readOnly then false
      else true
  }

  /** Approval is skipped only for what the request exempts: every tool, a tool by name, or, unless named the other way,
      a read-only one. */
  lemma ApprovalSkipped(spec: Spec, tool: Listed)
    ensures !RequiresApproval(spec, tool) <==>
              spec.asking.Never? ||
              (spec.asking.ByTool? &&
                (spec.asking.never.Names(tool) || (spec.asking.never.readOnly && tool.readOnly && !spec.asking.always.Names(tool))))
  {
  }

  /** A name clash: with a tool of the client's, or between two servers. */
  datatype Clash = WithClient(name: string) | BetweenServers(name: string)

  /** The names seen, each with its server, once *server*'s tools have been. */
  function Seen(seen: map<string, string>, server: string, tools: seq<Listed>): map<string, string> {
    if tools == [] then seen else Seen(seen, server, tools[..|tools| - 1])[tools[|tools| - 1].name := server]
  }

  lemma {:induction false} SeenIs(seen: map<string, string>, server: string, tools: seq<Listed>)
    ensures forall name :: name in Seen(seen, server, tools) <==> name in seen || name in NamesOf(tools)
    ensures forall name :: name in Seen(seen, server, tools) ==>
              Seen(seen, server, tools)[name] == if name in NamesOf(tools) then server else seen[name]
  {
    if tools != [] {
      var head, last := tools[..|tools| - 1], tools[|tools| - 1];
      SeenIs(seen, server, head);
      assert tools == head + [last];
      assert NamesOf(tools) == NamesOf(head) + {last.name};
    }
  }

  function NamesOf(tools: seq<Listed>): set<string> { set t | t in tools :: t.name }

  /** One server's tools against the client's names and those seen so far. */
  predicate Clear(seen: map<string, string>, client: set<string>, server: string, tools: seq<Listed>) {
    forall t :: t in tools ==> t.name !in client && (t.name in seen ==> seen[t.name] == server)
  }

  /** One more of a server's tools. */
  lemma ClearMore(seen: map<string, string>, client: set<string>, server: string, tools: seq<Listed>, k: nat)
    requires k < |tools| && Clear(seen, client, server, tools[..k])
    ensures var t, now := tools[k], Seen(seen, server, tools[..k]);
            Clear(seen, client, server, tools[..k + 1]) == (t.name !in client && (t.name in now ==> now[t.name] == server))
    ensures Clear(seen, client, server, tools) ==> Clear(seen, client, server, tools[..k + 1])
    ensures Seen(seen, server, tools[..k + 1]) == Seen(seen, server, tools[..k])[tools[k].name := server]
  {
    var t := tools[k];
    assert tools[..k + 1] == tools[..k] + [t] && tools[..k + 1][..k] == tools[..k];
    SeenIs(seen, server, tools[..k]);
  }

  method CheckServer(server: string, tools: seq<Listed>, client: set<string>, seen: map<string, string>) returns (r: Option<Clash>, seen': map<string, string>)
    ensures r.None? <==> Clear(seen, client, server, tools)
    ensures r.None? ==> seen' == Seen(seen, server, tools)
    ensures r.Some? ==> r.value.name in NamesOf(tools) && 
                           if r.value.WithClient? then r.value.name in client else r.value.name in seen && seen[r.value.name] != server
  {
    seen' := seen;
    for k := 0 to |tools|
      invariant Clear(seen, client, server, tools[..k]) && seen' == Seen(seen, server, tools[..k])
    {
      var t := tools[k];
      ClearMore(seen, client, server, tools, k);
      if t.name in client {
        return Some(WithClient(t.name)), seen';
      }
      if t.name in seen' && seen'[t.name] != server {
        return Some(BetweenServers(t.name)), seen';
      }
      seen' := seen'[t.name := server];
    }
    assert tools[..|tools|] == tools;
    r := None;
  }

  function ToolsOf(discovered: map<string, seq<Listed>>, spec: Spec): seq<Listed> {
    if spec.server in discovered then discovered[spec.server] else []
  }

  /** No tool has a client tool's name, and no name leads to two servers. */
  ghost predicate Unambiguous(specs: seq<Spec>, discovered: map<string, seq<Listed>>, client: set<string>) {
    (forall i, t :: 0 <= i < |specs| && t in ToolsOf(discovered, specs[i]) ==> t.name !in client) &&
    (forall i, j :: 0 <= i < j < |specs| && NamesOf(ToolsOf(discovered, specs[i])) * NamesOf(ToolsOf(discovered, specs[j])) != {} ==>
       specs[i].server == specs[j].server)
  }

  ghost predicate Sourced(specs: seq<Spec>, discovered: map<string, seq<Listed>>, n: nat, name: string, server: string)
    requires n <= |specs|
  {
    exists i :: 0 <= i < n && specs[i].server == server && name in NamesOf(ToolsOf(discovered, specs[i]))
  }

  /** What *seen* holds after the first *n* servers: each of their tools' names, with its server. */
  ghost predicate SeenSo(specs: seq<Spec>, discovered: map<string, seq<Listed>>, n: nat, seen: map<string, string>)
    requires n <= |specs|
  {
    (forall i, name :: 0 <= i < n && name in NamesOf(ToolsOf(discovered, specs[i])) ==> name in seen && seen[name] == specs[i].server) &&
    (forall name :: name in seen ==> Sourced(specs, discovered, n, name, seen[name]))
  }

  /** A tool has the client tool's name, or two servers' tools have the name. */
  ghost predicate Real(specs: seq<Spec>, discovered: map<string, seq<Listed>>, client: set<string>, clash: Clash) {
    match clash
    case WithClient(name) => name in client && exists i :: 0 <= i < |specs| && name in NamesOf(ToolsOf(discovered, specs[i]))
    case BetweenServers(name) =>
      exists i, j :: 0 <= i < j < |specs| && specs[i].server != specs[j].server &&
                     name in NamesOf(ToolsOf(discovered, specs[i])) && name in NamesOf(ToolsOf(discovered, specs[j]))
  }

  lemma ClashReal(specs: seq<Spec>, discovered: map<string, seq<Listed>>, client: set<string>, n: nat, seen: map<string, string>, clash: Clash)
    requires n < |specs| && SeenSo(specs, discovered, n, seen) && clash.name in NamesOf(ToolsOf(discovered, specs[n]))
    requires if clash.WithClient? then clash.name in client else clash.name in seen && seen[clash.name] != specs[n].server
    ensures Real(specs, discovered, client, clash)
  {
    if clash.BetweenServers? {
      assert Sourced(specs, discovered, n, clash.name, seen[clash.name]);
    }
  }

  method CheckCollisions(specs: seq<Spec>, discovered: map<string, seq<Listed>>, client: set<string>) returns (r: Option<Clash>)
    ensures r.None? <==> Unambiguous(specs, discovered, client)
    ensures r.Some? ==> Real(specs, discovered, client, r.value)
  {
    var seen: map<string, string> := map[];
    for n := 0 to |specs|
      invariant Unambiguous(specs[..n], discovered, client) && SeenSo(specs, discovered, n, seen)
    {
      var tools := ToolsOf(discovered, specs[n]);
      ghost var was := seen;
      var clash, seen' := CheckServer(specs[n].server, tools, client, seen);
      if clash.Some? {
        ClashIs(specs, discovered, client, n, seen);
        ClashReal(specs, discovered, client, n, seen, clash.value);
        return clash;
      }
      SeenMore(specs, discovered, client, n, seen);
      seen := seen';
    }
    assert specs[..|specs|] == specs;
    r := None;
  }

  lemma ClashIs(specs: seq<Spec>, discovered: map<string, seq<Listed>>, client: set<string>, n: nat, seen: map<string, string>)
    requires n < |specs| && SeenSo(specs, discovered, n, seen) && !Clear(seen, client, specs[n].server, ToolsOf(discovered, specs[n]))
    ensures !Unambiguous(specs, discovered, client)
  {
    var t :| t in ToolsOf(discovered, specs[n]) && !(t.name !in client && (t.name in seen ==> seen[t.name] == specs[n].server));
    if t.name !in client {
      assert Sourced(specs, discovered, n, t.name, seen[t.name]);
      var i :| 0 <= i < n && specs[i].server == seen[t.name] && t.name in NamesOf(ToolsOf(discovered, specs[i]));
      assert t.name in NamesOf(ToolsOf(discovered, specs[i])) * NamesOf(ToolsOf(discovered, specs[n]));
    }
  }

  lemma SeenMore(specs: seq<Spec>, discovered: map<string, seq<Listed>>, client: set<string>, n: nat, seen: map<string, string>)
    requires n < |specs| && SeenSo(specs, discovered, n, seen) && Clear(seen, client, specs[n].server, ToolsOf(discovered, specs[n]))
    requires Unambiguous(specs[..n], discovered, client)
    ensures SeenSo(specs, discovered, n + 1, Seen(seen, specs[n].server, ToolsOf(discovered, specs[n]))) == true
    ensures Unambiguous(specs[..n + 1], discovered, client) == true
  {
    SeenApart(specs, discovered, client, n, seen);
    SeenAgree(specs, discovered, client, n, seen);
    UnambiguousMore(specs, discovered, client, n);
  }

  lemma UnambiguousMore(specs: seq<Spec>, discovered: map<string, seq<Listed>>, client: set<string>, n: nat)
    requires n < |specs| && Unambiguous(specs[..n], discovered, client) && forall t :: t in ToolsOf(discovered, specs[n]) ==> t.name !in client
    requires forall i :: 0 <= i < n && NamesOf(ToolsOf(discovered, specs[i])) * NamesOf(ToolsOf(discovered, specs[n])) != {} ==> specs[i].server == specs[n].server
    ensures Unambiguous(specs[..n + 1], discovered, client) == true
  {
    assert forall i :: 0 <= i < n ==> specs[..n + 1][i] == specs[..n][i];
  }

  /** A name of the next server's that another has is that server's too. */
  lemma SeenApart(specs: seq<Spec>, discovered: map<string, seq<Listed>>, client: set<string>, n: nat, seen: map<string, string>)
    requires n < |specs| && SeenSo(specs, discovered, n, seen) && Clear(seen, client, specs[n].server, ToolsOf(discovered, specs[n]))
    ensures forall i :: 0 <= i < n && NamesOf(ToolsOf(discovered, specs[i])) * NamesOf(ToolsOf(discovered, specs[n])) != {} ==> specs[i].server == specs[n].server
  {
    var tools := ToolsOf(discovered, specs[n]);
    forall i | 0 <= i < n && NamesOf(ToolsOf(discovered, specs[i])) * NamesOf(tools) != {}
      ensures specs[i].server == specs[n].server
    {
      var name :| name in NamesOf(ToolsOf(discovered, specs[i])) * NamesOf(tools);
      var t :| t in tools && t.name == name;
      assert name in seen;
    }
  }

  lemma SeenOwn(seen: map<string, string>, client: set<string>, server: string, tools: seq<Listed>)
    requires Clear(seen, client, server, tools)
    ensures forall name :: name in NamesOf(tools) && name in seen ==> seen[name] == server
  {
  }

  lemma SeenAgree(specs: seq<Spec>, discovered: map<string, seq<Listed>>, client: set<string>, n: nat, seen: map<string, string>)
    requires n < |specs| && SeenSo(specs, discovered, n, seen) && Clear(seen, client, specs[n].server, ToolsOf(discovered, specs[n]))
    ensures SeenSo(specs, discovered, n + 1, Seen(seen, specs[n].server, ToolsOf(discovered, specs[n]))) == true
  {
    var tools, server := ToolsOf(discovered, specs[n]), specs[n].server;
    var more := Seen(seen, server, tools);
    SeenIs(seen, server, tools);
    SeenOwn(seen, client, server, tools);
    forall i, name | 0 <= i < n + 1 && name in NamesOf(ToolsOf(discovered, specs[i]))
      ensures name in more && more[name] == specs[i].server
    {
      if i < n {
        assert seen[name] == specs[i].server;
      }
    }
    forall name | name in more
      ensures Sourced(specs, discovered, n + 1, name, more[name])
    {
      if name in NamesOf(tools) {
        assert specs[n].server == more[name];
      } else {
        assert Sourced(specs, discovered, n, name, seen[name]);
      }
    }
  }
}
