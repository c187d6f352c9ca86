/** The MCP stitcher: one inner loader turn folded into the outer event stream. */
module Stitcher {
  import opened Wrappers

  datatype Usage = Usage(input: nat, output: nat, total: nat, cached: nat, reasoning: nat)

  function SumUsage(a: Option<Usage>, b: Option<Usage>): Option<Usage> {
    if a.None? then b else if b.None? then a else
      Some(Usage(a.value.input + b.value.input, a.value.output + b.value.output, a.value.total + b.value.total,
                 a.value.cached + b.value.cached, a.value.reasoning + b.value.reasoning))
  }

  datatype CallStatus = InProgress | Completed(output: string) | FailedWith(error: string)

  /** An output item: anything the loader makes but tool calls, a tool call of it, or one of the loop's own. */
  datatype Item =
    | Plain(id: string, content: string)
    | Call(id: string, name: string, args: string)
    | McpCall(id: string, name: string, args: string, server: string, approval: Option<string>, status: CallStatus)
    | ApprovalRequest(name: string, args: string, server: string)
    | Listing(id: string, server: string, tools: seq<string>, error: Option<string>)

  /** What an event says, apart from its numbers. */
  datatype Body =
    | Added(item: Item) | Done(item: Item)
    | Delta(id: string, text: string) | Args(id: string, text: string)
    | McpDelta(id: string, text: string) | McpArgs(id: string, text: string)
    | McpProgress(id: string) | McpDone(id: string) | McpFailed(id: string)
    | ListProgress(id: string) | ListDone(id: string) | ListFailed(id: string)
    | Other(kind: string, payload: string)

  /** An event of an inner turn; its index is relative to the turn. */
  datatype In =
    | Started | In(index: Option<nat>, body: Body)
    | Terminal(items: seq<Item>, usage: Option<Usage>)
    | TurnFailed | Error

  datatype Out = Out(seqNo: nat, index: Option<nat>, body: Body)

  /** A discovered tool: its server, and whether a call of it needs approval. */
  datatype Tool = Tool(server: string, approval: bool)

  datatype Class = Client | Mcp(server: string) | Approval(server: string)

  function Classify(tools: map<string, Tool>, name: string): Class {
    if name !in tools then Client else if tools[name].approval then Approval(tools[name].server) else Mcp(tools[name].server)
  }

  /** A tool call of the turn, kept until its name is known. */
  datatype Buf = Buf(id: string, sort: Option<Class>, raw: seq<(nat, Body)>, slot: nat, name: string, args: string)

  datatype End = Open | Errored | Failed | Crashed

  datatype Turn = Turn(
    seqNo: nat,
    offset: nat,
    usage: Option<Usage>,
    bufs: map<string, Buf>,
    // the calls the loop has to execute or ask approval for
    pending: seq<Buf>,
    hadClient: bool,
    // the turn's other items, by output slot
    output: seq<(nat, Item)>,
    out: seq<Out>,
    end: End)
  {
    /** One more event. */
    function Emit(index: Option<nat>, body: Body): Turn {
      this.(out := out + [Out(seqNo, index, body)], seqNo := seqNo + 1)
    }

    /** A forwarded event. */
    function Forward(index: Option<nat>, body: Body): Turn {
      Emit(if index.Some? then Some(index.value + offset) else None, body)
    }
  }

  /** What one event of a call becomes once the call is known to be of *sort*; None says nothing. */
  function Rendered(sort: Class, mint: string -> string, name: string, body: Body): Option<Body> {
    match sort
    case Client => Some(body)
    case Approval(_) => None
    case Mcp(server) =>
      match body
      case Added(item) => if item.Call? then Some(Added(McpCall(mint(item.id), name, "", server, None, InProgress))) else None
      case Delta(id, text) => Some(McpDelta(mint(id), text))
      case Args(id, text) => Some(McpArgs(mint(id), text))
      case _ => None
  }

  function Render(sort: Class, mint: string -> string, name: string, bodies: seq<Body>): seq<Body> {
    if bodies == [] then [] else
      var last := Rendered(sort, mint, name, bodies[|bodies| - 1]);
      Render(sort, mint, name, bodies[..|bodies| - 1]) + if last.Some? then [last.value] else []
  }

  // --- The fold ---

  /** One event kept for a call, when it is emitted at last. */
  function EmitFor(t: Turn, mint: string -> string, b: Buf, index: nat, body: Body): Turn
    requires b.sort.Some?
  {
    var rendered := Rendered(b.sort.value, mint, b.name, body);
    if rendered.None? then t
    else if b.sort == Some(Client) then t.Forward(Some(index), body) else t.Emit(Some(b.slot), rendered.value)
  }

  function Flush(t: Turn, mint: string -> string, b: Buf, raw: seq<(nat, Body)>): Turn
    requires b.sort.Some?
  {
    if raw == [] then t else
      EmitFor(Flush(t, mint, b, raw[..|raw| - 1]), mint, b, raw[|raw| - 1].0, raw[|raw| - 1].1)
  }

  /** The call's name is known: it is classified and what was kept of it comes out. */
  function Resolved(t: Turn, tools: map<string, Tool>, mint: string -> string, key: string, b: Buf): Turn {
    var c := b.(sort := Some(Classify(tools, b.name)));
    Flush(t, mint, c, b.raw).(bufs := t.bufs[key := c.(raw := [])])
  }

  function TakeAdded(t: Turn, tools: map<string, Tool>, mint: string -> string, index: nat, item: Item): Turn
    requires item.Call?
  {
    var b := Buf(item.id, None, [(index, Added(item))], index + t.offset, item.name, "");
    if item.name != "" then Resolved(t, tools, mint, item.id, b) else t.(bufs := t.bufs[item.id := b])
  }

  function TakePiece(t: Turn, mint: string -> string, index: nat, id: string, body: Body): Turn
    requires body.Delta? || body.Args?
  {
    if id !in t.bufs then t else
      var b := t.bufs[id];
      if b.sort.None? then t.(bufs := t.bufs[id := b.(raw := b.raw + [(index, body)])])
      else EmitFor(t, mint, b, index, body)
  }

  function TakeDone(t: Turn, tools: map<string, Tool>, mint: string -> string, index: nat, item: Item): Turn
    requires item.Call?
  {
    if item.id !in t.bufs then t.(end := Crashed) else
      var b := t.bufs[item.id].(name := if item.name != "" then item.name else t.bufs[item.id].name);
      var u := if b.sort.None? then Resolved(t, tools, mint, item.id, b) else t.(bufs := t.bufs[item.id := b]);
      var c := u.bufs[item.id].(args := item.args);
      if c.sort == Some(Client) then u.(bufs := u.bufs[item.id := c]).Forward(Some(index), Done(item))
      else u.(bufs := u.bufs[item.id := c], pending := u.pending + [c])
  }

  /** The terminal event's items: those of calls to execute are left out. */
  function Output(base: nat, bufs: map<string, Buf>, items: seq<Item>): seq<(nat, Item)> {
    if items == [] then [] else
      var last := items[|items| - 1];
      Output(base, bufs, items[..|items| - 1]) + if Executes(bufs, last) then [] else [(base + |items| - 1, last)]
  }

  predicate Executes(bufs: map<string, Buf>, item: Item) {
    item.Call? && item.id in bufs && bufs[item.id].sort != Some(Client)
  }

  function Take(t: Turn, tools: map<string, Tool>, mint: string -> string, e: In): Turn {
    if t.end != Open then t else
      match e
      case Started => t
      case Error => t.(end := Errored)
      case TurnFailed => t.(end := Failed)
      case Terminal(items, usage) =>
        t.(usage := SumUsage(t.usage, usage), output := t.output + Output(t.offset, t.bufs, items), offset := t.offset + |items|,
           hadClient := t.hadClient || exists k :: 0 <= k < |items| && items[k].Call? && !Executes(t.bufs, items[k]))
      case In(index, body) =>
        if index.Some? && body.Added? && body.item.Call? then TakeAdded(t, tools, mint, index.value, body.item)
        else if index.Some? && (body.Delta? || body.Args?) then TakePiece(t, mint, index.value, body.id, body)
        else if index.Some? && body.Done? && body.item.Call? then TakeDone(t, tools, mint, index.value, body.item)
        else t.Forward(index, body)
  }

  function Taken(t: Turn, tools: map<string, Tool>, mint: string -> string, es: seq<In>): Turn {
    if es == [] then t else Take(Taken(t, tools, mint, es[..|es| - 1]), tools, mint, es[|es| - 1])
  }

  /** A turn's start. */
  function Begun(seqNo: nat, offset: nat, usage: Option<Usage>): Turn {
    Turn(seqNo, offset, usage, map[], [], false, [], [], Open)
  }

  // --- Numbering ---

  predicate Consecutive(out: seq<Out>, start: nat) { forall i :: 0 <= i < |out| ==> out[i].seqNo == start + i }

  /** Events so far are numbered from *start* on without a gap. */
  predicate NumberedFrom(t: Turn, start: nat) { t.seqNo == start + |t.out| && Consecutive(t.out, start) }

  lemma {:induction false} FlushNumbered(t: Turn, mint: string -> string, b: Buf, raw: seq<(nat, Body)>, start: nat)
    requires b.sort.Some? && NumberedFrom(t, start) == true
    ensures NumberedFrom(Flush(t, mint, b, raw), start) == true
  {
    if raw != [] {
      FlushNumbered(t, mint, b, raw[..|raw| - 1], start);
    }
  }

  lemma ResolvedNumbered(t: Turn, tools: map<string, Tool>, mint: string -> string, key: string, b: Buf, start: nat)
    requires NumberedFrom(t, start) == true
    ensures NumberedFrom(Resolved(t, tools, mint, key, b), start) == true
  {
    FlushNumbered(t, mint, b.(sort := Some(Classify(tools, b.name))), b.raw, start);
  }

  lemma DoneNumbered(t: Turn, tools: map<string, Tool>, mint: string -> string, index: nat, item: Item, start: nat)
    requires NumberedFrom(t, start) == true && item.Call?
    ensures NumberedFrom(TakeDone(t, tools, mint, index, item), start) == true
  {
    if item.id in t.bufs {
      ResolvedNumbered(t, tools, mint, item.id, t.bufs[item.id].(name := if item.name != "" then item.name else t.bufs[item.id].name), start);
    }
  }

  lemma TakeNumbered(t: Turn, tools: map<string, Tool>, mint: string -> string, e: In, start: nat)
    requires NumberedFrom(t, start) == true
    ensures NumberedFrom(Take(t, tools, mint, e), start) == true
  {
    if e.In? && e.index.Some? && e.body.Added? && e.body.item.Call? {
      var item := e.body.item;
      ResolvedNumbered(t, tools, mint, item.id, Buf(item.id, None, [(e.index.value, e.body)], e.index.value + t.offset, item.name, ""), start);
    } else if e.In? && e.index.Some? && e.body.Done? && e.body.item.Call? {
      DoneNumbered(t, tools, mint, e.index.value, e.body.item, start);
    }
  }

  /** Whatever the inner stream, the outer events of a turn carry consecutive numbers. */
  lemma {:induction false} TurnNumbered(t: Turn, tools: map<string, Tool>, mint: string -> string, es: seq<In>, start: nat)
    requires NumberedFrom(t, start) == true
    ensures NumberedFrom(Taken(t, tools, mint, es), start) == true
  {
    if es != [] {
      TurnNumbered(t, tools, mint, es[..|es| - 1], start);
      TakeNumbered(Taken(t, tools, mint, es[..|es| - 1]), tools, mint, es[|es| - 1], start);
    }
  }

  // --- The stitcher as it runs ---

  class Stitcher {
    // filled in as servers are discovered, before the first turn
    var tools: map<string, Tool>
    var seqNo: nat
    var offset: nat
    var usageTotal: Option<Usage>
    var bufs: map<string, Buf>
    var pending: seq<Buf>
    var hadClient: bool
    var output: seq<(nat, Item)>
    var end: End

    function View(out: seq<Out>): Turn
      reads this
    {
      Turn(seqNo, offset, usageTotal, bufs, pending, hadClient, output, out, end)
    }

    constructor (tools: map<string, Tool>)
      ensures this.tools == tools && View([]) == Begun(0, 0, None)
    {
      this.tools := tools;
      seqNo, offset, usageTotal, bufs, pending, hadClient, output, end := 0, 0, None, map[], [], false, [], Open;
    }

    method NextSeq() returns (n: nat)
      modifies `seqNo
      ensures n == old(seqNo) && seqNo == n + 1
    {
      n := seqNo;
      seqNo := seqNo + 1;
    }

    /** The next output slot, for an item of the loop's own. */
    method ClaimSlot() returns (slot: nat)
      modifies `offset
      ensures slot == old(offset) && offset == slot + 1
    {
      slot := offset;
      offset := offset + 1;
    }

    method Stamped(index: Option<nat>, body: Body) returns (e: Out)
      modifies `seqNo
      ensures e == Out(old(seqNo), index, body) && seqNo == old(seqNo) + 1
    {
      var n := NextSeq();
      e := Out(n, index, body);
    }

    method FlushCall(mint: string -> string, key: string, b: Buf, out: seq<Out>) returns (out': seq<Out>)
      modifies `seqNo, `offset, `usageTotal, `bufs, `pending, `hadClient, `output, `end
      ensures View(out') == Resolved(old(View(out)), tools, mint, key, b)
    {
      var c := b.(sort := Some(Classify(tools, b.name)));
      out' := out;
      for k := 0 to |b.raw|
        invariant View(out') == Flush(old(View(out)), mint, c, b.raw[..k])
        invariant View(out') == old(View(out)).(out := out', seqNo := seqNo)
      {
        assert b.raw[..k + 1][..k] == b.raw[..k];
        var (index, body) := b.raw[k];
        var rendered := Rendered(c.sort.value, mint, c.name, body);
        if rendered.Some? {
          var e := Stamped(Some(if c.sort == Some(Client) then index + offset else c.slot), if c.sort == Some(Client) then body else rendered.value);
          out' := out' + [e];
        }
      }
      assert b.raw[..|b.raw|] == b.raw;
      bufs := bufs[key := c.(raw := [])];
    }

    /** One event of the turn. */
    method TakeEvent(mint: string -> string, e: In, out: seq<Out>) returns (out': seq<Out>)
      requires end == Open
      modifies `seqNo, `offset, `usageTotal, `bufs, `pending, `hadClient, `output, `end
      ensures View(out') == Take(old(View(out)), tools, mint, e)
    {
      out' := out;
      match e
      case Started =>
      case Error => end := Errored;
      case TurnFailed => end := Failed;
      case Terminal(items, usage) =>
        usageTotal := SumUsage(usageTotal, usage);
        var client := PlaceOutput(items);
        hadClient := hadClient || client;
        offset := offset + |items|;
      case In(index, body) =>
        if index.Some? && body.Added? && body.item.Call? {
          var b := Buf(body.item.id, None, [(index.value, body)], index.value + offset, body.item.name, "");
          if b.name != "" {
            out' := FlushCall(mint, b.id, b, out);
          } else {
            bufs := bufs[b.id := b];
          }
        } else if index.Some? && (body.Delta? || body.Args?) {
          if body.id in bufs {
            out' := TakePieceOf(mint, index.value, body, bufs[body.id], out);
          }
        } else if index.Some? && body.Done? && body.item.Call? {
          if body.item.id in bufs {
            out' := TakeDoneOf(mint, index.value, body.item, out);
          } else {
            end := Crashed;
          }
        } else {
          var o := Stamped(if index.Some? then Some(index.value + offset) else None, body);
          out' := out + [o];
        }
    }

    method TakePieceOf(mint: string -> string, index: nat, body: Body, b: Buf, out: seq<Out>) returns (out': seq<Out>)
      requires (body.Delta? || body.Args?) && body.id in bufs && bufs[body.id] == b
      modifies `seqNo, `offset, `usageTotal, `bufs, `pending, `hadClient, `output, `end
      ensures View(out') == TakePiece(old(View(out)), mint, index, body.id, body)
    {
      out' := out;
      if b.sort.None? {
        bufs := bufs[body.id := b.(raw := b.raw + [(index, body)])];
      } else if b.sort == Some(Client) {
        var o := Stamped(Some(index + offset), body);
        out' := out + [o];
      } else if b.sort.value.Mcp? {
        var o := Stamped(Some(b.slot), if body.Delta? then McpDelta(mint(body.id), body.text) else McpArgs(mint(body.id), body.text));
        out' := out + [o];
      }
    }

    method TakeDoneOf(mint: string -> string, index: nat, item: Item, out: seq<Out>) returns (out': seq<Out>)
      requires item.Call? && item.id in bufs
      modifies `seqNo, `offset, `usageTotal, `bufs, `pending, `hadClient, `output, `end
      ensures View(out') == TakeDone(old(View(out)), tools, mint, index, item)
    {
      out' := out;
      var b := bufs[item.id].(name := if item.name != "" then item.name else bufs[item.id].name);
      if b.sort.None? {
        out' := FlushCall(mint, item.id, b, out);
      } else {
        bufs := bufs[item.id := b];
      }
      var c := bufs[item.id].(args := item.args);
      bufs := bufs[item.id := c];
      if c.sort == Some(Client) {
        var o := Stamped(Some(index + offset), Done(item));
        out' := out' + [o];
      } else {
        pending := pending + [c];
      }
    }

    /** Places the terminal event's items; answers whether a call of the client's is among them. */
    method PlaceOutput(items: seq<Item>) returns (client: bool)
      modifies `output
      ensures output == old(output) + Output(offset, bufs, items)
      ensures client <==> exists k :: 0 <= k < |items| && items[k].Call? && !Executes(bufs, items[k])
    {
      client := false;
      for k := 0 to |items|
        invariant output == old(output) + Output(offset, bufs, items[..k])
        invariant client <==> exists j :: 0 <= j < k && items[j].Call? && !Executes(bufs, items[j])
      {
        assert items[..k + 1][..k] == items[..k];
        if !Executes(bufs, items[k]) {
          output := output + [(offset + k, items[k])];
          client := client || items[k].Call?;
        }
      }
      assert items[..|items|] == items;
    }

    /** Consumes one inner turn; numbers, slots and usage go on from where the last turn left them. */
    method RunTurn(mint: string -> string, es: seq<In>) returns (out: seq<Out>)
      modifies `seqNo, `offset, `usageTotal, `bufs, `pending, `hadClient, `output, `end
      ensures View(out) == Taken(Begun(old(seqNo), old(offset), old(usageTotal)), tools, mint, es)
    {
      bufs, pending, hadClient, output, end, out := map[], [], false, [], Open, [];
      ghost var begun := View([]);
      var k := 0;
      while k < |es| && end == Open
        invariant k <= |es| && View(out) == Taken(begun, tools, mint, es[..k])
      {
        assert es[..k + 1][..k] == es[..k];
        out := TakeEvent(mint, es[k], out);
        k := k + 1;
      }
      assert es[..|es|] == es;
      EndStays(begun, tools, mint, es, k);
    }
  }

  /** Nothing is taken after the turn has ended early. */
  lemma {:induction false} EndStays(t: Turn, tools: map<string, Tool>, mint: string -> string, es: seq<In>, k: nat)
    requires k <= |es| && (k < |es| ==> Taken(t, tools, mint, es[..k]).end != Open)
    ensures Taken(t, tools, mint, es) == Taken(t, tools, mint, es[..k])
  {
    if k < |es| {
      assert es[..|es| - 1][..k] == es[..k];
      EndStays(t, tools, mint, es[..|es| - 1], k);
    } else {
      assert es[..k] == es;
    }
  }
}
