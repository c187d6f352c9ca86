/** What a turn's stitching keeps: each item's events in their order, whenever its tool name becomes known, and every
    output slot filled once. */
module StitchedTurns {
  import opened Wrappers
  import opened Stitcher

  // --- Well-formed inner turns ---

  /** The events of the turn's item *k*, in order. */
  function At(es: seq<In>, k: nat): seq<Body> {
    if es == [] then [] else
      var e := es[|es| - 1];
      At(es[..|es| - 1], k) + if e.In? && e.index == Some(k) then [e.body] else []
  }

  /** The outer events of slot *i*, in order. */
  function OutAt(out: seq<Out>, i: nat): seq<Body> {
    if out == [] then [] else
      var o := out[|out| - 1];
      OutAt(out[..|out| - 1], i) + if o.index == Some(i) then [o.body] else []
  }

  /** An event that can be one of *item*'s. */
  predicate Fits(item: Item, body: Body) {
    match body
    case Added(i) => if item.Call? then i.Call? && i.id == item.id && (i.name == "" || i.name == item.name) else !i.Call?
    case Done(i) => i == item
    case Delta(id, _) => item.Call? && id == item.id
    case Args(id, _) => item.Call? && id == item.id
    case _ => !item.Call?
  }

  /** An item's events so far: its added first, its done last. */
  ghost predicate Shaped(bodies: seq<Body>) {
    (bodies != [] ==> bodies[0].Added?) && (forall i :: 0 < i < |bodies| ==> !bodies[i].Added?) && (forall i :: 0 <= i < |bodies| - 1 ==> !bodies[i].Done?)
  }

  predicate Finished(bodies: seq<Body>) { bodies != [] && bodies[|bodies| - 1].Done? }

  predicate EventFits(items: seq<Item>, e: In) {
    e.Started? || (e.In? && if e.index.Some? then e.index.value < |items| && Fits(items[e.index.value], e.body) else e.body.Other?)
  }

  ghost predicate DistinctIds(items: seq<Item>) {
    forall j, k :: 0 <= j < k < |items| && items[j].Call? && items[k].Call? ==> items[j].id != items[k].id
  }

  /** A turn's events before its terminal one, whose output is *items*. */
  ghost predicate WellFormed(items: seq<Item>, es: seq<In>) {
    DistinctIds(items) && (forall i :: 0 <= i < |es| ==> EventFits(items, es[i])) && forall k :: 0 <= k < |items| ==> Shaped(At(es, k))
  }

  ghost predicate Complete(items: seq<Item>, es: seq<In>) {
    WellFormed(items, es) && forall k :: 0 <= k < |items| ==> Finished(At(es, k))
  }

  // --- What emitting does to a slot ---

  lemma OutAtMore(out: seq<Out>, o: Out, i: nat)
    ensures OutAt(out + [o], i) == OutAt(out, i) + if o.index == Some(i) then [o.body] else []
  {
    assert (out + [o])[..|out|] == out;
  }

  lemma RenderMore(sort: Class, mint: string -> string, name: string, bodies: seq<Body>, body: Body)
    ensures var last := Rendered(sort, mint, name, body);
            Render(sort, mint, name, bodies + [body]) == Render(sort, mint, name, bodies) + if last.Some? then [last.value] else []
  {
    assert (bodies + [body])[..|bodies|] == bodies;
  }

  lemma {:induction false} RenderClient(mint: string -> string, name: string, bodies: seq<Body>)
    ensures Render(Client, mint, name, bodies) == bodies
  {
    if bodies != [] {
      RenderClient(mint, name, bodies[..|bodies| - 1]);
    }
  }

  function Bodies(raw: seq<(nat, Body)>): seq<Body> { seq(|raw|, i requires 0 <= i < |raw| => raw[i].1) }

  ghost predicate AllAt(raw: seq<(nat, Body)>, k: nat) { forall i :: 0 <= i < |raw| ==> raw[i].0 == k }

  /** From *t* to *u*, *bodies* came out in *slot* and nothing else happened. */
  ghost predicate Adds(t: Turn, u: Turn, slot: nat, bodies: seq<Body>) {
    u == t.(out := u.out, seqNo := u.seqNo) && OutAt(u.out, slot) == OutAt(t.out, slot) + bodies &&
    (forall i: nat :: i != slot ==> OutAt(u.out, i) == OutAt(t.out, i)) &&
    t.out <= u.out && forall j :: |t.out| <= j < |u.out| ==> u.out[j].index == Some(slot)
  }

  lemma EmitAdds(t: Turn, slot: nat, body: Body)
    ensures Adds(t, t.Emit(Some(slot), body), slot, [body])
  {
    forall i: nat
      ensures OutAt(t.Emit(Some(slot), body).out, i) == OutAt(t.out, i) + if i == slot then [body] else []
    {
      OutAtMore(t.out, Out(t.seqNo, Some(slot), body), i);
    }
  }

  lemma AddsTwice(t: Turn, u: Turn, v: Turn, slot: nat, some: seq<Body>, more: seq<Body>)
    requires Adds(t, u, slot, some) && Adds(u, v, slot, more)
    ensures Adds(t, v, slot, some + more)
  {
    assert OutAt(t.out, slot) + some + more == OutAt(t.out, slot) + (some + more);
  }

  lemma EmitsOne(t: Turn, slot: nat, r: Option<Body>)
    ensures Adds(t, if r.Some? then t.Emit(Some(slot), r.value) else t, slot, if r.Some? then [r.value] else []) == true
  {
    if r.Some? {
      EmitAdds(t, slot, r.value);
    } else {
      assert OutAt(t.out, slot) == OutAt(t.out, slot) + [];
    }
  }

  lemma EmitForIs(t: Turn, mint: string -> string, b: Buf, k: nat, body: Body)
    requires b.sort.Some? && b.slot == t.offset + k
    ensures var r := Rendered(b.sort.value, mint, b.name, body);
            EmitFor(t, mint, b, k, body) == if r.Some? then t.Emit(Some(t.offset + k), r.value) else t
  {
  }

  lemma EmitForAdds(t: Turn, mint: string -> string, b: Buf, k: nat, body: Body)
    requires b.sort.Some? && b.slot == t.offset + k
    ensures var r := Rendered(b.sort.value, mint, b.name, body);
            Adds(t, EmitFor(t, mint, b, k, body), t.offset + k, if r.Some? then [r.value] else []) == true
  {
    EmitForIs(t, mint, b, k, body);
    EmitsOne(t, t.offset + k, Rendered(b.sort.value, mint, b.name, body));
  }

  /** Flushing a call puts its kept events, as its class renders them, into its slot and changes no other. */
  lemma {:induction false} FlushAdds(t: Turn, mint: string -> string, b: Buf, raw: seq<(nat, Body)>, k: nat)
    requires b.sort.Some? && b.slot == t.offset + k && AllAt(raw, k)
    ensures Adds(t, Flush(t, mint, b, raw), t.offset + k, Render(b.sort.value, mint, b.name, Bodies(raw)))
  {
    if raw == [] {
      assert OutAt(t.out, t.offset + k) == OutAt(t.out, t.offset + k) + [];
    } else {
      var head, last := raw[..|raw| - 1], raw[|raw| - 1];
      var u, r := Flush(t, mint, b, head), Rendered(b.sort.value, mint, b.name, last.1);
      FlushAdds(t, mint, b, head, k);
      EmitForAdds(u, mint, b, k, last.1);
      assert Bodies(raw) == Bodies(head) + [last.1];
      RenderMore(b.sort.value, mint, b.name, Bodies(head), last.1);
      AddsTwice(t, u, Flush(t, mint, b, raw), t.offset + k, Render(b.sort.value, mint, b.name, Bodies(head)), if r.Some? then [r.value] else []);
    }
  }

  // --- What holds of each item while the turn runs ---

  /** A call whose events so far are *h*: kept while its name is unknown, else all in its slot. */
  ghost predicate CallInv(tools: map<string, Tool>, mint: string -> string, base: nat, k: nat, item: Item, h: seq<Body>, out: seq<Body>, bufs: map<string, Buf>)
    requires item.Call?
  {
    if h == [] then item.id !in bufs && out == []
    else
      item.id in bufs && bufs[item.id].id == item.id && bufs[item.id].slot == base + k &&
      if bufs[item.id].sort.None? then
        bufs[item.id].name == "" && !Finished(h) && out == [] && Bodies(bufs[item.id].raw) == h && AllAt(bufs[item.id].raw, k)
      else
        bufs[item.id].sort == Some(Classify(tools, item.name)) && bufs[item.id].name == item.name &&
        out == Render(Classify(tools, item.name), mint, item.name, h)
  }

  ghost predicate ItemInv(tools: map<string, Tool>, mint: string -> string, base: nat, k: nat, item: Item, h: seq<Body>, out: seq<Body>, bufs: map<string, Buf>) {
    if item.Call? then CallInv(tools, mint, base, k, item, h, out, bufs) else out == h
  }

  /** Whether the loop, not the turn, fills the item's slot. */
  predicate Loops(tools: map<string, Tool>, item: Item) { item.Call? && Classify(tools, item.name) != Client }

  /** A pending call is its item, to the letter, and holds its slot. */
  predicate Stands(tools: map<string, Tool>, base: nat, items: seq<Item>, b: Buf) {
    base <= b.slot < base + |items| &&
    var item := items[b.slot - base];
    item.Call? && b.id == item.id && b.name == item.name && b.args == item.args && b.sort == Some(Classify(tools, item.name)) && b.sort != Some(Client)
  }

  /** The items done so far. */
  function Finishing(items: seq<Item>, es: seq<In>): set<nat> { set k: nat | k < |items| && Finished(At(es, k)) }

  ghost predicate InSlot(pending: seq<Buf>, slot: nat) { exists i :: 0 <= i < |pending| && pending[i].slot == slot }

  ghost predicate DistinctSlots(pending: seq<Buf>) { forall i, j :: 0 <= i < j < |pending| ==> pending[i].slot != pending[j].slot }

  ghost predicate AllStand(tools: map<string, Tool>, base: nat, items: seq<Item>, finished: set<nat>, pending: seq<Buf>) {
    forall i :: 0 <= i < |pending| ==> Stands(tools, base, items, pending[i]) && pending[i].slot - base in finished
  }

  ghost predicate AllCovered(tools: map<string, Tool>, base: nat, items: seq<Item>, finished: set<nat>, pending: seq<Buf>) {
    forall k {:trigger Covers(tools, base, items, pending, k)} :: k in finished && k < |items| ==> Covers(tools, base, items, pending, k)
  }

  /** A pending call holds the item's slot if the loop fills it. */
  ghost predicate Covers(tools: map<string, Tool>, base: nat, items: seq<Item>, pending: seq<Buf>, k: nat)
    requires k < |items|
  {
    Loops(tools, items[k]) ==> InSlot(pending, base + k)
  }

  /** The pending calls are those done that the loop fills, once each. */
  ghost predicate PendingInv(tools: map<string, Tool>, base: nat, items: seq<Item>, finished: set<nat>, pending: seq<Buf>) {
    AllStand(tools, base, items, finished, pending) && DistinctSlots(pending) && AllCovered(tools, base, items, finished, pending)
  }

  ghost predicate Slotted(base: nat, n: nat, out: seq<Out>) {
    forall j :: 0 <= j < |out| && out[j].index.Some? ==> base <= out[j].index.value < base + n
  }

  ghost predicate ItemAt(tools: map<string, Tool>, mint: string -> string, items: seq<Item>, es: seq<In>, base: nat, t: Turn, k: int)
    requires 0 <= k < |items|
  {
    ItemInv(tools, mint, base, k, items[k], At(es, k), OutAt(t.out, base + k), t.bufs)
  }

  ghost predicate TurnInv(tools: map<string, Tool>, mint: string -> string, items: seq<Item>, es: seq<In>, base: nat, t: Turn) {
    t.end == Open && t.offset == base && !t.hadClient && t.output == [] && Slotted(base, |items|, t.out) &&
    (forall k {:trigger ItemAt(tools, mint, items, es, base, t, k)} :: 0 <= k < |items| ==> ItemAt(tools, mint, items, es, base, t, k)) &&
    PendingInv(tools, base, items, Finishing(items, es), t.pending)
  }

  lemma AtMore(es: seq<In>, e: In, k: nat)
    ensures At(es + [e], k) == At(es, k) + if e.In? && e.index == Some(k) then [e.body] else []
  {
    assert (es + [e])[..|es|] == es;
  }

  lemma ShapedHead(h: seq<Body>, body: Body)
    requires Shaped(h + [body])
    ensures Shaped(h) && !Finished(h) && (body.Added? <==> h == [])
  {
    var h' := h + [body];
    assert h'[|h|] == body && forall i :: 0 <= i < |h| ==> h'[i] == h[i];
  }

  lemma ShapedPrefix(items: seq<Item>, es: seq<In>, e: In, k: nat)
    requires k < |items| && Shaped(At(es + [e], k))
    ensures Shaped(At(es, k))
  {
    AtMore(es, e, k);
    if e.In? && e.index == Some(k) {
      ShapedHead(At(es, k), e.body);
    } else {
      assert At(es + [e], k) == At(es, k);
    }
  }

  lemma EventsPrefix(items: seq<Item>, es: seq<In>, e: In)
    requires forall i :: 0 <= i < |es + [e]| ==> EventFits(items, (es + [e])[i])
    ensures (forall i :: 0 <= i < |es| ==> EventFits(items, es[i])) && EventFits(items, e)
  {
    assert (es + [e])[|es|] == e && forall i :: 0 <= i < |es| ==> (es + [e])[i] == es[i];
  }

  /** A well-formed turn is one up to each event. */
  lemma PrefixFormed(items: seq<Item>, es: seq<In>, e: In)
    requires WellFormed(items, es + [e])
    ensures WellFormed(items, es) && EventFits(items, e)
    ensures e.In? && e.index.Some? ==> !Finished(At(es, e.index.value)) && (e.body.Added? <==> At(es, e.index.value) == [])
  {
    EventsPrefix(items, es, e);
    forall k | 0 <= k < |items|
      ensures Shaped(At(es, k))
    {
      ShapedPrefix(items, es, e, k);
    }
    if e.In? && e.index.Some? {
      AtMore(es, e, e.index.value);
      ShapedHead(At(es, e.index.value), e.body);
    }
  }

  // --- One event ---

  /** The event's own item. */
  ghost predicate OwnKept(tools: map<string, Tool>, mint: string -> string, items: seq<Item>, es: seq<In>, e: In, base: nat, t: Turn)
    requires e.In? && e.index.Some? && e.index.value < |items|
  {
    var k := e.index.value;
    ItemInv(tools, mint, base, k, items[k], At(es, k) + [e.body], OutAt(t.out, base + k), t.bufs)
  }

  /** An event of another item leaves an item's invariant. */
  lemma OtherKept(tools: map<string, Tool>, mint: string -> string, items: seq<Item>, es: seq<In>, e: In, base: nat, t: Turn, u: Turn, k: nat)
    requires k < |items| && DistinctIds(items) && ItemInv(tools, mint, base, k, items[k], At(es, k), OutAt(t.out, base + k), t.bufs)
    requires e.In? && e.index.Some? && e.index.value < |items| && e.index.value != k && OutAt(u.out, base + k) == OutAt(t.out, base + k)
    requires OnlyBuf(items[e.index.value], t.bufs, u.bufs)
    ensures ItemInv(tools, mint, base, k, items[k], At(es + [e], k), OutAt(u.out, base + k), u.bufs)
  {
    AtMore(es, e, k);
    assert At(es + [e], k) == At(es, k);
  }

  /** No buffer but the item's own has changed. */
  ghost predicate OnlyBuf(item: Item, bufs: map<string, Buf>, now: map<string, Buf>) {
    forall id :: !(item.Call? && id == item.id) ==> (id in now <==> id in bufs) && (id in bufs ==> now[id] == bufs[id])
  }

  /** From *t* to *u*, nothing changed outside *slot* but the buffers and the pending calls. */
  ghost predicate Elsewhere(t: Turn, u: Turn, slot: nat) {
    u == t.(out := u.out, seqNo := u.seqNo, bufs := u.bufs, pending := u.pending) &&
    (forall i: nat :: i != slot ==> OutAt(u.out, i) == OutAt(t.out, i)) &&
    t.out <= u.out && forall j :: |t.out| <= j < |u.out| ==> u.out[j].index == Some(slot)
  }

  /** What an event of item *k* does: it keeps the item's invariant and touches nothing else but the pending calls. */
  ghost predicate Stepped(tools: map<string, Tool>, mint: string -> string, items: seq<Item>, es: seq<In>, e: In, base: nat, t: Turn, u: Turn)
    requires e.In? && e.index.Some? && e.index.value < |items|
  {
    OwnKept(tools, mint, items, es, e, base, u) && Elsewhere(t, u, base + e.index.value) && OnlyBuf(items[e.index.value], t.bufs, u.bufs)
  }

  /** An event that only touches its own item keeps the turn's invariant, if it keeps the item's. */
  lemma OthersKept(tools: map<string, Tool>, mint: string -> string, items: seq<Item>, es: seq<In>, e: In, base: nat, t: Turn, u: Turn)
    requires TurnInv(tools, mint, items, es, base, t) == true && DistinctIds(items) == true
    requires e.In? && e.index.Some? && e.index.value < |items| && Stepped(tools, mint, items, es, e, base, t, u)
    requires PendingInv(tools, base, items, Finishing(items, es + [e]), u.pending) == true
    ensures TurnInv(tools, mint, items, es + [e], base, u) == true
  {
    forall k | 0 <= k < |items|
      ensures ItemAt(tools, mint, items, es + [e], base, u, k)
    {
      assert ItemAt(tools, mint, items, es, base, t, k);
      if k != e.index.value {
        OtherKept(tools, mint, items, es, e, base, t, u, k);
      } else {
        AtMore(es, e, k);
      }
    }
  }

  lemma FinishingSame(items: seq<Item>, es: seq<In>, e: In)
    requires e.In? && e.index.Some? ==> !e.body.Done? && !Finished(At(es, e.index.value))
    ensures Finishing(items, es + [e]) == Finishing(items, es)
  {
    forall k | 0 <= k < |items|
      ensures Finished(At(es + [e], k)) <==> Finished(At(es, k))
    {
      AtMore(es, e, k);
    }
  }

  lemma FinishingMore(items: seq<Item>, es: seq<In>, e: In)
    requires e.In? && e.index.Some? && e.index.value < |items| && e.body.Done?
    ensures Finishing(items, es + [e]) == Finishing(items, es) + {e.index.value}
  {
    forall k | 0 <= k < |items|
      ensures Finished(At(es + [e], k)) <==> Finished(At(es, k)) || k == e.index.value
    {
      AtMore(es, e, k);
    }
  }

  lemma InSlotMore(pending: seq<Buf>, b: Buf)
    ensures forall slot :: InSlot(pending + [b], slot) <==> InSlot(pending, slot) || slot == b.slot
  {
    var more := pending + [b];
    assert more[|pending|] == b;
    forall slot | InSlot(pending, slot)
      ensures InSlot(more, slot)
    {
      var i :| 0 <= i < |pending| && pending[i].slot == slot;
      assert more[i].slot == slot;
    }
  }

  lemma PendingMore(tools: map<string, Tool>, base: nat, items: seq<Item>, finished: set<nat>, pending: seq<Buf>, b: Buf)
    requires PendingInv(tools, base, items, finished, pending) == true && Stands(tools, base, items, b) && b.slot - base !in finished
    ensures PendingInv(tools, base, items, finished + {b.slot - base}, pending + [b]) == true
  {
    InSlotMore(pending, b);
    assert forall i :: 0 <= i < |pending| ==> (pending + [b])[i] == pending[i] && pending[i].slot != b.slot;
    forall k | k in finished + {b.slot - base} && k < |items|
      ensures Covers(tools, base, items, pending + [b], k)
    {
      assert k in finished ==> Covers(tools, base, items, pending, k);
    }
  }

  lemma PendingSame(tools: map<string, Tool>, base: nat, items: seq<Item>, finished: set<nat>, pending: seq<Buf>, k: nat)
    requires PendingInv(tools, base, items, finished, pending) == true && k < |items| && !Loops(tools, items[k])
    ensures PendingInv(tools, base, items, finished + {k}, pending) == true
  {
  }

  lemma PlainTakes(t: Turn, tools: map<string, Tool>, mint: string -> string, items: seq<Item>, e: In)
    requires e.In? && e.index.Some? && EventFits(items, e) && !items[e.index.value].Call? && t.end == Open
    ensures Take(t, tools, mint, e) == t.Emit(Some(t.offset + e.index.value), e.body)
  {
  }

  lemma PlainSteps(tools: map<string, Tool>, mint: string -> string, items: seq<Item>, es: seq<In>, e: In, base: nat, t: Turn)
    requires e.In? && e.index.Some? && EventFits(items, e) && !items[e.index.value].Call? && t.end == Open && t.offset == base
    requires ItemAt(tools, mint, items, es, base, t, e.index.value)
    ensures Stepped(tools, mint, items, es, e, base, t, Take(t, tools, mint, e)) == true && Take(t, tools, mint, e).pending == t.pending
  {
    PlainTakes(t, tools, mint, items, e);
    EmitAdds(t, base + e.index.value, e.body);
  }

  lemma PlainKept(tools: map<string, Tool>, mint: string -> string, items: seq<Item>, es: seq<In>, e: In, base: nat, t: Turn)
    requires TurnInv(tools, mint, items, es, base, t) && WellFormed(items, es + [e]) == true
    requires e.In? && e.index.Some? && e.index.value < |items| && !items[e.index.value].Call?
    ensures TurnInv(tools, mint, items, es + [e], base, Take(t, tools, mint, e)) == true
  {
    PrefixFormed(items, es, e);
    PlainSteps(tools, mint, items, es, e, base, t);
    if e.body.Done? {
      FinishingMore(items, es, e);
      PendingSame(tools, base, items, Finishing(items, es), t.pending, e.index.value);
    } else {
      FinishingSame(items, es, e);
    }
    OthersKept(tools, mint, items, es, e, base, t, Take(t, tools, mint, e));
  }

  /** From *t* to *u*, only events of no item came out. */
  ghost predicate LooseStep(t: Turn, u: Turn) {
    u == t.(out := u.out, seqNo := u.seqNo) && (forall i: nat :: OutAt(u.out, i) == OutAt(t.out, i)) &&
    t.out <= u.out && forall j :: |t.out| <= j < |u.out| ==> u.out[j].index.None?
  }

  lemma LooseTakes(tools: map<string, Tool>, mint: string -> string, e: In, t: Turn)
    requires t.end == Open && (e.Started? || (e.In? && e.index.None? && e.body.Other?))
    ensures Take(t, tools, mint, e) == if e.Started? then t else t.Emit(None, e.body)
  {
  }

  lemma LooseEmits(t: Turn, body: Body)
    ensures LooseStep(t, t.Emit(None, body))
  {
    forall i: nat
      ensures OutAt(t.Emit(None, body).out, i) == OutAt(t.out, i)
    {
      OutAtMore(t.out, Out(t.seqNo, None, body), i);
    }
  }

  lemma AtSame(es: seq<In>, e: In, k: nat)
    requires !(e.In? && e.index.Some?)
    ensures At(es + [e], k) == At(es, k)
  {
    AtMore(es, e, k);
  }

  /** An event of no item. */
  lemma LooseKept(tools: map<string, Tool>, mint: string -> string, items: seq<Item>, es: seq<In>, e: In, base: nat, t: Turn)
    requires TurnInv(tools, mint, items, es, base, t) && WellFormed(items, es + [e]) == true
    requires e.Started? || (e.In? && e.index.None?)
    ensures TurnInv(tools, mint, items, es + [e], base, Take(t, tools, mint, e)) == true
  {
    PrefixFormed(items, es, e);
    var u := Take(t, tools, mint, e);
    LooseTakes(tools, mint, e, t);
    if e.In? {
      LooseEmits(t, e.body);
    }
    forall k | 0 <= k < |items|
      ensures ItemAt(tools, mint, items, es + [e], base, u, k)
    {
      assert ItemAt(tools, mint, items, es, base, t, k);
      AtSame(es, e, k);
    }
    FinishingSame(items, es, e);
  }

  lemma ResolvedAdds(t: Turn, tools: map<string, Tool>, mint: string -> string, key: string, b: Buf, k: nat)
    requires b.slot == t.offset + k && AllAt(b.raw, k)
    ensures var u := Resolved(t, tools, mint, key, b);
            u.bufs == t.bufs[key := b.(sort := Some(Classify(tools, b.name)), raw := [])] &&
            Adds(t, u.(bufs := t.bufs), t.offset + k, Render(Classify(tools, b.name), mint, b.name, Bodies(b.raw)))
  {
    FlushAdds(t, mint, b.(sort := Some(Classify(tools, b.name))), b.raw, k);
  }

  lemma AddedTakes(t: Turn, tools: map<string, Tool>, mint: string -> string, e: In)
    requires e.In? && e.index.Some? && e.body.Added? && e.body.item.Call? && t.end == Open
    ensures Take(t, tools, mint, e) == TakeAdded(t, tools, mint, e.index.value, e.body.item)
  {
  }

  lemma AddedOwn(tools: map<string, Tool>, mint: string -> string, item: Item, added: Item, base: nat, t: Turn, k: nat)
    requires item.Call? && Fits(item, Added(added)) && t.offset == base && OutAt(t.out, base + k) == []
    ensures var u := TakeAdded(t, tools, mint, k, added);
            CallInv(tools, mint, base, k, item, [Added(added)], OutAt(u.out, base + k), u.bufs) && OnlyBuf(item, t.bufs, u.bufs)
  {
    var b := Buf(added.id, None, [(k, Added(added))], base + k, added.name, "");
    assert Bodies(b.raw) == [Added(added)];
    if added.name != "" {
      ResolvedAdds(t, tools, mint, added.id, b, k);
    }
  }

  lemma AddedElsewhere(t: Turn, tools: map<string, Tool>, mint: string -> string, k: nat, added: Item)
    requires added.Call?
    ensures Elsewhere(t, TakeAdded(t, tools, mint, k, added), t.offset + k) && TakeAdded(t, tools, mint, k, added).pending == t.pending
  {
    if added.name != "" {
      ResolvedAdds(t, tools, mint, added.id, Buf(added.id, None, [(k, Added(added))], t.offset + k, added.name, ""), k);
    }
  }

  lemma CallSteps(tools: map<string, Tool>, mint: string -> string, items: seq<Item>, es: seq<In>, e: In, base: nat, t: Turn, u: Turn)
    requires e.In? && e.index.Some? && e.index.value < |items| && items[e.index.value].Call?
    requires CallInv(tools, mint, base, e.index.value, items[e.index.value], At(es, e.index.value) + [e.body], OutAt(u.out, base + e.index.value), u.bufs)
    requires Elsewhere(t, u, base + e.index.value) && OnlyBuf(items[e.index.value], t.bufs, u.bufs)
    ensures Stepped(tools, mint, items, es, e, base, t, u) == true
  {
  }

  lemma AddedTaken(tools: map<string, Tool>, mint: string -> string, items: seq<Item>, es: seq<In>, e: In, base: nat, t: Turn)
    requires e.In? && e.index.Some? && e.index.value < |items| && items[e.index.value].Call? && e.body.Added? && Fits(items[e.index.value], e.body)
    requires t.offset == base && OutAt(t.out, base + e.index.value) == [] && At(es, e.index.value) == []
    ensures var u := TakeAdded(t, tools, mint, e.index.value, e.body.item);
            Stepped(tools, mint, items, es, e, base, t, u) == true && u.pending == t.pending
  {
    var k := e.index.value;
    assert At(es, k) + [e.body] == [e.body];
    AddedOwn(tools, mint, items[k], e.body.item, base, t, k);
    AddedElsewhere(t, tools, mint, k, e.body.item);
    CallSteps(tools, mint, items, es, e, base, t, TakeAdded(t, tools, mint, k, e.body.item));
  }

  lemma AddedSteps(tools: map<string, Tool>, mint: string -> string, items: seq<Item>, es: seq<In>, e: In, base: nat, t: Turn)
    requires e.In? && e.index.Some? && EventFits(items, e) && e.body.Added? && items[e.index.value].Call? && t.end == Open && t.offset == base
    requires ItemAt(tools, mint, items, es, base, t, e.index.value) && At(es, e.index.value) == []
    ensures Stepped(tools, mint, items, es, e, base, t, Take(t, tools, mint, e)) == true && Take(t, tools, mint, e).pending == t.pending
  {
    AddedTaken(tools, mint, items, es, e, base, t);
    AddedTakes(t, tools, mint, e);
  }

  lemma AddedKept(tools: map<string, Tool>, mint: string -> string, items: seq<Item>, es: seq<In>, e: In, base: nat, t: Turn)
    requires TurnInv(tools, mint, items, es, base, t) && WellFormed(items, es + [e]) == true
    requires e.In? && e.index.Some? && e.index.value < |items| && e.body.Added? && items[e.index.value].Call?
    ensures TurnInv(tools, mint, items, es + [e], base, Take(t, tools, mint, e)) == true
  {
    PrefixFormed(items, es, e);
    AddedSteps(tools, mint, items, es, e, base, t);
    FinishingSame(items, es, e);
    OthersKept(tools, mint, items, es, e, base, t, Take(t, tools, mint, e));
  }

  /** A piece of a call whose name is unknown is kept. */
  lemma PieceWaits(tools: map<string, Tool>, mint: string -> string, item: Item, h: seq<Body>, base: nat, t: Turn, k: nat, body: Body)
    requires item.Call? && h != [] && CallInv(tools, mint, base, k, item, h, OutAt(t.out, base + k), t.bufs)
    requires (body.Delta? || body.Args?) && t.bufs[item.id].sort.None?
    ensures var u := TakePiece(t, mint, k, item.id, body);
            CallInv(tools, mint, base, k, item, h + [body], OutAt(u.out, base + k), u.bufs)
  {
    assert Bodies(t.bufs[item.id].raw + [(k, body)]) == Bodies(t.bufs[item.id].raw) + [body];
  }

  /** One of a call already named is rendered. */
  lemma PieceComesOut(tools: map<string, Tool>, mint: string -> string, item: Item, h: seq<Body>, base: nat, t: Turn, k: nat, body: Body)
    requires item.Call? && h != [] && CallInv(tools, mint, base, k, item, h, OutAt(t.out, base + k), t.bufs) && t.offset == base
    requires (body.Delta? || body.Args?) && t.bufs[item.id].sort.Some?
    ensures var u := EmitFor(t, mint, t.bufs[item.id], k, body);
            CallInv(tools, mint, base, k, item, h + [body], OutAt(u.out, base + k), u.bufs) && u.bufs == t.bufs
  {
    EmitForAdds(t, mint, t.bufs[item.id], k, body);
    RenderMore(t.bufs[item.id].sort.value, mint, item.name, h, body);
  }

  /** A piece of a call, kept or rendered. */
  lemma PieceOwn(tools: map<string, Tool>, mint: string -> string, item: Item, h: seq<Body>, base: nat, t: Turn, k: nat, body: Body)
    requires item.Call? && h != [] && CallInv(tools, mint, base, k, item, h, OutAt(t.out, base + k), t.bufs) && t.offset == base
    requires (body.Delta? || body.Args?) && body.id == item.id
    ensures var u := TakePiece(t, mint, k, item.id, body);
            CallInv(tools, mint, base, k, item, h + [body], OutAt(u.out, base + k), u.bufs) && OnlyBuf(item, t.bufs, u.bufs)
  {
    if t.bufs[item.id].sort.None? {
      PieceWaits(tools, mint, item, h, base, t, k, body);
    } else {
      PieceComesOut(tools, mint, item, h, base, t, k, body);
    }
  }

  lemma PieceElsewhere(t: Turn, mint: string -> string, k: nat, id: string, body: Body)
    requires (body.Delta? || body.Args?) && (id in t.bufs ==> t.bufs[id].slot == t.offset + k)
    ensures Elsewhere(t, TakePiece(t, mint, k, id, body), t.offset + k) && TakePiece(t, mint, k, id, body).pending == t.pending
  {
    if id in t.bufs && t.bufs[id].sort.Some? {
      EmitForAdds(t, mint, t.bufs[id], k, body);
    }
  }

  lemma PieceTakes(t: Turn, tools: map<string, Tool>, mint: string -> string, e: In)
    requires e.In? && e.index.Some? && (e.body.Delta? || e.body.Args?) && t.end == Open
    ensures Take(t, tools, mint, e) == TakePiece(t, mint, e.index.value, e.body.id, e.body)
  {
  }

  lemma PieceTaken(tools: map<string, Tool>, mint: string -> string, items: seq<Item>, es: seq<In>, e: In, base: nat, t: Turn)
    requires e.In? && e.index.Some? && e.index.value < |items| && items[e.index.value].Call? && (e.body.Delta? || e.body.Args?) && e.body.id == items[e.index.value].id
    requires CallInv(tools, mint, base, e.index.value, items[e.index.value], At(es, e.index.value), OutAt(t.out, base + e.index.value), t.bufs)
    requires t.offset == base && At(es, e.index.value) != []
    ensures var u := TakePiece(t, mint, e.index.value, e.body.id, e.body);
            Stepped(tools, mint, items, es, e, base, t, u) == true && u.pending == t.pending
  {
    var k := e.index.value;
    PieceOwn(tools, mint, items[k], At(es, k), base, t, k, e.body);
    PieceElsewhere(t, mint, k, e.body.id, e.body);
    CallSteps(tools, mint, items, es, e, base, t, TakePiece(t, mint, k, e.body.id, e.body));
  }

  lemma PieceSteps(tools: map<string, Tool>, mint: string -> string, items: seq<Item>, es: seq<In>, e: In, base: nat, t: Turn)
    requires e.In? && e.index.Some? && EventFits(items, e) && (e.body.Delta? || e.body.Args?) && t.end == Open && t.offset == base
    requires ItemAt(tools, mint, items, es, base, t, e.index.value) && At(es, e.index.value) != []
    ensures Stepped(tools, mint, items, es, e, base, t, Take(t, tools, mint, e)) == true && Take(t, tools, mint, e).pending == t.pending
  {
    PieceTaken(tools, mint, items, es, e, base, t);
    PieceTakes(t, tools, mint, e);
  }

  lemma PieceKept(tools: map<string, Tool>, mint: string -> string, items: seq<Item>, es: seq<In>, e: In, base: nat, t: Turn)
    requires TurnInv(tools, mint, items, es, base, t) && WellFormed(items, es + [e]) == true
    requires e.In? && e.index.Some? && (e.body.Delta? || e.body.Args?)
    ensures TurnInv(tools, mint, items, es + [e], base, Take(t, tools, mint, e)) == true
  {
    PrefixFormed(items, es, e);
    PieceSteps(tools, mint, items, es, e, base, t);
    FinishingSame(items, es, e);
    OthersKept(tools, mint, items, es, e, base, t, Take(t, tools, mint, e));
  }

  // --- A call's done ---

  /** From *t* to *u*, a call was named: its events so far are out in its slot, and nothing else happened. */
  ghost predicate NamedTo(tools: map<string, Tool>, mint: string -> string, base: nat, k: nat, item: Item, h: seq<Body>, t: Turn, u: Turn)
    requires item.Call?
  {
    u == t.(out := u.out, seqNo := u.seqNo, bufs := u.bufs) && item.id in u.bufs && u.bufs == t.bufs[item.id := u.bufs[item.id]] &&
    u.bufs[item.id].sort == Some(Classify(tools, item.name)) && u.bufs[item.id].name == item.name && u.bufs[item.id].slot == base + k &&
    u.bufs[item.id].id == item.id && OutAt(u.out, base + k) == Render(Classify(tools, item.name), mint, item.name, h) &&
    (forall i: nat :: i != base + k ==> OutAt(u.out, i) == OutAt(t.out, i)) &&
    t.out <= u.out && forall j :: |t.out| <= j < |u.out| ==> u.out[j].index == Some(base + k)
  }

  /** What a call's done leaves, before it is forwarded or made pending. */
  function NamedAtDone(tools: map<string, Tool>, mint: string -> string, item: Item, t: Turn): Turn
    requires item.Call? && item.id in t.bufs
  {
    var b := t.bufs[item.id].(name := if item.name != "" then item.name else t.bufs[item.id].name);
    if b.sort.None? then Resolved(t, tools, mint, item.id, b) else t.(bufs := t.bufs[item.id := b])
  }

  lemma NamesLate(tools: map<string, Tool>, mint: string -> string, base: nat, k: nat, item: Item, h: seq<Body>, t: Turn)
    requires item.Call? && h != [] && CallInv(tools, mint, base, k, item, h, OutAt(t.out, base + k), t.bufs) && t.offset == base
    requires t.bufs[item.id].sort.None?
    ensures NamedTo(tools, mint, base, k, item, h, t, NamedAtDone(tools, mint, item, t))
  {
    var b := t.bufs[item.id].(name := item.name);
    ResolvedAdds(t, tools, mint, item.id, b, k);
    assert [] + Render(Classify(tools, item.name), mint, item.name, h) == Render(Classify(tools, item.name), mint, item.name, h);
  }

  lemma NamesEarly(tools: map<string, Tool>, mint: string -> string, base: nat, k: nat, item: Item, h: seq<Body>, t: Turn)
    requires item.Call? && h != [] && CallInv(tools, mint, base, k, item, h, OutAt(t.out, base + k), t.bufs) && t.offset == base
    requires t.bufs[item.id].sort.Some?
    ensures NamedTo(tools, mint, base, k, item, h, t, NamedAtDone(tools, mint, item, t))
  {
  }

  /** A client's call done: its done event comes out too. */
  function Forwarded(item: Item, u: Turn, slot: nat): Turn
    requires item.Call? && item.id in u.bufs
  {
    u.(bufs := u.bufs[item.id := u.bufs[item.id].(args := item.args)]).Emit(Some(slot), Done(item))
  }

  /** Any other call done: it is left to the loop. */
  function Pended(item: Item, u: Turn): Turn
    requires item.Call? && item.id in u.bufs
  {
    var c := u.bufs[item.id].(args := item.args);
    u.(bufs := u.bufs[item.id := c], pending := u.pending + [c])
  }

  lemma ClientForwards(tools: map<string, Tool>, mint: string -> string, item: Item, h: seq<Body>, base: nat, k: nat, t: Turn, u: Turn)
    requires item.Call? && NamedTo(tools, mint, base, k, item, h, t, u) && Classify(tools, item.name) == Client
    ensures var v := Forwarded(item, u, base + k);
            CallInv(tools, mint, base, k, item, h + [Done(item)], OutAt(v.out, base + k), v.bufs) && OnlyBuf(item, t.bufs, v.bufs) &&
            v.pending == t.pending && Elsewhere(t, v, base + k)
  {
    ClientAdds(tools, mint, item, h, u.(bufs := u.bufs[item.id := u.bufs[item.id].(args := item.args)]), base + k);
  }

  lemma ClientAdds(tools: map<string, Tool>, mint: string -> string, item: Item, h: seq<Body>, w: Turn, slot: nat)
    requires item.Call? && Classify(tools, item.name) == Client && OutAt(w.out, slot) == Render(Client, mint, item.name, h)
    ensures Adds(w, w.Emit(Some(slot), Done(item)), slot, [Done(item)])
    ensures OutAt(w.Emit(Some(slot), Done(item)).out, slot) == Render(Client, mint, item.name, h + [Done(item)])
  {
    EmitAdds(w, slot, Done(item));
    RenderMore(Client, mint, item.name, h, Done(item));
  }

  lemma ClientDone(tools: map<string, Tool>, mint: string -> string, items: seq<Item>, es: seq<In>, e: In, base: nat, t: Turn, u: Turn)
    requires TurnInv(tools, mint, items, es, base, t) && DistinctIds(items) == true
    requires e.In? && e.index.Some? && e.index.value < |items| && items[e.index.value].Call? && e.body == Done(items[e.index.value])
    requires NamedTo(tools, mint, base, e.index.value, items[e.index.value], At(es, e.index.value), t, u) == true
    requires Classify(tools, items[e.index.value].name) == Client
    ensures TurnInv(tools, mint, items, es + [e], base, Forwarded(items[e.index.value], u, base + e.index.value)) == true
  {
    var k, item := e.index.value, items[e.index.value];
    ClientForwards(tools, mint, item, At(es, k), base, k, t, u);
    FinishingMore(items, es, e);
    PendingSame(tools, base, items, Finishing(items, es), t.pending, k);
    OthersKept(tools, mint, items, es, e, base, t, Forwarded(item, u, base + k));
  }

  lemma LoopPends(tools: map<string, Tool>, mint: string -> string, item: Item, h: seq<Body>, base: nat, k: nat, t: Turn, u: Turn)
    requires item.Call? && NamedTo(tools, mint, base, k, item, h, t, u) && Classify(tools, item.name) != Client
    ensures var v := Pended(item, u);
            CallInv(tools, mint, base, k, item, h + [Done(item)], OutAt(v.out, base + k), v.bufs) && OnlyBuf(item, t.bufs, v.bufs) &&
            Elsewhere(t, v, base + k)
    ensures var c := u.bufs[item.id].(args := item.args);
            Pended(item, u).pending == t.pending + [c] && c.slot == base + k && c.id == item.id && c.name == item.name &&
            c.sort == Some(Classify(tools, item.name))
  {
    RenderMore(Classify(tools, item.name), mint, item.name, h, Done(item));
    assert Render(Classify(tools, item.name), mint, item.name, h) + [] == Render(Classify(tools, item.name), mint, item.name, h);
  }

  lemma LoopDone(tools: map<string, Tool>, mint: string -> string, items: seq<Item>, es: seq<In>, e: In, base: nat, t: Turn, u: Turn)
    requires TurnInv(tools, mint, items, es, base, t) && DistinctIds(items) == true
    requires e.In? && e.index.Some? && e.index.value < |items| && items[e.index.value].Call? && e.body == Done(items[e.index.value])
    requires !Finished(At(es, e.index.value))
    requires NamedTo(tools, mint, base, e.index.value, items[e.index.value], At(es, e.index.value), t, u) == true
    requires Classify(tools, items[e.index.value].name) != Client
    ensures TurnInv(tools, mint, items, es + [e], base, Pended(items[e.index.value], u)) == true
  {
    var k, item := e.index.value, items[e.index.value];
    LoopPends(tools, mint, item, At(es, k), base, k, t, u);
    FinishingMore(items, es, e);
    PendingMore(tools, base, items, Finishing(items, es), t.pending, u.bufs[item.id].(args := item.args));
    OthersKept(tools, mint, items, es, e, base, t, Pended(item, u));
  }

  lemma DoneNamed(tools: map<string, Tool>, mint: string -> string, base: nat, k: nat, item: Item, h: seq<Body>, t: Turn)
    requires item.Call? && h != [] && CallInv(tools, mint, base, k, item, h, OutAt(t.out, base + k), t.bufs) && t.offset == base
    ensures NamedTo(tools, mint, base, k, item, h, t, NamedAtDone(tools, mint, item, t))
  {
    if t.bufs[item.id].sort.None? {
      NamesLate(tools, mint, base, k, item, h, t);
    } else {
      NamesEarly(tools, mint, base, k, item, h, t);
    }
  }

  /** What taking a known call's done comes to. */
  lemma DoneTakes(t: Turn, tools: map<string, Tool>, mint: string -> string, index: nat, item: Item)
    requires item.Call? && item.id in t.bufs && t.end == Open && item.id in NamedAtDone(tools, mint, item, t).bufs
    requires NamedAtDone(tools, mint, item, t).offset == t.offset
    ensures var u := NamedAtDone(tools, mint, item, t);
            Take(t, tools, mint, In(Some(index), Done(item))) ==
              if u.bufs[item.id].sort == Some(Client) then Forwarded(item, u, t.offset + index) else Pended(item, u)
  {
  }

  lemma DoneKept(tools: map<string, Tool>, mint: string -> string, items: seq<Item>, es: seq<In>, e: In, base: nat, t: Turn)
    requires TurnInv(tools, mint, items, es, base, t) && WellFormed(items, es + [e]) == true
    requires e.In? && e.index.Some? && e.index.value < |items| && e.body.Done? && items[e.index.value].Call?
    ensures TurnInv(tools, mint, items, es + [e], base, Take(t, tools, mint, e)) == true
  {
    PrefixFormed(items, es, e);
    DoneStep(tools, mint, items, es, e, base, t);
    var u := NamedAtDone(tools, mint, e.body.item, t);
    if Classify(tools, e.body.item.name) == Client {
      ClientDone(tools, mint, items, es, e, base, t, u);
    } else {
      LoopDone(tools, mint, items, es, e, base, t, u);
    }
  }

  lemma DoneStep(tools: map<string, Tool>, mint: string -> string, items: seq<Item>, es: seq<In>, e: In, base: nat, t: Turn)
    requires e.In? && e.index.Some? && EventFits(items, e) && e.body.Done? && items[e.index.value].Call? && t.end == Open && t.offset == base
    requires ItemAt(tools, mint, items, es, base, t, e.index.value) && At(es, e.index.value) != []
    ensures e.body.item == items[e.index.value] && e.body.item.id in t.bufs
    ensures var item := items[e.index.value];
            var u := NamedAtDone(tools, mint, item, t);
            NamedTo(tools, mint, base, e.index.value, item, At(es, e.index.value), t, u) == true && item.id in u.bufs &&
            Take(t, tools, mint, e) == if Classify(tools, item.name) == Client then Forwarded(item, u, base + e.index.value) else Pended(item, u)
  {
    var k, item := e.index.value, e.body.item;
    DoneNamed(tools, mint, base, k, item, At(es, k), t);
    DoneTakes(t, tools, mint, k, item);
  }

  /** One event of a well-formed turn. */
  lemma TakeKeeps(tools: map<string, Tool>, mint: string -> string, items: seq<Item>, es: seq<In>, e: In, base: nat, t: Turn)
    requires TurnInv(tools, mint, items, es, base, t) && WellFormed(items, es + [e])
    ensures TurnInv(tools, mint, items, es + [e], base, Take(t, tools, mint, e))
  {
    PrefixFormed(items, es, e);
    if e.Started? || e.index.None? {
      LooseKept(tools, mint, items, es, e, base, t);
    } else if !items[e.index.value].Call? {
      PlainKept(tools, mint, items, es, e, base, t);
    } else if e.body.Added? {
      AddedKept(tools, mint, items, es, e, base, t);
    } else if e.body.Done? {
      DoneKept(tools, mint, items, es, e, base, t);
    } else {
      PieceKept(tools, mint, items, es, e, base, t);
    }
  }

  lemma {:induction false} TurnKeeps(tools: map<string, Tool>, mint: string -> string, items: seq<Item>, es: seq<In>, seqNo: nat, base: nat, usage: Option<Usage>)
    requires WellFormed(items, es)
    ensures TurnInv(tools, mint, items, es, base, Taken(Begun(seqNo, base, usage), tools, mint, es))
  {
    if es != [] {
      var head, e := es[..|es| - 1], es[|es| - 1];
      assert es == head + [e];
      PrefixFormed(items, head, e);
      TurnKeeps(tools, mint, items, head, seqNo, base, usage);
      TakeKeeps(tools, mint, items, head, e, base, Taken(Begun(seqNo, base, usage), tools, mint, head));
    }
  }

  // --- A whole turn ---

  /** What an item's inner events come out as: all of them for anything but an MCP call, renamed for an executed one, none
      for one that needs approval. */
  function Outer(tools: map<string, Tool>, mint: string -> string, item: Item, bodies: seq<Body>): seq<Body> {
    if item.Call? then Render(Classify(tools, item.name), mint, item.name, bodies) else bodies
  }

  /** The turn's fixed items by slot, and the slots left to the loop, are all of the turn's slots, each once. */
  ghost predicate SlotsFilled(tools: map<string, Tool>, base: nat, items: seq<Item>, output: seq<(nat, Item)>, pending: seq<Buf>) {
    |output| + |pending| == |items| &&
    (forall i :: 0 <= i < |output| ==> base <= output[i].0 < base + |items| && output[i].1 == items[output[i].0 - base] && !Loops(tools, output[i].1)) &&
    (forall i, j :: 0 <= i < j < |output| ==> output[i].0 != output[j].0) &&
    (forall i :: 0 <= i < |pending| ==> Stands(tools, base, items, pending[i])) && DistinctSlots(pending) &&
    (forall k {:trigger SlotFilled(tools, base, items, output, pending, k)} :: 0 <= k < |items| ==> SlotFilled(tools, base, items, output, pending, k))
  }

  ghost predicate SlotFilled(tools: map<string, Tool>, base: nat, items: seq<Item>, output: seq<(nat, Item)>, pending: seq<Buf>, k: int)
    requires 0 <= k < |items|
  {
    if Loops(tools, items[k]) then InSlot(pending, base + k) else Holds(output, base + k)
  }

  ghost predicate Holds(output: seq<(nat, Item)>, slot: nat) { exists i :: 0 <= i < |output| && output[i].0 == slot }

  lemma HoldsMore(output: seq<(nat, Item)>, o: (nat, Item))
    ensures forall slot :: Holds(output + [o], slot) <==> Holds(output, slot) || slot == o.0
  {
    var more := output + [o];
    assert more[|output|] == o;
    forall slot | Holds(output, slot)
      ensures Holds(more, slot)
    {
      var i :| 0 <= i < |output| && output[i].0 == slot;
      assert more[i].0 == slot;
    }
  }

  lemma {:induction false} OutputHolds(tools: map<string, Tool>, base: nat, bufs: map<string, Buf>, items: seq<Item>)
    requires forall k :: 0 <= k < |items| ==> (Executes(bufs, items[k]) <==> Loops(tools, items[k]))
    ensures forall k :: 0 <= k < |items| && !Loops(tools, items[k]) ==> Holds(Output(base, bufs, items), base + k)
  {
    if items != [] {
      var head, last := items[..|items| - 1], items[|items| - 1];
      OutputHolds(tools, base, bufs, head);
      HoldsMore(Output(base, bufs, head), (base + |head|, last));
      assert Output(base, bufs, head) + [] == Output(base, bufs, head);
    }
  }

  lemma {:induction false} OutputIs(tools: map<string, Tool>, base: nat, bufs: map<string, Buf>, items: seq<Item>)
    requires forall k :: 0 <= k < |items| ==> (Executes(bufs, items[k]) <==> Loops(tools, items[k]))
    ensures var output := Output(base, bufs, items);
            (forall i :: 0 <= i < |output| ==> base <= output[i].0 < base + |items| && output[i].1 == items[output[i].0 - base] && !Loops(tools, output[i].1)) &&
            (forall i, j :: 0 <= i < j < |output| ==> output[i].0 < output[j].0)
    ensures |Output(base, bufs, items)| + |LoopSlots(tools, base, items)| == |items|
  {
    if items != [] {
      var head, last := items[..|items| - 1], items[|items| - 1];
      OutputIs(tools, base, bufs, head);
      LoopSlotsMore(tools, base, head, last);
      assert items == head + [last];
    }
  }

  /** The slots the loop fills. */
  function LoopSlots(tools: map<string, Tool>, base: nat, items: seq<Item>): set<nat> {
    set k: nat | k < |items| && Loops(tools, items[k]) :: base + k
  }

  lemma LoopSlotsMore(tools: map<string, Tool>, base: nat, items: seq<Item>, last: Item)
    ensures LoopSlots(tools, base, items + [last]) == LoopSlots(tools, base, items) + if Loops(tools, last) then {base + |items|} else {}
    ensures base + |items| !in LoopSlots(tools, base, items)
  {
    assert forall k: nat :: k < |items| ==> (items + [last])[k] == items[k];
    forall slot | slot in LoopSlots(tools, base, items)
      ensures slot in LoopSlots(tools, base, items + [last])
    {
      assert (items + [last])[slot - base] == items[slot - base];
    }
    if Loops(tools, last) {
      assert (items + [last])[|items|] == last;
      assert base + |items| in LoopSlots(tools, base, items + [last]);
    }
  }

  function SlotsOf(pending: seq<Buf>): set<nat> { set i | 0 <= i < |pending| :: pending[i].slot }

  lemma {:induction false} SlotsCount(pending: seq<Buf>)
    requires DistinctSlots(pending)
    ensures |SlotsOf(pending)| == |pending|
  {
    if pending != [] {
      var head, last := pending[..|pending| - 1], pending[|pending| - 1];
      SlotsCount(head);
      assert SlotsOf(pending) == SlotsOf(head) + {last.slot};
    }
  }

  lemma PendingSlots(tools: map<string, Tool>, base: nat, items: seq<Item>, finished: set<nat>, pending: seq<Buf>)
    requires PendingInv(tools, base, items, finished, pending) == true && forall k: nat :: k < |items| ==> k in finished
    ensures SlotsOf(pending) == LoopSlots(tools, base, items)
  {
    forall slot | slot in LoopSlots(tools, base, items)
      ensures slot in SlotsOf(pending)
    {
      assert Covers(tools, base, items, pending, slot - base);
    }
    forall slot | slot in SlotsOf(pending)
      ensures slot in LoopSlots(tools, base, items)
    {
      var i :| 0 <= i < |pending| && pending[i].slot == slot;
      assert Stands(tools, base, items, pending[i]);
    }
  }

  /** The terminal event, once every item is done. */
  lemma TerminalFills(tools: map<string, Tool>, mint: string -> string, items: seq<Item>, es: seq<In>, turnUsage: Option<Usage>, base: nat, t: Turn)
    requires TurnInv(tools, mint, items, es, base, t) && forall k :: 0 <= k < |items| ==> Finished(At(es, k))
    ensures var u := Take(t, tools, mint, Terminal(items, turnUsage));
            u == t.(usage := SumUsage(t.usage, turnUsage), offset := base + |items|, output := u.output, hadClient := u.hadClient) &&
            SlotsFilled(tools, base, items, u.output, t.pending) && (u.hadClient <==> exists k :: 0 <= k < |items| && items[k].Call? && !Loops(tools, items[k]))
  {
    ExecutesLoops(tools, mint, items, es, base, t);
    SlotsAre(tools, base, items, Finishing(items, es), t.pending, t.bufs);
    TerminalTakes(t, tools, mint, items, turnUsage);
  }

  /** Whether some call of the turn is the client's. */
  predicate HasClient(bufs: map<string, Buf>, items: seq<Item>) {
    exists k :: 0 <= k < |items| && items[k].Call? && !Executes(bufs, items[k])
  }

  lemma HasClientIs(tools: map<string, Tool>, bufs: map<string, Buf>, items: seq<Item>)
    requires forall k :: 0 <= k < |items| ==> (Executes(bufs, items[k]) <==> Loops(tools, items[k]))
    ensures HasClient(bufs, items) <==> exists k :: 0 <= k < |items| && items[k].Call? && !Loops(tools, items[k])
  {
  }

  lemma TerminalIs(t: Turn, tools: map<string, Tool>, mint: string -> string, items: seq<Item>, turnUsage: Option<Usage>)
    requires t.end == Open && t.output == [] && !t.hadClient
    ensures Take(t, tools, mint, Terminal(items, turnUsage)) ==
            t.(usage := SumUsage(t.usage, turnUsage), offset := t.offset + |items|, output := Output(t.offset, t.bufs, items),
               hadClient := HasClient(t.bufs, items))
  {
    assert [] + Output(t.offset, t.bufs, items) == Output(t.offset, t.bufs, items);
  }

  lemma TerminalTakes(t: Turn, tools: map<string, Tool>, mint: string -> string, items: seq<Item>, turnUsage: Option<Usage>)
    requires t.end == Open && t.output == [] && !t.hadClient && forall k :: 0 <= k < |items| ==> (Executes(t.bufs, items[k]) <==> Loops(tools, items[k]))
    ensures var u := Take(t, tools, mint, Terminal(items, turnUsage));
            u == t.(usage := SumUsage(t.usage, turnUsage), offset := t.offset + |items|, output := Output(t.offset, t.bufs, items), hadClient := u.hadClient) &&
            (u.hadClient <==> exists k :: 0 <= k < |items| && items[k].Call? && !Loops(tools, items[k]))
  {
    TerminalIs(t, tools, mint, items, turnUsage);
    HasClientIs(tools, t.bufs, items);
  }

  lemma ExecutesLoops(tools: map<string, Tool>, mint: string -> string, items: seq<Item>, es: seq<In>, base: nat, t: Turn)
    requires TurnInv(tools, mint, items, es, base, t) && forall k :: 0 <= k < |items| ==> Finished(At(es, k))
    ensures forall k :: 0 <= k < |items| ==> (Executes(t.bufs, items[k]) <==> Loops(tools, items[k]))
  {
    forall k | 0 <= k < |items|
      ensures Executes(t.bufs, items[k]) <==> Loops(tools, items[k])
    {
      assert ItemAt(tools, mint, items, es, base, t, k);
    }
  }

  lemma SlotsAre(tools: map<string, Tool>, base: nat, items: seq<Item>, finished: set<nat>, pending: seq<Buf>, bufs: map<string, Buf>)
    requires PendingInv(tools, base, items, finished, pending) == true && forall k: nat :: k < |items| ==> k in finished
    requires forall k :: 0 <= k < |items| ==> (Executes(bufs, items[k]) <==> Loops(tools, items[k]))
    ensures SlotsFilled(tools, base, items, Output(base, bufs, items), pending)
  {
    OutputIs(tools, base, bufs, items);
    OutputHolds(tools, base, bufs, items);
    SlotsCount(pending);
    PendingSlots(tools, base, items, finished, pending);
    forall k | 0 <= k < |items|
      ensures SlotFilled(tools, base, items, Output(base, bufs, items), pending, k)
    {
      assert Covers(tools, base, items, pending, k);
    }
  }

  /** The slots move on by the turn's items, each item's events came out in its own slot as its class renders them, and each
      slot is filled once, by one of the turn's items or by a call left to the loop. */
  ghost predicate TurnAgrees(tools: map<string, Tool>, mint: string -> string, base: nat, items: seq<Item>, es: seq<In>, t: Turn) {
    t.offset == base + |items| && Slotted(base, |items|, t.out) && SlotsFilled(tools, base, items, t.output, t.pending) &&
    forall k :: 0 <= k < |items| ==> OutAt(t.out, base + k) == Outer(tools, mint, items[k], At(es, k))
  }

  /** Over any well-formed turn: each item's events come out in its own slot, in their order, as its class renders them,
      whenever its name became known; the slots move on by the turn's items; and each of them is filled once, by one of
      the turn's items or by a call left to the loop. */
  lemma TurnStitched(tools: map<string, Tool>, mint: string -> string, items: seq<Item>, es: seq<In>, turnUsage: Option<Usage>,
                     seqNo: nat, base: nat, usage: Option<Usage>)
    requires Complete(items, es)
    ensures var t := Taken(Begun(seqNo, base, usage), tools, mint, es + [Terminal(items, turnUsage)]);
            t.end == Open && t.usage == SumUsage(usage, turnUsage) && TurnAgrees(tools, mint, base, items, es, t) &&
            (t.hadClient <==> exists k :: 0 <= k < |items| && items[k].Call? && !Loops(tools, items[k]))
  {
    var before, all := Taken(Begun(seqNo, base, usage), tools, mint, es), es + [Terminal(items, turnUsage)];
    assert all[..|all| - 1] == es && all[|all| - 1] == Terminal(items, turnUsage);
    TurnKeeps(tools, mint, items, es, seqNo, base, usage);
    UsageKept(Begun(seqNo, base, usage), tools, mint, items, es);
    TerminalFills(tools, mint, items, es, turnUsage, base, before);
    TurnRendered(tools, mint, items, es, base, before);
  }

  lemma ItemRendered(tools: map<string, Tool>, mint: string -> string, items: seq<Item>, es: seq<In>, base: nat, t: Turn, k: int)
    requires 0 <= k < |items| && ItemAt(tools, mint, items, es, base, t, k) && Finished(At(es, k))
    ensures OutAt(t.out, base + k) == Outer(tools, mint, items[k], At(es, k))
  {
  }

  lemma TurnRendered(tools: map<string, Tool>, mint: string -> string, items: seq<Item>, es: seq<In>, base: nat, t: Turn)
    requires TurnInv(tools, mint, items, es, base, t) && forall k :: 0 <= k < |items| ==> Finished(At(es, k))
    ensures forall k :: 0 <= k < |items| ==> OutAt(t.out, base + k) == Outer(tools, mint, items[k], At(es, k))
  {
    forall k | 0 <= k < |items|
      ensures OutAt(t.out, base + k) == Outer(tools, mint, items[k], At(es, k))
    {
      ItemRendered(tools, mint, items, es, base, t, k);
    }
  }

  lemma {:induction false} UsageKept(t: Turn, tools: map<string, Tool>, mint: string -> string, items: seq<Item>, es: seq<In>)
    requires forall i :: 0 <= i < |es| ==> EventFits(items, es[i])
    ensures Taken(t, tools, mint, es).usage == t.usage
  {
    if es != [] {
      var head, e := es[..|es| - 1], es[|es| - 1];
      UsageKept(t, tools, mint, items, head);
      UsageStep(Taken(t, tools, mint, head), tools, mint, e);
    }
  }

  lemma UsageStep(t: Turn, tools: map<string, Tool>, mint: string -> string, e: In)
    requires !e.Terminal?
    ensures Take(t, tools, mint, e).usage == t.usage
  {
    if e.In? && e.index.Some? && e.body.Added? && e.body.item.Call? {
      var b := Buf(e.body.item.id, None, [(e.index.value, e.body)], e.index.value + t.offset, e.body.item.name, "");
      FlushUsage(t, mint, b.(sort := Some(Classify(tools, b.name))), b.raw);
    } else if e.In? && e.index.Some? && e.body.Done? && e.body.item.Call? && e.body.item.id in t.bufs {
      var item := e.body.item;
      var b := t.bufs[item.id].(name := if item.name != "" then item.name else t.bufs[item.id].name);
      FlushUsage(t, mint, b.(sort := Some(Classify(tools, b.name))), b.raw);
    }
  }

  lemma {:induction false} FlushUsage(t: Turn, mint: string -> string, b: Buf, raw: seq<(nat, Body)>)
    requires b.sort.Some?
    ensures Flush(t, mint, b, raw).usage == t.usage
  {
    if raw != [] {
      FlushUsage(t, mint, b, raw[..|raw| - 1]);
    }
  }

  // --- When the name comes makes no difference ---

  /** Two inner turns with the same items whose events differ only in whether a call's name comes with its added. */
  ghost predicate NamedLater(items: seq<Item>, es: seq<In>, later: seq<In>) {
    forall k :: 0 <= k < |items| ==>
      |At(es, k)| == |At(later, k)| &&
      forall i :: 0 <= i < |At(es, k)| ==> At(es, k)[i] == At(later, k)[i] || (items[k].Call? && At(es, k)[i].Added? && At(later, k)[i].Added?)
  }

  lemma {:induction false} RenderNames(sort: Class, mint: string -> string, item: Item, xs: seq<Body>, ys: seq<Body>)
    requires item.Call? && sort != Client && |xs| == |ys|
    requires forall i :: 0 <= i < |xs| ==> Fits(item, xs[i]) && Fits(item, ys[i]) && (xs[i] == ys[i] || (xs[i].Added? && ys[i].Added?))
    ensures Render(sort, mint, item.name, xs) == Render(sort, mint, item.name, ys)
  {
    if xs != [] {
      RenderNames(sort, mint, item, xs[..|xs| - 1], ys[..|ys| - 1]);
    }
  }

  lemma {:induction false} AtFits(items: seq<Item>, es: seq<In>, k: nat)
    requires k < |items| && forall i :: 0 <= i < |es| ==> EventFits(items, es[i])
    ensures forall i :: 0 <= i < |At(es, k)| ==> Fits(items[k], At(es, k)[i])
  {
    if es != [] {
      AtFits(items, es[..|es| - 1], k);
    }
  }

  /** An executed call's outer events are the same, to the letter, whether its name came with its added or with its done. */
  lemma BufferingUnseen(tools: map<string, Tool>, mint: string -> string, items: seq<Item>, es: seq<In>, later: seq<In>,
                        turnUsage: Option<Usage>, seqNo: nat, base: nat, usage: Option<Usage>, k: nat)
    requires Complete(items, es) && Complete(items, later) && NamedLater(items, es, later) && k < |items| && Loops(tools, items[k])
    ensures OutAt(Taken(Begun(seqNo, base, usage), tools, mint, es + [Terminal(items, turnUsage)]).out, base + k) ==
            OutAt(Taken(Begun(seqNo, base, usage), tools, mint, later + [Terminal(items, turnUsage)]).out, base + k)
  {
    TurnStitched(tools, mint, items, es, turnUsage, seqNo, base, usage);
    TurnStitched(tools, mint, items, later, turnUsage, seqNo, base, usage);
    AtFits(items, es, k);
    AtFits(items, later, k);
    RenderNames(Classify(tools, items[k].name), mint, items[k], At(es, k), At(later, k));
  }

  // --- What a call's own events become ---

  /** A call of a discovered tool that needs no approval, and one of a tool that does. */
  predicate RunsAtOnce(tools: map<string, Tool>, item: Item) { item.Call? && item.name in tools && !tools[item.name].approval }

  predicate AsksFirst(tools: map<string, Tool>, item: Item) { item.Call? && item.name in tools && tools[item.name].approval }

  /** The outer event an executed call's inner event becomes: under the new id, with the same text. */
  predicate Echoes(mint: string -> string, item: Item, server: string, inner: Body, outer: Body)
    requires item.Call?
  {
    match inner
    case Added(_) => outer == Added(McpCall(mint(item.id), item.name, "", server, None, InProgress))
    case Delta(_, text) => outer == McpDelta(mint(item.id), text)
    case Args(_, text) => outer == McpArgs(mint(item.id), text)
    case _ => false
  }

  /** One outer event for each inner one, in the same order. */
  ghost predicate Echo(mint: string -> string, item: Item, server: string, inner: seq<Body>, outer: seq<Body>)
    requires item.Call?
  {
    |outer| == |inner| && forall i :: 0 <= i < |inner| ==> Echoes(mint, item, server, inner[i], outer[i])
  }

  lemma EchoMore(mint: string -> string, item: Item, server: string, inner: seq<Body>, outer: seq<Body>, x: Body, y: Body)
    requires item.Call? && Echo(mint, item, server, inner, outer) && Echoes(mint, item, server, x, y)
    ensures Echo(mint, item, server, inner + [x], outer + [y])
  {
  }

  lemma {:induction false} RenderEchoes(mint: string -> string, item: Item, server: string, inner: seq<Body>)
    requires item.Call? && forall i :: 0 <= i < |inner| ==> Fits(item, inner[i]) && !inner[i].Done?
    ensures Echo(mint, item, server, inner, Render(Mcp(server), mint, item.name, inner))
  {
    if inner != [] {
      var head, last := inner[..|inner| - 1], inner[|inner| - 1];
      RenderEchoes(mint, item, server, head);
      EchoMore(mint, item, server, head, Render(Mcp(server), mint, item.name, head), last, Rendered(Mcp(server), mint, item.name, last).value);
      assert inner == head + [last];
    }
  }

  lemma {:induction false} RenderNothing(mint: string -> string, name: string, server: string, inner: seq<Body>)
    ensures Render(Approval(server), mint, name, inner) == []
  {
    if inner != [] {
      RenderNothing(mint, name, server, inner[..|inner| - 1]);
    }
  }

  /** Over any well-formed turn, in each slot: an executed call's events up to its done come out one for one and in order, under
      its new id, with its name and server and every text as it came; of a call that needs approval nothing comes out; of any
      other item every event does, as it is. */
  lemma SlotStreams(tools: map<string, Tool>, mint: string -> string, items: seq<Item>, es: seq<In>, turnUsage: Option<Usage>,
                    seqNo: nat, base: nat, usage: Option<Usage>, k: nat)
    requires Complete(items, es) && k < |items|
    ensures var h, out := At(es, k), OutAt(Taken(Begun(seqNo, base, usage), tools, mint, es + [Terminal(items, turnUsage)]).out, base + k);
            h != [] && h[|h| - 1] == Done(items[k]) &&
            if RunsAtOnce(tools, items[k]) then Echo(mint, items[k], tools[items[k].name].server, h[..|h| - 1], out)
            else if AsksFirst(tools, items[k]) then out == [] else out == h
  {
    var item, h := items[k], At(es, k);
    TurnStitched(tools, mint, items, es, turnUsage, seqNo, base, usage);
    AtFits(items, es, k);
    if RunsAtOnce(tools, item) {
      var server, head := tools[item.name].server, h[..|h| - 1];
      RenderEchoes(mint, item, server, head);
      assert Render(Mcp(server), mint, item.name, h) == Render(Mcp(server), mint, item.name, head);
    } else if AsksFirst(tools, item) {
      RenderNothing(mint, item.name, tools[item.name].server, h);
    } else if item.Call? {
      RenderClient(mint, item.name, h);
    }
  }

  /** The argument deltas put together, and the arguments given last. */
  function Deltas(bodies: seq<Body>): string {
    if bodies == [] then "" else
      var last := bodies[|bodies| - 1];
      Deltas(bodies[..|bodies| - 1]) + if last.Delta? || last.McpDelta? then last.text else ""
  }

  function LastArgs(bodies: seq<Body>): Option<string> {
    if bodies == [] then None else
      var last := bodies[|bodies| - 1];
      if last.Args? || last.McpArgs? then Some(last.text) else LastArgs(bodies[..|bodies| - 1])
  }

  /** So its deltas come to the same text, and its last arguments are the same. */
  lemma {:induction false} EchoSays(mint: string -> string, item: Item, server: string, inner: seq<Body>, outer: seq<Body>)
    requires item.Call? && Echo(mint, item, server, inner, outer)
    ensures Deltas(outer) == Deltas(inner) && LastArgs(outer) == LastArgs(inner)
    decreases |inner|
  {
    if inner != [] {
      assert Echoes(mint, item, server, inner[|inner| - 1], outer[|outer| - 1]);
      EchoSays(mint, item, server, inner[..|inner| - 1], outer[..|outer| - 1]);
    }
  }

  // --- Events of no item ---

  /** The inner events of no item, and the outer ones of no slot, in order. */
  function LooseIn(es: seq<In>): seq<Body> {
    if es == [] then [] else
      var e := es[|es| - 1];
      LooseIn(es[..|es| - 1]) + if e.In? && e.index.None? then [e.body] else []
  }

  function LooseOut(out: seq<Out>): seq<Body> {
    if out == [] then [] else
      var o := out[|out| - 1];
      LooseOut(out[..|out| - 1]) + if o.index.None? then [o.body] else []
  }

  lemma EmitLoose(t: Turn, index: Option<nat>, body: Body)
    ensures LooseOut(t.Emit(index, body).out) == LooseOut(t.out) + if index.None? then [body] else []
  {
    assert t.Emit(index, body).out[..|t.out|] == t.out;
  }

  lemma SlotLoose(t: Turn, slot: nat, body: Body)
    ensures LooseOut(t.Emit(Some(slot), body).out) == LooseOut(t.out)
  {
    EmitLoose(t, Some(slot), body);
  }

  lemma {:induction false} FlushLoose(t: Turn, mint: string -> string, b: Buf, raw: seq<(nat, Body)>)
    requires b.sort.Some?
    ensures LooseOut(Flush(t, mint, b, raw).out) == LooseOut(t.out)
  {
    if raw != [] {
      FlushLoose(t, mint, b, raw[..|raw| - 1]);
      EmitForLoose(Flush(t, mint, b, raw[..|raw| - 1]), mint, b, raw[|raw| - 1].0, raw[|raw| - 1].1);
    }
  }

  lemma EmitForLoose(t: Turn, mint: string -> string, b: Buf, index: nat, body: Body)
    requires b.sort.Some?
    ensures LooseOut(EmitFor(t, mint, b, index, body).out) == LooseOut(t.out)
  {
    var rendered := Rendered(b.sort.value, mint, b.name, body);
    if rendered.Some? {
      SlotLoose(t, index + t.offset, body);
      SlotLoose(t, b.slot, rendered.value);
    }
  }

  lemma ResolvedLoose(t: Turn, tools: map<string, Tool>, mint: string -> string, key: string, b: Buf)
    ensures LooseOut(Resolved(t, tools, mint, key, b).out) == LooseOut(t.out)
  {
    FlushLoose(t, mint, b.(sort := Some(Classify(tools, b.name))), b.raw);
  }

  lemma NamedLoose(t: Turn, tools: map<string, Tool>, mint: string -> string, item: Item)
    requires item.Call? && item.id in t.bufs
    ensures LooseOut(NamedAtDone(tools, mint, item, t).out) == LooseOut(t.out)
  {
    ResolvedLoose(t, tools, mint, item.id, t.bufs[item.id].(name := if item.name != "" then item.name else t.bufs[item.id].name));
  }

  lemma DoneEmits(t: Turn, tools: map<string, Tool>, mint: string -> string, index: nat, item: Item)
    requires item.Call? && item.id in t.bufs
    ensures var u := NamedAtDone(tools, mint, item, t);
            var out := TakeDone(t, tools, mint, index, item).out;
            out == u.out || out == u.Emit(Some(index + u.offset), Done(item)).out
  {
  }

  lemma DoneLoose(t: Turn, tools: map<string, Tool>, mint: string -> string, index: nat, item: Item)
    requires item.Call?
    ensures LooseOut(TakeDone(t, tools, mint, index, item).out) == LooseOut(t.out)
  {
    if item.id in t.bufs {
      var u := NamedAtDone(tools, mint, item, t);
      NamedLoose(t, tools, mint, item);
      DoneEmits(t, tools, mint, index, item);
      SlotLoose(u, index + u.offset, Done(item));
    }
  }

  lemma TakeLoose(t: Turn, tools: map<string, Tool>, mint: string -> string, e: In)
    requires t.end == Open
    ensures LooseOut(Take(t, tools, mint, e).out) == LooseOut(t.out) + if e.In? && e.index.None? then [e.body] else []
  {
    if e.In? {
      if e.index.None? {
        EmitLoose(t, None, e.body);
      } else if e.body.Added? && e.body.item.Call? {
        ResolvedLoose(t, tools, mint, e.body.item.id,
                      Buf(e.body.item.id, None, [(e.index.value, e.body)], e.index.value + t.offset, e.body.item.name, ""));
      } else if e.body.Delta? || e.body.Args? {
        PieceLoose(t, mint, e.index.value, e.body.id, e.body);
      } else if e.body.Done? && e.body.item.Call? {
        DoneLoose(t, tools, mint, e.index.value, e.body.item);
      } else {
        SlotLoose(t, e.index.value + t.offset, e.body);
      }
    }
  }

  lemma PieceLoose(t: Turn, mint: string -> string, index: nat, id: string, body: Body)
    requires body.Delta? || body.Args?
    ensures LooseOut(TakePiece(t, mint, index, id, body).out) == LooseOut(t.out)
  {
    if id in t.bufs && t.bufs[id].sort.Some? {
      EmitForLoose(t, mint, t.bufs[id], index, body);
    }
  }

  /** Over any turn that doesn't break off, the events of no item come out as they are, in their order. */
  lemma {:induction false} LooseForwarded(t: Turn, tools: map<string, Tool>, mint: string -> string, es: seq<In>)
    requires Taken(t, tools, mint, es).end == Open
    ensures LooseOut(Taken(t, tools, mint, es).out) == LooseOut(t.out) + LooseIn(es)
  {
    if es != [] {
      LooseForwarded(t, tools, mint, es[..|es| - 1]);
      TakeLoose(Taken(t, tools, mint, es[..|es| - 1]), tools, mint, es[|es| - 1]);
    }
  }
}
