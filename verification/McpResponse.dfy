/** One outer response from discovery to its terminal event. */
module McpResponse {
  import opened Wrappers
  import opened Stitcher
  import opened StitchedTurns
  import opened McpPolicy

  const TURN_CAP := 10

  /** A tool call made on a server. */
  datatype Execution = Execution(server: string, name: string, args: string, approval: Option<string>)

  /** The response so far. *acc* holds its output items. */
  datatype Run = Run(seqNo: nat, offset: nat, usage: Option<Usage>, acc: seq<Item>, out: seq<Out>, executed: seq<Execution>)

  /** Input items the loop reads: requests for approval it made before, and answers to them. */
  datatype Input = Asked(id: string, name: string, args: string, server: string) | Answered(request: string, approve: bool, reason: string) | OtherInput

  /** A loader turn: a whole one, or one that breaks off. */
  datatype Inner = Whole(items: seq<Item>, events: seq<In>, usage: Option<Usage>) | Broken(events: seq<In>, error: bool)

  datatype Ending = DiscoveryFailed | Collides | UnknownApproval | TurnBroken | Finished(complete: bool)

  // --- Saying events ---

  function Say(r: Run, index: Option<nat>, body: Body): Run {
    r.(out := r.out + [Out(r.seqNo, index, body)], seqNo := r.seqNo + 1)
  }

  function SayAll(r: Run, slot: nat, bodies: seq<Body>): Run {
    if bodies == [] then r else Say(SayAll(r, slot, bodies[..|bodies| - 1]), Some(slot), bodies[|bodies| - 1])
  }

  /** An item of the loop's own, in the next slot. */
  function Own(r: Run, bodies: seq<Body>, item: Item): Run {
    var s := SayAll(r.(offset := r.offset + 1), r.offset, bodies);
    s.(acc := s.acc + [item])
  }

  function DoneItems(bodies: seq<Body>): seq<Item> {
    if bodies == [] then [] else
      DoneItems(bodies[..|bodies| - 1]) + if bodies[|bodies| - 1].Done? then [bodies[|bodies| - 1].item] else []
  }

  // --- The envelope ---

  ghost predicate Numbered(r: Run) { r.seqNo == |r.out| && Consecutive(r.out, 0) }

  /** A slot has had exactly one done event, of its item in the accumulator, or none while it is *left*. */
  ghost predicate SlotAgrees(out: seq<Out>, acc: seq<Item>, left: set<nat>, i: nat) {
    i < |acc| && DoneItems(OutAt(out, i)) == if i in left then [] else [acc[i]]
  }

  /** Each output slot but those *left* has had exactly one done event, of its item in the accumulator. */
  ghost predicate Agrees(r: Run, left: set<nat>) {
    |r.acc| == r.offset && Slotted(0, r.offset, r.out) && forall i: nat :: i < r.offset ==> SlotAgrees(r.out, r.acc, left, i)
  }

  ghost predicate Envelope(r: Run) { Numbered(r) && Agrees(r, {}) }

  /** From *r* to *s*, *bodies* were said of *slot* and nothing else happened. */
  ghost predicate Said(r: Run, s: Run, slot: nat, bodies: seq<Body>) {
    s == r.(out := s.out, seqNo := r.seqNo + |bodies|) && OutAt(s.out, slot) == OutAt(r.out, slot) + bodies &&
    (forall i: nat :: i != slot ==> OutAt(s.out, i) == OutAt(r.out, i)) &&
    (Numbered(r) ==> Numbered(s)) && r.out <= s.out && forall j :: |r.out| <= j < |s.out| ==> s.out[j].index == Some(slot)
  }

  lemma SaidMore(r: Run, s: Run, slot: nat, bodies: seq<Body>, body: Body)
    requires Said(r, s, slot, bodies)
    ensures Said(r, Say(s, Some(slot), body), slot, bodies + [body])
  {
    forall i: nat
      ensures OutAt(Say(s, Some(slot), body).out, i) == OutAt(s.out, i) + if i == slot then [body] else []
    {
      OutAtMore(s.out, Out(s.seqNo, Some(slot), body), i);
    }
    assert OutAt(r.out, slot) + bodies + [body] == OutAt(r.out, slot) + (bodies + [body]);
  }

  lemma {:induction false} SayAllSays(r: Run, slot: nat, bodies: seq<Body>)
    ensures Said(r, SayAll(r, slot, bodies), slot, bodies)
  {
    if bodies == [] {
      assert OutAt(r.out, slot) + [] == OutAt(r.out, slot);
    } else {
      var head, last := bodies[..|bodies| - 1], bodies[|bodies| - 1];
      SayAllSays(r, slot, head);
      SaidMore(r, SayAll(r, slot, head), slot, head, last);
      assert bodies == head + [last];
    }
  }

  lemma {:induction false} OutAtBeyond(out: seq<Out>, base: nat, n: nat, i: nat)
    requires Slotted(base, n, out) && !(base <= i < base + n)
    ensures OutAt(out, i) == []
  {
    if out != [] {
      OutAtBeyond(out[..|out| - 1], base, n, i);
    }
  }

  lemma {:induction false} DoneItemsConcat(xs: seq<Body>, ys: seq<Body>)
    ensures DoneItems(xs + ys) == DoneItems(xs) + DoneItems(ys)
  {
    if ys == [] {
      assert xs + ys == xs;
    } else {
      assert (xs + ys)[..|xs + ys| - 1] == xs + ys[..|ys| - 1];
      DoneItemsConcat(xs, ys[..|ys| - 1]);
    }
  }

  /** Filling a slot that was left, by events with its one done among them. */
  lemma FillKeeps(r: Run, left: set<nat>, slot: nat, bodies: seq<Body>, item: Item)
    requires Numbered(r) && Agrees(r, left) && slot in left && slot < r.offset && DoneItems(bodies) == [item]
    ensures Numbered(SayAll(r, slot, bodies).(acc := r.acc[slot := item])) == true
    ensures Agrees(SayAll(r, slot, bodies).(acc := r.acc[slot := item]), left - {slot}) == true
  {
    SayAllSays(r, slot, bodies);
    DoneItemsConcat(OutAt(r.out, slot), bodies);
    FilledAgrees(r, SayAll(r, slot, bodies), left, slot, bodies, item);
  }

  lemma FilledAgrees(r: Run, s: Run, left: set<nat>, slot: nat, bodies: seq<Body>, item: Item)
    requires Agrees(r, left) && slot in left && slot < r.offset && Said(r, s, slot, bodies)
    requires DoneItems(OutAt(r.out, slot) + bodies) == DoneItems(OutAt(r.out, slot)) + [item]
    ensures Agrees(s.(acc := r.acc[slot := item]), left - {slot})
  {
    var now, rest := r.acc[slot := item], left - {slot};
    forall i: nat | i < s.offset
      ensures SlotAgrees(s.out, now, rest, i)
    {
      assert SlotAgrees(r.out, r.acc, left, i);
    }
  }

  /** An item of the loop's own keeps the envelope. */
  lemma OwnKeeps(r: Run, bodies: seq<Body>, item: Item)
    requires Envelope(r) && DoneItems(bodies) == [item]
    ensures Envelope(Own(r, bodies, item)) == true
  {
    var more := r.(offset := r.offset + 1);
    OutAtBeyond(r.out, 0, r.offset, r.offset);
    SayAllSays(more, r.offset, bodies);
    assert [] + bodies == bodies;
    OwnAgrees(r, SayAll(more, r.offset, bodies), bodies, item);
  }

  lemma OwnAgrees(r: Run, s: Run, bodies: seq<Body>, item: Item)
    requires Agrees(r, {}) && Said(r.(offset := r.offset + 1), s, r.offset, bodies) && OutAt(s.out, r.offset) == bodies && DoneItems(bodies) == [item]
    ensures Agrees(s.(acc := s.acc + [item]), {}) == true
  {
    forall i: nat | i < s.offset
      ensures SlotAgrees(s.out, r.acc + [item], {}, i)
    {
      if i < r.offset {
        assert SlotAgrees(r.out, r.acc, {}, i);
      }
    }
  }

  /** An event without a slot keeps it too. */
  lemma SayKeeps(r: Run, body: Body)
    requires Envelope(r)
    ensures Envelope(Say(r, None, body)) == true
  {
    var s := Say(r, None, body);
    forall i: nat | i < r.offset
      ensures SlotAgrees(s.out, s.acc, {}, i)
    {
      OutAtMore(r.out, Out(r.seqNo, None, body), i);
      assert OutAt(s.out, i) == OutAt(r.out, i);
      assert SlotAgrees(r.out, r.acc, {}, i);
    }
  }

  // --- What a slot shows ---

  /** All that was said of *slot*, and the item in it. */
  ghost predicate Shows(r: Run, slot: nat, bodies: seq<Body>, item: Item) {
    slot < |r.acc| && r.acc[slot] == item && OutAt(r.out, slot) == bodies
  }

  /** From *r* to *s* nothing was said of the slots there were, nor their items changed. */
  ghost predicate OnlyAdds(r: Run, s: Run) {
    r.offset <= s.offset && r.acc <= s.acc && forall i: nat :: i < r.offset ==> OutAt(s.out, i) == OutAt(r.out, i)
  }

  lemma StillShows(r: Run, s: Run, slot: nat, bodies: seq<Body>, item: Item)
    requires OnlyAdds(r, s) && slot < r.offset && Shows(r, slot, bodies, item)
    ensures Shows(s, slot, bodies, item) == true
  {
  }

  lemma AddsOn(r: Run, s: Run, t: Run)
    requires OnlyAdds(r, s) && OnlyAdds(s, t)
    ensures OnlyAdds(r, t) == true
  {
    assert r.acc <= t.acc;
  }

  lemma OwnShows(r: Run, bodies: seq<Body>, item: Item)
    requires Envelope(r) == true
    ensures OnlyAdds(r, Own(r, bodies, item)) == true && Shows(Own(r, bodies, item), r.offset, bodies, item) == true
    ensures Own(r, bodies, item).offset == r.offset + 1
  {
    var more := r.(offset := r.offset + 1);
    AgreesMeans(r);
    OutAtBeyond(r.out, 0, r.offset, r.offset);
    SayAllSays(more, r.offset, bodies);
    assert [] + bodies == bodies;
  }

  // --- A turn ---

  function Placed(acc: seq<Item>, output: seq<(nat, Item)>): seq<Item> {
    if output == [] then acc else
      var rest, o := Placed(acc, output[..|output| - 1]), output[|output| - 1];
      if o.0 < |rest| then rest[o.0 := o.1] else rest
  }

  /** The accumulator with a turn's items placed, and room for those of its pending calls. */
  function Extended(acc: seq<Item>, output: seq<(nat, Item)>, pending: seq<Buf>): seq<Item> {
    Placed(acc + seq(|output| + |pending|, _ => Plain("", "")), output)
  }

  /** A whole turn's events and items. */
  function Absorbed(r: Run, t: Turn): Run {
    r.(seqNo := t.seqNo, offset := t.offset, usage := t.usage, out := r.out + t.out, acc := Extended(r.acc, t.output, t.pending))
  }

  lemma {:induction false} PlacedIs(acc: seq<Item>, output: seq<(nat, Item)>)
    requires forall i :: 0 <= i < |output| ==> output[i].0 < |acc|
    requires forall i, j :: 0 <= i < j < |output| ==> output[i].0 != output[j].0
    ensures |Placed(acc, output)| == |acc|
    ensures forall i :: 0 <= i < |output| ==> Placed(acc, output)[output[i].0] == output[i].1
    ensures forall k :: 0 <= k < |acc| && !Holds(output, k) ==> Placed(acc, output)[k] == acc[k]
  {
    if output != [] {
      var head, last := output[..|output| - 1], output[|output| - 1];
      PlacedIs(acc, head);
      HoldsMore(head, last);
      assert output == head + [last];
    }
  }

  lemma {:induction false} OutAtConcat(xs: seq<Out>, ys: seq<Out>, i: nat)
    ensures OutAt(xs + ys, i) == OutAt(xs, i) + OutAt(ys, i)
  {
    if ys == [] {
      assert xs + ys == xs;
    } else {
      assert (xs + ys)[..|xs + ys| - 1] == xs + ys[..|ys| - 1];
      OutAtConcat(xs, ys[..|ys| - 1], i);
    }
  }

  lemma {:induction false} NoneDone(bodies: seq<Body>)
    requires forall i :: 0 <= i < |bodies| ==> !bodies[i].Done?
    ensures DoneItems(bodies) == []
  {
    if bodies != [] {
      NoneDone(bodies[..|bodies| - 1]);
    }
  }

  /** A finished item's events have one done among them, of the item. */
  lemma DoneOnce(item: Item, bodies: seq<Body>)
    requires Shaped(bodies) && StitchedTurns.Finished(bodies) && forall i :: 0 <= i < |bodies| ==> Fits(item, bodies[i])
    ensures DoneItems(bodies) == [item]
  {
    NoneDone(bodies[..|bodies| - 1]);
  }

  lemma {:induction false} RenderNoDone(sort: Class, mint: string -> string, name: string, bodies: seq<Body>)
    requires sort != Client
    ensures DoneItems(Render(sort, mint, name, bodies)) == []
  {
    if bodies != [] {
      var head, last := bodies[..|bodies| - 1], Rendered(sort, mint, name, bodies[|bodies| - 1]);
      RenderNoDone(sort, mint, name, head);
      DoneItemsConcat(Render(sort, mint, name, head), if last.Some? then [last.value] else []);
    }
  }

  /** What a turn's slot has had by the turn's end. */
  lemma TurnDone(tools: map<string, Tool>, mint: string -> string, items: seq<Item>, es: seq<In>, k: nat)
    requires Complete(items, es) && k < |items|
    ensures DoneItems(Outer(tools, mint, items[k], At(es, k))) == if Loops(tools, items[k]) then [] else [items[k]]
  {
    AtFits(items, es, k);
    DoneOnce(items[k], At(es, k));
    if items[k].Call? {
      if Loops(tools, items[k]) {
        RenderNoDone(Classify(tools, items[k].name), mint, items[k].name, At(es, k));
      } else {
        RenderClient(mint, items[k].name, At(es, k));
      }
    }
  }

  function WholeTurn(r: Run, tools: map<string, Tool>, mint: string -> string, inner: Inner): Turn
    requires inner.Whole?
  {
    Taken(Begun(r.seqNo, r.offset, r.usage), tools, mint, inner.events + [Terminal(inner.items, inner.usage)])
  }

  lemma AbsorbNumbers(r: Run, t: Turn)
    requires Numbered(r) && NumberedFrom(t, r.seqNo)
    ensures Numbered(Absorbed(r, t))
  {
  }

  /** After a whole turn the numbering goes on. */
  lemma TurnNumbers(r: Run, tools: map<string, Tool>, mint: string -> string, inner: Inner)
    requires Numbered(r) && inner.Whole?
    ensures Numbered(Absorbed(r, WholeTurn(r, tools, mint, inner)))
  {
    TurnNumbered(Begun(r.seqNo, r.offset, r.usage), tools, mint, inner.events + [Terminal(inner.items, inner.usage)], r.seqNo);
    AbsorbNumbers(r, WholeTurn(r, tools, mint, inner));
  }

  /** And every slot but the pending calls' has its done event, of the item placed there. */
  lemma TurnKept(r: Run, tools: map<string, Tool>, mint: string -> string, inner: Inner)
    requires Agrees(r, {}) && inner.Whole? && Complete(inner.items, inner.events)
    ensures Agrees(Absorbed(r, WholeTurn(r, tools, mint, inner)), SlotsOf(WholeTurn(r, tools, mint, inner).pending))
  {
    TurnStitched(tools, mint, inner.items, inner.events, inner.usage, r.seqNo, r.offset, r.usage);
    var t := WholeTurn(r, tools, mint, inner);
    TurnDoneAll(tools, mint, r.offset, inner.items, inner.events, t);
    ExtendedIs(r.acc, tools, inner.items, t.output, t.pending);
    PendingLoops(tools, r.offset, inner.items, t.output, t.pending);
    AbsorbAgrees(r, tools, inner.items, t.out, Extended(r.acc, t.output, t.pending), SlotsOf(t.pending), Absorbed(r, t));
  }

  /** The accumulator *now* after a turn: what it held, and each item of the turn that isn't left to the loop. */
  ghost predicate Extends(tools: map<string, Tool>, acc: seq<Item>, items: seq<Item>, now: seq<Item>) {
    |now| == |acc| + |items| && (forall i :: 0 <= i < |acc| ==> now[i] == acc[i]) &&
    forall k :: 0 <= k < |items| && !Loops(tools, items[k]) ==> now[|acc| + k] == items[k]
  }

  /** *slots* are those of the items left to the loop. */
  ghost predicate LeftOver(tools: map<string, Tool>, base: nat, items: seq<Item>, slots: set<nat>) {
    (forall k: nat :: k < |items| ==> (base + k in slots <==> Loops(tools, items[k]))) && forall i: nat :: i < base ==> i !in slots
  }

  lemma SlotSince(before: seq<Out>, n: nat, out: seq<Out>, now: seq<Item>, slots: set<nat>, i: nat, left: bool, item: Item)
    requires Slotted(0, n, before) && n <= i < |now| && DoneItems(OutAt(out, i)) == if left then [] else [item]
    requires (i in slots <==> left) && (!left ==> now[i] == item)
    ensures SlotAgrees(before + out, now, slots, i)
  {
    OutSince(before, out, n, i);
  }

  lemma OutSince(before: seq<Out>, out: seq<Out>, n: nat, i: nat)
    requires Slotted(0, n, before) && i >= n
    ensures OutAt(before + out, i) == OutAt(out, i)
  {
    OutAtConcat(before, out, i);
    OutAtBeyond(before, 0, n, i);
    assert [] + OutAt(out, i) == OutAt(out, i);
  }

  lemma SlotBefore(r: Run, tools: map<string, Tool>, items: seq<Item>, out: seq<Out>, now: seq<Item>, slots: set<nat>, i: nat)
    requires Agrees(r, {}) && i < r.offset && Slotted(r.offset, |items|, out)
    requires Extends(tools, r.acc, items, now) && LeftOver(tools, r.offset, items, slots)
    ensures SlotAgrees(r.out + out, now, slots, i)
  {
    OutBefore(r, out, |items|, i);
  }

  /** What each of a turn's slots has had by the turn's end. */
  ghost predicate TurnDoneAt(tools: map<string, Tool>, base: nat, items: seq<Item>, out: seq<Out>) {
    forall k :: 0 <= k < |items| ==> DoneItems(OutAt(out, base + k)) == if Loops(tools, items[k]) then [] else [items[k]]
  }

  lemma TurnDoneAll(tools: map<string, Tool>, mint: string -> string, base: nat, items: seq<Item>, es: seq<In>, t: Turn)
    requires Complete(items, es) == true && TurnAgrees(tools, mint, base, items, es, t)
    ensures TurnDoneAt(tools, base, items, t.out)
  {
    forall k | 0 <= k < |items|
      ensures DoneItems(OutAt(t.out, base + k)) == if Loops(tools, items[k]) then [] else [items[k]]
    {
      TurnDone(tools, mint, items, es, k);
    }
  }

  lemma SlotsSince(tools: map<string, Tool>, before: seq<Out>, acc: seq<Item>, items: seq<Item>, out: seq<Out>, now: seq<Item>, slots: set<nat>)
    requires Slotted(0, |acc|, before) == true && TurnDoneAt(tools, |acc|, items, out)
    requires Extends(tools, acc, items, now) && LeftOver(tools, |acc|, items, slots)
    ensures |now| == |acc| + |items| && forall i: nat :: |acc| <= i < |acc| + |items| ==> SlotAgrees(before + out, now, slots, i)
  {
    forall i: nat | |acc| <= i < |acc| + |items|
      ensures SlotAgrees(before + out, now, slots, i)
    {
      SlotIs(tools, acc, items, out, now, slots, i, i - |acc|);
      SlotSince(before, |acc|, out, now, slots, i, Loops(tools, items[i - |acc|]), items[i - |acc|]);
    }
  }

  lemma SlotIs(tools: map<string, Tool>, acc: seq<Item>, items: seq<Item>, out: seq<Out>, now: seq<Item>, slots: set<nat>, i: nat, k: nat)
    requires TurnDoneAt(tools, |acc|, items, out) && Extends(tools, acc, items, now) && LeftOver(tools, |acc|, items, slots)
    requires k < |items| && i == |acc| + k
    ensures i < |now| && DoneItems(OutAt(out, i)) == (if Loops(tools, items[k]) then [] else [items[k]]) &&
            (i in slots <==> Loops(tools, items[k])) && (!Loops(tools, items[k]) ==> now[i] == items[k])
  {
  }

  lemma SlotsBefore(r: Run, tools: map<string, Tool>, items: seq<Item>, out: seq<Out>, now: seq<Item>, slots: set<nat>)
    requires Agrees(r, {}) == true && Slotted(r.offset, |items|, out) == true
    requires Extends(tools, r.acc, items, now) == true && LeftOver(tools, r.offset, items, slots) == true
    ensures forall i: nat :: i < r.offset ==> SlotAgrees(r.out + out, now, slots, i)
  {
    forall i: nat | i < r.offset
      ensures SlotAgrees(r.out + out, now, slots, i)
    {
      SlotBefore(r, tools, items, out, now, slots, i);
    }
  }

  lemma AbsorbAgrees(r: Run, tools: map<string, Tool>, items: seq<Item>, out: seq<Out>, now: seq<Item>, slots: set<nat>, s: Run)
    requires Agrees(r, {}) == true && TurnDoneAt(tools, r.offset, items, out) == true && Slotted(r.offset, |items|, out) == true
    requires Extends(tools, r.acc, items, now) == true && LeftOver(tools, r.offset, items, slots) == true
    requires s.offset == r.offset + |items| && s.out == r.out + out && s.acc == now
    ensures Agrees(s, slots) == true
  {
    AgreesMeans(r);
    SlottedConcat(r.out, out, r.offset, |items|);
    SlotsBefore(r, tools, items, out, now, slots);
    SlotsSince(tools, r.out, r.acc, items, out, now, slots);
    AgreesFrom(s, slots);
  }

  lemma AgreesMeans(r: Run)
    requires Agrees(r, {})
    ensures |r.acc| == r.offset && Slotted(0, r.offset, r.out) == true
  {
  }

  lemma AgreesFrom(s: Run, slots: set<nat>)
    requires |s.acc| == s.offset && Slotted(0, s.offset, s.out) == true && forall i: nat :: i < s.offset ==> SlotAgrees(s.out, s.acc, slots, i)
    ensures Agrees(s, slots) == true
  {
  }

  lemma SlottedConcat(xs: seq<Out>, ys: seq<Out>, base: nat, n: nat)
    requires Slotted(0, base, xs) && Slotted(base, n, ys)
    ensures Slotted(0, base + n, xs + ys) == true
  {
  }

  lemma OutBefore(r: Run, out: seq<Out>, n: nat, i: nat)
    requires Agrees(r, {}) && Slotted(r.offset, n, out) && i < r.offset
    ensures DoneItems(OutAt(r.out + out, i)) == [r.acc[i]]
  {
    assert SlotAgrees(r.out, r.acc, {}, i);
    OutAtConcat(r.out, out, i);
    OutAtBeyond(out, r.offset, n, i);
    assert OutAt(r.out, i) + [] == OutAt(r.out, i);
  }

  lemma ExtendedIs(acc: seq<Item>, tools: map<string, Tool>, items: seq<Item>, output: seq<(nat, Item)>, pending: seq<Buf>)
    requires SlotsFilled(tools, |acc|, items, output, pending)
    ensures Extends(tools, acc, items, Extended(acc, output, pending))
  {
    var room := seq(|output| + |pending|, _ => Plain("", ""));
    PlacedIs(acc + room, output);
    PlacedBefore(acc, room, output);
    forall k | 0 <= k < |items| && !Loops(tools, items[k])
      ensures Extended(acc, output, pending)[|acc| + k] == items[k]
    {
      PlacedAt(acc + room, tools, |acc|, items, output, pending, k);
    }
  }

  lemma PlacedBefore(acc: seq<Item>, room: seq<Item>, output: seq<(nat, Item)>)
    requires |Placed(acc + room, output)| == |acc| + |room|
    requires forall k :: 0 <= k < |acc + room| && !Holds(output, k) ==> Placed(acc + room, output)[k] == (acc + room)[k]
    requires forall i :: 0 <= i < |output| ==> output[i].0 >= |acc|
    ensures forall i :: 0 <= i < |acc| ==> Placed(acc + room, output)[i] == acc[i]
  {
    forall i | 0 <= i < |acc|
      ensures Placed(acc + room, output)[i] == acc[i]
    {
      assert !Holds(output, i);
    }
  }

  lemma PlacedAt(acc: seq<Item>, tools: map<string, Tool>, base: nat, items: seq<Item>, output: seq<(nat, Item)>, pending: seq<Buf>, k: nat)
    requires SlotsFilled(tools, base, items, output, pending) && |acc| == base + |items| && k < |items| && !Loops(tools, items[k])
    requires forall i :: 0 <= i < |output| ==> output[i].0 < |acc| && |Placed(acc, output)| == |acc| && Placed(acc, output)[output[i].0] == output[i].1
    ensures |Placed(acc, output)| == |acc| && Placed(acc, output)[base + k] == items[k]
  {
    assert SlotFilled(tools, base, items, output, pending, k);
    var i :| 0 <= i < |output| && output[i].0 == base + k;
  }

  lemma PendingLoops(tools: map<string, Tool>, base: nat, items: seq<Item>, output: seq<(nat, Item)>, pending: seq<Buf>)
    requires SlotsFilled(tools, base, items, output, pending)
    ensures LeftOver(tools, base, items, SlotsOf(pending))
  {
    forall slot | slot in SlotsOf(pending)
      ensures base <= slot < base + |items| && Loops(tools, items[slot - base])
    {
      var i :| 0 <= i < |pending| && pending[i].slot == slot;
      assert Stands(tools, base, items, pending[i]);
    }
    forall k: nat | k < |items| && Loops(tools, items[k])
      ensures base + k in SlotsOf(pending)
    {
      assert SlotFilled(tools, base, items, output, pending, k);
    }
  }


  // --- What is executed ---

  /** The approval request answered by *id*: the last one of that id in the input. */
  function RequestOf(input: seq<Input>, id: string): (r: Option<Input>)
    ensures r.Some? ==> r.value.Asked? && r.value.id == id && r.value in input
  {
    if input == [] then None
    else if input[|input| - 1].Asked? && input[|input| - 1].id == id then Some(input[|input| - 1])
    else RequestOf(input[..|input| - 1], id)
  }

  /** Item *i* is a request for approval with that id, and none after it is. */
  ghost predicate LastAsked(input: seq<Input>, id: string, i: int)
    requires 0 <= i < |input|
  {
    input[i].Asked? && input[i].id == id && forall j :: i < j < |input| && input[j].Asked? ==> input[j].id != id
  }

  /** An answer's request is the last one of that id, and there is none only if no request has it. */
  lemma {:induction false} RequestIs(input: seq<Input>, id: string)
    ensures match RequestOf(input, id)
            case Some(request) => exists i :: 0 <= i < |input| && request == input[i] && LastAsked(input, id, i)
            case None => forall i :: 0 <= i < |input| && input[i].Asked? ==> input[i].id != id
  {
    if input != [] {
      var head, last := input[..|input| - 1], input[|input| - 1];
      if last.Asked? && last.id == id {
        assert LastAsked(input, id, |input| - 1);
      } else {
        RequestIs(head, id);
        if RequestOf(head, id).Some? {
          var i :| 0 <= i < |head| && RequestOf(head, id).value == head[i] && LastAsked(head, id, i);
          assert LastAsked(input, id, i);
        }
      }
    }
  }

  /** Which of *spec*'s tools each name leads to, *list* taken in. */
  function Indexed(tools: map<string, Tool>, spec: Spec, list: seq<Listed>): map<string, Tool> {
    if list == [] then tools else
      var last := list[|list| - 1];
      Indexed(tools, spec, list[..|list| - 1])[last.name := Tool(spec.server, RequiresApproval(spec, last))]
  }

  /** Tool *l* of *list* has the name, and spec *i* is the server's and says whether it needs approval. */
  ghost predicate OfferAt(specs: seq<Spec>, list: seq<Listed>, i: int, l: Listed, server: string, name: string, approval: bool) {
    0 <= i < |specs| && specs[i].server == server && l in list && l.name == name && RequiresApproval(specs[i], l) == approval
  }

  /** A tool discovered on one of the servers, asked for and filtered by its spec. */
  ghost predicate Offers(specs: seq<Spec>, discovered: map<string, seq<Listed>>, server: string, name: string, approval: bool) {
    server in discovered && exists i, l :: OfferAt(specs, discovered[server], i, l, server, name, approval)
  }

  /** An execution the policy permits: of a discovered tool, which needs no approval or was approved in the input. */
  ghost predicate Permitted(specs: seq<Spec>, discovered: map<string, seq<Listed>>, input: seq<Input>, e: Execution) {
    match e.approval
    case None => Offers(specs, discovered, e.server, e.name, false)
    case Some(id) =>
      (Offers(specs, discovered, e.server, e.name, false) || Offers(specs, discovered, e.server, e.name, true)) &&
      Asked(id, e.name, e.args, e.server) in input && exists reason :: Answered(id, true, reason) in input
  }

  ghost predicate AllPermitted(specs: seq<Spec>, discovered: map<string, seq<Listed>>, input: seq<Input>, executed: seq<Execution>) {
    forall i :: 0 <= i < |executed| ==> Permitted(specs, discovered, input, executed[i])
  }

  ghost predicate ToolsOffered(specs: seq<Spec>, discovered: map<string, seq<Listed>>, tools: map<string, Tool>) {
    forall name :: name in tools ==> Offers(specs, discovered, tools[name].server, name, tools[name].approval)
  }

  /** And every filtered tool of the first *n* servers is among them. */
  ghost predicate ToolsTaken(specs: seq<Spec>, discovered: map<string, seq<Listed>>, tools: map<string, Tool>, n: nat)
    requires n <= |specs|
  {
    forall i, l :: 0 <= i < n && specs[i].server in discovered && l in discovered[specs[i].server] ==> l.name in tools
  }

  lemma {:induction false} IndexedTakes(tools: map<string, Tool>, spec: Spec, list: seq<Listed>)
    ensures tools.Keys <= Indexed(tools, spec, list).Keys && forall l :: l in list ==> l.name in Indexed(tools, spec, list)
  {
    if list != [] {
      IndexedTakes(tools, spec, list[..|list| - 1]);
      assert list == list[..|list| - 1] + [list[|list| - 1]];
    }
  }

  lemma {:induction false} IndexedOffers(specs: seq<Spec>, discovered: map<string, seq<Listed>>, tools: map<string, Tool>, i: nat, list: seq<Listed>)
    requires i < |specs| && specs[i].server in discovered && (forall l :: l in list ==> l in discovered[specs[i].server])
    requires ToolsOffered(specs, discovered, tools)
    ensures ToolsOffered(specs, discovered, Indexed(tools, specs[i], list))
  {
    if list != [] {
      IndexedOffers(specs, discovered, tools, i, list[..|list| - 1]);
      var last := list[|list| - 1];
      assert last in list;
      assert OfferAt(specs, discovered[specs[i].server], i, last, specs[i].server, last.name, RequiresApproval(specs[i], last));
    }
  }

  lemma OffersMore(specs: seq<Spec>, discovered: map<string, seq<Listed>>, more: map<string, seq<Listed>>, tools: map<string, Tool>)
    requires ToolsOffered(specs, discovered, tools) && forall server :: server in discovered ==> server in more && more[server] == discovered[server]
    ensures ToolsOffered(specs, more, tools)
  {
    forall name | name in tools
      ensures Offers(specs, more, tools[name].server, name, tools[name].approval)
    {
      assert Offers(specs, discovered, tools[name].server, name, tools[name].approval);
    }
  }

  // --- The loop's own items ---

  function Names(tools: seq<Listed>): seq<string> { seq(|tools|, i requires 0 <= i < |tools| => tools[i].name) }

  function ListingOf(id: string, spec: Spec, got: Result<seq<Listed>, string>): Item {
    match got
    case Ok(tools) => Listing(id, spec.server, Names(FilterTools(spec, tools)), None)
    case Err(error) => Listing(id, spec.server, [], Some(error))
  }

  /** A server's listing, asked for. */
  function Discovery(r: Run, id: string, spec: Spec, got: Result<seq<Listed>, string>): Run {
    var item := ListingOf(id, spec, got);
    Own(r, [Added(Listing(id, spec.server, [], None)), ListProgress(id), if got.Ok? then ListDone(id) else ListFailed(id), Done(item)], item)
  }

  /** A call's last events, once the server has answered. */
  function Ended(id: string, item: Item): seq<Body>
    requires item.McpCall?
  {
    [McpProgress(id), if item.status.Completed? then McpDone(id) else McpFailed(id), Done(item)]
  }

  function StatusOf(answer: Result<string, string>): CallStatus {
    match answer
    case Ok(output) => Completed(output)
    case Err(error) => FailedWith(error)
  }

  /** An answered approval: the call is made, or reported as failed. */
  function Resumed(r: Run, id: string, request: Input, made: Option<Result<string, string>>, refusal: string): Run
    requires request.Asked?
  {
    match made
    case Some(answer) =>
      var item := McpCall(id, request.name, request.args, request.server, Some(request.id), StatusOf(answer));
      Own(r, [Added(item.(status := InProgress)), McpDelta(id, request.args), McpArgs(id, request.args)] + Ended(id, item), item)
      .(executed := r.executed + [Execution(request.server, request.name, request.args, Some(request.id))])
    case None =>
      var item := McpCall(id, request.name, request.args, request.server, Some(request.id), FailedWith(refusal));
      Own(r, [Added(item), McpProgress(id), McpFailed(id), Done(item)], item)
  }

  /** What is said of a server's listing, and the item it comes to: its filtered tools' names, or why there are none. */
  ghost predicate ListingSaid(id: string, spec: Spec, got: Result<seq<Listed>, string>, bodies: seq<Body>, item: Item) {
    bodies == [Added(Listing(id, spec.server, [], None)), ListProgress(id), if got.Ok? then ListDone(id) else ListFailed(id), Done(item)] &&
    item.Listing? && item.id == id && item.server == spec.server &&
    match got
    case Ok(tools) =>
      item.error.None? && |item.tools| == |FilterTools(spec, tools)| &&
      forall j :: 0 <= j < |item.tools| ==> item.tools[j] == FilterTools(spec, tools)[j].name
    case Err(error) => item.error == Some(error) && item.tools == []
  }

  lemma ListingIs(r: Run, id: string, spec: Spec, got: Result<seq<Listed>, string>)
    requires Envelope(r) == true
    ensures var s := Discovery(r, id, spec, got);
            OnlyAdds(r, s) == true && s.offset == r.offset + 1 && ListingShown(s, r.offset, id, spec, got)
  {
    var item := ListingOf(id, spec, got);
    var bodies := [Added(Listing(id, spec.server, [], None)), ListProgress(id), if got.Ok? then ListDone(id) else ListFailed(id), Done(item)];
    OwnShows(r, bodies, item);
    assert ListingSaid(id, spec, got, bodies, item);
  }

  ghost predicate ListingShown(r: Run, slot: nat, id: string, spec: Spec, got: Result<seq<Listed>, string>) {
    slot < |r.acc| && ListingSaid(id, spec, got, OutAt(r.out, slot), r.acc[slot])
  }

  /** A call's item: of that name, server and arguments, done or failed as the server answered. */
  predicate Answers(item: Item, id: string, name: string, args: string, server: string, approval: Option<string>, answer: Result<string, string>) {
    item.McpCall? && item.id == id && item.name == name && item.args == args && item.server == server && item.approval == approval &&
    match answer
    case Ok(output) => item.status == Completed(output)
    case Err(error) => item.status == FailedWith(error)
  }

  /** The last events of a call made. */
  predicate CallEnds(id: string, answer: Result<string, string>, item: Item, bodies: seq<Body>) {
    bodies == [McpProgress(id), if answer.Ok? then McpDone(id) else McpFailed(id), Done(item)]
  }

  /** What is said of an answered request: the whole of the call, if it is made, else its failure. */
  ghost predicate ResumeSaid(id: string, request: Input, made: Option<Result<string, string>>, refusal: string, bodies: seq<Body>, item: Item)
    requires request.Asked?
  {
    match made
    case Some(answer) =>
      Answers(item, id, request.name, request.args, request.server, Some(request.id), answer) && |bodies| == 6 &&
      bodies[..3] == [Added(item.(status := InProgress)), McpDelta(id, request.args), McpArgs(id, request.args)] && CallEnds(id, answer, item, bodies[3..])
    case None =>
      Answers(item, id, request.name, request.args, request.server, Some(request.id), Err(refusal)) &&
      bodies == [Added(item), McpProgress(id), McpFailed(id), Done(item)]
  }

  ghost predicate ResumeShown(r: Run, slot: nat, id: string, request: Input, made: Option<Result<string, string>>, refusal: string)
    requires request.Asked?
  {
    slot < |r.acc| && ResumeSaid(id, request, made, refusal, OutAt(r.out, slot), r.acc[slot])
  }

  lemma ResumeIs(r: Run, id: string, request: Input, made: Option<Result<string, string>>, refusal: string)
    requires Envelope(r) == true && request.Asked?
    ensures var s := Resumed(r, id, request, made, refusal);
            OnlyAdds(r, s) == true && s.offset == r.offset + 1 && ResumeShown(s, r.offset, id, request, made, refusal)
  {
    var status := if made.Some? then StatusOf(made.value) else FailedWith(refusal);
    var item := McpCall(id, request.name, request.args, request.server, Some(request.id), status);
    var first := [Added(item.(status := InProgress)), McpDelta(id, request.args), McpArgs(id, request.args)];
    if made.Some? {
      OwnShows(r, first + Ended(id, item), item);
      assert (first + Ended(id, item))[..3] == first && (first + Ended(id, item))[3..] == Ended(id, item);
    } else {
      OwnShows(r, [Added(item), McpProgress(id), McpFailed(id), Done(item)], item);
    }
  }

  lemma DiscoveryKeeps(r: Run, id: string, spec: Spec, got: Result<seq<Listed>, string>)
    requires Envelope(r)
    ensures Envelope(Discovery(r, id, spec, got)) && Discovery(r, id, spec, got).executed == r.executed && Discovery(r, id, spec, got).usage == r.usage
  {
    var item := ListingOf(id, spec, got);
    var bodies := [Added(Listing(id, spec.server, [], None)), ListProgress(id), if got.Ok? then ListDone(id) else ListFailed(id), Done(item)];
    OneDone(bodies, item);
    OwnKeeps(r, bodies, item);
    SayAllSays(r.(offset := r.offset + 1), r.offset, bodies);
  }

  /** Events that end in their only done. */
  lemma OneDone(bodies: seq<Body>, item: Item)
    requires bodies != [] && bodies[|bodies| - 1] == Done(item) && forall i :: 0 <= i < |bodies| - 1 ==> !bodies[i].Done?
    ensures DoneItems(bodies) == [item]
  {
    NoneDone(bodies[..|bodies| - 1]);
  }

  lemma ResumedKeeps(r: Run, id: string, request: Input, made: Option<Result<string, string>>, refusal: string)
    requires Envelope(r) && request.Asked?
    ensures Envelope(Resumed(r, id, request, made, refusal)) == true
    ensures Resumed(r, id, request, made, refusal).usage == r.usage
    ensures Resumed(r, id, request, made, refusal).executed ==
              r.executed + if made.Some? then [Execution(request.server, request.name, request.args, Some(request.id))] else []
  {
    var status := if made.Some? then StatusOf(made.value) else FailedWith(refusal);
    var item := McpCall(id, request.name, request.args, request.server, Some(request.id), status);
    var bodies := if made.Some? then [Added(item.(status := InProgress)), McpDelta(id, request.args), McpArgs(id, request.args)] + Ended(id, item)
                  else [Added(item), McpProgress(id), McpFailed(id), Done(item)];
    OneDone(bodies, item);
    OwnKeeps(r, bodies, item);
    SayAllSays(r.(offset := r.offset + 1), r.offset, bodies);
  }

  /** A pending call settled: its approval asked for, or the call made. */
  function Settled(r: Run, mint: string -> string, b: Buf, answer: Result<string, string>): Run
    requires b.sort.Some? && !b.sort.value.Client?
  {
    match b.sort.value
    case Approval(server) =>
      var item := ApprovalRequest(b.name, b.args, server);
      Fill(r, b.slot, [Added(item), Done(item)], item)
    case Mcp(server) =>
      var item := McpCall(mint(b.id), b.name, b.args, server, None, StatusOf(answer));
      Fill(r, b.slot, Ended(mint(b.id), item), item).(executed := r.executed + [Execution(server, b.name, b.args, None)])
  }

  function Fill(r: Run, slot: nat, bodies: seq<Body>, item: Item): Run {
    SayAll(r, slot, bodies).(acc := if slot < |r.acc| then r.acc[slot := item] else r.acc)
  }

  lemma SettledKeeps(r: Run, mint: string -> string, b: Buf, answer: Result<string, string>, left: set<nat>)
    requires Numbered(r) && Agrees(r, left) && b.slot in left && b.slot < r.offset && b.sort.Some? && !b.sort.value.Client?
    ensures var s := Settled(r, mint, b, answer);
            (Numbered(s) && Agrees(s, left - {b.slot})) == true && s.offset == r.offset && s.usage == r.usage
    ensures Settled(r, mint, b, answer).executed ==
              r.executed + if b.sort.value.Mcp? then [Execution(b.sort.value.server, b.name, b.args, None)] else []
  {
    match b.sort.value
    case Approval(server) =>
      var item := ApprovalRequest(b.name, b.args, server);
      FillFills(r, left, b.slot, [Added(item), Done(item)], item);
    case Mcp(server) =>
      var item := McpCall(mint(b.id), b.name, b.args, server, None, StatusOf(answer));
      FillFills(r, left, b.slot, Ended(mint(b.id), item), item);
  }

  lemma FillFills(r: Run, left: set<nat>, slot: nat, bodies: seq<Body>, item: Item)
    requires Numbered(r) && Agrees(r, left) && slot in left && slot < r.offset
    requires bodies != [] && bodies[|bodies| - 1] == Done(item) && forall i :: 0 <= i < |bodies| - 1 ==> !bodies[i].Done?
    ensures var s := Fill(r, slot, bodies, item);
            (Numbered(s) && Agrees(s, left - {slot})) == true && s.offset == r.offset && s.usage == r.usage && s.executed == r.executed
  {
    OneDone(bodies, item);
    FillKeeps(r, left, slot, bodies, item);
    SayAllSays(r, slot, bodies);
  }

  // --- The response ---

  /** What the loop can't decide by itself: usable stored listings, what servers answer, the loader's turns, fresh ids. */
  datatype World = World(
    stored: map<string, seq<Listed>>,
    listing: string -> Result<seq<Listed>, string>,
    turns: nat -> Inner,
    calls: nat -> Result<string, string>,
    ids: nat -> string,
    mint: (nat, string) -> string)

  /** Each of the first *n* servers' tools are stored or can be listed. */
  ghost predicate AllList(specs: seq<Spec>, w: World, n: nat)
    requires n <= |specs|
  {
    forall i :: 0 <= i < n ==> specs[i].server in w.stored || w.listing(specs[i].server).Ok?
  }

  /** One of the first *n* specs is for *server*. */
  ghost predicate SpecFor(specs: seq<Spec>, n: nat, server: string)
    requires n <= |specs|
  {
    exists i :: 0 <= i < n && specs[i].server == server
  }

  /** The discovered servers are those of the first *n* specs. */
  ghost predicate FromSpecs(specs: seq<Spec>, discovered: map<string, seq<Listed>>, n: nat)
    requires n <= |specs|
  {
    forall server {:trigger SpecFor(specs, n, server)} :: server in discovered <==> SpecFor(specs, n, server)
  }

  /** What discovery has made of the first *n* servers. */
  ghost predicate Discovered(specs: seq<Spec>, w: World, discovered: map<string, seq<Listed>>, tools: map<string, Tool>, n: nat)
    requires n <= |specs|
  {
    ToolsOffered(specs, discovered, tools) && ToolsTaken(specs, discovered, tools, n) && FromSpecs(specs, discovered, n) &&
    forall i :: 0 <= i < n && specs[i].server in discovered ==> discovered[specs[i].server] == FilterTools(specs[i], ListedOf(w, specs[i].server))
  }

  /** A server's tools as stored or listed now. */
  function ListedOf(w: World, server: string): seq<Listed> {
    if server in w.stored then w.stored[server] else match w.listing(server) case Ok(tools) => tools case Err(_) => []
  }

  ghost predicate UniqueServers(specs: seq<Spec>) { forall i, j :: 0 <= i < j < |specs| ==> specs[i].server != specs[j].server }

  /** How many of the first *n* servers have to be asked. */
  function Unstored(specs: seq<Spec>, w: World, n: nat): nat
    requires n <= |specs|
  {
    if n == 0 then 0 else Unstored(specs, w, n - 1) + if specs[n - 1].server in w.stored then 0 else 1
  }

  /** Server *i*'s listing is in its slot, if it had to be asked. */
  ghost predicate ListingAt(specs: seq<Spec>, w: World, base: nat, r: Run, i: int)
    requires 0 <= i < |specs|
  {
    specs[i].server !in w.stored ==> ListingShown(r, base + Unstored(specs, w, i), w.ids(i), specs[i], w.listing(specs[i].server))
  }

  /** Each of the first *n* servers that has to be asked has a slot, in their order, that shows its listing, and no other has. */
  ghost predicate ListingsShown(specs: seq<Spec>, w: World, start: Run, r: Run, n: nat)
    requires n <= |specs|
  {
    r.offset == start.offset + Unstored(specs, w, n) && OnlyAdds(start, r) &&
    forall i {:trigger ListingAt(specs, w, start.offset, r, i)} :: 0 <= i < n ==> ListingAt(specs, w, start.offset, r, i)
  }

  lemma {:induction false} UnstoredRises(specs: seq<Spec>, w: World, i: nat, n: nat)
    requires i <= n <= |specs|
    ensures Unstored(specs, w, i) <= Unstored(specs, w, n)
    ensures i < n && specs[i].server !in w.stored ==> Unstored(specs, w, i) < Unstored(specs, w, n)
  {
    if i < n {
      UnstoredRises(specs, w, i, n - 1);
    }
  }

  lemma ListingStays(specs: seq<Spec>, w: World, base: nat, r: Run, s: Run, i: nat)
    requires i < |specs| && OnlyAdds(r, s) && ListingAt(specs, w, base, r, i)
    requires specs[i].server !in w.stored ==> base + Unstored(specs, w, i) < r.offset
    ensures ListingAt(specs, w, base, s, i) == true
  {
  }

  lemma ListingsMore(specs: seq<Spec>, w: World, start: Run, r: Run, n: nat)
    requires n < |specs| && Envelope(r) == true && ListingsShown(specs, w, start, r, n) && specs[n].server !in w.stored
    ensures ListingsShown(specs, w, start, Discovery(r, w.ids(n), specs[n], w.listing(specs[n].server)), n + 1) == true
  {
    ListingIs(r, w.ids(n), specs[n], w.listing(specs[n].server));
    ListingsOn(specs, w, start, r, Discovery(r, w.ids(n), specs[n], w.listing(specs[n].server)), n);
  }

  lemma ListingsOn(specs: seq<Spec>, w: World, start: Run, r: Run, s: Run, n: nat)
    requires n < |specs| && ListingsShown(specs, w, start, r, n) && specs[n].server !in w.stored && OnlyAdds(r, s) == true && s.offset == r.offset + 1
    requires ListingShown(s, r.offset, w.ids(n), specs[n], w.listing(specs[n].server)) == true
    ensures ListingsShown(specs, w, start, s, n + 1) == true
  {
    AddsOn(start, r, s);
    assert ListingAt(specs, w, start.offset, s, n);
    forall i | 0 <= i < n
      ensures ListingAt(specs, w, start.offset, s, i)
    {
      UnstoredRises(specs, w, i, n);
      assert ListingAt(specs, w, start.offset, r, i);
      ListingStays(specs, w, start.offset, r, s, i);
    }
  }

  lemma ListingsSame(specs: seq<Spec>, w: World, start: Run, r: Run, n: nat)
    requires n < |specs| && ListingsShown(specs, w, start, r, n) && specs[n].server in w.stored
    ensures ListingsShown(specs, w, start, r, n + 1) == true
  {
    assert ListingAt(specs, w, start.offset, r, n);
  }

  /** Asks each server whose tools aren't stored, in turn. It fails at the first that can't list them: of those before and of
      that one the listings are shown. */
  method Discover(specs: seq<Spec>, w: World, start: Run) returns (r: Run, ok: bool, discovered: map<string, seq<Listed>>, tools: map<string, Tool>)
    requires UniqueServers(specs) && Envelope(start)
    ensures Envelope(r) && r.executed == start.executed && r.usage == start.usage
    ensures ok <==> AllList(specs, w, |specs|)
    ensures ok ==> Discovered(specs, w, discovered, tools, |specs|) && ListingsShown(specs, w, start, r, |specs|)
    ensures !ok ==> exists n :: 0 <= n < |specs| && specs[n].server !in w.stored && w.listing(specs[n].server).Err? && AllList(specs, w, n) &&
                                ListingsShown(specs, w, start, r, n + 1)
  {
    r, discovered, tools := start, map[], map[];
    for n := 0 to |specs|
      invariant Envelope(r) && r.executed == start.executed && r.usage == start.usage && Discovered(specs, w, discovered, tools, n)
      invariant AllList(specs, w, n) && ListingsShown(specs, w, start, r, n) == true
    {
      var spec := specs[n];
      if spec.server !in w.stored {
        DiscoveryKeeps(r, w.ids(n), spec, w.listing(spec.server));
        ListingsMore(specs, w, start, r, n);
        r := Discovery(r, w.ids(n), spec, w.listing(spec.server));
        if w.listing(spec.server).Err? {
          return r, false, discovered, tools;
        }
      } else {
        ListingsSame(specs, w, start, r, n);
      }
      var list := FilterTools(spec, ListedOf(w, spec.server));
      DiscoveredMore(specs, w, discovered, tools, n);
      discovered, tools := discovered[spec.server := list], Indexed(tools, spec, list);
    }
    ok := true;
  }

  lemma FromMore(specs: seq<Spec>, discovered: map<string, seq<Listed>>, list: seq<Listed>, n: nat)
    requires n < |specs| && FromSpecs(specs, discovered, n)
    ensures FromSpecs(specs, discovered[specs[n].server := list], n + 1)
  {
    var more := discovered[specs[n].server := list];
    forall server
      ensures server in more <==> SpecFor(specs, n + 1, server)
    {
      assert server in discovered <==> SpecFor(specs, n, server);
      if SpecFor(specs, n, server) {
        var i :| 0 <= i < n && specs[i].server == server;
        assert specs[i].server == server && 0 <= i < n + 1;
      }
    }
  }

  lemma DiscoveredMore(specs: seq<Spec>, w: World, discovered: map<string, seq<Listed>>, tools: map<string, Tool>, n: nat)
    requires n < |specs| && UniqueServers(specs) && Discovered(specs, w, discovered, tools, n)
    ensures var list := FilterTools(specs[n], ListedOf(w, specs[n].server));
            Discovered(specs, w, discovered[specs[n].server := list], Indexed(tools, specs[n], list), n + 1)
  {
    var list := FilterTools(specs[n], ListedOf(w, specs[n].server));
    var more := discovered[specs[n].server := list];
    assert !SpecFor(specs, n, specs[n].server);
    FromMore(specs, discovered, list, n);
    OffersMore(specs, discovered, more, tools);
    IndexedOffers(specs, more, tools, n, list);
    IndexedTakes(tools, specs[n], list);
    TakenMore(specs, discovered, tools, Indexed(tools, specs[n], list), n, list);
  }

  lemma TakenMore(specs: seq<Spec>, discovered: map<string, seq<Listed>>, tools: map<string, Tool>, more: map<string, Tool>, n: nat, list: seq<Listed>)
    requires n < |specs| && UniqueServers(specs) && ToolsTaken(specs, discovered, tools, n) && tools.Keys <= more.Keys
    requires forall l :: l in list ==> l.name in more
    ensures ToolsTaken(specs, discovered[specs[n].server := list], more, n + 1) == true
  {
  }

  /** A server's filtered tools have one of that name. */
  predicate Available(discovered: map<string, seq<Listed>>, server: string, name: string) {
    server in discovered && exists l :: l in discovered[server] && l.name == name
  }

  /** An approval is answered with a yes, and its tool is there. */
  predicate Approves(discovered: map<string, seq<Listed>>, input: seq<Input>, i: int)
    requires 0 <= i < |input|
  {
    input[i].Answered? && input[i].approve && RequestOf(input, input[i].request).Some? &&
    Available(discovered, RequestOf(input, input[i].request).value.server, RequestOf(input, input[i].request).value.name)
  }

  /** Why an answered approval's call is not made. */
  function Refusal(discovered: map<string, seq<Listed>>, request: Input, reason: string): string
    requires request.Asked?
  {
    if request.server !in discovered then "not configured"
    else if !Available(discovered, request.server, request.name) then "not available"
    else "rejected" + reason
  }

  /** How many of the first *n* inputs are answers. */
  function AnswersTo(input: seq<Input>, n: nat): nat
    requires n <= |input|
  {
    if n == 0 then 0 else AnswersTo(input, n - 1) + if input[n - 1].Answered? then 1 else 0
  }

  /** The calls the first *n* inputs approve, in order. */
  function ApprovedCalls(discovered: map<string, seq<Listed>>, input: seq<Input>, n: nat): seq<Execution>
    requires n <= |input|
  {
    if n == 0 then [] else
      ApprovedCalls(discovered, input, n - 1) +
      if Approves(discovered, input, n - 1) then
        var request := RequestOf(input, input[n - 1].request).value;
        [Execution(request.server, request.name, request.args, Some(request.id))]
      else []
  }

  /** Answer *i* is in its slot: the call was made exactly if it was approved and its tool is there. */
  ghost predicate AnswerAt(discovered: map<string, seq<Listed>>, input: seq<Input>, w: World, specs: nat, base: nat, made: nat, r: Run, i: int)
    requires 0 <= i < |input|
  {
    input[i].Answered? && RequestOf(input, input[i].request).Some? ==>
      var request := RequestOf(input, input[i].request).value;
      var answer := if Approves(discovered, input, i) then Some(w.calls(made + |ApprovedCalls(discovered, input, i)|)) else None;
      ResumeShown(r, base + AnswersTo(input, i), w.ids(specs + i), request, answer, Refusal(discovered, request, input[i].reason))
  }

  /** Each answer among the first *n* inputs has a slot, in their order, and no other input has; and the calls made are exactly
      those approved. */
  ghost predicate AnswersShown(discovered: map<string, seq<Listed>>, input: seq<Input>, w: World, specs: nat, start: Run, r: Run, n: nat)
    requires n <= |input|
  {
    r.offset == start.offset + AnswersTo(input, n) && OnlyAdds(start, r) && r.executed == start.executed + ApprovedCalls(discovered, input, n) &&
    forall i {:trigger AnswerAt(discovered, input, w, specs, start.offset, |start.executed|, r, i)} :: 0 <= i < n ==>
      AnswerAt(discovered, input, w, specs, start.offset, |start.executed|, r, i)
  }

  lemma {:induction false} AnswersRise(input: seq<Input>, i: nat, n: nat)
    requires i <= n <= |input|
    ensures AnswersTo(input, i) <= AnswersTo(input, n)
    ensures i < n && input[i].Answered? ==> AnswersTo(input, i) < AnswersTo(input, n)
  {
    if i < n {
      AnswersRise(input, i, n - 1);
    }
  }

  lemma AnswerStays(discovered: map<string, seq<Listed>>, input: seq<Input>, w: World, specs: nat, base: nat, made: nat, r: Run, s: Run, i: nat)
    requires i < |input| && OnlyAdds(r, s) && AnswerAt(discovered, input, w, specs, base, made, r, i)
    requires input[i].Answered? ==> base + AnswersTo(input, i) < r.offset
    ensures AnswerAt(discovered, input, w, specs, base, made, s, i) == true
  {
  }

  /** What answer *n* makes of *r*: its slot, and the call if it is made. */
  ghost predicate AnswerMade(discovered: map<string, seq<Listed>>, input: seq<Input>, w: World, specs: nat, r: Run, s: Run, n: nat)
    requires n < |input| && input[n].Answered? && RequestOf(input, input[n].request).Some?
  {
    var request := RequestOf(input, input[n].request).value;
    var made := if Approves(discovered, input, n) then Some(w.calls(|r.executed|)) else None;
    OnlyAdds(r, s) && s.offset == r.offset + 1 &&
    ResumeShown(s, r.offset, w.ids(specs + n), request, made, Refusal(discovered, request, input[n].reason)) &&
    s.executed == r.executed + if made.Some? then [Execution(request.server, request.name, request.args, Some(request.id))] else []
  }

  lemma AnswerNew(discovered: map<string, seq<Listed>>, input: seq<Input>, w: World, specs: nat, start: Run, r: Run, s: Run, n: nat)
    requires n < |input| && input[n].Answered? && RequestOf(input, input[n].request).Some?
    requires r.offset == start.offset + AnswersTo(input, n) && r.executed == start.executed + ApprovedCalls(discovered, input, n)
    requires AnswerMade(discovered, input, w, specs, r, s, n)
    ensures AnswerAt(discovered, input, w, specs, start.offset, |start.executed|, s, n) == true
    ensures s.executed == start.executed + ApprovedCalls(discovered, input, n + 1)
  {
  }

  lemma AnswersMore(discovered: map<string, seq<Listed>>, input: seq<Input>, w: World, specs: nat, start: Run, r: Run, s: Run, n: nat)
    requires n < |input| && AnswersShown(discovered, input, w, specs, start, r, n) && input[n].Answered? && RequestOf(input, input[n].request).Some?
    requires AnswerMade(discovered, input, w, specs, r, s, n) == true
    ensures AnswersShown(discovered, input, w, specs, start, s, n + 1) == true
  {
    AnswerAdds(discovered, input, w, specs, r, s, n);
    AddsOn(start, r, s);
    AnswerNew(discovered, input, w, specs, start, r, s, n);
    forall i | 0 <= i < n
      ensures AnswerAt(discovered, input, w, specs, start.offset, |start.executed|, s, i)
    {
      AnswersRise(input, i, n);
      assert AnswerAt(discovered, input, w, specs, start.offset, |start.executed|, r, i);
      AnswerStays(discovered, input, w, specs, start.offset, |start.executed|, r, s, i);
    }
  }

  lemma AnswerAdds(discovered: map<string, seq<Listed>>, input: seq<Input>, w: World, specs: nat, r: Run, s: Run, n: nat)
    requires n < |input| && input[n].Answered? && RequestOf(input, input[n].request).Some? && AnswerMade(discovered, input, w, specs, r, s, n)
    ensures OnlyAdds(r, s) == true && s.offset == r.offset + 1
  {
  }

  lemma AnswersSame(discovered: map<string, seq<Listed>>, input: seq<Input>, w: World, specs: nat, start: Run, r: Run, n: nat)
    requires n < |input| && AnswersShown(discovered, input, w, specs, start, r, n) && !input[n].Answered?
    ensures AnswersShown(discovered, input, w, specs, start, r, n + 1) == true
  {
    assert AnswerAt(discovered, input, w, specs, start.offset, |start.executed|, r, n);
  }

  lemma AnswerIs(discovered: map<string, seq<Listed>>, input: seq<Input>, w: World, specs: nat, r: Run, n: nat)
    requires n < |input| && input[n].Answered? && RequestOf(input, input[n].request).Some? && Envelope(r) == true
    ensures var s := AnswerOf(discovered, input, w, specs, r, n);
            AnswerMade(discovered, input, w, specs, r, s, n) == true && Envelope(s) == true && s.usage == r.usage
  {
    var request := RequestOf(input, input[n].request).value;
    var made := if Approves(discovered, input, n) then Some(w.calls(|r.executed|)) else None;
    ResumedKeeps(r, w.ids(specs + n), request, made, Refusal(discovered, request, input[n].reason));
    ResumeIs(r, w.ids(specs + n), request, made, Refusal(discovered, request, input[n].reason));
  }

  function AnswerOf(discovered: map<string, seq<Listed>>, input: seq<Input>, w: World, specs: nat, r: Run, n: nat): Run
    requires n < |input| && input[n].Answered? && RequestOf(input, input[n].request).Some?
  {
    var request := RequestOf(input, input[n].request).value;
    var made := if Approves(discovered, input, n) then Some(w.calls(|r.executed|)) else None;
    Resumed(r, w.ids(specs + n), request, made, Refusal(discovered, request, input[n].reason))
  }

  /** Where the answers stand after the first *n* inputs. */
  ghost predicate Resuming(specs: seq<Spec>, discovered: map<string, seq<Listed>>, input: seq<Input>, w: World, start: Run, r: Run, n: nat)
    requires n <= |input|
  {
    Envelope(r) && AllPermitted(specs, discovered, input, r.executed) && r.usage == start.usage && AnswersShown(discovered, input, w, |specs|, start, r, n)
  }

  lemma ResumeStep(specs: seq<Spec>, discovered: map<string, seq<Listed>>, input: seq<Input>, w: World, start: Run, r: Run, n: nat)
    requires n < |input| && FromSpecs(specs, discovered, |specs|) == true && Resuming(specs, discovered, input, w, start, r, n)
    requires input[n].Answered? && RequestOf(input, input[n].request).Some?
    ensures Resuming(specs, discovered, input, w, start, AnswerOf(discovered, input, w, |specs|, r, n), n + 1) == true
  {
    AnswerIs(discovered, input, w, |specs|, r, n);
    ResumePermitted(specs, discovered, input, r, w, n);
    AnswersMore(discovered, input, w, |specs|, start, r, AnswerOf(discovered, input, w, |specs|, r, n), n);
  }

  /** The answered approvals, in the input's order. */
  method Resume(specs: seq<Spec>, discovered: map<string, seq<Listed>>, input: seq<Input>, w: World, start: Run) returns (r: Run, ok: bool)
    requires Envelope(start) && AllPermitted(specs, discovered, input, start.executed)
    requires FromSpecs(specs, discovered, |specs|)
    ensures Envelope(r) && AllPermitted(specs, discovered, input, r.executed) && r.usage == start.usage
    ensures ok <==> forall i :: 0 <= i < |input| && input[i].Answered? ==> RequestOf(input, input[i].request).Some?
    ensures ok ==> AnswersShown(discovered, input, w, |specs|, start, r, |input|) == true
  {
    r := start;
    for n := 0 to |input|
      invariant Resuming(specs, discovered, input, w, start, r, n) == true
      invariant forall i :: 0 <= i < n && input[i].Answered? ==> RequestOf(input, input[i].request).Some?
    {
      if input[n].Answered? {
        var request := RequestOf(input, input[n].request);
        if request.None? {
          return r, false;
        }
        ResumeStep(specs, discovered, input, w, start, r, n);
        var made := if input[n].approve && Available(discovered, request.value.server, request.value.name) then Some(w.calls(|r.executed|)) else None;
        r := Resumed(r, w.ids(|specs| + n), request.value, made, Refusal(discovered, request.value, input[n].reason));
      } else {
        AnswersSame(discovered, input, w, |specs|, start, r, n);
      }
    }
    ok := true;
  }

  lemma ResumePermitted(specs: seq<Spec>, discovered: map<string, seq<Listed>>, input: seq<Input>, r: Run, w: World, n: nat)
    requires n < |input| && input[n].Answered? && RequestOf(input, input[n].request).Some? && AllPermitted(specs, discovered, input, r.executed)
    requires FromSpecs(specs, discovered, |specs|)
    requires AnswerMade(discovered, input, w, |specs|, r, AnswerOf(discovered, input, w, |specs|, r, n), n)
    ensures AllPermitted(specs, discovered, input, AnswerOf(discovered, input, w, |specs|, r, n).executed) == true
  {
    if Approves(discovered, input, n) {
      ApprovedPermitted(specs, discovered, input, n, RequestOf(input, input[n].request).value);
    }
  }

  lemma ApprovedPermitted(specs: seq<Spec>, discovered: map<string, seq<Listed>>, input: seq<Input>, n: nat, request: Input)
    requires n < |input| && input[n].Answered? && input[n].approve && RequestOf(input, input[n].request) == Some(request)
    requires FromSpecs(specs, discovered, |specs|) && Available(discovered, request.server, request.name)
    ensures Permitted(specs, discovered, input, Execution(request.server, request.name, request.args, Some(request.id)))
  {
    var l :| l in discovered[request.server] && l.name == request.name;
    assert SpecFor(specs, |specs|, request.server);
    var i :| 0 <= i < |specs| && specs[i].server == request.server;
    assert OfferAt(specs, discovered[request.server], i, l, request.server, request.name, RequiresApproval(specs[i], l));
    assert Answered(request.id, true, input[n].reason) in input;
  }

  lemma SettlePermitted(specs: seq<Spec>, discovered: map<string, seq<Listed>>, tools: map<string, Tool>, input: seq<Input>, r: Run, mint: string -> string,
                        b: Buf, answer: Result<string, string>, base: nat, items: seq<Item>)
    requires Stands(tools, base, items, b) && ToolsOffered(specs, discovered, tools) && AllPermitted(specs, discovered, input, r.executed)
    requires Settled(r, mint, b, answer).executed == r.executed + if b.sort.value.Mcp? then [Execution(b.sort.value.server, b.name, b.args, None)] else []
    ensures AllPermitted(specs, discovered, input, Settled(r, mint, b, answer).executed)
  {
    assert Offers(specs, discovered, tools[b.name].server, b.name, tools[b.name].approval);
  }

  /** What is said of a pending call, and the item it comes to: its request for approval, or the call made. */
  ghost predicate CallSaid(mint: string -> string, b: Buf, answer: Result<string, string>, bodies: seq<Body>, item: Item) {
    b.sort.Some? &&
    match b.sort.value
    case Client => false
    case Approval(server) => item == ApprovalRequest(b.name, b.args, server) && bodies == [Added(item), Done(item)]
    case Mcp(server) => Answers(item, mint(b.id), b.name, b.args, server, None, answer) && CallEnds(mint(b.id), answer, item, bodies)
  }

  /** A pending call's slot, which showed *before*, now shows its end too. */
  ghost predicate CallShown(mint: string -> string, b: Buf, answer: Result<string, string>, before: seq<Body>, r: Run) {
    b.slot < |r.acc| && before <= OutAt(r.out, b.slot) && CallSaid(mint, b, answer, OutAt(r.out, b.slot)[|before|..], r.acc[b.slot])
  }

  /** From *r* to *s* nothing was said of any slot but *slot*, nor another item changed. */
  ghost predicate OnlySlot(r: Run, s: Run, slot: nat) {
    |s.acc| == |r.acc| && (forall i: nat :: i != slot ==> OutAt(s.out, i) == OutAt(r.out, i)) && forall i :: 0 <= i < |r.acc| && i != slot ==> s.acc[i] == r.acc[i]
  }

  lemma FillShows(r: Run, slot: nat, bodies: seq<Body>, item: Item)
    requires slot < |r.acc|
    ensures var s := Fill(r, slot, bodies, item);
            OnlySlot(r, s, slot) && s.acc[slot] == item && OutAt(s.out, slot) == OutAt(r.out, slot) + bodies
  {
    SayAllSays(r, slot, bodies);
  }

  lemma SettledIs(r: Run, mint: string -> string, b: Buf, answer: Result<string, string>)
    requires b.slot < |r.acc| && b.sort.Some? && !b.sort.value.Client?
    ensures var s := Settled(r, mint, b, answer);
            OnlySlot(r, s, b.slot) == true && CallShown(mint, b, answer, OutAt(r.out, b.slot), s) == true
  {
    match b.sort.value
    case Approval(server) =>
      var item := ApprovalRequest(b.name, b.args, server);
      FillShows(r, b.slot, [Added(item), Done(item)], item);
    case Mcp(server) =>
      var item := McpCall(mint(b.id), b.name, b.args, server, None, StatusOf(answer));
      FillShows(r, b.slot, Ended(mint(b.id), item), item);
  }

  /** The calls made of the first *n* pending ones, in order. */
  function MadeOf(pending: seq<Buf>, n: nat): seq<Execution>
    requires n <= |pending|
  {
    if n == 0 then [] else
      var b := pending[n - 1];
      MadeOf(pending, n - 1) + if b.sort.Some? && b.sort.value.Mcp? then [Execution(b.sort.value.server, b.name, b.args, None)] else []
  }

  /** Pending call *i* is settled. */
  ghost predicate SettledAt(mint: string -> string, w: World, start: Run, pending: seq<Buf>, r: Run, i: int)
    requires 0 <= i < |pending|
  {
    CallShown(mint, pending[i], w.calls(|start.executed| + |MadeOf(pending, i)|), OutAt(start.out, pending[i].slot), r)
  }

  /** The first *n* pending calls are settled: each that needs no approval was made, in order, and nothing else was said or done. */
  ghost predicate AllSettled(mint: string -> string, w: World, start: Run, pending: seq<Buf>, r: Run, n: nat)
    requires n <= |pending|
  {
    r.executed == start.executed + MadeOf(pending, n) && OnlySlotsOf(start, r, pending[..n]) && EachSettled(mint, w, start, pending, r, n)
  }

  ghost predicate EachSettled(mint: string -> string, w: World, start: Run, pending: seq<Buf>, r: Run, n: nat)
    requires n <= |pending|
  {
    forall i {:trigger SettledAt(mint, w, start, pending, r, i)} :: 0 <= i < n ==> SettledAt(mint, w, start, pending, r, i)
  }

  /** From *r* to *s* nothing was said of any slot but the pending calls', nor another item changed. */
  ghost predicate OnlySlotsOf(r: Run, s: Run, pending: seq<Buf>) {
    |s.acc| == |r.acc| && (forall slot: nat :: !InSlot(pending, slot) ==> OutAt(s.out, slot) == OutAt(r.out, slot)) &&
    forall slot :: 0 <= slot < |r.acc| && !InSlot(pending, slot) ==> s.acc[slot] == r.acc[slot]
  }

  lemma SettledStays(mint: string -> string, w: World, start: Run, pending: seq<Buf>, r: Run, s: Run, n: nat, i: nat)
    requires i < n < |pending| && DistinctSlots(pending) && SettledAt(mint, w, start, pending, r, i) && OnlySlot(r, s, pending[n].slot)
    ensures SettledAt(mint, w, start, pending, s, i) == true
  {
  }

  lemma SlotsSoFar(pending: seq<Buf>, n: nat)
    requires n < |pending|
    ensures forall slot :: InSlot(pending[..n + 1], slot) <==> InSlot(pending[..n], slot) || slot == pending[n].slot
    ensures DistinctSlots(pending) ==> !InSlot(pending[..n], pending[n].slot)
  {
    InSlotMore(pending[..n], pending[n]);
    assert pending[..n + 1] == pending[..n] + [pending[n]];
  }

  lemma SettledNow(mint: string -> string, w: World, start: Run, pending: seq<Buf>, r: Run, s: Run, n: nat)
    requires n < |pending| && DistinctSlots(pending) && AllSettled(mint, w, start, pending, r, n)
    requires CallShown(mint, pending[n], w.calls(|r.executed|), OutAt(r.out, pending[n].slot), s)
    ensures SettledAt(mint, w, start, pending, s, n) == true
  {
    SlotsSoFar(pending, n);
  }

  lemma SettledMore(mint: string -> string, w: World, start: Run, pending: seq<Buf>, r: Run, n: nat)
    requires n < |pending| && DistinctSlots(pending) && AllSettled(mint, w, start, pending, r, n) == true
    requires pending[n].slot < |r.acc| && pending[n].sort.Some? && !pending[n].sort.value.Client?
    ensures AllSettled(mint, w, start, pending, Settled(r, mint, pending[n], w.calls(|r.executed|)), n + 1) == true
  {
    var b, answer := pending[n], w.calls(|r.executed|);
    SettledIs(r, mint, b, answer);
    SettledExecutes(r, mint, b, answer);
    SettledNow(mint, w, start, pending, r, Settled(r, mint, b, answer), n);
    SettledAll(mint, w, start, pending, r, Settled(r, mint, b, answer), n);
  }

  lemma SettledAll(mint: string -> string, w: World, start: Run, pending: seq<Buf>, r: Run, s: Run, n: nat)
    requires n < |pending| && DistinctSlots(pending) == true && AllSettled(mint, w, start, pending, r, n)
    requires OnlySlot(r, s, pending[n].slot) == true && SettledAt(mint, w, start, pending, s, n) == true
    requires s.executed == r.executed + MadeOf(pending, n + 1)[|MadeOf(pending, n)|..]
    ensures AllSettled(mint, w, start, pending, s, n + 1) == true
  {
    OnlyMore(start, r, s, pending, n);
    EachMore(mint, w, start, pending, r, s, n);
  }

  lemma EachMore(mint: string -> string, w: World, start: Run, pending: seq<Buf>, r: Run, s: Run, n: nat)
    requires n < |pending| && DistinctSlots(pending) == true && EachSettled(mint, w, start, pending, r, n)
    requires OnlySlot(r, s, pending[n].slot) == true && SettledAt(mint, w, start, pending, s, n) == true
    ensures EachSettled(mint, w, start, pending, s, n + 1) == true
  {
    forall i | 0 <= i < n
      ensures SettledAt(mint, w, start, pending, s, i)
    {
      assert SettledAt(mint, w, start, pending, r, i);
      SettledStays(mint, w, start, pending, r, s, n, i);
    }
  }

  lemma OnlyMore(start: Run, r: Run, s: Run, pending: seq<Buf>, n: nat)
    requires n < |pending| && OnlySlotsOf(start, r, pending[..n]) && OnlySlot(r, s, pending[n].slot)
    ensures OnlySlotsOf(start, s, pending[..n + 1]) == true
  {
    SlotsSoFar(pending, n);
  }

  lemma SettledExecutes(r: Run, mint: string -> string, b: Buf, answer: Result<string, string>)
    requires b.sort.Some? && !b.sort.value.Client?
    ensures Settled(r, mint, b, answer).executed == r.executed + if b.sort.value.Mcp? then [Execution(b.sort.value.server, b.name, b.args, None)] else []
  {
    match b.sort.value
    case Approval(server) => SayAllSays(r, b.slot, [Added(ApprovalRequest(b.name, b.args, server)), Done(ApprovalRequest(b.name, b.args, server))]);
    case Mcp(server) => SayAllSays(r, b.slot, Ended(mint(b.id), McpCall(mint(b.id), b.name, b.args, server, None, StatusOf(answer))));
  }

  predicate AsksApproval(b: Buf) { b.sort.Some? && b.sort.value.Approval? }

  /** Where settling stands after the first *n* pending calls. */
  ghost predicate Settling(specs: seq<Spec>, discovered: map<string, seq<Listed>>, input: seq<Input>, w: World, mint: string -> string, start: Run,
                           pending: seq<Buf>, r: Run, n: nat)
    requires n <= |pending|
  {
    Numbered(r) && Agrees(r, SlotsOf(pending[n..])) && r.offset == start.offset && r.usage == start.usage &&
    AllPermitted(specs, discovered, input, r.executed) && start.executed <= r.executed && AllSettled(mint, w, start, pending, r, n)
  }

  lemma SettleStep(specs: seq<Spec>, discovered: map<string, seq<Listed>>, tools: map<string, Tool>, input: seq<Input>, w: World, mint: string -> string,
                   start: Run, base: nat, items: seq<Item>, pending: seq<Buf>, r: Run, n: nat)
    requires n < |pending| && DistinctSlots(pending) && Stands(tools, base, items, pending[n]) && start.offset == base + |items|
    requires ToolsOffered(specs, discovered, tools) == true && Settling(specs, discovered, input, w, mint, start, pending, r, n)
    ensures Settling(specs, discovered, input, w, mint, start, pending, Settled(r, mint, pending[n], w.calls(|r.executed|)), n + 1) == true
  {
    SlotsHead(pending, n);
    SettledKeeps(r, mint, pending[n], w.calls(|r.executed|), SlotsOf(pending[n..]));
    SettlePermitted(specs, discovered, tools, input, r, mint, pending[n], w.calls(|r.executed|), base, items);
    SettledMore(mint, w, start, pending, r, n);
  }

  /** A turn's pending calls, in the order they were done in. */
  method Settle(specs: seq<Spec>, discovered: map<string, seq<Listed>>, tools: map<string, Tool>, input: seq<Input>, w: World, mint: string -> string,
                start: Run, ghost base: nat, ghost items: seq<Item>, pending: seq<Buf>) returns (r: Run, asked: bool)
    requires Numbered(start) && Agrees(start, SlotsOf(pending)) && DistinctSlots(pending) && start.offset == base + |items|
    requires forall i :: 0 <= i < |pending| ==> Stands(tools, base, items, pending[i])
    requires ToolsOffered(specs, discovered, tools) && AllPermitted(specs, discovered, input, start.executed)
    ensures Envelope(r) && AllPermitted(specs, discovered, input, r.executed) && r.usage == start.usage
    ensures start.executed <= r.executed
    ensures AllSettled(mint, w, start, pending, r, |pending|) == true
    ensures asked <==> exists i :: 0 <= i < |pending| && AsksApproval(pending[i])
  {
    r, asked := start, false;
    assert pending[0..] == pending;
    for n := 0 to |pending|
      invariant Settling(specs, discovered, input, w, mint, start, pending, r, n) == true
      invariant asked <==> exists i :: 0 <= i < n && AsksApproval(pending[i])
    {
      SettleStep(specs, discovered, tools, input, w, mint, start, base, items, pending, r, n);
      r := Settled(r, mint, pending[n], w.calls(|r.executed|));
      asked := asked || AsksApproval(pending[n]);
    }
    assert SlotsOf(pending[|pending|..]) == {};
  }

  lemma SlotsHead(pending: seq<Buf>, n: nat)
    requires n < |pending| && DistinctSlots(pending)
    ensures pending[n].slot in SlotsOf(pending[n..]) && SlotsOf(pending[n + 1..]) == SlotsOf(pending[n..]) - {pending[n].slot}
  {
    var here, rest := pending[n..], pending[n + 1..];
    assert here[0] == pending[n] && forall i :: 0 <= i < |rest| ==> rest[i] == here[i + 1] && rest[i] == pending[n + 1 + i];
    forall slot | slot in SlotsOf(here) && slot != pending[n].slot
      ensures slot in SlotsOf(rest)
    {
      var i :| 0 <= i < |here| && here[i].slot == slot;
      assert rest[i - 1].slot == slot;
    }
  }

  /** How a whole turn leaves the loop: a client's call or a request for approval ends it, and so does a turn without calls. */
  datatype After = Stop | GoOn

  // --- What a turn's items come to ---

  /** A call executed at once as call *j*: the tool was called with the item's own arguments, the slot shows the item's events
      and then the call's end, and holds what the server answered. */
  ghost predicate RanAs(tools: map<string, Tool>, mint: string -> string, w: World, item: Item, h: seq<Body>, slot: nat, r: Run, j: int)
    requires 0 <= j < |r.executed| && RunsAtOnce(tools, item) && h != []
  {
    var server, said := tools[item.name].server, OutAt(r.out, slot);
    r.executed[j] == Execution(server, item.name, item.args, None) && slot < |r.acc| && |said| >= |h| - 1 &&
    Echo(mint, item, server, h[..|h| - 1], said[..|h| - 1]) &&
    Answers(r.acc[slot], mint(item.id), item.name, item.args, server, None, w.calls(j)) && CallEnds(mint(item.id), w.calls(j), r.acc[slot], said[|h| - 1..])
  }

  /** What an item of a turn, with events *h*, comes to in its slot. */
  ghost predicate ComesTo(tools: map<string, Tool>, mint: string -> string, w: World, start: Run, item: Item, h: seq<Body>, slot: nat, r: Run) {
    h != [] && slot < |r.acc| &&
    if RunsAtOnce(tools, item) then exists j :: |start.executed| <= j < |r.executed| && RanAs(tools, mint, w, item, h, slot, r, j)
    else if AsksFirst(tools, item) then
      r.acc[slot] == ApprovalRequest(item.name, item.args, tools[item.name].server) && OutAt(r.out, slot) == [Added(r.acc[slot]), Done(r.acc[slot])]
    else r.acc[slot] == item && OutAt(r.out, slot) == h
  }

  /** Every item of a turn from *base* on. */
  ghost predicate AllCome(tools: map<string, Tool>, mint: string -> string, w: World, start: Run, inner: Inner, base: nat, r: Run)
    requires inner.Whole?
  {
    forall k {:trigger inner.items[k]} :: 0 <= k < |inner.items| ==>
      ComesTo(tools, mint, w, start, inner.items[k], At(inner.events, k), base + k, r)
  }

  lemma {:induction false} MadeAt(pending: seq<Buf>, i: nat, n: nat)
    requires i < n <= |pending| && pending[i].sort.Some? && pending[i].sort.value.Mcp?
    ensures |MadeOf(pending, i)| < |MadeOf(pending, n)|
    ensures MadeOf(pending, n)[|MadeOf(pending, i)|] == Execution(pending[i].sort.value.server, pending[i].name, pending[i].args, None)
  {
    if i < n - 1 {
      MadeAt(pending, i, n - 1);
    }
  }

  /** What a turn's slot shows when its pending calls come to be settled. */
  lemma AbsorbedShows(r: Run, tools: map<string, Tool>, mint: string -> string, inner: Inner, k: nat)
    requires Agrees(r, {}) && inner.Whole? && Complete(inner.items, inner.events) && k < |inner.items|
    ensures OutAt(Absorbed(r, WholeTurn(r, tools, mint, inner)).out, r.offset + k) == OutAt(WholeTurn(r, tools, mint, inner).out, r.offset + k)
  {
    OutSince(r.out, WholeTurn(r, tools, mint, inner).out, r.offset, r.offset + k);
  }

  lemma {:induction false} RanSettled(tools: map<string, Tool>, mint: string -> string, w: World, item: Item, h: seq<Body>, start: Run, pending: seq<Buf>, r: Run, i: nat)
    requires RunsAtOnce(tools, item) && h != [] && i < |pending| && AllSettled(mint, w, start, pending, r, |pending|)
    requires pending[i].id == item.id && pending[i].name == item.name && pending[i].args == item.args && pending[i].sort == Some(Classify(tools, item.name))
    requires Echo(mint, item, tools[item.name].server, h[..|h| - 1], OutAt(start.out, pending[i].slot))
    ensures var j := |start.executed| + |MadeOf(pending, i)|;
            |start.executed| <= j < |r.executed| && RanAs(tools, mint, w, item, h, pending[i].slot, r, j)
  {
    MadeAt(pending, i, |pending|);
    assert SettledAt(mint, w, start, pending, r, i);
    var before, said := OutAt(start.out, pending[i].slot), OutAt(r.out, pending[i].slot);
    assert said[..|h| - 1] == before;
  }

  lemma AskedSettled(tools: map<string, Tool>, mint: string -> string, w: World, item: Item, start: Run, pending: seq<Buf>, r: Run, i: nat)
    requires AsksFirst(tools, item) && i < |pending| && AllSettled(mint, w, start, pending, r, |pending|)
    requires pending[i].name == item.name && pending[i].args == item.args && pending[i].sort == Some(Classify(tools, item.name))
    requires OutAt(start.out, pending[i].slot) == []
    ensures var slot := pending[i].slot;
            slot < |r.acc| && r.acc[slot] == ApprovalRequest(item.name, item.args, tools[item.name].server) &&
            OutAt(r.out, slot) == [Added(r.acc[slot]), Done(r.acc[slot])]
  {
    assert SettledAt(mint, w, start, pending, r, i);
  }

  /** What has been *said* of an item by its turn's end, whose events are *h*. */
  ghost predicate Streamed(tools: map<string, Tool>, mint: string -> string, item: Item, h: seq<Body>, said: seq<Body>) {
    h != [] &&
    if RunsAtOnce(tools, item) then Echo(mint, item, tools[item.name].server, h[..|h| - 1], said)
    else said == if AsksFirst(tools, item) then [] else h
  }

  /** An item left to the loop, its call pending as number *i*. */
  lemma {:induction false} PendingComes(tools: map<string, Tool>, mint: string -> string, w: World, start: Run, item: Item, h: seq<Body>, base: Run,
                                        pending: seq<Buf>, r: Run, i: nat)
    requires Loops(tools, item) && i < |pending| && AllSettled(mint, w, base, pending, r, |pending|) == true
    requires pending[i].id == item.id && pending[i].name == item.name && pending[i].args == item.args && pending[i].sort == Some(Classify(tools, item.name))
    requires base.executed == start.executed && Streamed(tools, mint, item, h, OutAt(base.out, pending[i].slot)) == true
    ensures ComesTo(tools, mint, w, start, item, h, pending[i].slot, r) == true
  {
    if RunsAtOnce(tools, item) {
      RanSettled(tools, mint, w, item, h, base, pending, r, i);
    } else {
      AskedSettled(tools, mint, w, item, base, pending, r, i);
    }
  }

  /** Any other. */
  lemma {:induction false} PlacedComes(tools: map<string, Tool>, mint: string -> string, w: World, start: Run, item: Item, h: seq<Body>, slot: nat, base: Run,
                                       pending: seq<Buf>, r: Run)
    requires !Loops(tools, item) && !InSlot(pending, slot) && AllSettled(mint, w, base, pending, r, |pending|)
    requires slot < |base.acc| && base.acc[slot] == item && Streamed(tools, mint, item, h, OutAt(base.out, slot)) == true
    ensures ComesTo(tools, mint, w, start, item, h, slot, r) == true
  {
    assert pending[..|pending|] == pending;
  }

  lemma {:induction false} TurnFills(tools: map<string, Tool>, mint: string -> string, start: Run, inner: Inner)
    requires inner.Whole? && Complete(inner.items, inner.events) == true
    ensures var t := WholeTurn(start, tools, mint, inner);
            SlotsFilled(tools, start.offset, inner.items, t.output, t.pending) == true
  {
    TurnStitched(tools, mint, inner.items, inner.events, inner.usage, start.seqNo, start.offset, start.usage);
  }

  /** What the turn itself says of one of its items. */
  lemma {:induction false} TurnSays(tools: map<string, Tool>, mint: string -> string, start: Run, inner: Inner, k: nat)
    requires Agrees(start, {}) == true && inner.Whole? && Complete(inner.items, inner.events) == true && k < |inner.items|
    ensures Streamed(tools, mint, inner.items[k], At(inner.events, k),
                     OutAt(Absorbed(start, WholeTurn(start, tools, mint, inner)).out, start.offset + k)) == true
  {
    SlotStreams(tools, mint, inner.items, inner.events, inner.usage, start.seqNo, start.offset, start.usage, k);
    AbsorbedShows(start, tools, mint, inner, k);
  }

  /** Which pending call, if any, is the item's. */
  lemma {:induction false} PendingFor(tools: map<string, Tool>, base: nat, items: seq<Item>, output: seq<(nat, Item)>, pending: seq<Buf>, k: nat) returns (i: nat)
    requires SlotsFilled(tools, base, items, output, pending) && k < |items| && Loops(tools, items[k])
    ensures i < |pending| && pending[i].slot == base + k && pending[i].id == items[k].id && pending[i].name == items[k].name &&
            pending[i].args == items[k].args && pending[i].sort == Some(Classify(tools, items[k].name))
  {
    assert SlotFilled(tools, base, items, output, pending, k);
    i :| 0 <= i < |pending| && pending[i].slot == base + k;
    assert Stands(tools, base, items, pending[i]);
  }

  lemma {:induction false} TurnPlaces(tools: map<string, Tool>, acc: seq<Item>, items: seq<Item>, output: seq<(nat, Item)>, pending: seq<Buf>, k: nat)
    requires SlotsFilled(tools, |acc|, items, output, pending) == true && k < |items| && !Loops(tools, items[k])
    ensures !InSlot(pending, |acc| + k)
    ensures |acc| + k < |Extended(acc, output, pending)| && Extended(acc, output, pending)[|acc| + k] == items[k]
  {
    PendingItems(tools, |acc|, items, output, pending);
    ExtendedIs(acc, tools, items, output, pending);
  }

  /** Once a turn is absorbed and its pending calls are settled, each of its items has come to what it should. */
  lemma {:induction false} ItemComes(tools: map<string, Tool>, mint: string -> string, w: World, start: Run, inner: Inner, r: Run, k: nat)
    requires Envelope(start) == true && inner.Whole? && Complete(inner.items, inner.events) == true && k < |inner.items|
    requires AllSettled(mint, w, Absorbed(start, WholeTurn(start, tools, mint, inner)), WholeTurn(start, tools, mint, inner).pending, r,
                        |WholeTurn(start, tools, mint, inner).pending|) == true
    ensures ComesTo(tools, mint, w, start, inner.items[k], At(inner.events, k), start.offset + k, r) == true
  {
    TurnFills(tools, mint, start, inner);
    TurnSays(tools, mint, start, inner, k);
    AgreesMeans(start);
    var t := WholeTurn(start, tools, mint, inner);
    SettledComes(tools, mint, w, start, inner.items, At(inner.events, k), t.output, t.pending, Absorbed(start, t), r, k);
  }

  lemma {:induction false} SettledComes(tools: map<string, Tool>, mint: string -> string, w: World, start: Run, items: seq<Item>, h: seq<Body>,
                                        output: seq<(nat, Item)>, pending: seq<Buf>, base: Run, r: Run, k: nat)
    requires |start.acc| == start.offset && k < |items| && SlotsFilled(tools, start.offset, items, output, pending) == true
    requires base.executed == start.executed && base.acc == Extended(start.acc, output, pending) && AllSettled(mint, w, base, pending, r, |pending|) == true
    requires Streamed(tools, mint, items[k], h, OutAt(base.out, start.offset + k)) == true
    ensures ComesTo(tools, mint, w, start, items[k], h, start.offset + k, r) == true
  {
    if Loops(tools, items[k]) {
      LeftComes(tools, mint, w, start, items, h, output, pending, base, r, k);
    } else {
      FixedComes(tools, mint, w, start, items, h, output, pending, base, r, k);
    }
  }

  lemma {:induction false} FixedComes(tools: map<string, Tool>, mint: string -> string, w: World, start: Run, items: seq<Item>, h: seq<Body>,
                                      output: seq<(nat, Item)>, pending: seq<Buf>, base: Run, r: Run, k: nat)
    requires |start.acc| == start.offset && k < |items| && !Loops(tools, items[k]) && SlotsFilled(tools, start.offset, items, output, pending) == true
    requires base.acc == Extended(start.acc, output, pending) && AllSettled(mint, w, base, pending, r, |pending|) == true
    requires Streamed(tools, mint, items[k], h, OutAt(base.out, start.offset + k)) == true
    ensures ComesTo(tools, mint, w, start, items[k], h, start.offset + k, r) == true
  {
    TurnPlaces(tools, start.acc, items, output, pending, k);
    PlacedComes(tools, mint, w, start, items[k], h, start.offset + k, base, pending, r);
  }

  lemma {:induction false} LeftComes(tools: map<string, Tool>, mint: string -> string, w: World, start: Run, items: seq<Item>, h: seq<Body>,
                                     output: seq<(nat, Item)>, pending: seq<Buf>, base: Run, r: Run, k: nat)
    requires k < |items| && Loops(tools, items[k]) && SlotsFilled(tools, start.offset, items, output, pending) == true
    requires base.executed == start.executed && AllSettled(mint, w, base, pending, r, |pending|) == true
    requires Streamed(tools, mint, items[k], h, OutAt(base.out, start.offset + k)) == true
    ensures ComesTo(tools, mint, w, start, items[k], h, start.offset + k, r) == true
  {
    var i := PendingFor(tools, start.offset, items, output, pending, k);
    PendingComes(tools, mint, w, start, items[k], h, base, pending, r, i);
  }

  lemma ItemsCome(tools: map<string, Tool>, mint: string -> string, w: World, start: Run, inner: Inner, r: Run)
    requires Envelope(start) == true && inner.Whole? && Complete(inner.items, inner.events) == true
    requires AllSettled(mint, w, Absorbed(start, WholeTurn(start, tools, mint, inner)), WholeTurn(start, tools, mint, inner).pending, r,
                        |WholeTurn(start, tools, mint, inner).pending|) == true
    ensures AllCome(tools, mint, w, start, inner, start.offset, r) == true
  {
    forall k | 0 <= k < |inner.items|
      ensures ComesTo(tools, mint, w, start, inner.items[k], At(inner.events, k), start.offset + k, r)
    {
      ItemComes(tools, mint, w, start, inner, r, k);
    }
  }

  /** The slots of a turn's calls that are executed at once. */
  function RunSlots(tools: map<string, Tool>, base: nat, items: seq<Item>): set<nat> {
    set k: nat | k < |items| && RunsAtOnce(tools, items[k]) :: base + k
  }

  function RanSlots(pending: seq<Buf>, n: nat): set<nat>
    requires n <= |pending|
  {
    set i: nat | i < n && pending[i].sort.Some? && pending[i].sort.value.Mcp? :: pending[i].slot
  }

  lemma {:induction false} MadeCount(pending: seq<Buf>, n: nat)
    requires DistinctSlots(pending) && n <= |pending|
    ensures |MadeOf(pending, n)| == |RanSlots(pending, n)|
  {
    if n > 0 {
      MadeCount(pending, n - 1);
      if pending[n - 1].sort.Some? && pending[n - 1].sort.value.Mcp? {
        assert RanSlots(pending, n) == RanSlots(pending, n - 1) + {pending[n - 1].slot};
      } else {
        assert RanSlots(pending, n) == RanSlots(pending, n - 1);
      }
    }
  }

  /** A turn makes exactly one call for each item to execute. */
  lemma MadeOnce(tools: map<string, Tool>, base: nat, items: seq<Item>, output: seq<(nat, Item)>, pending: seq<Buf>)
    requires SlotsFilled(tools, base, items, output, pending)
    ensures |MadeOf(pending, |pending|)| == |RunSlots(tools, base, items)|
  {
    MadeCount(pending, |pending|);
    PendingItems(tools, base, items, output, pending);
    forall slot | slot in RunSlots(tools, base, items)
      ensures slot in RanSlots(pending, |pending|)
    {
      assert InSlot(pending, base + (slot - base));
      var i :| 0 <= i < |pending| && pending[i].slot == slot;
    }
    assert RanSlots(pending, |pending|) == RunSlots(tools, base, items);
  }

  /** One whole turn. */
  method TakeTurn(specs: seq<Spec>, discovered: map<string, seq<Listed>>, tools: map<string, Tool>, input: seq<Input>, w: World, mint: string -> string,
                  inner: Inner, start: Run) returns (r: Run, after: After)
    requires inner.Whole? && Complete(inner.items, inner.events) && Envelope(start)
    requires ToolsOffered(specs, discovered, tools) && AllPermitted(specs, discovered, input, start.executed)
    ensures Envelope(r) && AllPermitted(specs, discovered, input, r.executed)
    ensures r.usage == SumUsage(start.usage, inner.usage) && start.executed <= r.executed
    ensures after.GoOn? <==> AllExecuted(tools, inner.items)
    ensures AllCome(tools, mint, w, start, inner, start.offset, r) == true
    ensures |r.executed| - |start.executed| == |RunSlots(tools, start.offset, inner.items)|
  {
    var stitcher := new Stitcher(tools);
    stitcher.seqNo, stitcher.offset, stitcher.usageTotal := start.seqNo, start.offset, start.usage;
    var events := stitcher.RunTurn(mint, inner.events + [Terminal(inner.items, inner.usage)]);
    var t := stitcher.View(events);
    assert t == WholeTurn(start, tools, mint, inner);
    TurnStitched(tools, mint, inner.items, inner.events, inner.usage, start.seqNo, start.offset, start.usage);
    TurnNumbers(start, tools, mint, inner);
    TurnKept(start, tools, mint, inner);
    var asked;
    r, asked := Settle(specs, discovered, tools, input, w, mint, Absorbed(start, t), start.offset, inner.items, t.pending);
    ItemsCome(tools, mint, w, start, inner, r);
    MadeOnce(tools, start.offset, inner.items, t.output, t.pending);
    after := if asked || t.hadClient || t.pending == [] then Stop else GoOn;
    LoopGoesOn(tools, start.offset, inner.items, t.output, t.pending, asked, t.hadClient);
  }

  /** What the pending calls say of the turn's items. */
  lemma PendingItems(tools: map<string, Tool>, base: nat, items: seq<Item>, output: seq<(nat, Item)>, pending: seq<Buf>)
    requires SlotsFilled(tools, base, items, output, pending)
    ensures forall i :: 0 <= i < |pending| ==>
              base <= pending[i].slot < base + |items| && Loops(tools, items[pending[i].slot - base]) &&
              pending[i].sort == Some(Classify(tools, items[pending[i].slot - base].name))
    ensures forall k :: 0 <= k < |items| && Loops(tools, items[k]) ==> InSlot(pending, base + k)
  {
    forall k | 0 <= k < |items| && Loops(tools, items[k])
      ensures InSlot(pending, base + k)
    {
      assert SlotFilled(tools, base, items, output, pending, k);
    }
    forall i | 0 <= i < |pending|
      ensures base <= pending[i].slot < base + |items| && Loops(tools, items[pending[i].slot - base]) &&
              pending[i].sort == Some(Classify(tools, items[pending[i].slot - base].name))
    {
      assert Stands(tools, base, items, pending[i]);
    }
  }

  /** There are pending calls exactly when an item is left to the loop. */
  lemma CallsPending(tools: map<string, Tool>, base: nat, items: seq<Item>, output: seq<(nat, Item)>, pending: seq<Buf>)
    requires SlotsFilled(tools, base, items, output, pending)
    ensures pending != [] <==> exists k :: 0 <= k < |items| && Loops(tools, items[k])
  {
    PendingItems(tools, base, items, output, pending);
    if pending != [] {
      assert Loops(tools, items[pending[0].slot - base]);
    }
  }

  lemma AsksPending(tools: map<string, Tool>, base: nat, items: seq<Item>, output: seq<(nat, Item)>, pending: seq<Buf>)
    requires SlotsFilled(tools, base, items, output, pending)
    ensures (exists i :: 0 <= i < |pending| && AsksApproval(pending[i])) <==> exists k :: 0 <= k < |items| && NeedsApproval(tools, items[k])
  {
    PendingItems(tools, base, items, output, pending);
    forall k | 0 <= k < |items| && NeedsApproval(tools, items[k])
      ensures exists i :: 0 <= i < |pending| && AsksApproval(pending[i])
    {
      assert InSlot(pending, base + k);
      var i :| 0 <= i < |pending| && pending[i].slot == base + k;
      assert AsksApproval(pending[i]);
    }
    forall i | 0 <= i < |pending| && AsksApproval(pending[i])
      ensures exists k :: 0 <= k < |items| && NeedsApproval(tools, items[k])
    {
      assert NeedsApproval(tools, items[pending[i].slot - base]);
    }
  }

  predicate NeedsApproval(tools: map<string, Tool>, item: Item) { item.Call? && Classify(tools, item.name).Approval? }

  /** A call the loop executes by itself. */
  predicate ExecutedItem(tools: map<string, Tool>, item: Item) { item.Call? && Classify(tools, item.name).Mcp? }

  /** Every call of the turn was executed, and there was one. */
  ghost predicate AllExecuted(tools: map<string, Tool>, items: seq<Item>) {
    (exists k :: 0 <= k < |items| && ExecutedItem(tools, items[k])) &&
    forall k :: 0 <= k < |items| && items[k].Call? ==> ExecutedItem(tools, items[k])
  }

  /** The loop goes on exactly when there are calls and all of them were executed. */
  lemma LoopGoesOn(tools: map<string, Tool>, base: nat, items: seq<Item>, output: seq<(nat, Item)>, pending: seq<Buf>, asked: bool, client: bool)
    requires SlotsFilled(tools, base, items, output, pending)
    requires asked <==> exists i :: 0 <= i < |pending| && AsksApproval(pending[i])
    requires client <==> exists k :: 0 <= k < |items| && items[k].Call? && !Loops(tools, items[k])
    ensures !asked && !client && pending != [] <==> AllExecuted(tools, items)
  {
    CallsPending(tools, base, items, output, pending);
    AsksPending(tools, base, items, output, pending);
    forall k | 0 <= k < |items| && items[k].Call?
      ensures ExecutedItem(tools, items[k]) <==> Loops(tools, items[k]) && !NeedsApproval(tools, items[k])
    {
    }
    assert forall k :: 0 <= k < |items| && Loops(tools, items[k]) ==> items[k].Call?;
  }

  function TurnsUsage(turns: nat -> Inner, n: nat): Option<Usage> {
    if n == 0 then None else SumUsage(TurnsUsage(turns, n - 1), if turns(n - 1).Whole? then turns(n - 1).usage else None)
  }

  /** The last event is the response's own, of that kind. */
  predicate EndsWith(r: Run, kind: string) { r.out != [] && r.out[|r.out| - 1].index.None? && r.out[|r.out| - 1].body == Other(kind, "") }

  /** The turn broke off, and the response failed unless the loader's own error is passed on. */
  ghost predicate BreaksOff(inner: Inner, r: Run) { inner.Broken? && (!inner.error ==> EndsWith(r, "response.failed")) }

  /** What the first turn finds: a slot for each server that had to be asked, then one for each answered approval, and only
      the approved calls made. */
  ghost predicate OpenedSo(specs: seq<Spec>, discovered: map<string, seq<Listed>>, input: seq<Input>, w: World, r: Run) {
    var asked := Unstored(specs, w, |specs|);
    r.offset == asked + AnswersTo(input, |input|) && r.executed == ApprovedCalls(discovered, input, |input|) &&
    (forall i {:trigger ListingAt(specs, w, 0, r, i)} :: 0 <= i < |specs| ==> ListingAt(specs, w, 0, r, i)) &&
    forall i {:trigger AnswerAt(discovered, input, w, |specs|, asked, 0, r, i)} :: 0 <= i < |input| ==>
      AnswerAt(discovered, input, w, |specs|, asked, 0, r, i)
  }

  lemma OpenedIs(specs: seq<Spec>, discovered: map<string, seq<Listed>>, input: seq<Input>, w: World, start: Run, r: Run, s: Run)
    requires start.offset == 0 && start.executed == [] && r.executed == [] && ListingsShown(specs, w, start, r, |specs|)
    requires AnswersShown(discovered, input, w, |specs|, r, s, |input|)
    ensures OpenedSo(specs, discovered, input, w, s) == true
  {
    forall i | 0 <= i < |specs|
      ensures ListingAt(specs, w, 0, s, i)
    {
      UnstoredRises(specs, w, i, |specs|);
      assert ListingAt(specs, w, 0, r, i);
      ListingStays(specs, w, 0, r, s, i);
    }
    AnswersFrom(specs, discovered, input, w, r, s);
  }

  lemma AnswersFrom(specs: seq<Spec>, discovered: map<string, seq<Listed>>, input: seq<Input>, w: World, r: Run, s: Run)
    requires r.executed == [] && AnswersShown(discovered, input, w, |specs|, r, s, |input|)
    ensures s.offset == r.offset + AnswersTo(input, |input|) && s.executed == ApprovedCalls(discovered, input, |input|)
    ensures forall i {:trigger AnswerAt(discovered, input, w, |specs|, r.offset, 0, s, i)} :: 0 <= i < |input| ==>
              AnswerAt(discovered, input, w, |specs|, r.offset, 0, s, i)
  {
    assert [] + ApprovedCalls(discovered, input, |input|) == ApprovedCalls(discovered, input, |input|);
  }

  /** The response up to its first turn. */
  method Opened(specs: seq<Spec>, client: set<string>, input: seq<Input>, w: World)
      returns (r: Run, ending: Option<Ending>, discovered: map<string, seq<Listed>>, tools: map<string, Tool>)
    requires UniqueServers(specs) == true
    ensures Envelope(r) == true && r.usage.None? && AllPermitted(specs, discovered, input, r.executed) == true
    ensures (ending == Some(DiscoveryFailed)) == !AllList(specs, w, |specs|)
    ensures ending.Some? ==> ending.value.DiscoveryFailed? || ending.value.Collides? || ending.value.UnknownApproval?
    ensures ending != Some(DiscoveryFailed) ==> Discovered(specs, w, discovered, tools, |specs|) == true
    ensures ending == Some(Collides) ==> !Unambiguous(specs, discovered, client)
    ensures ending.None? ==> Unambiguous(specs, discovered, client) == true && OpenedSo(specs, discovered, input, w, r) == true
    ensures ending.None? ==> r.executed == ApprovedCalls(discovered, input, |input|)
    ensures ending == Some(UnknownApproval) ==> exists i :: 0 <= i < |input| && input[i].Answered? && RequestOf(input, input[i].request).None?
    ensures ending in {Some(DiscoveryFailed), Some(Collides)} ==> EndsWith(r, "response.failed") == true
  {
    r := Run(0, 0, None, [], [], []);
    SayKeeps(r, Other("response.created", ""));
    r := Say(r, None, Other("response.created", ""));
    SayKeeps(r, Other("response.in_progress", ""));
    r := Say(r, None, Other("response.in_progress", ""));
    var ok;
    ghost var start := r;
    r, ok, discovered, tools := Discover(specs, w, r);
    if !ok {
      r := Closed(r, "response.failed");
      return r, Some(DiscoveryFailed), discovered, tools;
    }
    var clash := CheckCollisions(specs, discovered, client);
    if clash.Some? {
      r := Closed(r, "response.failed");
      return r, Some(Collides), discovered, tools;
    }
    ghost var listed := r;
    r, ok := Resume(specs, discovered, input, w, r);
    if ok {
      OpenedIs(specs, discovered, input, w, start, listed, r);
    }
    ending := if ok then None else Some(UnknownApproval);
  }

  /** What the loader is taken to stream: a whole turn is well-formed; one that breaks off may be anything. */
  ghost predicate WellMade(inner: Inner) { inner.Whole? ==> Complete(inner.items, inner.events) }

  ghost predicate AllWellMade(turns: nat -> Inner) { forall k :: WellMade(turns(k)) }

  /** A whole turn whose calls were all executed. */
  ghost predicate Executing(tools: map<string, Tool>, inner: Inner) { inner.Whole? && AllExecuted(tools, inner.items) }

  /** The request's limit on executed calls, if it sets one. */
  predicate Reached(maxCalls: Option<nat>, executed: nat) { maxCalls.Some? && executed >= maxCalls.value }

  /** One turn and what it means for the loop: None goes on. */
  method Round(specs: seq<Spec>, discovered: map<string, seq<Listed>>, tools: map<string, Tool>, input: seq<Input>, maxCalls: Option<nat>, w: World,
               mint: string -> string, inner: Inner, start: Run, executed: nat) returns (r: Run, ending: Option<Ending>, executed': nat)
    requires Envelope(start) == true && ToolsOffered(specs, discovered, tools) == true && AllPermitted(specs, discovered, input, start.executed) == true
    requires WellMade(inner)
    ensures (Numbered(r) && AllPermitted(specs, discovered, input, r.executed)) == true
    ensures inner.Broken? <==> ending == Some(TurnBroken)
    ensures inner.Whole? ==> Envelope(r) == true && r.usage == SumUsage(start.usage, inner.usage)
    ensures ending.Some? ==> ending.value.TurnBroken? || ending.value.Finished?
    ensures start.executed <= r.executed && executed' == executed + |r.executed| - |start.executed|
    ensures ending == Some(Finished(true)) <==> inner.Whole? && !Executing(tools, inner)
    ensures ending == Some(Finished(false)) <==> Executing(tools, inner) && maxCalls.Some? && executed' >= maxCalls.value
    ensures inner.Broken? ==> BreaksOff(inner, r) == true
  {
    executed' := executed;
    if inner.Broken? {
      r := BrokenOff(start, tools, mint, inner);
      return r, Some(TurnBroken), executed';
    }
    var after;
    r, after := TakeTurn(specs, discovered, tools, input, w, mint, inner, start);
    executed' := executed + |r.executed| - |start.executed|;
    ending := if after == Stop then Some(Finished(true)) else if Reached(maxCalls, executed') then Some(Finished(false)) else None;
  }

  /** The loop came to its end after *n* turns and *made* calls: every turn but the last had all its calls executed, and the
      last one too unless the response is complete; then the calls' limit or the turns' cap was reached. */
  ghost predicate RunsOut(tools: map<string, Tool>, turns: nat -> Inner, maxCalls: Option<nat>, made: nat, usage: Option<Usage>, complete: bool, n: nat) {
    0 < n <= 10 && usage == TurnsUsage(turns, n) && (forall k :: 0 <= k < n - 1 ==> Executing(tools, turns(k))) &&
    turns(n - 1).Whole? && (complete <==> !Executing(tools, turns(n - 1))) && (!complete ==> n == 10 || (maxCalls.Some? && made >= maxCalls.value))
  }

  /** The turns, at most the cap's number of them. */
  method RunTurns(specs: seq<Spec>, discovered: map<string, seq<Listed>>, tools: map<string, Tool>, input: seq<Input>, maxCalls: Option<nat>, w: World,
                  start: Run) returns (r: Run, ending: Ending, n: nat)
    requires Envelope(start) && start.usage.None? && ToolsOffered(specs, discovered, tools) && AllPermitted(specs, discovered, input, start.executed)
    requires AllWellMade(w.turns) == true
    ensures (Numbered(r) && AllPermitted(specs, discovered, input, r.executed)) == true && start.executed <= r.executed
    ensures ending.Finished? || ending.TurnBroken?
    ensures ending.Finished? ==> Envelope(r) == true && RunsOut(tools, w.turns, maxCalls, |r.executed| - |start.executed|, r.usage, ending.complete, n) == true
    ensures ending.TurnBroken? ==> n < 10 && BreaksOff(w.turns(n), r) == true
  {
    r, n := start, 0;
    var executed, next := 0, None;
    while n < TURN_CAP
      invariant n <= TURN_CAP && Envelope(r) == true && AllPermitted(specs, discovered, input, r.executed) == true
      invariant Gone(tools, w.turns, n, r.usage) == true
      invariant start.executed <= r.executed && executed == |r.executed| - |start.executed|
    {
      var inner, turn := w.turns(n), n;
      ghost var usage := r.usage;
      r, next, executed := Round(specs, discovered, tools, input, maxCalls, w, id => w.mint(turn, id), inner, r, executed);
      if next == Some(TurnBroken) {
        return r, TurnBroken, n;
      }
      n := n + 1;
      if next.Some? {
        GoneOut(tools, w.turns, n - 1, usage, maxCalls, executed, next.value.complete);
        return r, next.value, n;
      }
      GoneMore(tools, w.turns, n - 1, usage);
    }
    GoneAll(tools, w.turns, n, r.usage, maxCalls, executed);
    ending := Finished(false);
  }

  /** The loop ends at a turn that isn't all executed, or with the limit reached. */
  lemma GoneOut(tools: map<string, Tool>, turns: nat -> Inner, n: nat, usage: Option<Usage>, maxCalls: Option<nat>, made: nat, complete: bool)
    requires Gone(tools, turns, n, usage) == true && n < TURN_CAP && turns(n).Whole?
    requires if complete then !Executing(tools, turns(n)) else Executing(tools, turns(n)) && Reached(maxCalls, made)
    ensures RunsOut(tools, turns, maxCalls, made, SumUsage(usage, turns(n).usage), complete, n + 1) == true
  {
  }

  /** Or with the cap of turns. */
  lemma GoneAll(tools: map<string, Tool>, turns: nat -> Inner, n: nat, usage: Option<Usage>, maxCalls: Option<nat>, made: nat)
    requires Gone(tools, turns, n, usage) == true && n == TURN_CAP
    ensures RunsOut(tools, turns, maxCalls, made, usage, false, n) == true
  {
    assert Executing(tools, turns(n - 1));
  }

  /** The first *n* turns' calls were all executed, and their usage adds up to *usage*. */
  ghost predicate Gone(tools: map<string, Tool>, turns: nat -> Inner, n: nat, usage: Option<Usage>) {
    usage == TurnsUsage(turns, n) && forall k :: 0 <= k < n ==> Executing(tools, turns(k))
  }

  lemma GoneMore(tools: map<string, Tool>, turns: nat -> Inner, n: nat, usage: Option<Usage>)
    requires Gone(tools, turns, n, usage) && Executing(tools, turns(n))
    ensures Gone(tools, turns, n + 1, SumUsage(usage, turns(n).usage))
  {
  }

  /** The whole response over well-formed turns. However it ends, its events are numbered 0, 1, 2, ... and every call made was
      permitted; unless a turn broke off, each output item is the one of its slot's only done event. */
  method Respond(specs: seq<Spec>, client: set<string>, input: seq<Input>, maxCalls: Option<nat>, w: World)
      returns (r: Run, ending: Ending, n: nat, discovered: map<string, seq<Listed>>, tools: map<string, Tool>, resumed: nat)
    requires UniqueServers(specs) == true && AllWellMade(w.turns) == true
    ensures (Numbered(r) && AllPermitted(specs, discovered, input, r.executed)) == true
    ensures !ending.TurnBroken? ==> Envelope(r) == true
    ensures resumed <= |r.executed|
    ensures !ending.DiscoveryFailed? ==> Discovered(specs, w, discovered, tools, |specs|) == true
    ensures ending.DiscoveryFailed? == !AllList(specs, w, |specs|)
    ensures ending.Finished? ==> Unambiguous(specs, discovered, client) == true
    ensures ending.Finished? ==> RunsOut(tools, w.turns, maxCalls, |r.executed| - resumed, r.usage, ending.complete, n) == true
    ensures ending.Finished? ==> EndsWith(r, if ending.complete then "response.completed" else "response.incomplete") == true
    ensures ending.DiscoveryFailed? || ending.Collides? ==> EndsWith(r, "response.failed") == true
    ensures ending.TurnBroken? ==> BreaksOff(w.turns(n), r) == true
    ensures ending.Finished? ==> resumed == |ApprovedCalls(discovered, input, |input|)|
  {
    n, resumed := 0, 0;
    var early;
    r, early, discovered, tools := Opened(specs, client, input, w);
    if early.Some? {
      return r, early.value, n, discovered, tools, resumed;
    }
    // the calls made so far answer approvals, and don't count
    resumed := |r.executed|;
    r, ending, n := RunOn(specs, discovered, tools, input, maxCalls, w, r);
  }

  /** The turns and, unless one broke off, the terminal event. */
  method RunOn(specs: seq<Spec>, discovered: map<string, seq<Listed>>, tools: map<string, Tool>, input: seq<Input>, maxCalls: Option<nat>, w: World,
               start: Run) returns (r: Run, ending: Ending, n: nat)
    requires Envelope(start) == true && start.usage.None? && ToolsOffered(specs, discovered, tools) == true
    requires AllPermitted(specs, discovered, input, start.executed) == true && AllWellMade(w.turns) == true
    ensures (Numbered(r) && AllPermitted(specs, discovered, input, r.executed)) == true && |start.executed| <= |r.executed|
    ensures (ending.Finished? && Envelope(r) == true) || ending.TurnBroken?
    ensures ending.Finished? ==> RunsOut(tools, w.turns, maxCalls, |r.executed| - |start.executed|, r.usage, ending.complete, n) == true
    ensures ending.Finished? ==> EndsWith(r, if ending.complete then "response.completed" else "response.incomplete") == true
    ensures ending.TurnBroken? ==> BreaksOff(w.turns(n), r) == true
  {
    r, ending, n := RunTurns(specs, discovered, tools, input, maxCalls, w, start);
    if ending.Finished? {
      r := Closed(r, if ending.complete then "response.completed" else "response.incomplete");
    }
  }

  /** The terminal event. */
  method Closed(start: Run, kind: string) returns (r: Run)
    requires Envelope(start) == true
    ensures Envelope(r) == true && r.usage == start.usage && r.executed == start.executed && r.acc == start.acc && EndsWith(r, kind) == true
  {
    SayKeeps(start, Other(kind, ""));
    r := Say(start, None, Other(kind, ""));
  }

  /** A turn that breaks off: its events so far, and a last one of the loop's own unless the loader's error is passed on. */
  method BrokenOff(start: Run, tools: map<string, Tool>, mint: string -> string, inner: Inner) returns (r: Run)
    requires Numbered(start) && inner.Broken?
    ensures Numbered(r) && r.executed == start.executed
    ensures !inner.error ==> EndsWith(r, "response.failed") == true
  {
    var stitcher := new Stitcher(tools);
    stitcher.seqNo, stitcher.offset, stitcher.usageTotal := start.seqNo, start.offset, start.usage;
    var events := stitcher.RunTurn(mint, inner.events + [if inner.error then Error else TurnFailed]);
    var t := stitcher.View(events);
    TurnNumbered(Begun(start.seqNo, start.offset, start.usage), tools, mint, inner.events + [if inner.error then Error else TurnFailed], start.seqNo);
    r := start.(seqNo := t.seqNo, out := start.out + t.out);
    if !inner.error {
      r := Say(r, None, Other("response.failed", ""));
    }
  }

  // --- Tools and usage ---

  /** The tools a response can call are exactly those the servers list and their specs allow. */
  lemma ToolsExactly(specs: seq<Spec>, w: World, discovered: map<string, seq<Listed>>, tools: map<string, Tool>, name: string)
    requires Discovered(specs, w, discovered, tools, |specs|) && UniqueServers(specs)
    ensures name in tools <==> exists i, l :: 0 <= i < |specs| && l in ListedOf(w, specs[i].server) && Allows(specs[i].allowed, l) && l.name == name
    ensures name in tools ==>
              exists i, l :: 0 <= i < |specs| && l in ListedOf(w, specs[i].server) && Allows(specs[i].allowed, l) && l.name == name &&
                             tools[name] == Tool(specs[i].server, RequiresApproval(specs[i], l))
  {
    if name in tools {
      assert Offers(specs, discovered, tools[name].server, name, tools[name].approval);
      var i, l :| OfferAt(specs, discovered[tools[name].server], i, l, tools[name].server, name, tools[name].approval);
      FilterIs(specs[i], ListedOf(w, specs[i].server), l);
    }
    forall i, l | 0 <= i < |specs| && l in ListedOf(w, specs[i].server) && Allows(specs[i].allowed, l) && l.name == name
      ensures name in tools
    {
      FilterIs(specs[i], ListedOf(w, specs[i].server), l);
      assert SpecFor(specs, |specs|, specs[i].server);
    }
  }

  /** One of the numbers a usage has. */
  datatype Field = InputTokens | OutputTokens | Total | Cached | Reasoning

  function Of(u: Option<Usage>, f: Field): nat {
    if u.None? then 0 else
      match f
      case InputTokens => u.value.input
      case OutputTokens => u.value.output
      case Total => u.value.total
      case Cached => u.value.cached
      case Reasoning => u.value.reasoning
  }

  function UsageOf(inner: Inner): Option<Usage> { if inner.Whole? then inner.usage else None }

  function Totalled(turns: nat -> Inner, f: Field, n: nat): nat { if n == 0 then 0 else Totalled(turns, f, n - 1) + Of(UsageOf(turns(n - 1)), f) }

  /** Each number of the response's usage is the sum of the turns', and there is a usage as soon as one turn gives one. */
  lemma {:induction false} UsageAdds(turns: nat -> Inner, f: Field, n: nat)
    ensures Of(TurnsUsage(turns, n), f) == Totalled(turns, f, n)
    ensures TurnsUsage(turns, n).Some? <==> exists k :: 0 <= k < n && UsageOf(turns(k)).Some?
  {
    if n > 0 {
      UsageAdds(turns, f, n - 1);
    }
  }
}
