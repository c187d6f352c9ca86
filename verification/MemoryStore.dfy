/** The in-memory state store against a simple timed map that never sweeps. */
module MemoryStore {
  import opened Wrappers
  import opened StoreKeys

  /** A stored value: JSON, or an ordered log of (position, value). */
  datatype Value = Json(data: int) | Log(entries: seq<(int, int)>)
  datatype Entry = Entry(value: Value, expires: Option<real>)

  type Timed = map<string, Entry>

  predicate Alive(e: Entry, now: real) { e.expires.None? || now < e.expires.value }

  function Live(d: Timed, key: string, now: real): Option<Entry> {
    if key in d && Alive(d[key], now) then Some(d[key]) else None
  }

  function Expiry(ttl: Option<real>, now: real): Option<real> {
    if ttl.Some? then Some(now + ttl.value) else None
  }

  // --- The timed map ---

  /** One call. An append-and-set reads the clock three times; *checked* and *appended* come first. */
  datatype Op =
    | Get(key: string) | Set(key: string, value: Value, ttl: Option<real>) | Delete(key: string) | List(prefix: string)
    | Append(key: string, position: int, item: int, ttl: Option<real>)
    | AppendAndSet(log: string, position: int, item: int, key: string, value: Value, ttl: Option<real>, ifExists: bool, checked: real, appended: real)
    | ReadRange(key: string, start: int, end: Option<int>) | Expire(key: string, seconds: real)

  datatype Answer = Found(value: Option<Value>) | Done | Keys(keys: set<string>) | Accepted(ok: bool) | Items(items: seq<int>)

  /** The live log at *key*; nothing where the value is no log. */
  function LogAt(d: Timed, key: string, now: real): seq<(int, int)> {
    var e := Live(d, key, now);
    if e.Some? && e.value.value.Log? then e.value.value.entries else []
  }

  /** A log takes a position only past its last one. */
  predicate Takes(entries: seq<(int, int)>, position: int) { entries != [] ==> entries[|entries| - 1].0 < position }

  function Appended(d: Timed, key: string, position: int, item: int, ttl: Option<real>, now: real): Timed {
    d[key := Entry(Log(LogAt(d, key, now) + [(position, item)]), Expiry(ttl, now))]
  }

  predicate InRange(position: int, start: int, end: Option<int>) { start <= position && (end.Some? ==> position <= end.value) }

  function Between(entries: seq<(int, int)>, start: int, end: Option<int>): seq<int> {
    if entries == [] then [] else
      var last := entries[|entries| - 1];
      Between(entries[..|entries| - 1], start, end) + if InRange(last.0, start, end) then [last.1] else []
  }

  /** What a call does to the timed map at *now*, and its answer. */
  function Do(d: Timed, op: Op, now: real): (Timed, Answer) {
    match op
    case Get(key) => (d, Found(if Live(d, key, now).Some? then Some(d[key].value) else None))
    case Set(key, value, ttl) => (d[key := Entry(value, Expiry(ttl, now))], Done)
    case Delete(key) => (d - {key}, Done)
    case List(prefix) => (d, Keys(set key | key in d && Alive(d[key], now) && InNamespace(key, Normalize(prefix))))
    case Append(key, position, item, ttl) =>
      if Takes(LogAt(d, key, now), position) then (Appended(d, key, position, item, ttl, now), Accepted(true)) else (d, Accepted(false))
    case AppendAndSet(log, position, item, key, value, ttl, ifExists, checked, appended) =>
      if (ifExists && Live(d, key, checked).None?) || !Takes(LogAt(d, log, appended), position) then (d, Accepted(false))
      else (Appended(d, log, position, item, ttl, appended)[key := Entry(value, Expiry(ttl, now))], Accepted(true))
    case ReadRange(key, start, end) => (d, Items(Between(LogAt(d, key, now), start, end)))
    case Expire(key, seconds) =>
      (if Live(d, key, now).Some? then d[key := Entry(d[key].value, Some(now + seconds))] else d, Done)
  }

  /** No call from *now* on can tell *a* from *b*. */
  ghost predicate Same(a: Timed, b: Timed, now: real) {
    forall key, t :: t >= now ==> Live(a, key, t) == Live(b, key, t)
  }

  /** When a call's clock reads are: in order, and none before the call before it. */
  predicate Timely(op: Op, before: real, now: real) {
    before <= now && (op.AppendAndSet? ==> before <= op.checked <= op.appended <= now)
  }

  /** The same change to one key keeps what can be told apart. */
  lemma SameUpdate(a: Timed, b: Timed, a': Timed, b': Timed, key: string, before: real, now: real)
    requires Same(a, b, before) && before <= now
    requires forall k :: k != key ==> (k in a' <==> k in a) && (k in b' <==> k in b)
    requires forall k :: k != key && k in a' ==> a'[k] == a[k]
    requires forall k :: k != key && k in b' ==> b'[k] == b[k]
    requires forall t :: t >= now ==> Live(a', key, t) == Live(b', key, t)
    ensures Same(a', b', now)
  {
    forall k, t | t >= now
      ensures Live(a', k, t) == Live(b', k, t)
    {
      assert Live(a, k, t) == Live(b, k, t);
    }
  }

  lemma PutSame(a: Timed, b: Timed, key: string, e: Entry, before: real, now: real)
    requires Same(a, b, before) && before <= now
    ensures Same(a[key := e], b[key := e], now) == true
  {
    SameUpdate(a, b, a[key := e], b[key := e], key, before, now);
  }

  lemma LogSame(a: Timed, b: Timed, key: string, before: real, now: real)
    requires Same(a, b, before) && before <= now
    ensures LogAt(a, key, now) == LogAt(b, key, now) && Live(a, key, now) == Live(b, key, now)
  {
  }

  lemma AppendSame(a: Timed, b: Timed, key: string, position: int, item: int, ttl: Option<real>, before: real, now: real)
    requires Same(a, b, before) == true && before <= now
    ensures Same(Appended(a, key, position, item, ttl, now), Appended(b, key, position, item, ttl, now), now) == true
  {
    LogSame(a, b, key, before, now);
    PutSame(a, b, key, Entry(Log(LogAt(a, key, now) + [(position, item)]), Expiry(ttl, now)), before, now);
  }

  lemma ListSame(a: Timed, b: Timed, prefix: string, before: real, now: real)
    requires Same(a, b, before) && before <= now
    ensures Do(a, List(prefix), now).1 == Do(b, List(prefix), now).1
  {
    forall key
      ensures (key in a && Alive(a[key], now)) == (key in b && Alive(b[key], now))
    {
      assert Live(a, key, now) == Live(b, key, now);
    }
  }

  lemma SameLater(a: Timed, b: Timed, before: real, now: real)
    requires Same(a, b, before) && before <= now
    ensures Same(a, b, now) == true
  {
  }

  lemma BothSame(a: Timed, b: Timed, op: Op, before: real, now: real)
    requires op.AppendAndSet? && Same(a, b, before) == true && Timely(op, before, now)
    ensures Same(Do(a, op, now).0, Do(b, op, now).0, now) == true && Do(a, op, now).1 == Do(b, op, now).1
  {
    LogSame(a, b, op.key, before, op.checked);
    LogSame(a, b, op.log, before, op.appended);
    SameLater(a, b, before, now);
    AppendSame(a, b, op.log, op.position, op.item, op.ttl, before, op.appended);
    PutSame(Appended(a, op.log, op.position, op.item, op.ttl, op.appended), Appended(b, op.log, op.position, op.item, op.ttl, op.appended),
            op.key, Entry(op.value, Expiry(op.ttl, now)), op.appended, now);
  }

  lemma DeleteSame(a: Timed, b: Timed, key: string, before: real, now: real)
    requires Same(a, b, before) && before <= now
    ensures Same(a - {key}, b - {key}, now) == true
  {
    SameUpdate(a, b, a - {key}, b - {key}, key, before, now);
  }

  lemma ExpireSame(a: Timed, b: Timed, key: string, seconds: real, before: real, now: real)
    requires Same(a, b, before) == true && before <= now
    ensures Same(Do(a, Expire(key, seconds), now).0, Do(b, Expire(key, seconds), now).0, now) == true
  {
    LogSame(a, b, key, before, now);
    SameLater(a, b, before, now);
    if Live(a, key, now).Some? {
      PutSame(a, b, key, Entry(a[key].value, Some(now + seconds)), before, now);
    }
  }

  /** Maps no call can tell apart answer every call alike, and no later call can tell apart what it makes of them. */
  lemma DoSame(a: Timed, b: Timed, op: Op, before: real, now: real)
    requires Same(a, b, before) == true && Timely(op, before, now)
    ensures Same(Do(a, op, now).0, Do(b, op, now).0, now) == true && Do(a, op, now).1 == Do(b, op, now).1
  {
    SameLater(a, b, before, now);
    match op
    case Set(key, value, ttl) => PutSame(a, b, key, Entry(value, Expiry(ttl, now)), before, now);
    case Delete(key) => DeleteSame(a, b, key, before, now);
    case List(prefix) => ListSame(a, b, prefix, before, now);
    case Get(key) => LogSame(a, b, key, before, now);
    case Expire(key, seconds) => ExpireSame(a, b, key, seconds, before, now);
    case Append(key, position, item, ttl) =>
      LogSame(a, b, key, before, now);
      AppendSame(a, b, key, position, item, ttl, before, now);
    case ReadRange(key, _, _) => LogSame(a, b, key, before, now);
    case AppendAndSet(_, _, _, _, _, _, _, _, _) => BothSame(a, b, op, before, now);
  }

  // --- The store ---

  class MemoryStore {
    var data: Timed
    var lastSweep: real
    const interval: real

    constructor (now: real, interval: real)
      ensures data == map[] && this.interval == interval
    {
      data, lastSweep, this.interval := map[], now, interval;
    }

    /** Drops every expired key, at most once per interval; an interval of zero or less never does. */
    method MaybeSweep(now: real)
      modifies this
      ensures Same(data, old(data), now)
      ensures interval <= 0.0 || now - old(lastSweep) < interval ==> data == old(data) && lastSweep == old(lastSweep)
      ensures interval > 0.0 && now - old(lastSweep) >= interval ==> lastSweep == now && forall key :: key in data ==> Alive(data[key], now)
    {
      if interval <= 0.0 || now - lastSweep < interval {
        return;
      }
      lastSweep := now;
      var expired := set key | key in data && !Alive(data[key], now);
      data := data - expired;
    }

    /** The entry at *key*, deleting it when it has expired. */
    method LiveEntry(key: string, now: real) returns (e: Option<Entry>)
      modifies `data
      ensures e == Live(old(data), key, now) && Same(data, old(data), now)
      ensures data == old(data) || data == old(data) - {key}
      ensures e.Some? ==> data == old(data)
    {
      if key in data && !Alive(data[key], now) {
        data := data - {key};
        return None;
      }
      e := if key in data then Some(data[key]) else None;
    }

    method Get(key: string, now: real) returns (r: Option<Value>)
      modifies `data
      ensures Found(r) == Do(old(data), Op.Get(key), now).1 && Same(data, Do(old(data), Op.Get(key), now).0, now)
    {
      var e := LiveEntry(key, now);
      r := if e.Some? then Some(e.value.value) else None;
    }

    method Set(key: string, value: Value, ttl: Option<real>, now: real)
      modifies this
      ensures Same(data, Do(old(data), Op.Set(key, value, ttl), now).0, now)
    {
      data := data[key := Entry(value, Expiry(ttl, now))];
      MaybeSweep(now);
    }

    method Delete(key: string)
      modifies `data
      ensures forall now :: Same(data, Do(old(data), Op.Delete(key), now).0, now)
    {
      data := data - {key};
    }

    /** The live keys under *prefix*'s path. */
    method List(prefix: string, now: real) returns (r: set<string>)
      ensures Keys(r) == Do(data, Op.List(prefix), now).1
    {
      var path := Normalize(prefix);
      r := {};
      var left := data.Keys;
      while left != {}
        invariant left <= data.Keys
        invariant r == set key | key in data && key !in left && Alive(data[key], now) && InNamespace(key, path)
        decreases left
      {
        var key :| key in left;
        left := left - {key};
        if InNamespace(key, path) && Alive(data[key], now) {
          r := r + {key};
        }
      }
    }

    /** Adds to the log at *key*; refused, changing nothing a caller can see, unless past its last position. */
    method Append(key: string, position: int, item: int, ttl: Option<real>, now: real) returns (ok: bool)
      modifies this
      ensures var op := Op.Append(key, position, item, ttl);
              Accepted(ok) == Do(old(data), op, now).1 && Same(data, Do(old(data), op, now).0, now)
    {
      var e := LiveEntry(key, now);
      var entries := if e.Some? && e.value.value.Log? then e.value.value.entries else [];
      if entries != [] && entries[|entries| - 1].0 >= position {
        return false;
      }
      data := data[key := Entry(Log(entries + [(position, item)]), Expiry(ttl, now))];
      ghost var appended := data;
      MaybeSweep(now);
      assert Same(appended, Appended(old(data), key, position, item, ttl, now), now);
      ok := true;
    }

    method AppendAndSet(log: string, position: int, item: int, key: string, value: Value, ttl: Option<real>, ifExists: bool,
                        checked: real, appended: real, now: real) returns (ok: bool)
      requires checked <= appended <= now
      modifies this
      ensures var op := Op.AppendAndSet(log, position, item, key, value, ttl, ifExists, checked, appended);
              Accepted(ok) == Do(old(data), op, now).1 && Same(data, Do(old(data), op, now).0, now)
    {
      ghost var start := data;
      if ifExists {
        var e := LiveEntry(key, checked);
        if e.None? {
          return false;
        }
      }
      assert Same(data, start, appended);
      ghost var before := data;
      ok := Append(log, position, item, ttl, appended);
      DoSame(before, start, Op.Append(log, position, item, ttl), appended, appended);
      if ok {
        ghost var after := data;
        Set(key, value, ttl, now);
        DoSame(after, Appended(start, log, position, item, ttl, appended), Op.Set(key, value, ttl), appended, now);
      }
    }

    method ReadRange(key: string, start: int, end: Option<int>, now: real) returns (r: seq<int>)
      modifies `data
      ensures var op := Op.ReadRange(key, start, end);
              Items(r) == Do(old(data), op, now).1 && Same(data, Do(old(data), op, now).0, now)
    {
      var e := LiveEntry(key, now);
      var entries := if e.Some? && e.value.value.Log? then e.value.value.entries else [];
      r := [];
      for k := 0 to |entries|
        invariant r == Between(entries[..k], start, end)
      {
        assert entries[..k + 1][..k] == entries[..k];
        if InRange(entries[k].0, start, end) {
          r := r + [entries[k].1];
        }
      }
      assert entries[..|entries|] == entries;
    }

    method Expire(key: string, seconds: real, now: real)
      modifies `data
      ensures Same(data, Do(old(data), Op.Expire(key, seconds), now).0, now)
    {
      var e := LiveEntry(key, now);
      if e.Some? {
        data := data[key := Entry(e.value.value, Some(now + seconds))];
      }
    }
  }

  // --- Whole runs ---

  /** A call as the store made it: the data it left and its answer are the timed map's, up to what is expired. */
  datatype Made = Made(op: Op, now: real, left: Timed, answer: Answer)

  ghost predicate Plays(start: Timed, before: real, calls: seq<Made>)
    decreases |calls|
  {
    calls != [] ==>
      Timely(calls[0].op, before, calls[0].now) &&
      Same(calls[0].left, Do(start, calls[0].op, calls[0].now).0, calls[0].now) &&
      calls[0].answer == Do(start, calls[0].op, calls[0].now).1 &&
      Plays(calls[0].left, calls[0].now, calls[1..])
  }

  function Answers(d: Timed, calls: seq<Made>): seq<Answer>
    decreases |calls|
  {
    if calls == [] then [] else
      var r := Do(d, calls[0].op, calls[0].now);
      [r.1] + Answers(r.0, calls[1..])
  }

  /** Over any run the store answers as the timed map that never deletes an expired key would: neither the lazy deletes
      nor the sweep can be seen. */
  lemma {:induction false} ExpiryUnseen(start: Timed, d: Timed, before: real, calls: seq<Made>)
    requires Plays(start, before, calls) && Same(start, d, before)
    ensures Answers(d, calls) == seq(|calls|, i requires 0 <= i < |calls| => calls[i].answer)
    decreases |calls|
  {
    if calls != [] {
      var c := calls[0];
      DoSame(start, d, c.op, before, c.now);
      ExpiryUnseen(c.left, Do(d, c.op, c.now).0, c.now, calls[1..]);
    }
  }

  // --- Logs ---

  ghost predicate Rising(entries: seq<(int, int)>) {
    forall i, j :: 0 <= i < j < |entries| ==> entries[i].0 < entries[j].0
  }

  /** What is stored by set is no log but one whose positions rise. */
  ghost predicate RisingLogs(d: Timed) { forall key :: key in d && d[key].value.Log? ==> Rising(d[key].value.entries) }

  /** Every call keeps each log's positions strictly rising. */
  lemma LogsRise(d: Timed, op: Op, now: real)
    requires RisingLogs(d) && ((op.Set? || op.AppendAndSet?) && op.value.Log? ==> Rising(op.value.entries))
    ensures RisingLogs(Do(d, op, now).0)
  {
  }

  /** The items at the places *from* up to *to*. */
  function Slice(entries: seq<(int, int)>, from: nat, to: nat): seq<int>
    requires from <= to <= |entries|
  {
    seq(to - from, i requires 0 <= i < to - from => entries[from + i].1)
  }

  lemma SliceMore(entries: seq<(int, int)>, from: nat)
    requires from < |entries|
    ensures Slice(entries, from, |entries|) == Slice(entries[..|entries| - 1], from, |entries| - 1) + [entries[|entries| - 1].1]
  {
  }

  lemma SliceShort(entries: seq<(int, int)>, n: nat, from: nat, to: nat)
    requires from <= to <= n <= |entries|
    ensures Slice(entries[..n], from, to) == Slice(entries, from, to)
  {
  }

  /** The places *from* up to *to* are those of the positions in range. */
  ghost predicate Ranged(entries: seq<(int, int)>, start: int, end: Option<int>, from: nat, to: nat) {
    from <= to <= |entries| && forall i :: 0 <= i < |entries| ==> (from <= i < to <==> InRange(entries[i].0, start, end))
  }

  lemma RangedMore(entries: seq<(int, int)>, start: int, end: Option<int>, from: nat, to: nat) returns (from': nat, to': nat)
    requires entries != [] && Rising(entries) && Ranged(entries[..|entries| - 1], start, end, from, to)
    ensures Ranged(entries, start, end, from', to')
    ensures InRange(entries[|entries| - 1].0, start, end) ==> to' == |entries| && from' == if from == to then |entries| - 1 else from
    ensures InRange(entries[|entries| - 1].0, start, end) && from < to ==> to == |entries| - 1
    ensures !InRange(entries[|entries| - 1].0, start, end) ==> from' == from && to' == to
  {
    var last := |entries| - 1;
    assert forall i :: 0 <= i < last ==> (from <= i < to <==> InRange(entries[..last][i].0, start, end)) && entries[..last][i] == entries[i];
    from', to' := from, to;
    if InRange(entries[last].0, start, end) {
      from', to' := if from == to then last else from, last + 1;
      if from < to {
        assert InRange(entries[..last][to - 1].0, start, end);
        var next := if to < last then to else last;
        assert InRange(entries[next].0, start, end);
      }
    }
  }

  /** A range read answers the items of exactly the positions in range, in the order of their positions. */
  lemma {:induction false} RangeIs(entries: seq<(int, int)>, start: int, end: Option<int>) returns (from: nat, to: nat)
    requires Rising(entries)
    ensures Ranged(entries, start, end, from, to) && Between(entries, start, end) == Slice(entries, from, to)
  {
    if entries == [] {
      return 0, 0;
    }
    var last := |entries| - 1;
    var from0, to0 := RangeIs(entries[..last], start, end);
    SliceShort(entries, last, from0, to0);
    from, to := RangedMore(entries, start, end, from0, to0);
    if InRange(entries[last].0, start, end) {
      SliceMore(entries, from);
      assert from0 == to0 ==> Slice(entries[..last], from0, to0) == Slice(entries[..last], last, last);
    } else {
      assert Between(entries, start, end) == Between(entries[..last], start, end);
    }
  }

  /** What is appended is read back: the range from its position holds it last. */
  lemma AppendReads(d: Timed, key: string, position: int, item: int, ttl: Option<real>, now: real)
    requires Takes(LogAt(d, key, now), position) && (ttl.Some? ==> ttl.value > 0.0) && RisingLogs(d)
    ensures Do(Do(d, Append(key, position, item, ttl), now).0, ReadRange(key, position, None), now).1 == Items([item])
  {
    var entries := LogAt(d, key, now);
    AppendLeaves(d, key, position, item, ttl, now);
    OnlyPast(entries, position);
    LastRead(entries, position, item);
  }

  lemma AppendLeaves(d: Timed, key: string, position: int, item: int, ttl: Option<real>, now: real)
    requires Takes(LogAt(d, key, now), position) && (ttl.Some? ==> ttl.value > 0.0)
    ensures LogAt(Do(d, Append(key, position, item, ttl), now).0, key, now) == LogAt(d, key, now) + [(position, item)]
  {
    var entries := LogAt(d, key, now);
    assert Live(Do(d, Append(key, position, item, ttl), now).0, key, now) == Some(Entry(Log(entries + [(position, item)]), Expiry(ttl, now)));
  }

  lemma LastRead(entries: seq<(int, int)>, position: int, item: int)
    requires Between(entries, position, None) == []
    ensures Between(entries + [(position, item)], position, None) == [item]
  {
    assert (entries + [(position, item)])[..|entries|] == entries;
  }

  lemma {:induction false} OnlyPast(entries: seq<(int, int)>, position: int)
    requires Rising(entries) && Takes(entries, position)
    ensures Between(entries, position, None) == []
  {
    if entries != [] {
      OnlyPast(entries[..|entries| - 1], position);
    }
  }

  // --- A log over a whole run ---

  /** No call that puts another value at *key* or deletes it. */
  predicate SparesLog(op: Op, key: string) {
    match op
    case Set(k, _, _) => k != key
    case Delete(k) => k != key
    case AppendAndSet(_, _, _, k, _, _, _, _, _) => k != key
    case _ => true
  }

  /** Nothing else is put at *key*, nor is it deleted, nor found expired by a call. */
  ghost predicate Lasts(d: Timed, key: string, calls: seq<Made>)
    decreases |calls|
  {
    calls != [] ==>
      SparesLog(calls[0].op, key) && (key in d ==> Alive(d[key], calls[0].now)) &&
      Lasts(Do(d, calls[0].op, calls[0].now).0, key, calls[1..])
  }

  /** What a call added to the log, by its own answer. */
  function TakenBy(key: string, c: Made): seq<(int, int)> {
    if c.answer != Accepted(true) then []
    else if c.op.Append? && c.op.key == key then [(c.op.position, c.op.item)]
    else if c.op.AppendAndSet? && c.op.log == key then [(c.op.position, c.op.item)]
    else []
  }

  /** The entries accepted, in the order of the calls. */
  function Taken(key: string, calls: seq<Made>): seq<(int, int)> {
    if calls == [] then [] else TakenBy(key, calls[0]) + Taken(key, calls[1..])
  }

  /** The log at *key*, expired or not. */
  function Held(d: Timed, key: string): seq<(int, int)> { if key in d && d[key].value.Log? then d[key].value.entries else [] }

  lemma RisingMore(entries: seq<(int, int)>, position: int, item: int)
    requires Rising(entries) && Takes(entries, position)
    ensures Rising(entries + [(position, item)]) == true
  {
  }

  lemma AppendTakes(d: Timed, key: string, c: Made)
    requires c.op.Append? && c.op.key == key && (key in d ==> Alive(d[key], c.now)) && Rising(Held(d, key)) == true && c.answer == Do(d, c.op, c.now).1
    ensures Held(Do(d, c.op, c.now).0, key) == Held(d, key) + TakenBy(key, c) && Rising(Held(Do(d, c.op, c.now).0, key)) == true
  {
    assert LogAt(d, key, c.now) == Held(d, key);
    if Takes(Held(d, key), c.op.position) {
      RisingMore(Held(d, key), c.op.position, c.op.item);
    }
  }

  lemma RecordTakes(d: Timed, key: string, c: Made)
    requires c.op.AppendAndSet? && c.op.log == key && c.op.key != key && (key in d ==> Alive(d[key], c.now)) && c.op.appended <= c.now
    requires Rising(Held(d, key)) == true && c.answer == Do(d, c.op, c.now).1
    ensures Held(Do(d, c.op, c.now).0, key) == Held(d, key) + TakenBy(key, c) && Rising(Held(Do(d, c.op, c.now).0, key)) == true
  {
    assert LogAt(d, key, c.op.appended) == Held(d, key);
    if Takes(Held(d, key), c.op.position) {
      RisingMore(Held(d, key), c.op.position, c.op.item);
    }
  }

  lemma CallTakes(d: Timed, key: string, c: Made)
    requires SparesLog(c.op, key) && (key in d ==> Alive(d[key], c.now)) && (c.op.AppendAndSet? ==> c.op.appended <= c.now)
    requires c.answer == Do(d, c.op, c.now).1 && Rising(Held(d, key)) == true
    ensures Held(Do(d, c.op, c.now).0, key) == Held(d, key) + TakenBy(key, c) && Rising(Held(Do(d, c.op, c.now).0, key)) == true
  {
    if c.op.Append? && c.op.key == key {
      AppendTakes(d, key, c);
    } else if c.op.AppendAndSet? && c.op.log == key {
      RecordTakes(d, key, c);
    } else {
      assert Held(Do(d, c.op, c.now).0, key) == Held(d, key) == Held(d, key) + [];
    }
  }

  /** What *held* and the calls before the last come to. */
  function Sum(held: seq<(int, int)>, key: string, calls: seq<Made>): seq<(int, int)>
    requires calls != []
  {
    held + Taken(key, calls[..|calls| - 1])
  }

  lemma SumOn(held: seq<(int, int)>, key: string, calls: seq<Made>)
    requires |calls| > 1
    ensures Sum(held, key, calls) == Sum(held + TakenBy(key, calls[0]), key, calls[1..])
  {
    assert calls[..|calls| - 1][1..] == calls[1..][..|calls[1..]| - 1];
  }

  lemma SumOne(held: seq<(int, int)>, key: string, calls: seq<Made>)
    requires |calls| == 1
    ensures Sum(held, key, calls) == held
  {
  }

  /** A range read answers the items of exactly the entries in range, in their order. */
  ghost predicate Reads(taken: seq<(int, int)>, read: Made, from: nat, to: nat) {
    read.op.ReadRange? && Ranged(taken, read.op.start, read.op.end, from, to) && read.answer == Items(Slice(taken, from, to))
  }

  lemma ReadsNow(d: Timed, key: string, c: Made) returns (from: nat, to: nat)
    requires c.op.ReadRange? && c.op.key == key && (key in d ==> Alive(d[key], c.now)) && Rising(Held(d, key)) && c.answer == Do(d, c.op, c.now).1
    ensures Reads(Held(d, key), c, from, to)
  {
    from, to := RangeIs(Held(d, key), c.op.start, c.op.end);
    assert Held(d, key) == LogAt(d, key, c.now);
  }

  /** A run's first call, made of *start*, and of *d* that no call can tell from it. */
  lemma CallLeads(start: Timed, d: Timed, before: real, key: string, calls: seq<Made>)
    requires calls != [] && Plays(start, before, calls) && Same(start, d, before) == true && Lasts(d, key, calls) && Rising(Held(d, key))
    ensures var c, d' := calls[0], Do(d, calls[0].op, calls[0].now).0;
            c.answer == Do(d, c.op, c.now).1 && Plays(c.left, c.now, calls[1..]) == true && Same(c.left, d', c.now) == true &&
            Lasts(d', key, calls[1..]) == true && Held(d', key) == Held(d, key) + TakenBy(key, c) && Rising(Held(d', key)) == true
  {
    var c := calls[0];
    DoSame(start, d, c.op, before, c.now);
    CallTakes(d, key, c);
    SameThrough(c.left, Do(start, c.op, c.now).0, Do(d, c.op, c.now).0, c.now);
  }

  lemma SameThrough(a: Timed, b: Timed, c: Timed, now: real)
    requires Same(a, b, now) && Same(b, c, now)
    ensures Same(a, c, now) == true
  {
  }

  lemma {:induction false} ReadsOn(start: Timed, d: Timed, before: real, key: string, calls: seq<Made>) returns (from: nat, to: nat)
    requires calls != [] && calls[|calls| - 1].op.ReadRange? && calls[|calls| - 1].op.key == key
    requires Plays(start, before, calls) == true && Same(start, d, before) == true && Lasts(d, key, calls) == true && Rising(Held(d, key)) == true
    ensures Rising(Sum(Held(d, key), key, calls)) == true && Reads(Sum(Held(d, key), key, calls), calls[|calls| - 1], from, to) == true
    decreases |calls|
  {
    CallLeads(start, d, before, key, calls);
    if |calls| == 1 {
      SumOne(Held(d, key), key, calls);
      from, to := ReadsNow(d, key, calls[0]);
    } else {
      SumOn(Held(d, key), key, calls);
      from, to := ReadsOn(calls[0].left, Do(d, calls[0].op, calls[0].now).0, calls[0].now, key, calls[1..]);
    }
  }

  /** Over any run from a store without *key*, up to a range read of it: if nothing else is put there and it is neither deleted
      nor expired, the positions accepted rise, and the read answers the items of exactly those in range, in their order. */
  lemma ReadsAllTaken(start: Timed, before: real, key: string, calls: seq<Made>) returns (from: nat, to: nat)
    requires calls != [] && calls[|calls| - 1].op.ReadRange? && calls[|calls| - 1].op.key == key
    requires Plays(start, before, calls) && key !in start && Lasts(start, key, calls)
    ensures Rising(Taken(key, calls[..|calls| - 1])) && Reads(Taken(key, calls[..|calls| - 1]), calls[|calls| - 1], from, to)
  {
    from, to := ReadsOn(start, start, before, key, calls);
    assert [] + Taken(key, calls[..|calls| - 1]) == Taken(key, calls[..|calls| - 1]);
  }

  // --- What a value's time to live means ---

  /** What a get of *key* answers at *t*. */
  function Got(d: Timed, key: string, t: real): Option<Value> {
    match Do(d, Get(key), t).1
    case Found(value) => value
    case _ => None
  }

  /** The log a get of *key* answers; nothing where it answers none. */
  function GotLog(d: Timed, key: string, t: real): seq<(int, int)> {
    match Got(d, key, t)
    case Some(value) => if value.Log? then value.entries else []
    case None => []
  }

  /** *value*, put at *now* with *ttl* seconds to live, as a get finds it at *t*. */
  function Lasting(value: Value, ttl: Option<real>, now: real, t: real): Option<Value> {
    if ttl.Some? && now + ttl.value <= t then None else Some(value)
  }

  /** A value set is got until its time is up, for good without one; other keys answer as before. */
  lemma SetGets(d: Timed, key: string, value: Value, ttl: Option<real>, now: real, k: string, t: real)
    requires now <= t
    ensures Got(Do(d, Set(key, value, ttl), now).0, k, t) == if k == key then Lasting(value, ttl, now, t) else Got(d, k, t)
  {
  }

  lemma DeleteGets(d: Timed, key: string, now: real, k: string, t: real)
    ensures Got(Do(d, Delete(key), now).0, k, t) == if k == key then None else Got(d, k, t)
  {
  }

  /** A new time to live counts from now, for a key that is still there. */
  lemma ExpireGets(d: Timed, key: string, seconds: real, now: real, k: string, t: real)
    requires now <= t
    ensures Got(Do(d, Expire(key, seconds), now).0, k, t) ==
              if k == key && Got(d, key, now).Some? then Lasting(Got(d, key, now).value, Some(seconds), now, t) else Got(d, k, t)
  {
  }

  /** An append is taken exactly past the last position of the log that a get would answer; the log it makes lives for its own
      time, whatever was left to the old one. */
  lemma AppendGets(d: Timed, key: string, position: int, item: int, ttl: Option<real>, now: real, k: string, t: real)
    requires now <= t
    ensures var entries, r := GotLog(d, key, now), Do(d, Append(key, position, item, ttl), now);
            r.1 == Accepted(entries == [] || entries[|entries| - 1].0 < position) && (r.1 == Accepted(false) ==> r.0 == d) &&
            (r.1 == Accepted(true) ==>
              Got(r.0, k, t) == if k == key then Lasting(Log(entries + [(position, item)]), ttl, now, t) else Got(d, k, t))
  {
    assert GotLog(d, key, now) == LogAt(d, key, now);
  }

  /** An append with its record is taken exactly where the append would be and, if it must, the record is there; then the log
      and the record live for the same time, each from its own write on. */
  lemma RecordGets(d: Timed, op: Op, now: real, k: string, t: real)
    requires op.AppendAndSet? && op.log != op.key && op.checked <= op.appended <= now <= t
    ensures var entries, r := GotLog(d, op.log, op.appended), Do(d, op, now);
            r.1 == Accepted((op.ifExists ==> Got(d, op.key, op.checked).Some?) && (entries == [] || entries[|entries| - 1].0 < op.position)) &&
            (r.1 == Accepted(false) ==> r.0 == d) &&
            (r.1 == Accepted(true) ==>
              Got(r.0, k, t) == if k == op.key then Lasting(op.value, op.ttl, now, t)
                                else if k == op.log then Lasting(Log(entries + [(op.position, op.item)]), op.ttl, op.appended, t) else Got(d, k, t))
  {
    assert GotLog(d, op.log, op.appended) == LogAt(d, op.log, op.appended);
  }

  /** A listing has exactly the keys under the prefix's path that a get would find; a range read reads the log it would. */
  lemma ReadsAsGot(d: Timed, key: string, prefix: string, start: int, end: Option<int>, now: real)
    ensures var listed := Do(d, List(prefix), now).1;
            listed.Keys? && (key in listed.keys <==> Got(d, key, now).Some? && InNamespace(key, Normalize(prefix)))
    ensures Do(d, ReadRange(key, start, end), now) == (d, Items(Between(GotLog(d, key, now), start, end)))
    ensures Do(d, List(prefix), now).0 == d && Do(d, Get(key), now).0 == d
  {
    assert GotLog(d, key, now) == LogAt(d, key, now);
  }

  /** No call that writes *key*. */
  predicate Spares(op: Op, key: string) {
    match op
    case Set(k, _, _) => k != key
    case Delete(k) => k != key
    case Append(k, _, _, _) => k != key
    case AppendAndSet(log, _, _, k, _, _, _, _, _) => log != key && k != key
    case Expire(k, _) => k != key
    case _ => true
  }

  lemma SparedLive(d: Timed, op: Op, now: real, key: string, t: real)
    requires Spares(op, key)
    ensures Live(Do(d, op, now).0, key, t) == Live(d, key, t)
  {
  }

  lemma {:induction false} GetsOn(start: Timed, d: Timed, before: real, key: string, calls: seq<Made>)
    requires calls != [] && Plays(start, before, calls) && Same(start, d, before) == true && calls[|calls| - 1].op == Get(key)
    requires forall i :: 0 <= i < |calls| - 1 ==> Spares(calls[i].op, key)
    ensures before <= calls[|calls| - 1].now && calls[|calls| - 1].answer == Found(Got(d, key, calls[|calls| - 1].now))
    decreases |calls|
  {
    var c, rest := calls[0], calls[1..];
    DoSame(start, d, c.op, before, c.now);
    if rest != [] {
      GoesOn(start, d, before, key, calls);
      GetsOn(c.left, Do(d, c.op, c.now).0, c.now, key, rest);
      SparedLive(d, c.op, c.now, key, calls[|calls| - 1].now);
    }
  }

  lemma GoesOn(start: Timed, d: Timed, before: real, key: string, calls: seq<Made>)
    requires |calls| > 1 && Plays(start, before, calls) && Same(Do(start, calls[0].op, calls[0].now).0, Do(d, calls[0].op, calls[0].now).0, calls[0].now)
    requires forall i :: 0 <= i < |calls| - 1 ==> Spares(calls[i].op, key)
    ensures Plays(calls[0].left, calls[0].now, calls[1..]) && Same(calls[0].left, Do(d, calls[0].op, calls[0].now).0, calls[0].now) == true
    ensures before <= calls[0].now && forall i :: 0 <= i < |calls[1..]| - 1 ==> Spares(calls[1..][i].op, key)
  {
    SameThrough(calls[0].left, Do(start, calls[0].op, calls[0].now).0, Do(d, calls[0].op, calls[0].now).0, calls[0].now);
    assert forall i :: 0 <= i < |calls[1..]| ==> calls[1..][i] == calls[i + 1];
  }

  /** Over any run from a set to a get of the same key with no write of it between, sweeps and lazy deletes included: the value
      is got while its time lasts and not from then on. */
  lemma SetLasts(start: Timed, before: real, key: string, value: Value, ttl: Option<real>, calls: seq<Made>)
    requires |calls| > 1 && Plays(start, before, calls) && calls[0].op == Set(key, value, ttl) && calls[|calls| - 1].op == Get(key)
    requires forall i :: 0 < i < |calls| - 1 ==> Spares(calls[i].op, key)
    ensures var put, get := calls[0].now, calls[|calls| - 1];
            get.answer == Found(if ttl.None? || get.now < put + ttl.value then Some(value) else None)
  {
    var c, rest := calls[0], calls[1..];
    assert forall i :: 0 <= i < |rest| - 1 ==> Spares(calls[i + 1].op, key) && rest[i] == calls[i + 1];
    GetsOn(c.left, Do(start, c.op, c.now).0, c.now, key, rest);
    SetGets(start, key, value, ttl, c.now, key, calls[|calls| - 1].now);
  }
}
