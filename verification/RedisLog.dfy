/** The Redis store's optimistic append-and-set against one atomic step, with other clients between any two commands. */
module RedisLog {
  import opened Wrappers

  datatype Value = Record(data: int) | Stream(entries: seq<(nat, int)>)

  /** The keys' values, and how often each key has been written: what WATCH goes by. */
  datatype Server = Server(data: map<string, Value>, writes: map<string, nat>)
  {
    function At(key: string): Option<Value> { if key in data then Some(data[key]) else None }

    function Writes(key: string): nat { if key in writes then writes[key] else 0 }

    function Drop(key: string): Server { Server(data - {key}, writes[key := Writes(key) + 1]) }

    function Put(key: string, value: Value): Server { Server(data[key := value], writes[key := Writes(key) + 1]) }

    /** The stream at *key*; empty where there is none. */
    function Log(key: string): seq<(nat, int)> { if key in data && data[key].Stream? then data[key].entries else [] }
  }

  /** Redis takes a stream entry only past the stream's top; None is its "equal or smaller" error. */
  function Xadd(s: Server, key: string, position: nat, item: int): Option<Server> {
    var entries := s.Log(key);
    if entries != [] && entries[|entries| - 1].0 >= position then None
    else Some(s.Put(key, Stream(entries + [(position, item)])))
  }

  datatype Call = Call(log: string, position: nat, item: int, key: string, value: int, ifExists: bool)

  /** Why a call is refused at *s*, in the order the checks are made. */
  predicate Missing(s: Server, c: Call) { c.ifExists && c.key !in s.data }

  predicate Past(s: Server, c: Call) { s.Log(c.log) != [] ==> s.Log(c.log)[|s.Log(c.log)| - 1].0 < c.position }

  /** The call as one atomic step. */
  function Atomic(s: Server, c: Call): (Server, bool) {
    if Missing(s, c) || !Past(s, c) then (s, false)
    else (Xadd(s, c.log, c.position, c.item).value.Put(c.key, Record(c.value)), true)
  }

  /** The atomic step is taken exactly if the record is there, where it must be, and the position is past the log's last; then the
      log has the entry behind its others, the record its value, and no other key changes. */
  lemma AtomicIs(s: Server, c: Call, key: string)
    requires c.log != c.key
    ensures var (t, ok), log := Atomic(s, c), s.Log(c.log);
            (ok <==> (c.ifExists ==> c.key in s.data) && (log == [] || log[|log| - 1].0 < c.position)) && (!ok ==> t == s) &&
            (ok ==> t.At(c.log) == Some(Stream(log + [(c.position, c.item)])) && t.At(c.key) == Some(Record(c.value)) &&
                    (key != c.log && key != c.key ==> t.At(key) == s.At(key)))
  {
  }

  /** Others' commands between two states: a key whose count of writes stands still has not changed. */
  ghost predicate Between(a: Server, b: Server) {
    forall key :: a.Writes(key) <= b.Writes(key) && (a.Writes(key) == b.Writes(key) ==> a.At(key) == b.At(key))
  }

  /** The server as each command of one round finds it: WATCH, EXISTS, XREVRANGE and EXEC. */
  datatype Round = Round(watched: Server, checked: Server, topped: Server, executed: Server)

  ghost predicate InOrder(r: Round) {
    Between(r.watched, r.checked) && Between(r.checked, r.topped) && Between(r.topped, r.executed)
  }

  /** A watched key was written before EXEC. */
  predicate Disturbed(r: Round, c: Call) {
    r.watched.Writes(c.log) != r.executed.Writes(c.log) || r.watched.Writes(c.key) != r.executed.Writes(c.key)
  }

  /** Undisturbed, what the checks saw is what EXEC finds. */
  lemma ChecksHold(r: Round, c: Call)
    requires InOrder(r) && !Disturbed(r, c)
    ensures r.checked.At(c.key) == r.executed.At(c.key) && r.topped.Log(c.log) == r.executed.Log(c.log)
  {
    assert r.watched.Writes(c.key) <= r.checked.Writes(c.key) <= r.topped.Writes(c.key) <= r.executed.Writes(c.key);
    assert r.watched.Writes(c.log) <= r.checked.Writes(c.log) <= r.topped.Writes(c.log) <= r.executed.Writes(c.log);
    assert r.topped.At(c.log) == r.executed.At(c.log);
  }

  /** Undisturbed and unrefused, what EXEC writes is the atomic step there. */
  lemma ExecIsAtomic(r: Round, c: Call)
    requires InOrder(r) && !Disturbed(r, c) && !Missing(r.checked, c) && Past(r.topped, c)
    ensures var added := Xadd(r.executed, c.log, c.position, c.item);
            added.Some? && (added.value.Put(c.key, Record(c.value)), true) == Atomic(r.executed, c)
  {
    ChecksHold(r, c);
    assert r.checked.At(c.key) == r.executed.At(c.key);
  }

  /** The optimistic loop over the rounds it gets; None when others disturbed every one of them. A yes is the atomic step
      at the last round's EXEC; a no is the atomic step's at the check that refused, and wrote nothing. */
  method AppendAndSet(rounds: seq<Round>, c: Call) returns (r: Option<bool>, left: Server, n: nat)
    requires rounds != [] && forall i :: 0 <= i < |rounds| ==> InOrder(rounds[i])
    ensures n <= |rounds| && (r.None? <==> n == |rounds|)
    ensures forall i :: 0 <= i < n ==> Disturbed(rounds[i], c)
    ensures r == Some(true) ==> (left, true) == Atomic(rounds[n].executed, c)
    ensures r == Some(false) ==> (Atomic(rounds[n].checked, c).1 == false && left == rounds[n].checked) ||
                                 (Atomic(rounds[n].topped, c).1 == false && left == rounds[n].topped)
    ensures r.None? ==> left == rounds[|rounds| - 1].executed
  {
    n := 0;
    left := rounds[0].watched;
    while n < |rounds|
      invariant n <= |rounds| && (forall i :: 0 <= i < n ==> Disturbed(rounds[i], c))
      invariant n > 0 ==> left == rounds[n - 1].executed
    {
      var round := rounds[n];
      if c.ifExists && c.key !in round.checked.data {
        return Some(false), round.checked, n;
      }
      var top := round.topped.Log(c.log);
      if top != [] && top[|top| - 1].0 >= c.position {
        return Some(false), round.topped, n;
      }
      if !Disturbed(round, c) {
        ExecIsAtomic(round, c);
        var added := Xadd(round.executed, c.log, c.position, c.item);
        return Some(true), added.value.Put(c.key, Record(c.value)), n;
      }
      left := round.executed;
      n := n + 1;
    }
    r := None;
  }

  // --- Logs under any clients ---

  ghost predicate Rising(entries: seq<(nat, int)>) { forall i, j :: 0 <= i < j < |entries| ==> entries[i].0 < entries[j].0 }

  ghost predicate RisingLogs(s: Server) { forall key :: Rising(s.Log(key)) }

  /** The writes clients make: an append, an append with its record, a record alone, or a delete. */
  datatype Write = Add(key: string, position: nat, item: int) | AddAndSet(call: Call) | SetRecord(key: string, value: int) | Delete(key: string)

  function Written(s: Server, w: Write): Server {
    match w
    case Add(key, position, item) => if Xadd(s, key, position, item).Some? then Xadd(s, key, position, item).value else s
    case AddAndSet(call) => Atomic(s, call).0
    case SetRecord(key, value) => s.Put(key, Record(value))
    case Delete(key) => s.Drop(key)
  }

  function After(s: Server, ws: seq<Write>): Server {
    if ws == [] then s else Written(After(s, ws[..|ws| - 1]), ws[|ws| - 1])
  }

  lemma PutRises(s: Server, key: string, value: Value)
    requires RisingLogs(s) && (value.Stream? ==> Rising(value.entries))
    ensures RisingLogs(s.Put(key, value)) == true
  {
    forall k
      ensures Rising(s.Put(key, value).Log(k))
    {
      assert Rising(s.Log(k));
    }
  }

  lemma DropRises(s: Server, key: string)
    requires RisingLogs(s)
    ensures RisingLogs(s.Drop(key)) == true
  {
    forall k
      ensures Rising(s.Drop(key).Log(k))
    {
      assert Rising(s.Log(k));
    }
  }

  lemma AddRises(s: Server, key: string, position: nat, item: int)
    requires RisingLogs(s) && Xadd(s, key, position, item).Some?
    ensures RisingLogs(Xadd(s, key, position, item).value) == true
  {
    assert Rising(s.Log(key));
    PutRises(s, key, Stream(s.Log(key) + [(position, item)]));
  }

  lemma WriteRises(s: Server, w: Write)
    requires RisingLogs(s) == true
    ensures RisingLogs(Written(s, w)) == true
  {
    match w
    case Add(key, position, item) =>
      if Xadd(s, key, position, item).Some? {
        AddRises(s, key, position, item);
      }
    case AddAndSet(c) =>
      if Atomic(s, c).1 {
        AddRises(s, c.log, c.position, c.item);
        PutRises(Xadd(s, c.log, c.position, c.item).value, c.key, Record(c.value));
      }
    case SetRecord(key, value) => PutRises(s, key, Record(value));
    case Delete(key) => DropRises(s, key);
  }

  lemma WriteBetween(s: Server, w: Write)
    ensures Between(s, Written(s, w)) == true
  {
  }

  /** However clients' calls interleave, every log's positions rise strictly. */
  lemma {:induction false} LogsRise(s: Server, ws: seq<Write>)
    requires RisingLogs(s)
    ensures RisingLogs(After(s, ws)) == true && Between(s, After(s, ws))
  {
    if ws != [] {
      LogsRise(s, ws[..|ws| - 1]);
      WriteRises(After(s, ws[..|ws| - 1]), ws[|ws| - 1]);
      WriteBetween(After(s, ws[..|ws| - 1]), ws[|ws| - 1]);
    }
  }
}
