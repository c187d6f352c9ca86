/** Clients of the download lease over time: what keeps two of them from downloading under one key. */
module DownloadRuns {
  import opened Wrappers
  import opened DownloadLeases

  /** A client's stand. *until* is when the lease it counts on can expire at the earliest. */
  datatype Stand =
    // its acquire was granted, the answer is on its way
    | Granted(until: real, replyBy: real)
    // in the download, until its next renewal is sent
    | Downloading(until: real, wake: real)
    // in the download, waiting for the renewal sent at *sent*
    | Renewing(until: real, sent: real)
    // done, waiting for its release to be answered
    | Releasing(until: real, giveUp: real)
  {
    predicate Transfers() { Downloading? || Renewing? }
  }

  datatype Client = Client(key: string, stand: Stand)

  datatype Message =
    // a renewal, sent at *sent*; a renewal's yes, of a service that handled it then
    | RenewSent(key: string, holder: string, sent: real) | RenewedAt(holder: string, sent: real)
    | ReleaseSent(key: string, holder: string)

  datatype State = State(
    now: real,
    // None while no service is alive
    service: Option<Service>,
    // the clients granted a lease and still alive, by holder
    clients: map<string, Client>,
    // holders whose grant was answered, or is on its way
    used: set<string>,
    messages: set<Message>)

  /** The last instant *stand* can still stand at. */
  function Deadline(stand: Stand): real {
    match stand
    case Granted(_, replyBy) => replyBy
    case Downloading(_, wake) => wake
    case Renewing(_, sent) => sent + RPC_TIMEOUT
    case Releasing(_, giveUp) => giveUp
  }

  datatype Act =
    | Wait(now: real) | Create | Crash
    | Ask(key: string, holder: string) | Retry(holder: string) | Reply(holder: string) | SendRenewal(holder: string) | Renewal(m: Message) | Answer(m: Message)
    | Lose(holder: string) | Finish(holder: string) | Release(m: Message) | Leave(holder: string)
    | Reap | Clean(key: string)

  /** A wait that passes no client's deadline; an answer on its way arrives before its own. */
  ghost predicate MayWait(s: State, now: real) {
    s.now <= now && forall h :: h in s.clients ==> now <= Deadline(s.clients[h].stand) && (s.clients[h].stand.Granted? ==> now < s.clients[h].stand.replyBy)
  }

  function Moved(s: State, holder: string, stand: Stand): State
    requires holder in s.clients
  {
    s.(clients := s.clients[holder := s.clients[holder].(stand := stand)])
  }

  /** One step, when acquire answers reach their clients within *reply* seconds of the grant. */
  ghost function Apply(s: State, a: Act, reply: real): Option<State> {
    match a
    case Wait(now) => if MayWait(s, now) then Some(s.(now := now)) else None
    case Create => if s.service.None? then Some(s.(service := Some(Fresh(s.now)))) else None
    case Crash => Some(s.(service := None))
    case Ask(key, holder) =>
      if s.service.None? || holder in s.used then None
      else if s.service.value.Blocks(key, s.now).Some? then Some(s.(service := Some(s.service.value.Acquire(key, holder, s.now))))
      else Some(s.(service := Some(s.service.value.Acquire(key, holder, s.now)), used := s.used + {holder},
                   clients := s.clients[holder := Client(key, Granted(s.now + LEASE_SECONDS, s.now + reply))]))
    // the acquire failed on its way back: its lease, if it is one, is left to expire
    case Retry(holder) =>
      if holder in s.clients && s.clients[holder].stand.Granted? then
        Some(s.(clients := s.clients - {holder}, used := s.used - {holder}))
      else None
    case Reply(holder) =>
      if holder in s.clients && s.clients[holder].stand.Granted? && s.now < s.clients[holder].stand.replyBy then
        Some(Moved(s, holder, Downloading(s.clients[holder].stand.until, s.now + RENEW_SECONDS)))
      else None
    case SendRenewal(holder) =>
      if holder in s.clients && s.clients[holder].stand.Downloading? && s.now == s.clients[holder].stand.wake then
        Some(Moved(s, holder, Renewing(s.clients[holder].stand.until, s.now)).(
               messages := s.messages + {RenewSent(s.clients[holder].key, holder, s.now)}))
      else None
    case Renewal(m) =>
      if m in s.messages && m.RenewSent? then
        Some(if s.service.Some? then
               s.(service := Some(s.service.value.Renew(m.key, m.holder, s.now)),
                  messages := if s.service.value.Holds(m.key, m.holder) then s.messages - {m} + {RenewedAt(m.holder, m.sent)} else s.messages - {m})
             else s.(messages := s.messages - {m}))
      else None
    case Answer(m) =>
      if m in s.messages && m.RenewedAt? && m.holder in s.clients && s.clients[m.holder].stand.Renewing? && s.clients[m.holder].stand.sent == m.sent then
        Some(Moved(s, m.holder, Downloading(m.sent + LEASE_SECONDS, s.now + RENEW_SECONDS)).(messages := s.messages - {m}))
      else None
    // the renewal was refused, failed or timed out: the process exits; or it died by itself
    case Lose(holder) => if holder in s.clients then Some(s.(clients := s.clients - {holder})) else None
    case Finish(holder) =>
      if holder in s.clients && s.clients[holder].stand.Transfers() then
        Some(Moved(s, holder, Releasing(s.clients[holder].stand.until, s.now + RPC_TIMEOUT)).(
               messages := s.messages + {ReleaseSent(s.clients[holder].key, holder)}))
      else None
    case Release(m) =>
      if m in s.messages && m.ReleaseSent? then
        Some(s.(messages := s.messages - {m}, service := if s.service.Some? then Some(s.service.value.Release(m.key, m.holder, s.now)) else None))
      else None
    case Leave(holder) =>
      if holder in s.clients && s.clients[holder].stand.Releasing? then Some(s.(clients := s.clients - {holder})) else None
    case Reap => if s.service.Some? then Some(s.(service := Some(s.service.value.Reap(s.now)))) else None
    case Clean(key) =>
      if s.service.Some? && key in s.service.value.leases && s.service.value.leases[key].cleaning then
        Some(s.(service := Some(s.service.value.Cleaned(key, s.now))))
      else None
  }

  ghost function After(s: State, acts: seq<Act>, reply: real): Option<State> {
    if acts == [] then Some(s) else
      var t := After(s, acts[..|acts| - 1], reply);
      if t.None? then None else Apply(t.value, acts[|acts| - 1], reply)
  }

  ghost predicate Init(s: State) {
    s.service.None? && s.clients == map[] && s.used == {} && s.messages == {}
  }

  ghost predicate Reachable(s: State, reply: real) {
    exists s0, acts :: Init(s0) && After(s0, acts, reply) == Some(s)
  }

  // --- The invariant ---

  /** A client that downloads, or will once its grant's answer arrives. */
  predicate Live(stand: Stand) { stand.Granted? || stand.Transfers() }

  /** While *until* is ahead the service, or one that replaces it, grants *key* to nobody else. */
  predicate Protected(now: real, service: Option<Service>, key: string, holder: string, until: real) {
    until <= now + LEASE_SECONDS &&
    (now < until && service.Some? ==>
      service.value.grantsFrom >= until ||
      (service.value.Holds(key, holder) && service.value.leases[key].expires >= until))
  }

  /** Each stand ends before the lease it counts on can. */
  predicate InTime(now: real, stand: Stand, reply: real) {
    match stand
    case Granted(until, replyBy) => replyBy == until - LEASE_SECONDS + reply && now < replyBy
    case Downloading(until, wake) => now <= wake && wake + RPC_TIMEOUT < until
    case Renewing(until, sent) => sent <= now <= sent + RPC_TIMEOUT && sent + RPC_TIMEOUT < until
    case Releasing(_, _) => true
  }

  /** The client is live, or its release is on its way before its lease can expire. */
  predicate Counts(now: real, messages: set<Message>, holder: string, c: Client) {
    Live(c.stand) || (c.stand.Releasing? && ReleaseSent(c.key, holder) in messages && now < c.stand.until)
  }

  ghost predicate ClientsInv(s: State, reply: real) {
    forall h :: h in s.clients ==>
      h in s.used && InTime(s.now, s.clients[h].stand, reply) &&
      (Counts(s.now, s.messages, h, s.clients[h]) ==> Protected(s.now, s.service, s.clients[h].key, h, s.clients[h].stand.until))
  }

  ghost predicate MessagesInv(s: State) {
    forall m :: m in s.messages ==>
      m.holder in s.used &&
      (m.holder in s.clients ==> !s.clients[m.holder].stand.Granted?) &&
      (!m.ReleaseSent? ==> m.sent <= s.now) &&
      (m.ReleaseSent? && m.holder in s.clients ==> s.clients[m.holder].stand.Releasing?) &&
      (m.RenewedAt? && m.holder in s.clients && s.clients[m.holder].stand.Transfers() ==>
        Protected(s.now, s.service, s.clients[m.holder].key, m.holder, m.sent + LEASE_SECONDS)) &&
      (m.RenewSent? && m.holder in s.clients ==> m.key == s.clients[m.holder].key)
  }

  ghost predicate Exclusive(now: real, messages: set<Message>, clients: map<string, Client>) {
    forall h, h' :: h in clients && h' in clients && clients[h].key == clients[h'].key ==>
      Counts(now, messages, h, clients[h]) && Counts(now, messages, h', clients[h']) ==> h == h'
  }

  ghost predicate Inv(s: State, reply: real) { ClientsInv(s, reply) && MessagesInv(s) && Exclusive(s.now, s.messages, s.clients) }

  lemma WaitKeeps(s: State, now: real, reply: real)
    requires Inv(s, reply) && MayWait(s, now)
    ensures Inv(s.(now := now), reply)
  {
  }

  /** A grant comes only when no client counts on the key. */
  lemma GrantApart(s: State, key: string, reply: real)
    requires Inv(s, reply) && reply <= 15.0 && s.service.Some? && s.service.value.Blocks(key, s.now).None?
    ensures forall h :: h in s.clients && s.clients[h].key == key ==> !Counts(s.now, s.messages, h, s.clients[h])
  {
  }

  lemma AskKeeps(s: State, key: string, holder: string, reply: real)
    requires Inv(s, reply) && 0.0 < reply <= 15.0 && Apply(s, Ask(key, holder), reply).Some?
    ensures Inv(Apply(s, Ask(key, holder), reply).value, reply)
  {
    if s.service.value.Blocks(key, s.now).None? {
      GrantApart(s, key, reply);
    }
  }

  lemma ServiceKeeps(s: State, a: Act, reply: real)
    requires Inv(s, reply) && (a.Create? || a.Crash? || a.Reap? || a.Clean?) && Apply(s, a, reply).Some?
    ensures Inv(Apply(s, a, reply).value, reply)
  {
  }

  lemma ReleaseKeeps(s: State, m: Message, reply: real)
    requires Inv(s, reply) && Apply(s, Release(m), reply).Some?
    ensures Inv(Apply(s, Release(m), reply).value, reply)
  {
  }

  lemma RenewalKeeps(s: State, m: Message, reply: real)
    requires Inv(s, reply) && Apply(s, Renewal(m), reply).Some?
    ensures Inv(Apply(s, Renewal(m), reply).value, reply) == true
  {
  }

  lemma ReplyKeeps(s: State, a: Act, reply: real)
    requires Inv(s, reply) && reply <= 15.0 && (a.Reply? || a.SendRenewal?) && Apply(s, a, reply).Some?
    ensures Inv(Apply(s, a, reply).value, reply)
  {
  }

  lemma AnswerKeeps(s: State, m: Message, reply: real)
    requires Inv(s, reply) && Apply(s, Answer(m), reply).Some?
    ensures Inv(Apply(s, Answer(m), reply).value, reply) == true
  {
  }

  lemma FinishKeeps(s: State, holder: string, reply: real)
    requires Inv(s, reply) && Apply(s, Finish(holder), reply).Some?
    ensures Inv(Apply(s, Finish(holder), reply).value, reply) == true
  {
  }

  lemma GoneKeeps(s: State, a: Act, reply: real)
    requires Inv(s, reply) && (a.Retry? || a.Lose? || a.Leave?) && Apply(s, a, reply).Some?
    ensures Inv(Apply(s, a, reply).value, reply)
  {
  }

  lemma StepKeeps(s: State, a: Act, reply: real)
    requires Inv(s, reply) && 0.0 < reply <= 15.0 && Apply(s, a, reply).Some?
    ensures Inv(Apply(s, a, reply).value, reply)
  {
    match a
    case Wait(now) => WaitKeeps(s, now, reply);
    case Ask(key, holder) => AskKeeps(s, key, holder, reply);
    case Renewal(m) => RenewalKeeps(s, m, reply);
    case Release(m) => ReleaseKeeps(s, m, reply);
    case Answer(m) => AnswerKeeps(s, m, reply);
    case Finish(holder) => FinishKeeps(s, holder, reply);
    case _ =>
      if a.Create? || a.Crash? || a.Reap? || a.Clean? {
        ServiceKeeps(s, a, reply);
      } else if a.Retry? || a.Lose? || a.Leave? {
        GoneKeeps(s, a, reply);
      } else {
        ReplyKeeps(s, a, reply);
      }
  }

  lemma {:induction false} RunKeeps(s0: State, acts: seq<Act>, reply: real)
    requires Init(s0) && 0.0 < reply <= 15.0 && After(s0, acts, reply).Some?
    ensures Inv(After(s0, acts, reply).value, reply)
  {
    if acts != [] {
      RunKeeps(s0, acts[..|acts| - 1], reply);
      StepKeeps(After(s0, acts[..|acts| - 1], reply).value, acts[|acts| - 1], reply);
    }
  }

  /** No two clients download under one key. */
  ghost predicate OneDownload(clients: map<string, Client>) {
    forall h, h' :: h in clients && h' in clients && clients[h].stand.Transfers() && clients[h'].stand.Transfers() && clients[h].key == clients[h'].key ==> h == h'
  }

  /** The client is done, and its release has been handled or lost, or its lease could have expired since. */
  predicate LetGo(s: State, holder: string)
    requires holder in s.clients
  {
    var c := s.clients[holder];
    c.stand.Releasing? && (ReleaseSent(c.key, holder) !in s.messages || c.stand.until <= s.now)
  }

  /** Of two clients whose grants under one key were answered and who have not left, one has let go. */
  ghost predicate OneHolds(s: State) {
    forall h, h' :: h in s.clients && h' in s.clients && s.clients[h].key == s.clients[h'].key && h != h' ==>
      !s.clients[h].stand.Granted? && !s.clients[h'].stand.Granted? ==> LetGo(s, h) || LetGo(s, h')
  }

  lemma NeverTwoDownloads(s: State, reply: real)
    requires 0.0 < reply <= 15.0 && Reachable(s, reply)
    ensures OneDownload(s.clients) && OneHolds(s)
  {
    var s0, acts :| Init(s0) && After(s0, acts, reply) == Some(s);
    RunKeeps(s0, acts, reply);
  }

  // --- Both ways round ---

  lemma Step(s: State, a: Act, reply: real) returns (t: State)
    requires Reachable(s, reply) && Apply(s, a, reply).Some?
    ensures Reachable(t, reply) && Apply(s, a, reply) == Some(t)
  {
    var s0, acts :| Init(s0) && After(s0, acts, reply) == Some(s);
    var more := acts + [a];
    assert more[..|more| - 1] == acts && more[|more| - 1] == a;
    t := Apply(s, a, reply).value;
    assert After(s0, more, reply) == Some(t);
  }

  /** The first client is granted its lease at 30 and downloads from 45 + e on. */
  lemma LateReply(reply: real, e: real) returns (t: State)
    requires 0.0 < e <= 2.0 && 15.0 + e < reply
    ensures Reachable(t, reply) && t.now == 45.0 + e && t.used == {"a"}
    ensures t.service == Some(Service(map["k" := Lease("a", 60.0, false)], 30.0, 30.0, false))
    ensures t.clients == map["a" := Client("k", Downloading(60.0, 55.0 + e))]
  {
    t := State(0.0, None, map[], {}, {});
    assert After(t, [], reply) == Some(t);
    t := Step(t, Create, reply);
    t := Step(t, Wait(30.0), reply);
    t := Step(t, Ask("k", "a"), reply);
    t := Step(t, Wait(45.0 + e), reply);
    t := Step(t, Reply("a"), reply);
  }

  /** Its first renewal is unanswered yet when its lease is reaped. */
  lemma LateRenewal(s: State, reply: real, e: real) returns (t: State)
    requires 0.0 < e <= 2.0 && Reachable(s, reply) && s.now == 45.0 + e
    requires s.service == Some(Service(map["k" := Lease("a", 60.0, false)], 30.0, 30.0, false))
    requires s.clients == map["a" := Client("k", Downloading(60.0, 55.0 + e))]
    ensures Reachable(t, reply) && t.now == 60.0 && t.clients == map["a" := Client("k", Renewing(60.0, 55.0 + e))] && t.used == s.used
    ensures t.service == Some(Service(map["k" := Lease("a", 60.0, true)], 30.0, 30.0, false))
  {
    t := Step(s, Wait(55.0 + e), reply);
    t := Step(t, SendRenewal("a"), reply);
    t := Step(t, Wait(60.0), reply);
    assert t.service.value.Reap(60.0).leases == map["k" := Lease("a", 60.0, true)];
    t := Step(t, Reap, reply);
  }

  /** The next client is granted the key and starts while the first still downloads. */
  lemma NextClient(s: State, reply: real, stand: Stand) returns (t: State)
    requires 0.0 < reply && Reachable(s, reply) && s.now == 60.0 && s.clients == map["a" := Client("k", stand)] && s.used == {"a"}
    requires s.service == Some(Service(map["k" := Lease("a", 60.0, true)], 30.0, 30.0, false))
    ensures Reachable(t, reply)
    ensures t.clients == map["a" := Client("k", stand), "b" := Client("k", Downloading(90.0, 70.0))]
  {
    t := Step(s, Clean("k"), reply);
    t := Step(t, Ask("k", "b"), reply);
    t := Step(t, Reply("b"), reply);
  }

  lemma LateAnswers(reply: real) returns (t: State)
    requires reply > 15.0
    ensures Reachable(t, reply) && !OneDownload(t.clients) && !OneHolds(t)
  {
    var e := if reply - 15.0 < 4.0 then (reply - 15.0) / 2.0 else 2.0;
    t := LateReply(reply, e);
    t := LateRenewal(t, reply, e);
    t := NextClient(t, reply, Renewing(60.0, 55.0 + e));
    assert t.clients["a"].stand.Transfers() && t.clients["b"].stand.Transfers();
  }

  /** The first client is granted its lease at 30 and starts at once. */
  lemma PromptReply(reply: real) returns (t: State)
    requires 0.0 < reply
    ensures Reachable(t, reply) && t.now == 30.0 && t.service == Some(Service(map["k" := Lease("a", 60.0, false)], 30.0, 30.0, false))
    ensures t.used == {"a"} && t.clients == map["a" := Client("k", Downloading(60.0, 40.0))] && t.messages == {}
  {
    t := State(0.0, None, map[], {}, {});
    assert After(t, [], reply) == Some(t);
    t := Step(t, Create, reply);
    t := Step(t, Wait(30.0), reply);
    t := Step(t, Ask("k", "a"), reply);
    t := Step(t, Reply("a"), reply);
  }

  /** It is done at once too, and its release is handled. */
  lemma DoneAtOnce(reply: real) returns (t: State)
    requires 0.0 < reply
    ensures Reachable(t, reply) && t.now == 30.0 && t.service == Some(Service(map[], 30.0, 30.0, false)) && t.used == {"a"}
    ensures t.clients == map["a" := Client("k", Releasing(60.0, 35.0))] && t.messages == {}
  {
    t := PromptReply(reply);
    t := Step(t, Finish("a"), reply);
    assert t.service.value.Release("k", "a", 30.0).leases == map[];
    t := Step(t, Release(ReleaseSent("k", "a")), reply);
  }

  /** With any bound, a client that has let go can still wait for its release's answer while the next one downloads. */
  lemma ReleaseOverlaps(reply: real) returns (t: State)
    requires 0.0 < reply
    ensures Reachable(t, reply) && "a" in t.clients && "b" in t.clients && t.clients["a"].key == t.clients["b"].key
    ensures LetGo(t, "a") && t.clients["b"].stand.Downloading?
  {
    t := DoneAtOnce(reply);
    t := Step(t, Ask("k", "b"), reply);
    t := Step(t, Reply("b"), reply);
  }

  /** Fifteen seconds for an acquire's answer is exactly what mutual exclusion needs. */
  lemma ExclusionNeeds(reply: real)
    requires 0.0 < reply
    ensures (forall s :: Reachable(s, reply) ==> OneDownload(s.clients)) <==> reply <= 15.0
    ensures (forall s :: Reachable(s, reply) ==> OneHolds(s)) <==> reply <= 15.0
  {
    if reply <= 15.0 {
      AllExclusive(reply);
    } else {
      var t := LateAnswers(reply);
    }
  }

  lemma AllExclusive(reply: real)
    requires 0.0 < reply <= 15.0
    ensures forall s :: Reachable(s, reply) ==> OneDownload(s.clients) == true && OneHolds(s) == true
  {
    forall s | Reachable(s, reply)
      ensures OneDownload(s.clients) == true && OneHolds(s) == true
    {
      NeverTwoDownloads(s, reply);
    }
  }

  // --- What is renewed and freed ---

  lemma AfterThree(s: State, a: Act, b: Act, c: Act, reply: real)
    requires Apply(s, a, reply).Some? && Apply(Apply(s, a, reply).value, b, reply).Some?
    ensures After(s, [a, b, c], reply) == Apply(Apply(Apply(s, a, reply).value, b, reply).value, c, reply)
  {
    assert [a, b, c][..2] == [a, b] && [a, b][..1] == [a] && [a][..0] == [];
    assert After(s, [], reply) == Some(s) && After(s, [a], reply) == Apply(s, a, reply);
    assert After(s, [a, b], reply) == Apply(Apply(s, a, reply).value, b, reply);
  }

  /** A client whose renewal is due, at a service that knows its lease, gets another 30 seconds and renews again in 10. */
  lemma RenewsOn(s: State, holder: string, reply: real)
    requires holder in s.clients && s.clients[holder].stand.Downloading? && s.clients[holder].stand.wake == s.now
    requires s.service.Some? && s.service.value.Holds(s.clients[holder].key, holder)
    ensures var key := s.clients[holder].key;
            var t := After(s, [SendRenewal(holder), Renewal(RenewSent(key, holder, s.now)), Answer(RenewedAt(holder, s.now))], reply);
            t.Some? && t.value.clients == s.clients[holder := Client(key, Downloading(s.now + 30.0, s.now + 10.0))] &&
            t.value.service.Some? && t.value.service.value.leases == s.service.value.leases[key := Lease(holder, s.now + 30.0, false)]
  {
    AfterThree(s, SendRenewal(holder), Renewal(RenewSent(s.clients[holder].key, holder, s.now)), Answer(RenewedAt(holder, s.now)), reply);
  }

  /** A client that is done gives its key up as its release is handled: the next one to ask is granted it at once. */
  lemma FreesAtRelease(s: State, holder: string, other: string, reply: real)
    requires holder in s.clients && s.clients[holder].stand.Transfers() && other !in s.used && other != holder
    requires s.service.Some? && s.service.value.Holds(s.clients[holder].key, holder) && !s.service.value.closing && s.service.value.grantsFrom <= s.now
    ensures var key := s.clients[holder].key;
            var t := After(s, [Finish(holder), Release(ReleaseSent(key, holder)), Ask(key, other)], reply);
            t.Some? && other in t.value.clients && t.value.service.Some? && t.value.clients[other] == Client(key, Granted(s.now + 30.0, s.now + reply)) &&
            t.value.service.value.leases == s.service.value.leases[key := Lease(other, s.now + 30.0, false)]
  {
    AfterThree(s, Finish(holder), Release(ReleaseSent(s.clients[holder].key, holder)), Ask(s.clients[holder].key, other), reply);
  }
}
