/** The worker's outbox sweep: every claimed message is handled and settled once, and a compensation
    waits behind the effect it reverses. */
module Sweep {
  import opened Wrappers
  import opened Substrings

  const REVERSAL := "reversal:"

  /** A claimed row; the token names this claim of it. */
  datatype Message = Message(tenant: string, id: string, effect: string, token: nat)

  /** Whether the dispatcher offers the ordering fence, and whether its settlements are fenced by lease. */
  datatype Dispatcher = Dispatcher(aware: bool, fenced: bool)

  datatype Lookup = LookupFailed | Undelivered | Delivered

  /** How the ports answer for one message. */
  datatype Outcome = Outcome(lookup: Lookup, handled: bool, accepted: bool)

  datatype Call =
    | LookedUp(msg: Message, answer: Lookup)
    | Handled(msg: Message, ok: bool)
    | Acked(msg: Message, accepted: bool)
    | Failed(msg: Message, accepted: bool)
    | Deferred(msg: Message, accepted: bool)

  predicate Compensates(m: Message) { StartsWith(m.effect, REVERSAL) }

  /** The effect that a compensation reverses. */
  function Original(m: Message): string
    requires Compensates(m)
  {
    m.effect[|REVERSAL|..]
  }

  /** Where the handling of one message stands. */
  datatype Stage = Unchecked | Cleared | MustAck | MustFail | MustDefer | Settled

  function Entry(d: Dispatcher, m: Message): Stage
  {
    if !Compensates(m) then Cleared else if d.aware then Unchecked else MustFail
  }

  function AfterLookup(answer: Lookup): Stage
  {
    match answer
    case LookupFailed => MustFail
    case Undelivered => MustDefer
    case Delivered => Cleared
  }

  function AfterHandler(ok: bool): Stage { if ok then MustAck else MustFail }

  function Rank(s: Stage): nat
  {
    match s
    case Unchecked => 3
    case Cleared => 2
    case MustAck => 1
    case MustFail => 1
    case MustDefer => 1
    case Settled => 0
  }

  /** The calls still to be made for a message at this stage. */
  function CallsFrom(s: Stage, m: Message, o: Outcome): seq<Call>
    decreases Rank(s)
  {
    match s
    case Unchecked => [LookedUp(m, o.lookup)] + CallsFrom(AfterLookup(o.lookup), m, o)
    case Cleared => [Handled(m, o.handled)] + CallsFrom(AfterHandler(o.handled), m, o)
    case MustAck => [Acked(m, o.accepted)]
    case MustFail => [Failed(m, o.accepted)]
    case MustDefer => [Deferred(m, o.accepted)]
    case Settled => []
  }

  function Calls(d: Dispatcher, m: Message, o: Outcome): seq<Call> { CallsFrom(Entry(d, m), m, o) }

  predicate Settles(c: Call) { c.Acked? || c.Failed? || c.Deferred? }

  /** What the calls for one message promise. The last one, and no other, settles it. An ordinary message is
      handled, and acked or failed as its handler says. A compensation without a fence is failed unhandled;
      with one its original is looked up first: it is handled like any other if that was delivered, deferred
      if not, failed if the lookup failed. */
  ghost predicate Promises(cs: seq<Call>, d: Dispatcher, m: Message)
  {
    && 1 <= |cs| <= 3 && Settles(cs[|cs| - 1])
    && (forall i :: 0 <= i < |cs| ==> cs[i].msg == m)
    && (forall i :: 0 <= i < |cs| - 1 ==> !Settles(cs[i]))
    && (|cs| == 1 <==> Compensates(m) && !d.aware)
    && (|cs| == 1 ==> cs[0].Failed?)
    && (!Compensates(m) ==> |cs| == 2 && HandledAndSettled(cs))
    && (Compensates(m) && d.aware ==>
          && cs[0].LookedUp?
          && match cs[0].answer
             case LookupFailed => |cs| == 2 && cs[1].Failed?
             case Undelivered => |cs| == 2 && cs[1].Deferred?
             case Delivered => |cs| == 3 && HandledAndSettled(cs[1..]))
  }

  /** The handler is called, and its answer decides between ack and fail. */
  predicate HandledAndSettled(cs: seq<Call>) { |cs| == 2 && cs[0].Handled? && if cs[0].ok then cs[1].Acked? else cs[1].Failed? }

  /** The ports' answers are the ones recorded. */
  ghost predicate Answers(cs: seq<Call>, o: Outcome)
  {
    forall i :: 0 <= i < |cs| ==>
      match cs[i]
      case LookedUp(_, answer) => answer == o.lookup
      case Handled(_, ok) => ok == o.handled
      case Acked(_, accepted) => accepted == o.accepted
      case Failed(_, accepted) => accepted == o.accepted
      case Deferred(_, accepted) => accepted == o.accepted
  }

  lemma CallsPromise(d: Dispatcher, m: Message, o: Outcome)
    ensures Promises(Calls(d, m, o), d, m) && Answers(Calls(d, m, o), o)
  {
    hide Compensates;
    var last := if o.handled then Acked(m, o.accepted) else Failed(m, o.accepted);
    assert CallsFrom(MustFail, m, o) == [Failed(m, o.accepted)] && CallsFrom(AfterHandler(o.handled), m, o) == [last];
    assert CallsFrom(Cleared, m, o) == [Handled(m, o.handled), last];
    match o.lookup
    case LookupFailed => assert CallsFrom(Unchecked, m, o) == [LookedUp(m, LookupFailed), Failed(m, o.accepted)];
    case Undelivered => assert CallsFrom(Unchecked, m, o) == [LookedUp(m, Undelivered), Deferred(m, o.accepted)];
    case Delivered =>
      var cs := CallsFrom(Unchecked, m, o);
      assert cs == [LookedUp(m, Delivered), Handled(m, o.handled), last];
      assert cs[1..] == [Handled(m, o.handled), last];
  }

  /** One message, call by call. */
  method Process(d: Dispatcher, m: Message, o: Outcome) returns (calls: seq<Call>)
    ensures calls == Calls(d, m, o)
  {
    calls := [];
    if Compensates(m) {
      if !d.aware { return [Failed(m, o.accepted)]; }
      calls := [LookedUp(m, o.lookup)];
      if o.lookup.LookupFailed? { return calls + [Failed(m, o.accepted)]; }
      if o.lookup.Undelivered? { return calls + [Deferred(m, o.accepted)]; }
    }
    calls := calls + [Handled(m, o.handled)];
    if !o.handled { return calls + [Failed(m, o.accepted)]; }
    return calls + [Acked(m, o.accepted)];
  }

  function BatchCalls(d: Dispatcher, batch: seq<Message>, os: seq<Outcome>): seq<Call>
    requires |os| == |batch|
  {
    if batch == [] then []
    else BatchCalls(d, batch[..|batch| - 1], os[..|batch| - 1]) + Calls(d, batch[|batch| - 1], os[|batch| - 1])
  }

  /** A tenant's poll: the batch it claimed and how the ports answer for it, or None when it failed. */
  datatype Poll = Poll(batch: seq<Message>, outcomes: seq<Outcome>)

  predicate PollsOk(polls: seq<Option<Poll>>) { forall i :: 0 <= i < |polls| && polls[i].Some? ==> |polls[i].value.outcomes| == |polls[i].value.batch| }

  function SweepCalls(d: Dispatcher, polls: seq<Option<Poll>>): seq<Call>
    requires PollsOk(polls)
  {
    if polls == [] then []
    else
      var last := polls[|polls| - 1];
      SweepCalls(d, polls[..|polls| - 1]) + if last.None? then [] else BatchCalls(d, last.value.batch, last.value.outcomes)
  }

  method ProcessBatch(d: Dispatcher, batch: seq<Message>, outcomes: seq<Outcome>) returns (calls: seq<Call>)
    requires |outcomes| == |batch|
    ensures calls == BatchCalls(d, batch, outcomes)
  {
    hide Calls;
    calls := [];
    for j := 0 to |batch|
      invariant calls == BatchCalls(d, batch[..j], outcomes[..j])
    {
      assert batch[..j + 1][..j] == batch[..j] && outcomes[..j + 1][..j] == outcomes[..j];
      var more := Process(d, batch[j], outcomes[j]);
      calls := calls + more;
    }
    assert batch[..|batch|] == batch && outcomes[..|batch|] == outcomes;
  }

  /** One sweep over all tenants; a poll that fails is skipped. */
  method SweepOnce(d: Dispatcher, polls: seq<Option<Poll>>) returns (didWork: bool, calls: seq<Call>)
    requires PollsOk(polls)
    ensures calls == SweepCalls(d, polls)
    ensures didWork <==> exists i :: 0 <= i < |polls| && polls[i].Some? && polls[i].value.batch != []
  {
    hide BatchCalls;
    didWork, calls := false, [];
    for i := 0 to |polls|
      invariant calls == SweepCalls(d, polls[..i])
      invariant didWork <==> exists j :: 0 <= j < i && polls[j].Some? && polls[j].value.batch != []
    {
      assert polls[..i + 1][..i] == polls[..i];
      if polls[i].Some? {
        var more := ProcessBatch(d, polls[i].value.batch, polls[i].value.outcomes);
        calls := calls + more;
        if polls[i].value.batch != [] { didWork := true; }
      }
    }
    assert polls[..|polls|] == polls;
  }

  /** The settlement calls made for one claim. */
  function SettlementsOf(calls: seq<Call>, m: Message): nat
  {
    if calls == [] then 0
    else SettlementsOf(calls[..|calls| - 1], m) + if Settles(calls[|calls| - 1]) && calls[|calls| - 1].msg == m then 1 else 0
  }

  lemma {:induction false} SettlementsAdd(a: seq<Call>, b: seq<Call>, m: Message)
    ensures SettlementsOf(a + b, m) == SettlementsOf(a, m) + SettlementsOf(b, m)
  {
    if b == [] {
      assert a + b == a;
    } else {
      assert (a + b)[..|a + b| - 1] == a + b[..|b| - 1];
      SettlementsAdd(a, b[..|b| - 1], m);
    }
  }

  lemma {:induction false} UnsettledCalls(cs: seq<Call>, m: Message)
    requires forall i :: 0 <= i < |cs| ==> !Settles(cs[i]) || cs[i].msg != m
    ensures SettlementsOf(cs, m) == 0
  {
    if cs != [] { UnsettledCalls(cs[..|cs| - 1], m); }
  }

  lemma OneSettlement(d: Dispatcher, m: Message, o: Outcome, n: Message)
    ensures SettlementsOf(Calls(d, m, o), n) == if m == n then 1 else 0
  {
    hide Calls;
    CallsPromise(d, m, o);
    var cs := Calls(d, m, o);
    if m == n { UnsettledCalls(cs[..|cs| - 1], n); } else { UnsettledCalls(cs, n); }
  }

  function Times(batch: seq<Message>, m: Message): nat { multiset(batch)[m] }

  lemma {:induction false} BatchSettles(d: Dispatcher, batch: seq<Message>, os: seq<Outcome>, m: Message)
    requires |os| == |batch|
    ensures SettlementsOf(BatchCalls(d, batch, os), m) == Times(batch, m)
  {
    hide Calls;
    if batch != [] {
      var n := |batch| - 1;
      BatchSettles(d, batch[..n], os[..n], m);
      SettlementsAdd(BatchCalls(d, batch[..n], os[..n]), Calls(d, batch[n], os[n]), m);
      OneSettlement(d, batch[n], os[n], m);
      assert batch == batch[..n] + [batch[n]];
    }
  }

  /** Every claim of the sweep's batches, in order. */
  function Claims(polls: seq<Option<Poll>>): seq<Message>
  {
    if polls == [] then []
    else Claims(polls[..|polls| - 1]) + if polls[|polls| - 1].None? then [] else polls[|polls| - 1].value.batch
  }

  /** A sweep makes exactly one settlement call for every claim, and none for anything else. */
  lemma {:induction false} SweepSettlesEachClaim(d: Dispatcher, polls: seq<Option<Poll>>, m: Message)
    requires PollsOk(polls)
    ensures SettlementsOf(SweepCalls(d, polls), m) == Times(Claims(polls), m)
  {
    hide BatchCalls;
    if polls != [] {
      var init, last := polls[..|polls| - 1], polls[|polls| - 1];
      SweepSettlesEachClaim(d, init, m);
      if last.Some? {
        SettlementsAdd(SweepCalls(d, init), BatchCalls(d, last.value.batch, last.value.outcomes), m);
        BatchSettles(d, last.value.batch, last.value.outcomes, m);
      } else {
        SettlementsAdd(SweepCalls(d, init), [], m);
      }
    }
  }
}

/** Any number of workers sweeping one outbox. Each claim advances on its own, between the calls of all
    others; a delivered row stays delivered. */
module SweepRuns {
  import opened Substrings
  import opened Sweep

  type RowKey = (string, string)
  datatype Status = Open | Taken(token: nat) | Done
  datatype Row = Row(effect: string, status: Status)
  datatype Claim = Claim(msg: Message, stage: Stage)

  /** issued counts the lease tokens given out. */
  datatype System = System(rows: map<RowKey, Row>, claims: map<nat, Claim>, issued: nat, log: seq<Call>)

  datatype Action =
    | Enqueue(tenant: string, id: string, effect: string)
    | Take(tenant: string, id: string)
    | LookUp(token: nat, unreadable: bool)
    | Handle(token: nat, ok: bool)
    | Settle(token: nat, accepted: bool)

  const START := System(map[], map[], 0, [])

  function DoEnqueue(s: System, k: RowKey, effect: string): System
  {
    if k in s.rows then s else s.(rows := s.rows[k := Row(effect, Open)])
  }

  /** A poll claims an open row, or one whose lease has lapsed, under a new token. */
  function DoTake(s: System, d: Dispatcher, k: RowKey): System
  {
    if k !in s.rows || s.rows[k].status.Done? then s
    else
      var m := Message(k.0, k.1, s.rows[k].effect, s.issued);
      System(s.rows[k := s.rows[k].(status := Taken(m.token))], s.claims[m.token := Claim(m, Entry(d, m))], s.issued + 1, s.log)
  }

  ghost predicate EffectDelivered(rows: map<RowKey, Row>, tenant: string, effect: string)
  {
    exists k :: k in rows && k.0 == tenant && rows[k].effect == effect && rows[k].status.Done?
  }

  ghost function Answer(s: System, m: Message, unreadable: bool): Lookup
    requires Compensates(m)
  {
    if unreadable || Original(m) == "" then LookupFailed
    else if EffectDelivered(s.rows, m.tenant, Original(m)) then Delivered else Undelivered
  }

  ghost function DoLookUp(s: System, token: nat, unreadable: bool): System
  {
    if token !in s.claims || !s.claims[token].stage.Unchecked? || !Compensates(s.claims[token].msg) then s
    else
      var m := s.claims[token].msg;
      var answer := Answer(s, m, unreadable);
      s.(claims := s.claims[token := Claim(m, AfterLookup(answer))], log := s.log + [LookedUp(m, answer)])
  }

  function DoHandle(s: System, token: nat, ok: bool): System
  {
    if token !in s.claims || !s.claims[token].stage.Cleared? then s
    else
      var m := s.claims[token].msg;
      s.(claims := s.claims[token := Claim(m, AfterHandler(ok))], log := s.log + [Handled(m, ok)])
  }

  /** A settlement takes effect when the store accepts it: fenced ones only under the claim's own lease;
      no settlement reopens a delivered row. */
  predicate Effective(s: System, d: Dispatcher, m: Message, accepted: bool)
  {
    var k := (m.tenant, m.id);
    accepted && k in s.rows && !s.rows[k].status.Done? && (d.fenced ==> s.rows[k].status == Taken(m.token))
  }

  function DoSettle(s: System, d: Dispatcher, token: nat, accepted: bool): System
  {
    if token !in s.claims then s
    else
      var m, stage := s.claims[token].msg, s.claims[token].stage;
      var k, took := (m.tenant, m.id), Effective(s, d, m, accepted);
      var settled := s.claims[token := Claim(m, Settled)];
      match stage
      case MustAck => System(if took then s.rows[k := s.rows[k].(status := Done)] else s.rows, settled, s.issued, s.log + [Acked(m, took)])
      case MustFail => System(if took then s.rows[k := s.rows[k].(status := Open)] else s.rows, settled, s.issued, s.log + [Failed(m, took)])
      case MustDefer => System(if took then s.rows[k := s.rows[k].(status := Open)] else s.rows, settled, s.issued, s.log + [Deferred(m, took)])
      case _ => s
  }

  ghost function Do(s: System, d: Dispatcher, a: Action): System
  {
    match a
    case Enqueue(tenant, id, effect) => DoEnqueue(s, (tenant, id), effect)
    case Take(tenant, id) => DoTake(s, d, (tenant, id))
    case LookUp(token, unreadable) => DoLookUp(s, token, unreadable)
    case Handle(token, ok) => DoHandle(s, token, ok)
    case Settle(token, accepted) => DoSettle(s, d, token, accepted)
  }

  ghost function Run(d: Dispatcher, actions: seq<Action>): System
  {
    if actions == [] then START else Do(Run(d, actions[..|actions| - 1]), d, actions[|actions| - 1])
  }

  // ---- each claim makes the calls of the sweep ---------------------------------------------------------

  function History(log: seq<Call>, m: Message): seq<Call>
  {
    if log == [] then []
    else
      var before := History(log[..|log| - 1], m);
      if log[|log| - 1].msg == m then before + [log[|log| - 1]] else before
  }

  lemma HistoryGrows(log: seq<Call>, c: Call, m: Message)
    ensures History(log + [c], m) == if c.msg == m then History(log, m) + [c] else History(log, m)
  {
    assert (log + [c])[..|log|] == log;
  }

  /** What the claim has called so far and what it will call on these answers are calls of the sweep. */
  ghost predicate Completes(d: Dispatcher, h: seq<Call>, c: Claim, o: Outcome)
  {
    exists p :: h + CallsFrom(c.stage, c.msg, o) == Calls(d, c.msg, p)
  }

  ghost predicate OnTrack(d: Dispatcher, h: seq<Call>, c: Claim) { forall o :: Completes(d, h, c, o) }

  /** The claim's own next call, when the answers are q, leads to the next stage under the answers o. */
  predicate Follows(c: Claim, call: Call, next: Stage, o: Outcome, q: Outcome)
  {
    [call] + CallsFrom(next, c.msg, o) == CallsFrom(c.stage, c.msg, q)
  }

  lemma CompletesOn(d: Dispatcher, h: seq<Call>, c: Claim, call: Call, next: Stage, o: Outcome, q: Outcome)
    requires Completes(d, h, c, q) && Follows(c, call, next, o, q)
    ensures Completes(d, h + [call], Claim(c.msg, next), o)
  {
    hide CallsFrom, Calls;
    var p :| h + CallsFrom(c.stage, c.msg, q) == Calls(d, c.msg, p);
    assert h + [call] + CallsFrom(next, c.msg, o) == h + ([call] + CallsFrom(next, c.msg, o));
  }

  lemma LookupTracked(d: Dispatcher, h: seq<Call>, m: Message, answer: Lookup)
    requires OnTrack(d, h, Claim(m, Unchecked))
    ensures OnTrack(d, h + [LookedUp(m, answer)], Claim(m, AfterLookup(answer)))
  {
    hide Completes;
    var c, call, next := Claim(m, Unchecked), LookedUp(m, answer), AfterLookup(answer);
    forall o ensures Completes(d, h + [call], Claim(m, next), o) {
      assert CallsFrom(next, m, o) == CallsFrom(next, m, o.(lookup := answer));
      CompletesOn(d, h, c, call, next, o, o.(lookup := answer));
    }
  }

  lemma HandleTracked(d: Dispatcher, h: seq<Call>, m: Message, ok: bool)
    requires OnTrack(d, h, Claim(m, Cleared))
    ensures OnTrack(d, h + [Handled(m, ok)], Claim(m, AfterHandler(ok)))
  {
    hide Completes;
    var c, call, next := Claim(m, Cleared), Handled(m, ok), AfterHandler(ok);
    forall o ensures Completes(d, h + [call], Claim(m, next), o) { CompletesOn(d, h, c, call, next, o, o.(handled := ok)); }
  }

  function Settlement(stage: Stage, m: Message, took: bool): Call
    requires stage.MustAck? || stage.MustFail? || stage.MustDefer?
  {
    if stage.MustAck? then Acked(m, took) else if stage.MustFail? then Failed(m, took) else Deferred(m, took)
  }

  lemma SettleTracked(d: Dispatcher, h: seq<Call>, m: Message, stage: Stage, took: bool)
    requires (stage.MustAck? || stage.MustFail? || stage.MustDefer?) && OnTrack(d, h, Claim(m, stage))
    ensures OnTrack(d, h + [Settlement(stage, m, took)], Claim(m, Settled))
  {
    hide Completes;
    var call := Settlement(stage, m, took);
    forall o ensures Completes(d, h + [call], Claim(m, Settled), o) { CompletesOn(d, h, Claim(m, stage), call, Settled, o, o.(accepted := took)); }
  }

  lemma EntryTracked(d: Dispatcher, m: Message)
    ensures OnTrack(d, [], Claim(m, Entry(d, m)))
  {
    forall o ensures Completes(d, [], Claim(m, Entry(d, m)), o) {
      assert [] + CallsFrom(Entry(d, m), m, o) == Calls(d, m, o);
    }
  }

  // ---- what every run keeps ------------------------------------------------------------------------------

  ghost predicate Earlier(log: seq<Call>, j: int, c: Call) { exists i :: 0 <= i < j <= |log| && log[i] == c }

  /** The row's effect was delivered: its handler succeeded and its ack took. */
  ghost predicate AckedEarlier(log: seq<Call>, j: int, tenant: string, effect: string)
  {
    exists i :: 0 <= i < j <= |log| && log[i].Acked? && log[i].accepted && log[i].msg.tenant == tenant && log[i].msg.effect == effect
  }

  /** Each call has behind it what the sweep asks for. */
  ghost predicate Backed(log: seq<Call>, j: nat)
    requires j < |log|
  {
    match log[j]
    case LookedUp(m, answer) => Compensates(m) && (answer.Delivered? ==> AckedEarlier(log, j, m.tenant, Original(m)))
    case Handled(m, _) => Compensates(m) ==> Earlier(log, j, LookedUp(m, Delivered))
    case Acked(m, _) => Earlier(log, j, Handled(m, true))
    case Failed(_, _) => true
    case Deferred(_, _) => true
  }

  ghost predicate StageOk(s: System, c: Claim)
  {
    && (c.stage.Unchecked? ==> Compensates(c.msg))
    && (c.stage.Cleared? && Compensates(c.msg) ==> Earlier(s.log, |s.log|, LookedUp(c.msg, Delivered)))
    && (c.stage.MustAck? ==> Earlier(s.log, |s.log|, Handled(c.msg, true)))
    && (c.msg.tenant, c.msg.id) in s.rows && s.rows[(c.msg.tenant, c.msg.id)].effect == c.msg.effect
  }

  ghost predicate ClaimOk(d: Dispatcher, s: System, t: nat)
    requires t in s.claims
  {
    s.claims[t].msg.token == t < s.issued && OnTrack(d, History(s.log, s.claims[t].msg), s.claims[t]) && StageOk(s, s.claims[t])
  }

  ghost predicate RowOk(log: seq<Call>, k: RowKey, r: Row) { r.status.Done? ==> AckedEarlier(log, |log|, k.0, r.effect) }

  predicate Claimed(s: System, m: Message) { m.token in s.claims && s.claims[m.token].msg == m }

  ghost predicate Inv(d: Dispatcher, s: System)
  {
    && (forall t :: t in s.claims ==> ClaimOk(d, s, t))
    && (forall j :: 0 <= j < |s.log| ==> Backed(s.log, j) && Claimed(s, s.log[j].msg))
    && (forall k :: k in s.rows ==> RowOk(s.log, k, s.rows[k]))
  }

  lemma BackedStays(log: seq<Call>, c: Call, j: nat)
    requires j < |log| && Backed(log, j)
    ensures Backed(log + [c], j)
  {
    var longer := log + [c];
    assert longer[j] == log[j];
    match log[j]
    case LookedUp(m, answer) => if answer.Delivered? { AckedStays(log, c, j, m.tenant, Original(m)); }
    case Handled(m, _) => if Compensates(m) { EarlierStays(log, c, j, LookedUp(m, Delivered)); }
    case Acked(m, _) => EarlierStays(log, c, j, Handled(m, true));
    case Failed(_, _) =>
    case Deferred(_, _) =>
  }

  lemma EarlierStays(log: seq<Call>, c: Call, j: int, e: Call)
    requires Earlier(log, j, e)
    ensures Earlier(log + [c], j, e) && Earlier(log + [c], j + 1, e)
  {
    var i :| 0 <= i < j <= |log| && log[i] == e;
    assert (log + [c])[i] == e;
  }

  lemma AckedStays(log: seq<Call>, c: Call, j: int, tenant: string, effect: string)
    requires AckedEarlier(log, j, tenant, effect)
    ensures AckedEarlier(log + [c], j, tenant, effect) && AckedEarlier(log + [c], j + 1, tenant, effect)
  {
    var i :| 0 <= i < j <= |log| && log[i].Acked? && log[i].accepted && log[i].msg.tenant == tenant && log[i].msg.effect == effect;
    assert (log + [c])[i] == log[i];
  }

  lemma NoHistory(log: seq<Call>, m: Message)
    requires forall i :: 0 <= i < |log| ==> log[i].msg != m
    ensures History(log, m) == []
  {
  }

  /** A call of one claim, backed by what it needs, leaves every other claim and row as it was. */
  lemma CallKeeps(d: Dispatcher, s: System, u: System, t: nat, c: Call)
    requires Inv(d, s) && t in s.claims && c.msg == s.claims[t].msg && u.log == s.log + [c] && u.issued == s.issued
    requires t in u.claims && u.claims == s.claims[t := Claim(c.msg, u.claims[t].stage)]
    requires OnTrack(d, History(s.log, c.msg) + [c], u.claims[t]) && StageOk(u, u.claims[t]) && Backed(u.log, |s.log|)
    requires u.rows.Keys == s.rows.Keys && forall k :: k in s.rows ==> u.rows[k].effect == s.rows[k].effect && (u.rows[k].status.Done? && !s.rows[k].status.Done? ==> RowOk(u.log, k, u.rows[k]))
    ensures Inv(d, u)
  {
    hide OnTrack, History, Backed, Compensates;
    forall x | x in u.claims ensures ClaimOk(d, u, x) {
      HistoryGrows(s.log, c, u.claims[x].msg);
      assert ClaimOk(d, s, x);
      if x != t { StageStays(s, u, s.claims[x], c); }
    }
    forall j | 0 <= j < |u.log| ensures Backed(u.log, j) && Claimed(u, u.log[j].msg) {
      if j < |s.log| {
        assert Claimed(s, s.log[j].msg);
        BackedStays(s.log, c, j);
      }
    }
    forall k | k in u.rows ensures RowOk(u.log, k, u.rows[k]) {
      assert RowOk(s.log, k, s.rows[k]);
      if s.rows[k].status.Done? { AckedStays(s.log, c, |s.log|, k.0, s.rows[k].effect); }
    }
  }

  lemma StageStays(s: System, u: System, c: Claim, call: Call)
    requires StageOk(s, c) && u.log == s.log + [call]
    requires u.rows.Keys == s.rows.Keys && forall k :: k in s.rows ==> u.rows[k].effect == s.rows[k].effect
    ensures StageOk(u, c)
  {
    hide Compensates, Earlier;
    if c.stage.Cleared? && Compensates(c.msg) { EarlierStays(s.log, call, |s.log|, LookedUp(c.msg, Delivered)); }
    if c.stage.MustAck? { EarlierStays(s.log, call, |s.log|, Handled(c.msg, true)); }
  }

  lemma JustNow(log: seq<Call>, c: Call)
    ensures Earlier(log + [c], |log| + 1, c)
  {
    assert (log + [c])[|log|] == c;
  }

  lemma EnqueueKeeps(d: Dispatcher, s: System, k: RowKey, effect: string)
    requires Inv(d, s)
    ensures Inv(d, DoEnqueue(s, k, effect))
  {
    hide OnTrack, History, Backed, Compensates, Earlier, AckedEarlier;
    var u := DoEnqueue(s, k, effect);
    forall t | t in u.claims ensures ClaimOk(d, u, t) { assert ClaimOk(d, s, t); }
    forall j | 0 <= j < |u.log| ensures Claimed(u, u.log[j].msg) { assert Claimed(s, s.log[j].msg); }
    forall j | j in u.rows ensures RowOk(u.log, j, u.rows[j]) { if j in s.rows { assert RowOk(s.log, j, s.rows[j]); } }
  }

  lemma TakeKeeps(d: Dispatcher, s: System, k: RowKey)
    requires Inv(d, s)
    ensures Inv(d, DoTake(s, d, k))
  {
    hide OnTrack, History, Backed, Compensates, Earlier, AckedEarlier;
    var u := DoTake(s, d, k);
    if u != s {
      var m := Message(k.0, k.1, s.rows[k].effect, s.issued);
      assert u.claims == s.claims[m.token := Claim(m, Entry(d, m))];
      forall j | 0 <= j < |s.log| ensures s.log[j].msg != m && Claimed(u, u.log[j].msg) {
        assert Claimed(s, s.log[j].msg) && ClaimOk(d, s, s.log[j].msg.token);
      }
      NoHistory(s.log, m);
      EntryTracked(d, m);
      forall t | t in u.claims ensures ClaimOk(d, u, t) {
        if t != m.token { assert ClaimOk(d, s, t); }
      }
      forall j | j in u.rows ensures RowOk(u.log, j, u.rows[j]) { assert RowOk(s.log, j, s.rows[j]); }
    }
  }

  lemma LookUpKeeps(d: Dispatcher, s: System, token: nat, unreadable: bool)
    requires Inv(d, s)
    ensures Inv(d, DoLookUp(s, token, unreadable))
  {
    hide OnTrack, History, Earlier, AckedEarlier, Compensates;
    if token in s.claims && s.claims[token].stage.Unchecked? && Compensates(s.claims[token].msg) {
      var m := s.claims[token].msg;
      var u, answer := DoLookUp(s, token, unreadable), Answer(s, m, unreadable);
      var c := LookedUp(m, answer);
      assert ClaimOk(d, s, token);
      LookupTracked(d, History(s.log, m), m, answer);
      JustNow(s.log, c);
      if answer.Delivered? {
        var k :| k in s.rows && k.0 == m.tenant && s.rows[k].effect == Original(m) && s.rows[k].status.Done?;
        assert RowOk(s.log, k, s.rows[k]);
        AckedStays(s.log, c, |s.log|, m.tenant, Original(m));
      }
      CallKeeps(d, s, u, token, c);
    }
  }

  lemma HandleKeeps(d: Dispatcher, s: System, token: nat, ok: bool)
    requires Inv(d, s)
    ensures Inv(d, DoHandle(s, token, ok))
  {
    hide OnTrack, History, Earlier, AckedEarlier, Compensates;
    if token in s.claims && s.claims[token].stage.Cleared? {
      var m := s.claims[token].msg;
      var u, c := DoHandle(s, token, ok), Handled(m, ok);
      assert ClaimOk(d, s, token);
      HandleTracked(d, History(s.log, m), m, ok);
      JustNow(s.log, c);
      if Compensates(m) { EarlierStays(s.log, c, |s.log|, LookedUp(m, Delivered)); }
      CallKeeps(d, s, u, token, c);
    }
  }

  lemma SettleKeeps(d: Dispatcher, s: System, token: nat, accepted: bool)
    requires Inv(d, s)
    ensures Inv(d, DoSettle(s, d, token, accepted))
  {
    hide OnTrack, History, Earlier, Compensates;
    if token in s.claims && (s.claims[token].stage.MustAck? || s.claims[token].stage.MustFail? || s.claims[token].stage.MustDefer?) {
      var m, stage := s.claims[token].msg, s.claims[token].stage;
      var took := Effective(s, d, m, accepted);
      var u, c := DoSettle(s, d, token, accepted), Settlement(stage, m, took);
      assert ClaimOk(d, s, token);
      assert u.log == s.log + [c];
      SettleTracked(d, History(s.log, m), m, stage, took);
      if stage.MustAck? {
        EarlierStays(s.log, c, |s.log|, Handled(m, true));
        if took { assert u.log[|s.log|] == c && AckedEarlier(u.log, |u.log|, m.tenant, m.effect); }
      }
      CallKeeps(d, s, u, token, c);
    }
  }

  lemma {:induction false} RunsKeepInv(d: Dispatcher, actions: seq<Action>)
    ensures Inv(d, Run(d, actions))
  {
    hide Inv, DoEnqueue, DoTake, DoLookUp, DoHandle, DoSettle;
    if actions == [] {
      StartOk(d);
    } else {
      RunsKeepInv(d, actions[..|actions| - 1]);
      var s := Run(d, actions[..|actions| - 1]);
      match actions[|actions| - 1]
      case Enqueue(tenant, id, effect) => EnqueueKeeps(d, s, (tenant, id), effect);
      case Take(tenant, id) => TakeKeeps(d, s, (tenant, id));
      case LookUp(token, unreadable) => LookUpKeeps(d, s, token, unreadable);
      case Handle(token, ok) => HandleKeeps(d, s, token, ok);
      case Settle(token, accepted) => SettleKeeps(d, s, token, accepted);
    }
  }

  lemma StartOk(d: Dispatcher)
    ensures Inv(d, START)
  {
  }

  // ---- the promises ----------------------------------------------------------------------------------------

  /** However the workers interleave: a claim that is done has made exactly the calls of the sweep, so it
      was settled once, last, and acked only right after its handler succeeded. */
  lemma SettledAsSwept(d: Dispatcher, actions: seq<Action>, t: nat)
    requires t in Run(d, actions).claims && Run(d, actions).claims[t].stage.Settled?
    ensures var s := Run(d, actions);
            var m := s.claims[t].msg;
            && Promises(History(s.log, m), d, m)
            && exists o :: History(s.log, m) == Calls(d, m, o)
  {
    hide Run, History, Calls, Promises;
    RunsKeepInv(d, actions);
    var s := Run(d, actions);
    var c := s.claims[t];
    assert ClaimOk(d, s, t);
    var o: Outcome := Outcome(Delivered, true, true);
    assert Completes(d, History(s.log, c.msg), c, o);
    var p :| History(s.log, c.msg) + CallsFrom(c.stage, c.msg, o) == Calls(d, c.msg, p);
    assert History(s.log, c.msg) + CallsFrom(c.stage, c.msg, o) == History(s.log, c.msg);
    CallsPromise(d, c.msg, p);
  }

  /** A claim still in hand has made the first calls of the sweep and has not been settled. */
  lemma UnsettledSoFar(d: Dispatcher, actions: seq<Action>, t: nat)
    requires t in Run(d, actions).claims && !Run(d, actions).claims[t].stage.Settled?
    ensures var s := Run(d, actions); forall i :: 0 <= i < |History(s.log, s.claims[t].msg)| ==> !Settles(History(s.log, s.claims[t].msg)[i])
  {
    hide Run, History, Calls, Settles;
    RunsKeepInv(d, actions);
    var s := Run(d, actions);
    var c := s.claims[t];
    assert ClaimOk(d, s, t);
    var o: Outcome := Outcome(Delivered, true, true);
    var h, rest := History(s.log, c.msg), CallsFrom(c.stage, c.msg, o);
    assert Completes(d, h, c, o);
    var p :| h + rest == Calls(d, c.msg, p);
    assert rest != [];
    CallsPromise(d, c.msg, p);
    assert forall i :: 0 <= i < |h| ==> h[i] == Calls(d, c.msg, p)[i];
  }

  lemma BackedAt(d: Dispatcher, actions: seq<Action>, j: nat)
    requires j < |Run(d, actions).log|
    ensures Backed(Run(d, actions).log, j)
  {
    hide Run, Backed;
    RunsKeepInv(d, actions);
  }

  /** A compensation is never handled before its original was handled successfully and acked. */
  lemma CompensationComesAfter(d: Dispatcher, actions: seq<Action>, j: nat)
    requires var log := Run(d, actions).log; j < |log| && log[j].Handled? && Compensates(log[j].msg)
    ensures var log := Run(d, actions).log;
            var c := log[j].msg;
            exists a, b, l :: && 0 <= a < b < l < j
                              && log[l] == LookedUp(c, Delivered)
                              && log[b].Acked? && log[b].accepted && log[b].msg.tenant == c.tenant && log[b].msg.effect == Original(c)
                              && log[a] == Handled(log[b].msg, true)
  {
    hide Run, Compensates, Original;
    var log := Run(d, actions).log;
    var c := log[j].msg;
    BackedAt(d, actions, j);
    var l :| 0 <= l < j && log[l] == LookedUp(c, Delivered);
    BackedAt(d, actions, l);
    var b :| 0 <= b < l && log[b].Acked? && log[b].accepted && log[b].msg.tenant == c.tenant && log[b].msg.effect == Original(c);
    BackedAt(d, actions, b);
    var a :| 0 <= a < b && log[a] == Handled(log[b].msg, true);
  }

  /** Delivery happens: from every reachable state an open ordinary row can be taken, handled and acked. */
  lemma OrdinaryRowIsDelivered(d: Dispatcher, actions: seq<Action>, k: RowKey)
    requires var s := Run(d, actions); k in s.rows && s.rows[k].status.Open? && !StartsWith(s.rows[k].effect, REVERSAL)
    ensures var s := Run(d, actions);
            var m := Message(k.0, k.1, s.rows[k].effect, s.issued);
            var t := Do(Do(Do(s, d, Take(k.0, k.1)), d, Handle(s.issued, true)), d, Settle(s.issued, true));
            && t.log == s.log + [Handled(m, true), Acked(m, true)] && t.rows == s.rows[k := s.rows[k].(status := Done)]
            && t.claims[s.issued].stage.Settled?
  {
    hide Run;
    var s := Run(d, actions);
    var m := Message(k.0, k.1, s.rows[k].effect, s.issued);
    var taken := DoTake(s, d, k);
    assert taken.claims[s.issued] == Claim(m, Cleared);
    var handled := DoHandle(taken, s.issued, true);
    assert handled.claims[s.issued] == Claim(m, MustAck);
  }

  /** A message whose handler fails is open again. */
  lemma FailedRowIsOpenAgain(d: Dispatcher, actions: seq<Action>, k: RowKey)
    requires var s := Run(d, actions); k in s.rows && s.rows[k].status.Open? && !StartsWith(s.rows[k].effect, REVERSAL)
    ensures var s := Run(d, actions);
            var m := Message(k.0, k.1, s.rows[k].effect, s.issued);
            var t := Do(Do(Do(s, d, Take(k.0, k.1)), d, Handle(s.issued, false)), d, Settle(s.issued, true));
            t.log == s.log + [Handled(m, false), Failed(m, true)] && t.rows == s.rows
  {
    hide Run;
    var s := Run(d, actions);
    var m := Message(k.0, k.1, s.rows[k].effect, s.issued);
    var taken := DoTake(s, d, k);
    assert taken.claims[s.issued] == Claim(m, Cleared);
    var handled := DoHandle(taken, s.issued, false);
    assert handled.claims[s.issued] == Claim(m, MustFail);
    assert s.rows[k := s.rows[k].(status := Open)] == s.rows;
  }

  /** So does compensation: once its original is delivered, an open compensating row can be taken, looked up,
      handled and acked by a dispatcher with a fence. */
  lemma CompensationIsDelivered(d: Dispatcher, actions: seq<Action>, k: RowKey)
    requires d.aware
    requires var s := Run(d, actions);
             && k in s.rows && s.rows[k].status.Open? && StartsWith(s.rows[k].effect, REVERSAL) && |REVERSAL| < |s.rows[k].effect|
             && EffectDelivered(s.rows, k.0, s.rows[k].effect[|REVERSAL|..])
    ensures var s := Run(d, actions);
            var m := Message(k.0, k.1, s.rows[k].effect, s.issued);
            var seen := Do(Do(s, d, Take(k.0, k.1)), d, LookUp(s.issued, false));
            var t := Do(Do(seen, d, Handle(s.issued, true)), d, Settle(s.issued, true));
            t.log == s.log + [LookedUp(m, Delivered), Handled(m, true), Acked(m, true)] && t.rows == s.rows[k := s.rows[k].(status := Done)]
  {
    hide Run;
    var s := Run(d, actions);
    var m := Message(k.0, k.1, s.rows[k].effect, s.issued);
    var taken := DoTake(s, d, k);
    assert taken.claims[s.issued] == Claim(m, Unchecked);
    StillDelivered(s.rows, taken.rows, k, k.0, Original(m));
    var seen := DoLookUp(taken, s.issued, false);
    assert seen.claims[s.issued] == Claim(m, Cleared);
    var handled := DoHandle(seen, s.issued, true);
    assert handled.claims[s.issued] == Claim(m, MustAck);
  }

  lemma StillDelivered(rows: map<RowKey, Row>, after: map<RowKey, Row>, k: RowKey, tenant: string, effect: string)
    requires k in rows && k in after && !rows[k].status.Done? && EffectDelivered(rows, tenant, effect) && after == rows[k := after[k]]
    ensures EffectDelivered(after, tenant, effect)
  {
    var j :| j in rows && j.0 == tenant && rows[j].effect == effect && rows[j].status.Done?;
    assert after[j] == rows[j];
  }
}
