/** Account linking by authorization code with PKCE: Start mints a state and a verifier for one user
    and connection, Complete spends the state and trades the code. Sections 4.1 to 4.6 of RFC 7636
    and section 4.1 of RFC 6749. */
module Linker {
  import opened Wrappers
  import opened Text

  /** Nanoseconds. */
  type Time = nat
  const TTL := 600_000_000_000

  datatype Error = NotLinkable | StateRejected | ExchangeFailed | SinkFailed
  type Result<T> = Outcome<T, Error>

  /** Base64url of SHA-256, as an injective symbol. */
  datatype Hashed = S256(text: string)

  /** The published provider, and whether its authorization URL has an http scheme and a host. */
  datatype Provider = Provider(clientId: string, redirect: string, scopes: seq<string>, usable: bool)

  /** What Start puts on the provider's URL, section 4.3 of RFC 7636. */
  datatype Authorization = Authorization(
    responseType: string, clientId: string, redirect: string, scopes: seq<string>, state: string,
    challenge: Hashed, challengeMethod: string, expires: Time)

  datatype Entry = Entry(tenant: string, user: string, connection: string, verifier: string, expires: Time)

  type Pending = map<Hashed, Entry>

  function AuthorizationFor(p: Provider, state: string, verifier: string, expires: Time): Authorization
  {
    Authorization("code", p.clientId, p.redirect, p.scopes, state, S256(verifier), "S256", expires)
  }

  /** Start before it takes the lock: the authorization it will return and the entry it will store. */
  function Mint(tenant: string, user: string, connection: string, provider: Option<Provider>, verifier: string, state: string, now: Time): Result<(Authorization, Entry)>
  {
    if provider.None? || Blank(user) || !provider.value.usable then Err(NotLinkable)
    else Ok((AuthorizationFor(provider.value, state, verifier, now + TTL), Entry(tenant, user, connection, verifier, now + TTL)))
  }

  /** Start under the lock: expired entries go, the new one comes. */
  function Stored(p: Pending, state: string, e: Entry, now: Time): Pending
  {
    (map k | k in p && now < p[k].expires :: p[k])[S256(state) := e]
  }

  /** Complete under the lock: the entry it may use, and the entries that remain. */
  function Claim(p: Pending, tenant: string, user: string, state: string, code: string, now: Time): (Pending, Option<Entry>)
  {
    var k := S256(state);
    if Blank(state) || Blank(code) || k !in p then (p, None)
    else if p[k].expires <= now then (p - {k}, None)
    else if p[k].user != user || p[k].tenant != tenant then (p, None)
    else (p - {k}, Some(p[k]))
  }

  class Links {
    var pending: Pending

    constructor ()
      ensures pending == map[]
    {
      pending := map[];
    }

    method Store(state: string, e: Entry, now: Time)
      modifies this
      ensures pending == Stored(old(pending), state, e, now)
    {
      var rest := pending.Keys;
      while rest != {}
        invariant rest <= old(pending).Keys
        invariant pending == map k | k in old(pending) && (k in rest || now < old(pending)[k].expires) :: old(pending)[k]
      {
        var k :| k in rest;
        if pending[k].expires <= now { pending := pending - {k}; }
        rest := rest - {k};
      }
      pending := pending[S256(state) := e];
    }

    method Take(tenant: string, user: string, state: string, code: string, now: Time) returns (entry: Option<Entry>)
      modifies this
      ensures (pending, entry) == Claim(old(pending), tenant, user, state, code, now)
    {
      if Blank(state) || Blank(code) { return None; }
      var k := S256(state);
      if k !in pending { return None; }
      var e := pending[k];
      if e.expires <= now {
        pending := pending - {k};
        return None;
      }
      if e.user != user || e.tenant != tenant { return None; }
      pending := pending - {k};
      return Some(e);
    }
  }
}

/** Every interleaving of Start and Complete calls. The random source never repeats a state. */
module LinkerRuns {
  import opened Wrappers
  import opened Text
  import opened Linker

  /** Who called Start, for which connection, and the provider published for it. */
  datatype Starter = Starter(tenant: string, user: string, connection: string, provider: Option<Provider>)

  /** Who called Complete, and the code they brought. */
  datatype Caller = Caller(tenant: string, user: string, code: string)

  datatype Pc =
    | Minting(state: string, starter: Starter, auth: Authorization, entry: Entry, at: Time)
    | Exchanging(state: string, entry: Entry, caller: Caller)
    | Linking(state: string, entry: Entry, caller: Caller)

  /** What happened: a link is logged for the caller it was made for. */
  datatype Event =
    | Minted(state: string, starter: Starter, auth: Authorization, entry: Entry, at: Time)
    | Spent(state: string, caller: Caller, at: Time)
    | Exchanged(state: string, tenant: string, connection: string, code: string, verifier: string)
    | Linked(state: string, tenant: string, user: string, connection: string)

  /** issued holds every state the random source has given out. */
  datatype System = System(pending: Pending, calls: map<nat, Pc>, issued: set<string>, log: seq<Event>)

  datatype Action =
    | StartMint(call: nat, starter: Starter, verifier: string, state: string, clock: Time)
    | StartStore(call: nat, clock: Time)
    | CompleteClaim(call: nat, caller: Caller, state: string, clock: Time)
    | CompleteExchange(call: nat, provider: Option<Provider>, ok: bool)
    | CompleteLink(call: nat)

  const START := System(map[], map[], {}, [])

  function DoMint(s: System, call: nat, starter: Starter, verifier: string, state: string, clock: Time): System
  {
    if call in s.calls || state in s.issued then s
    else
      match Mint(starter.tenant, starter.user, starter.connection, starter.provider, verifier, state, clock)
      case Err(_) => s
      case Ok(m) => s.(calls := s.calls[call := Minting(state, starter, m.0, m.1, clock)], issued := s.issued + {state})
  }

  function DoStore(s: System, call: nat, clock: Time): System
  {
    if call !in s.calls || !s.calls[call].Minting? then s
    else
      var pc := s.calls[call];
      System(Stored(s.pending, pc.state, pc.entry, clock), s.calls - {call}, s.issued, s.log + [Minted(pc.state, pc.starter, pc.auth, pc.entry, pc.at)])
  }

  function DoClaim(s: System, call: nat, caller: Caller, state: string, clock: Time): System
  {
    if call in s.calls then s
    else
      var (p, e) := Claim(s.pending, caller.tenant, caller.user, state, caller.code, clock);
      match e
      case None => s.(pending := p)
      case Some(entry) =>
        System(p, s.calls[call := Exchanging(state, entry, caller)], s.issued, s.log + [Spent(state, caller, clock)])
  }

  function DoExchange(s: System, call: nat, provider: Option<Provider>, ok: bool): System
  {
    if call !in s.calls || !s.calls[call].Exchanging? then s
    else if provider.None? then s.(calls := s.calls - {call})
    else
      var pc := s.calls[call];
      var log := s.log + [Exchanged(pc.state, pc.entry.tenant, pc.entry.connection, pc.caller.code, pc.entry.verifier)];
      if ok then s.(calls := s.calls[call := Linking(pc.state, pc.entry, pc.caller)], log := log) else s.(calls := s.calls - {call}, log := log)
  }

  /** The sink is called once, for the caller of Complete, whatever it answers. */
  function DoLink(s: System, call: nat): System
  {
    if call !in s.calls || !s.calls[call].Linking? then s
    else
      var pc := s.calls[call];
      s.(calls := s.calls - {call}, log := s.log + [Linked(pc.state, pc.caller.tenant, pc.caller.user, pc.entry.connection)])
  }

  function Do(s: System, a: Action): System
  {
    match a
    case StartMint(call, starter, verifier, state, clock) => DoMint(s, call, starter, verifier, state, clock)
    case StartStore(call, clock) => DoStore(s, call, clock)
    case CompleteClaim(call, caller, state, clock) => DoClaim(s, call, caller, state, clock)
    case CompleteExchange(call, provider, ok) => DoExchange(s, call, provider, ok)
    case CompleteLink(call) => DoLink(s, call)
  }

  function Run(actions: seq<Action>): System
  {
    if actions == [] then START else Do(Run(actions[..|actions| - 1]), actions[|actions| - 1])
  }

  // ---- the history of one state ----------------------------------------------------------------------

  function History(log: seq<Event>, state: string): seq<Event>
  {
    if log == [] then []
    else
      var before := History(log[..|log| - 1], state);
      if log[|log| - 1].state == state then before + [log[|log| - 1]] else before
  }

  lemma HistoryGrows(log: seq<Event>, e: Event, state: string)
    ensures History(log + [e], state) == if e.state == state then History(log, state) + [e] else History(log, state)
  {
    assert (log + [e])[..|log|] == log;
  }

  /** The entry is the caller's; the authorization Start returned asks the published provider's client for a
      code, with the state and the challenge of the verifier that Start kept; and both expire with the time
      to live that began when Start read its clock. */
  predicate Challenged(state: string, starter: Starter, auth: Authorization, entry: Entry, at: Time)
  {
    && entry.tenant == starter.tenant && entry.user == starter.user && entry.connection == starter.connection && !Blank(starter.user)
    && starter.provider.Some? && starter.provider.value.usable && auth.responseType == "code"
    && auth.clientId == starter.provider.value.clientId && auth.redirect == starter.provider.value.redirect && auth.scopes == starter.provider.value.scopes
    && auth.state == state && auth.challenge == S256(entry.verifier) && auth.challengeMethod == "S256"
    && auth.expires == entry.expires == at + TTL
  }

  predicate Owns(c: Caller, e: Entry) { c.tenant == e.tenant && c.user == e.user }

  /** The only histories a state can have: minted, spent in time by the user it was minted for,
      exchanged with its own verifier, linked to its own user and connection; each at most once. */
  predicate Story(h: seq<Event>, state: string)
  {
    && |h| <= 4
    && (0 < |h| ==> h[0].Minted? && h[0].state == state && Challenged(state, h[0].starter, h[0].auth, h[0].entry, h[0].at))
    && (1 < |h| ==> h[1].Spent? && h[1].state == state && Owns(h[1].caller, h[0].entry) && h[1].at < h[0].entry.expires)
    && (2 < |h| ==> h[2] == Exchanged(state, h[0].entry.tenant, h[0].entry.connection, h[1].caller.code, h[0].entry.verifier))
    && (3 < |h| ==> h[3] == Linked(state, h[0].entry.tenant, h[0].entry.user, h[0].entry.connection))
  }

  /** The history of a state that stands at this entry after so many events. */
  predicate Stands(h: seq<Event>, entry: Entry, events: nat) { |h| == events && 0 < events && h[0].Minted? && h[0].entry == entry }

  /** So it stands, spent by this caller, whose entry it is. */
  predicate SpentBy(h: seq<Event>, entry: Entry, caller: Caller, events: nat)
  {
    Stands(h, entry, events) && 1 < events && h[1].Spent? && h[1].caller == caller && Owns(caller, entry)
  }

  predicate CallOk(s: System, pc: Pc)
  {
    && pc.state in s.issued
    && match pc
       case Minting(state, starter, auth, entry, at) => History(s.log, state) == [] && Challenged(state, starter, auth, entry, at)
       case Exchanging(state, entry, caller) => SpentBy(History(s.log, state), entry, caller, 2)
       case Linking(state, entry, caller) => SpentBy(History(s.log, state), entry, caller, 3)
  }

  ghost predicate Apart(calls: map<nat, Pc>) { forall t, u :: t in calls && u in calls && t != u ==> calls[t].state != calls[u].state }

  ghost predicate Stories(s: System)
  {
    forall state :: Story(History(s.log, state), state) && (state !in s.issued ==> History(s.log, state) == [])
  }

  ghost predicate PendingOk(s: System) { forall k :: k in s.pending ==> k.text in s.issued && Stands(History(s.log, k.text), s.pending[k], 1) }

  ghost predicate CallsOk(s: System) { Apart(s.calls) && forall t :: t in s.calls ==> CallOk(s, s.calls[t]) }

  ghost predicate Inv(s: System) { Stories(s) && PendingOk(s) && CallsOk(s) }

  lemma MintKeeps(s: System, call: nat, starter: Starter, verifier: string, state: string, clock: Time)
    requires Inv(s)
    ensures Inv(DoMint(s, call, starter, verifier, state, clock))
  {
    hide Story, Blank, History;
  }

  /** An event of one state leaves the histories of all others alone. */
  lemma OthersKept(s: System, t: System, e: Event)
    requires Stories(s) && t.log == s.log + [e] && t.issued == s.issued && e.state in s.issued && Story(History(s.log, e.state) + [e], e.state)
    ensures Stories(t)
    ensures forall x :: History(t.log, x) == if x == e.state then History(s.log, x) + [e] else History(s.log, x)
  {
    hide Story, History;
    forall x ensures History(t.log, x) == if x == e.state then History(s.log, x) + [e] else History(s.log, x) { HistoryGrows(s.log, e, x); }
  }

  lemma StoryMinted(h: seq<Event>, state: string, e: Event)
    requires h == [] && e.Minted? && e.state == state && Challenged(state, e.starter, e.auth, e.entry, e.at)
    ensures Story(h + [e], state) && Stands(h + [e], e.entry, 1)
  {
    hide Challenged;
  }

  lemma StorySpent(h: seq<Event>, state: string, entry: Entry, caller: Caller, at: Time)
    requires Story(h, state) && Stands(h, entry, 1) && Owns(caller, entry) && at < entry.expires
    ensures var more := h + [Spent(state, caller, at)]; Story(more, state) && SpentBy(more, entry, caller, 2)
  {
  }

  lemma StoryExchanged(h: seq<Event>, state: string, entry: Entry, caller: Caller)
    requires Story(h, state) && SpentBy(h, entry, caller, 2)
    ensures var more := h + [Exchanged(state, entry.tenant, entry.connection, caller.code, entry.verifier)];
            Story(more, state) && SpentBy(more, entry, caller, 3)
  {
  }

  lemma StoryLinked(h: seq<Event>, state: string, entry: Entry, caller: Caller)
    requires Story(h, state) && SpentBy(h, entry, caller, 3)
    ensures Story(h + [Linked(state, caller.tenant, caller.user, entry.connection)], state)
  {
  }

  /** Calls and pending entries of other states are where they were. */
  lemma ElsewhereKept(s: System, t: System, state: string)
    requires PendingOk(s) && CallsOk(s) && t.issued == s.issued
    requires forall x :: x != state ==> History(t.log, x) == History(s.log, x)
    requires forall k :: k in t.pending && k.text != state ==> k in s.pending && t.pending[k] == s.pending[k]
    ensures forall k :: k in t.pending && k.text != state ==> k.text in t.issued && Stands(History(t.log, k.text), t.pending[k], 1)
    ensures forall u :: u in s.calls && s.calls[u].state != state ==> CallOk(t, s.calls[u])
  {
    hide History, Challenged;
    forall u | u in s.calls && s.calls[u].state != state ensures CallOk(t, s.calls[u]) { assert CallOk(s, s.calls[u]); }
  }

  lemma PendingIsMinted(s: System, state: string)
    requires PendingOk(s)
    ensures S256(state) in s.pending ==> |History(s.log, state)| == 1
  {
    hide History;
    if S256(state) in s.pending { assert Stands(History(s.log, S256(state).text), s.pending[S256(state)], 1); }
  }

  lemma StoreKeeps(s: System, call: nat, clock: Time)
    requires Inv(s)
    ensures Inv(DoStore(s, call, clock))
  {
    hide History, Story, Challenged, SpentBy;
    if call in s.calls && s.calls[call].Minting? {
      var pc, t := s.calls[call], DoStore(s, call, clock);
      var e := Minted(pc.state, pc.starter, pc.auth, pc.entry, pc.at);
      assert CallOk(s, pc);
      StoryMinted(History(s.log, pc.state), pc.state, e);
      OthersKept(s, t, e);
      ElsewhereKept(s, t, pc.state);
    }
  }

  lemma ClaimKeeps(s: System, call: nat, caller: Caller, state: string, clock: Time)
    requires Inv(s)
    ensures Inv(DoClaim(s, call, caller, state, clock))
  {
    hide History, Blank, Story;
    var (p, e) := Claim(s.pending, caller.tenant, caller.user, state, caller.code, clock);
    if call !in s.calls && e.Some? {
      var t := DoClaim(s, call, caller, state, clock);
      assert Stands(History(s.log, S256(state).text), e.value, 1);
      StorySpent(History(s.log, state), state, e.value, caller, clock);
      OthersKept(s, t, Spent(state, caller, clock));
      ElsewhereKept(s, t, state);
      forall u | u in s.calls ensures s.calls[u].state != state { assert CallOk(s, s.calls[u]); }
    }
  }

  lemma ExchangeKeeps(s: System, call: nat, provider: Option<Provider>, ok: bool)
    requires Inv(s)
    ensures Inv(DoExchange(s, call, provider, ok))
  {
    hide History, Story, Challenged, Owns;
    if call in s.calls && s.calls[call].Exchanging? && provider.Some? {
      var pc, t := s.calls[call], DoExchange(s, call, provider, ok);
      assert CallOk(s, pc);
      PendingIsMinted(s, pc.state);
      StoryExchanged(History(s.log, pc.state), pc.state, pc.entry, pc.caller);
      OthersKept(s, t, Exchanged(pc.state, pc.entry.tenant, pc.entry.connection, pc.caller.code, pc.entry.verifier));
      ElsewhereKept(s, t, pc.state);
    }
  }

  lemma LinkKeeps(s: System, call: nat)
    requires Inv(s)
    ensures Inv(DoLink(s, call))
  {
    hide History, Story;
    if call in s.calls && s.calls[call].Linking? {
      var pc, t := s.calls[call], DoLink(s, call);
      assert CallOk(s, pc);
      PendingIsMinted(s, pc.state);
      StoryLinked(History(s.log, pc.state), pc.state, pc.entry, pc.caller);
      OthersKept(s, t, Linked(pc.state, pc.caller.tenant, pc.caller.user, pc.entry.connection));
      ElsewhereKept(s, t, pc.state);
    }
  }

  lemma {:induction false} RunsKeepInv(actions: seq<Action>)
    ensures Inv(Run(actions))
  {
    hide Inv, DoMint, DoStore, DoClaim, DoExchange, DoLink;
    if actions == [] {
      StartOk();
    } else {
      RunsKeepInv(actions[..|actions| - 1]);
      var s := Run(actions[..|actions| - 1]);
      match actions[|actions| - 1]
      case StartMint(call, starter, verifier, state, clock) => MintKeeps(s, call, starter, verifier, state, clock);
      case StartStore(call, clock) => StoreKeeps(s, call, clock);
      case CompleteClaim(call, caller, state, clock) => ClaimKeeps(s, call, caller, state, clock);
      case CompleteExchange(call, provider, ok) => ExchangeKeeps(s, call, provider, ok);
      case CompleteLink(call) => LinkKeeps(s, call);
    }
  }

  lemma StartOk()
    ensures Inv(START)
  {
  }

  // ---- the promises ------------------------------------------------------------------------------------

  lemma {:induction false} HistoryIsComplete(log: seq<Event>, state: string, i: nat)
    requires i < |log| && log[i].state == state
    ensures log[i] in History(log, state)
  {
    if i < |log| - 1 { HistoryIsComplete(log[..|log| - 1], state, i); }
  }

  lemma {:induction false} HistoryKeepsCount(log: seq<Event>, state: string, i: nat, j: nat)
    requires i < j < |log| && log[i].state == log[j].state == state
    ensures exists a, b :: 0 <= a < b < |History(log, state)| && History(log, state)[a] == log[i] && History(log, state)[b] == log[j]
  {
    var h, init := History(log, state), log[..|log| - 1];
    if j < |log| - 1 {
      HistoryKeepsCount(init, state, i, j);
      var a, b :| 0 <= a < b < |History(init, state)| && History(init, state)[a] == log[i] && History(init, state)[b] == log[j];
      assert h[a] == log[i] && h[b] == log[j];
    } else {
      HistoryIsComplete(init, state, i);
      var a :| 0 <= a < |History(init, state)| && History(init, state)[a] == log[i];
      assert h[a] == log[i] && h[|h| - 1] == log[j];
    }
  }

  /** An exchange or a link happens only after its state was minted and then spent in time; the caller who
      spent it is the user it was minted for; the exchange trades that caller's code, for the very
      connection, with the verifier whose S256 challenge Start published; and the link is made for that
      caller, who is that user. */
  lemma ExchangedAsMinted(actions: seq<Action>, state: string)
    requires 2 < |History(Run(actions).log, state)|
    ensures var h := History(Run(actions).log, state);
            && |h| <= 4 && h[0].Minted? && h[1].Spent? && h[2].Exchanged?
            && var e, c, began := h[0].entry, h[1].caller, h[0].starter;
               && c.tenant == began.tenant && c.user == began.user && e.connection == began.connection
               && began.provider.Some? && h[0].auth.responseType == "code" && h[0].auth.clientId == began.provider.value.clientId
               && h[0].auth.redirect == began.provider.value.redirect && h[0].auth.scopes == began.provider.value.scopes
               && h[0].auth.state == state && h[0].auth.challenge == S256(h[2].verifier) && h[0].auth.challengeMethod == "S256"
               && c.tenant == e.tenant && c.user == e.user && h[1].at < h[0].at + TTL
               && h[2].tenant == e.tenant && h[2].connection == e.connection && h[2].code == c.code && h[2].verifier == e.verifier
               && (3 < |h| ==> h[3] == Linked(state, c.tenant, c.user, e.connection) == Linked(state, e.tenant, e.user, e.connection))
  {
    hide Run, History;
    RunsKeepInv(actions);
  }

  predicate SameKind(a: Event, b: Event)
  {
    (a.Minted? && b.Minted?) || (a.Spent? && b.Spent?) || (a.Exchanged? && b.Exchanged?) || (a.Linked? && b.Linked?)
  }

  /** A state is minted, spent, exchanged and linked at most once each. */
  lemma EachAtMostOnce(actions: seq<Action>, i: nat, j: nat)
    requires i < j < |Run(actions).log| && Run(actions).log[i].state == Run(actions).log[j].state
    ensures !SameKind(Run(actions).log[i], Run(actions).log[j])
  {
    hide Run, History;
    RunsKeepInv(actions);
    var log := Run(actions).log;
    HistoryKeepsCount(log, log[i].state, i, j);
    assert Story(History(log, log[i].state), log[i].state);
  }

  /** Nothing this action does can end the state: it is not its owner's Complete, and no clock it reads
      has reached the expiry. */
  predicate LeavesAlone(a: Action, state: string, e: Entry)
  {
    match a
    case StartMint(_, _, _, _, _) => true
    case StartStore(_, clock) => clock < e.expires
    case CompleteClaim(_, caller, st, clock) => st == state ==> clock < e.expires && !Owns(caller, e)
    case CompleteExchange(_, _, _) => true
    case CompleteLink(_) => true
  }

  lemma StepLeavesPending(s: System, a: Action, state: string)
    requires Inv(s) && S256(state) in s.pending && LeavesAlone(a, state, s.pending[S256(state)])
    ensures S256(state) in Do(s, a).pending && Do(s, a).pending[S256(state)] == s.pending[S256(state)]
  {
    hide History, Story, Blank;
    if a.StartStore? && a.call in s.calls && s.calls[a.call].Minting? {
      assert CallOk(s, s.calls[a.call]);
      assert Stands(History(s.log, S256(state).text), s.pending[S256(state)], 1);
    }
  }

  /** Whatever others try meanwhile, a pending state stays usable for its owner until it expires. */
  lemma {:induction false} StaysUsable(actions: seq<Action>, more: seq<Action>, state: string, call: nat, code: string, clock: Time)
    requires S256(state) in Run(actions).pending && !Blank(state) && !Blank(code)
    requires var e := Run(actions).pending[S256(state)]; clock < e.expires && forall i :: 0 <= i < |more| ==> LeavesAlone(more[i], state, e)
    requires call !in Run(actions + more).calls
    ensures var e := Run(actions).pending[S256(state)];
            var s := Run(actions + more);
            && S256(state) in s.pending && s.pending[S256(state)] == e
            && var caller := Caller(e.tenant, e.user, code);
               var t := Do(s, CompleteClaim(call, caller, state, clock));
               t.calls[call] == Exchanging(state, e, caller) && S256(state) !in t.pending
  {
    hide Run, Blank, LeavesAlone, Do;
    PendingStays(actions, more, state);
    ClaimSucceeds(Run(actions + more), call, state, code, clock);
  }

  lemma ClaimSucceeds(s: System, call: nat, state: string, code: string, clock: Time)
    requires S256(state) in s.pending && !Blank(state) && !Blank(code) && clock < s.pending[S256(state)].expires && call !in s.calls
    ensures var e := s.pending[S256(state)];
            var caller := Caller(e.tenant, e.user, code);
            var t := Do(s, CompleteClaim(call, caller, state, clock));
            call in t.calls && t.calls[call] == Exchanging(state, e, caller) && S256(state) !in t.pending
  {
    hide Blank;
  }

  lemma {:induction false} PendingStays(actions: seq<Action>, more: seq<Action>, state: string)
    requires S256(state) in Run(actions).pending
    requires forall i :: 0 <= i < |more| ==> LeavesAlone(more[i], state, Run(actions).pending[S256(state)])
    ensures S256(state) in Run(actions + more).pending && Run(actions + more).pending[S256(state)] == Run(actions).pending[S256(state)]
  {
    hide LeavesAlone, Do, Inv;
    if more == [] {
      assert actions + more == actions;
    } else {
      var n := |more| - 1;
      PendingStays(actions, more[..n], state);
      assert (actions + more)[..|actions + more| - 1] == actions + more[..n];
      RunsKeepInv(actions + more[..n]);
      StepLeavesPending(Run(actions + more[..n]), more[n], state);
    }
  }

  /** Start works: a named user of a connection with a usable provider gets an authorization for a new state,
      which is pending afterwards with the verifier that was drawn. */
  lemma StartIssues(actions: seq<Action>, call: nat, starter: Starter, verifier: string, state: string, clock: Time, later: Time)
    requires var s := Run(actions); call !in s.calls && state !in s.issued
    requires !Blank(starter.user) && starter.provider.Some? && starter.provider.value.usable
    ensures var s := Run(actions);
            var t := Do(Do(s, StartMint(call, starter, verifier, state, clock)), StartStore(call, later));
            var p, e := starter.provider.value, Entry(starter.tenant, starter.user, starter.connection, verifier, clock + 600_000_000_000);
            && S256(state) in t.pending && t.pending[S256(state)] == e && t.calls == s.calls
            && (forall k :: k in s.pending && k != S256(state) ==> (k in t.pending <==> later < s.pending[k].expires))
            && t.log == s.log + [Minted(state, starter, Authorization("code", p.clientId, p.redirect, p.scopes, state, S256(verifier), "S256", e.expires), e, clock)]
  {
    hide Run, Blank;
    var s := Run(actions);
    var mid := DoMint(s, call, starter, verifier, state, clock);
    assert mid.calls - {call} == s.calls;
  }

  /** Complete works: a claimed state whose provider is still published is exchanged and linked. */
  lemma ClaimIsLinked(s: System, call: nat, state: string, e: Entry, caller: Caller, provider: Provider)
    requires call in s.calls && s.calls[call] == Exchanging(state, e, caller)
    ensures var t := Do(Do(s, CompleteExchange(call, Some(provider), true)), CompleteLink(call));
            && t.calls == s.calls - {call} && t.pending == s.pending
            && t.log == s.log + [Exchanged(state, e.tenant, e.connection, caller.code, e.verifier), Linked(state, caller.tenant, caller.user, e.connection)]
  {
    var mid := DoExchange(s, call, Some(provider), true);
    assert mid.calls - {call} == s.calls - {call};
  }

  /** A provider that is gone, or an exchange that fails, links nothing. */
  lemma FailedExchangeLinksNothing(s: System, call: nat, state: string, e: Entry, caller: Caller, provider: Option<Provider>)
    requires call in s.calls && s.calls[call] == Exchanging(state, e, caller)
    ensures var t := Do(s, CompleteExchange(call, provider, false));
            && t.calls == s.calls - {call} && t.pending == s.pending
            && t.log == s.log + if provider.Some? then [Exchanged(state, e.tenant, e.connection, caller.code, e.verifier)] else []
  {
  }
}
