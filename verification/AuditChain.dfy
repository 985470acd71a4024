/** The agents' audit log: one append-only hash chain for each tenant, an index by event id, and
    the projection a viewer gets. The hash is a parameter, so nothing below assumes it is
    free of collisions unless it says so. */
module AuditChain {
  import opened Wrappers
  import opened Ordering
  import opened Text

  type Time = nat
  const MAX_DEPTH := 8

  datatype Actor = Actor(
    user: string, agentVersion: string, installation: string, task: string, planRevision: string,
    step: string, depth: nat, grant: string)
  datatype Field = Field(name: string, value: string, classification: string)
  datatype Edge = Edge(kind: string, from: string, to: string)
  datatype Entry = Entry(
    eventId: string, tenant: string, kind: string, actor: Actor, action: string, argumentsDigest: string,
    resultDigest: string, approvalDigest: string, fields: seq<Field>, edges: seq<Edge>, occurredAt: Time)
  datatype Record = Record(entry: Entry, sequence: nat, prevHash: string, chainHash: string, recordedAt: Time, created: bool)

  datatype Error = InvalidEntry | DuplicateConflict | TenantBoundary | Unauthorized | ChainTampered
  type Result<T> = Outcome<T, Error>

  const EVENT_KINDS := {"SKILL_CALL", "APPROVAL", "INTENT_ORIGIN", "WORKFLOW_RUN", "CONNECTOR_OPERATION", "MODEL_CALL"}
  const EDGE_KINDS := {"TASK", "INTENT", "APPROVAL", "WORKFLOW_RUN", "CONNECTOR_OPERATION", "AUTHORIZED_BY", "CAUSED"}
  const CLASSIFICATIONS := {"PUBLIC", "INTERNAL", "CONFIDENTIAL", "RESTRICTED"}

  // ---- admission -------------------------------------------------------------------------------

  predicate ActorComplete(a: Actor)
  {
    && !Blank(a.user) && !Blank(a.agentVersion) && !Blank(a.installation) && !Blank(a.task)
    && !Blank(a.planRevision) && !Blank(a.step) && !Blank(a.grant) && a.depth <= MAX_DEPTH
  }

  /** The edge kind an event of this kind must carry, or "" for none. */
  function RequiredJoin(kind: string): string
  {
    if kind == "APPROVAL" then "APPROVAL"
    else if kind == "INTENT_ORIGIN" then "INTENT"
    else if kind == "WORKFLOW_RUN" then "WORKFLOW_RUN"
    else if kind == "CONNECTOR_OPERATION" then "CONNECTOR_OPERATION"
    else ""
  }

  predicate FieldOk(f: Field) { !Blank(f.name) && f.classification in CLASSIFICATIONS }

  predicate EdgeOk(e: Edge, task: string) { e.kind in EDGE_KINDS && !Blank(e.from) && !Blank(e.to) && (e.kind == "TASK" ==> e.from == task) }

  predicate DistinctNames(fields: seq<Field>) { forall i, j :: 0 <= i < j < |fields| ==> fields[i].name != fields[j].name }

  predicate ValidEntry(e: Entry)
  {
    && !Blank(e.eventId) && !Blank(e.tenant) && e.kind in EVENT_KINDS && ActorComplete(e.actor)
    && e.occurredAt != 0 && !Blank(e.action)
    && (forall i :: 0 <= i < |e.fields| ==> FieldOk(e.fields[i])) && DistinctNames(e.fields)
    && (forall i :: 0 <= i < |e.edges| ==> EdgeOk(e.edges[i], e.actor.task))
    && (exists i :: 0 <= i < |e.edges| && e.edges[i].kind == "TASK" && e.edges[i].to == e.eventId)
    && (RequiredJoin(e.kind) == "" || exists i :: 0 <= i < |e.edges| && e.edges[i].kind == RequiredJoin(e.kind))
  }

  method CheckFields(fields: seq<Field>) returns (ok: bool)
    ensures ok <==> (forall i :: 0 <= i < |fields| ==> FieldOk(fields[i])) && DistinctNames(fields)
  {
    hide FieldOk;
    var names: set<string> := {};
    for i := 0 to |fields|
      invariant forall j :: 0 <= j < i ==> FieldOk(fields[j])
      invariant forall j, k :: 0 <= j < k < i ==> fields[j].name != fields[k].name
      invariant forall n :: n in names <==> exists j :: 0 <= j < i && fields[j].name == n
    {
      if !FieldOk(fields[i]) { return false; }
      if fields[i].name in names { return false; }
      names := names + {fields[i].name};
    }
    return true;
  }

  method Validate(e: Entry) returns (ok: bool)
    ensures ok <==> ValidEntry(e)
  {
    hide Blank, ActorComplete, EdgeOk, FieldOk, DistinctNames;
    if Blank(e.eventId) || Blank(e.tenant) || e.kind !in EVENT_KINDS || !ActorComplete(e.actor) || e.occurredAt == 0 || Blank(e.action) {
      return false;
    }
    var fieldsOk := CheckFields(e.fields);
    if !fieldsOk || e.edges == [] { return false; }
    var join := RequiredJoin(e.kind);
    var hasTask, hasJoin := false, join == "";
    for i := 0 to |e.edges|
      invariant forall j :: 0 <= j < i ==> EdgeOk(e.edges[j], e.actor.task)
      invariant hasTask <==> exists j :: 0 <= j < i && e.edges[j].kind == "TASK" && e.edges[j].to == e.eventId
      invariant hasJoin <==> join == "" || exists j :: 0 <= j < i && e.edges[j].kind == join
    {
      if !EdgeOk(e.edges[i], e.actor.task) { return false; }
      if e.edges[i].kind == "TASK" && e.edges[i].to == e.eventId { hasTask := true; }
      if e.edges[i].kind == join { hasJoin := true; }
    }
    return hasTask && hasJoin;
  }

  // ---- canonical entries -------------------------------------------------------------------------

  predicate FieldLe(a: Field, b: Field) { LexLe(a.name, b.name) }

  predicate EdgeLe(a: Edge, b: Edge)
  {
    if a.kind == b.kind then Lex2Le((a.from, a.to), (b.from, b.to)) else LexLe(a.kind, b.kind)
  }

  /** The entry with its fields and edges in order; its JSON is what is hashed and compared. */
  function CanonicalEntry(e: Entry): Entry { e.(fields := Sort(FieldLe, e.fields), edges := Sort(EdgeLe, e.edges)) }

  /** Equal up to the order of fields and edges. */
  predicate Rearranged(a: Entry, b: Entry)
  {
    a.(fields := b.fields, edges := b.edges) == b && multiset(a.fields) == multiset(b.fields) && multiset(a.edges) == multiset(b.edges)
  }

  lemma EdgeLaws(a: Edge, b: Edge, c: Edge)
    ensures EdgeLe(a, b) || EdgeLe(b, a)
    ensures EdgeLe(a, b) && EdgeLe(b, c) ==> EdgeLe(a, c)
    ensures EdgeLe(a, b) && EdgeLe(b, a) ==> a == b
  {
    Lex2Laws((a.from, a.to), (b.from, b.to), (c.from, c.to));
    LexTotal(a.kind, b.kind);
    if LexLe(a.kind, b.kind) && LexLe(b.kind, a.kind) { LexAntisymmetric(a.kind, b.kind); }
    if LexLe(a.kind, b.kind) && LexLe(b.kind, c.kind) {
      LexTransitive(a.kind, b.kind, c.kind);
      if a.kind == c.kind { LexAntisymmetric(a.kind, b.kind); }
    }
  }

  lemma OrdersAreTotal()
    ensures TotalPreorder(FieldLe) && TotalPreorder(EdgeLe)
    ensures forall a, b :: EdgeLe(a, b) && EdgeLe(b, a) ==> a == b
  {
    hide LexLe, EdgeLe;
    forall a: Field, b: Field ensures FieldLe(a, b) || FieldLe(b, a) { LexTotal(a.name, b.name); }
    forall a: Field, b: Field, c: Field | FieldLe(a, b) && FieldLe(b, c) ensures FieldLe(a, c) { LexTransitive(a.name, b.name, c.name); }
    forall a: Edge, b: Edge, c: Edge
      ensures EdgeLe(a, b) || EdgeLe(b, a)
      ensures EdgeLe(a, b) && EdgeLe(b, c) ==> EdgeLe(a, c)
      ensures EdgeLe(a, b) && EdgeLe(b, a) ==> a == b
    {
      EdgeLaws(a, b, c);
    }
  }

  /** A valid entry has the canonical form of another exactly when they differ in order only. */
  lemma CanonicalMeansRearranged(a: Entry, b: Entry)
    requires DistinctNames(a.fields)
    ensures CanonicalEntry(a) == CanonicalEntry(b) <==> Rearranged(a, b)
  {
    hide EdgeLe;
    OrdersAreTotal();
    SortKeeps(FieldLe, a.fields);
    SortKeeps(FieldLe, b.fields);
    SortKeeps(EdgeLe, a.edges);
    SortKeeps(EdgeLe, b.edges);
    if Rearranged(a, b) {
      forall x, y | x in a.fields && y in a.fields && FieldLe(x, y) && FieldLe(y, x) ensures x == y {
        LexAntisymmetric(x.name, y.name);
      }
      SortIgnoresOrder(FieldLe, a.fields, b.fields);
      SortIgnoresOrder(EdgeLe, a.edges, b.edges);
    }
  }

  // ---- the chain ---------------------------------------------------------------------------------

  datatype Material = Material(sequence: nat, prevHash: string, entry: Entry)
  type Hash = Material -> string

  function MaterialOf(r: Record): Material { Material(r.sequence, r.prevHash, CanonicalEntry(r.entry)) }

  function SealRecord(h: Hash, e: Entry, sequence: nat, prev: string, at: Time): Record
  {
    Record(e, sequence, prev, h(Material(sequence, prev, CanonicalEntry(e))), at, true)
  }

  function Head(chain: seq<Record>): string { if chain == [] then "" else chain[|chain| - 1].chainHash }

  predicate Linked(h: Hash, chain: seq<Record>, i: nat)
    requires i < |chain|
  {
    chain[i].sequence == i + 1 && chain[i].prevHash == Head(chain[..i]) && chain[i].chainHash == h(MaterialOf(chain[i]))
  }

  ghost predicate Verifies(h: Hash, chain: seq<Record>) { forall i :: 0 <= i < |chain| ==> Linked(h, chain, i) }

  method VerifyChain(h: Hash, chain: seq<Record>) returns (ok: bool)
    ensures ok <==> Verifies(h, chain)
  {
    var prev := "";
    for i := 0 to |chain|
      invariant prev == Head(chain[..i])
      invariant forall j :: 0 <= j < i ==> Linked(h, chain, j)
    {
      if chain[i].sequence != i + 1 || chain[i].prevHash != prev || chain[i].chainHash != h(MaterialOf(chain[i])) {
        assert !Linked(h, chain, i);
        return false;
      }
      prev := chain[i].chainHash;
    }
    return true;
  }

  lemma VerifiesInit(h: Hash, chain: seq<Record>)
    requires Verifies(h, chain) && chain != []
    ensures Verifies(h, chain[..|chain| - 1])
  {
    var init := chain[..|chain| - 1];
    forall i | 0 <= i < |init| ensures Linked(h, init, i) {
      assert Linked(h, chain, i) && init[..i] == chain[..i];
    }
  }

  lemma SealedVerifies(h: Hash, chain: seq<Record>, e: Entry, at: Time)
    requires Verifies(h, chain)
    ensures Verifies(h, chain + [SealRecord(h, e, |chain| + 1, Head(chain), at)])
  {
    var longer := chain + [SealRecord(h, e, |chain| + 1, Head(chain), at)];
    forall i | 0 <= i < |longer| ensures Linked(h, longer, i) {
      if i < |chain| {
        assert Linked(h, chain, i) && longer[..i] == chain[..i];
      } else {
        assert longer[..i] == chain;
      }
    }
  }

  ghost predicate SameEntries(a: seq<Record>, b: seq<Record>)
  {
    |a| == |b| && forall i :: 0 <= i < |a| ==> CanonicalEntry(a[i].entry) == CanonicalEntry(b[i].entry)
  }

  /** Two of the hashed materials differ and hash alike. */
  predicate Clash(h: Hash, a: seq<Record>, b: seq<Record>, i: nat, j: nat)
    requires i < |a| && j < |b|
  {
    MaterialOf(a[i]) != MaterialOf(b[j]) && h(MaterialOf(a[i])) == h(MaterialOf(b[j]))
  }

  ghost predicate Collision(h: Hash, a: seq<Record>, b: seq<Record>)
  {
    exists i: nat, j: nat :: i < |a| && j < |b| && Clash(h, a, b, i, j)
  }

  /** Two verified chains that end in the same hash hold the same entries, or show a collision. */
  lemma {:induction false} SameHeadSameChain(h: Hash, a: seq<Record>, b: seq<Record>)
    requires Verifies(h, a) && Verifies(h, b) && a != [] && b != [] && Head(a) == Head(b)
    ensures SameEntries(a, b) || Collision(h, a, b)
  {
    hide CanonicalEntry;
    var n, m := |a| - 1, |b| - 1;
    assert Linked(h, a, n) && Linked(h, b, m);
    if !Clash(h, a, b, n, m) {
      assert n == m && Head(a[..n]) == Head(b[..m]);
      if n > 0 {
        VerifiesInit(h, a);
        VerifiesInit(h, b);
        SameHeadSameChain(h, a[..n], b[..m]);
        if Collision(h, a[..n], b[..m]) {
          var i: nat, j: nat :| i < n && j < m && Clash(h, a[..n], b[..m], i, j);
          assert Clash(h, a, b, i, j);
        }
      }
    }
  }

  ghost predicate Injective(h: Hash) { forall x, y :: h(x) == h(y) ==> x == y }

  lemma {:induction false} SameEntriesSameHead(h: Hash, a: seq<Record>, b: seq<Record>)
    requires Verifies(h, a) && Verifies(h, b) && SameEntries(a, b)
    ensures Head(a) == Head(b)
  {
    if a != [] {
      var n := |a| - 1;
      VerifiesInit(h, a);
      VerifiesInit(h, b);
      SameEntriesSameHead(h, a[..n], b[..n]);
      assert Linked(h, a, n) && Linked(h, b, n);
    }
  }

  /** Tamper evidence: under an injective hash the last hash of a verified chain pins every entry. */
  lemma TamperEvident(h: Hash, a: seq<Record>, b: seq<Record>)
    requires Injective(h) && Verifies(h, a) && Verifies(h, b) && a != [] && b != []
    ensures Head(a) == Head(b) <==> SameEntries(a, b)
  {
    hide CanonicalEntry;
    if Head(a) == Head(b) { SameHeadSameChain(h, a, b); }
    if SameEntries(a, b) { SameEntriesSameHead(h, a, b); }
  }

  // ---- the store -----------------------------------------------------------------------------------

  type EventKey = (string, string)
  datatype Vault = Vault(chains: map<string, seq<Record>>, byEvent: map<EventKey, Record>)

  function KeyOf(e: Entry): EventKey { (e.tenant, e.eventId) }

  function ChainOf(v: Vault, tenant: string): seq<Record> { if tenant in v.chains then v.chains[tenant] else [] }

  function AppendEntry(h: Hash, v: Vault, e: Entry, now: Time): (Vault, Result<Record>)
  {
    if !ValidEntry(e) then (v, Err(InvalidEntry))
    else if KeyOf(e) in v.byEvent then
      if CanonicalEntry(v.byEvent[KeyOf(e)].entry) != CanonicalEntry(e) then (v, Err(DuplicateConflict))
      else (v, Ok(v.byEvent[KeyOf(e)].(created := false)))
    else
      var chain := ChainOf(v, e.tenant);
      var r := SealRecord(h, e, |chain| + 1, Head(chain), now);
      (Vault(v.chains[e.tenant := chain + [r]], v.byEvent[KeyOf(e) := r]), Ok(r))
  }

  /** The record is in its tenant's chain and under its event id. */
  ghost predicate Indexed(v: Vault, tenant: string, r: Record)
  {
    r.entry.tenant == tenant && KeyOf(r.entry) in v.byEvent && v.byEvent[KeyOf(r.entry)] == r && ValidEntry(r.entry)
  }

  ghost predicate ChainIndexed(v: Vault, tenant: string, chain: seq<Record>) { forall i :: 0 <= i < |chain| ==> Indexed(v, tenant, chain[i]) }

  ghost predicate VaultOk(h: Hash, v: Vault)
  {
    && (forall t :: t in v.chains ==> Verifies(h, v.chains[t]) && ChainIndexed(v, t, v.chains[t]))
    && (forall k :: k in v.byEvent ==> KeyOf(v.byEvent[k].entry) == k && v.byEvent[k] in ChainOf(v, k.0))
  }

  function Extended(v: Vault, r: Record): Vault
  {
    Vault(v.chains[r.entry.tenant := ChainOf(v, r.entry.tenant) + [r]], v.byEvent[KeyOf(r.entry) := r])
  }

  lemma ExtendedIndexed(h: Hash, v: Vault, r: Record, t: string)
    requires VaultOk(h, v) && ValidEntry(r.entry) && KeyOf(r.entry) !in v.byEvent && t in Extended(v, r).chains
    ensures ChainIndexed(Extended(v, r), t, Extended(v, r).chains[t])
  {
    hide ValidEntry, Verifies, Indexed;
    var w, chain := Extended(v, r), Extended(v, r).chains[t];
    forall i | 0 <= i < |chain| ensures Indexed(w, t, chain[i]) {
      if i < |ChainOf(v, t)| {
        assert Indexed(v, t, ChainOf(v, t)[i]);
        StaysIndexed(v, r, t, chain[i]);
      } else {
        NowIndexed(v, r);
      }
    }
  }

  lemma StaysIndexed(v: Vault, r: Record, t: string, earlier: Record)
    requires Indexed(v, t, earlier) && KeyOf(r.entry) !in v.byEvent
    ensures Indexed(Extended(v, r), t, earlier)
  {
    hide ValidEntry;
  }

  lemma NowIndexed(v: Vault, r: Record)
    requires ValidEntry(r.entry)
    ensures Indexed(Extended(v, r), r.entry.tenant, r)
  {
    hide ValidEntry;
  }

  lemma ExtendedListed(h: Hash, v: Vault, r: Record, k: EventKey)
    requires VaultOk(h, v) && KeyOf(r.entry) !in v.byEvent && k in Extended(v, r).byEvent
    ensures var w := Extended(v, r); KeyOf(w.byEvent[k].entry) == k && w.byEvent[k] in ChainOf(w, k.0)
  {
    hide ValidEntry, Verifies, ChainIndexed;
    var w := Extended(v, r);
    if k == KeyOf(r.entry) {
      assert w.chains[k.0][|ChainOf(v, k.0)|] == r;
    } else {
      assert v.byEvent[k] in ChainOf(v, k.0);
    }
  }

  lemma ExtendedKeeps(h: Hash, v: Vault, r: Record)
    requires VaultOk(h, v) && ValidEntry(r.entry) && KeyOf(r.entry) !in v.byEvent
    requires Verifies(h, ChainOf(v, r.entry.tenant) + [r])
    ensures VaultOk(h, Extended(v, r))
    ensures forall t :: ChainOf(v, t) <= ChainOf(Extended(v, r), t)
  {
    hide ValidEntry, Verifies, ChainIndexed;
    var w := Extended(v, r);
    forall t | t in w.chains ensures ChainIndexed(w, t, w.chains[t]) { ExtendedIndexed(h, v, r, t); }
    forall k | k in w.byEvent ensures KeyOf(w.byEvent[k].entry) == k && w.byEvent[k] in ChainOf(w, k.0) { ExtendedListed(h, v, r, k); }
  }

  lemma AppendKeeps(h: Hash, v: Vault, e: Entry, now: Time)
    requires VaultOk(h, v)
    ensures VaultOk(h, AppendEntry(h, v, e, now).0)
    ensures forall t :: ChainOf(v, t) <= ChainOf(AppendEntry(h, v, e, now).0, t)
  {
    hide ValidEntry, Verifies, CanonicalEntry, ChainIndexed;
    if ValidEntry(e) && KeyOf(e) !in v.byEvent {
      var chain := ChainOf(v, e.tenant);
      if e.tenant !in v.chains { EmptyVerifies(h); }
      SealedVerifies(h, chain, e, now);
      ExtendedKeeps(h, v, SealRecord(h, e, |chain| + 1, Head(chain), now));
    }
  }

  lemma EmptyVerifies(h: Hash)
    ensures Verifies(h, [])
  {
  }

  /** An entry offered to the store, and the time it was offered. */
  datatype Post = Post(entry: Entry, at: Time)

  /** The store after the posts, from an empty one; refused posts leave it as it was. */
  function Filled(h: Hash, posts: seq<Post>): Vault
  {
    if posts == [] then Vault(map[], map[])
    else AppendEntry(h, Filled(h, posts[..|posts| - 1]), posts[|posts| - 1].entry, posts[|posts| - 1].at).0
  }

  /** Every reachable store verifies for every tenant and its index agrees with its chains. */
  lemma {:induction false} StoresVerify(h: Hash, posts: seq<Post>)
    ensures VaultOk(h, Filled(h, posts))
    ensures forall t :: Verifies(h, ChainOf(Filled(h, posts), t))
  {
    hide AppendEntry, Verifies;
    EmptyVerifies(h);
    if posts != [] {
      StoresVerify(h, posts[..|posts| - 1]);
      AppendKeeps(h, Filled(h, posts[..|posts| - 1]), posts[|posts| - 1].entry, posts[|posts| - 1].at);
    }
  }

  /** Nothing recorded is ever changed or dropped: later chains extend earlier ones. */
  lemma {:induction false} ChainsOnlyGrow(h: Hash, posts: seq<Post>, n: nat, tenant: string)
    requires n <= |posts|
    ensures ChainOf(Filled(h, posts[..n]), tenant) <= ChainOf(Filled(h, posts), tenant)
  {
    hide AppendEntry;
    if n == |posts| {
      assert posts[..n] == posts;
    } else {
      var init := posts[..|posts| - 1];
      assert init[..n] == posts[..n];
      ChainsOnlyGrow(h, init, n, tenant);
      StoresVerify(h, init);
      AppendKeeps(h, Filled(h, init), posts[|posts| - 1].entry, posts[|posts| - 1].at);
    }
  }

  /** A recorded event id again: a rearranged entry is a retry that changes nothing, any other valid
      entry is refused. */
  lemma RetryOrConflict(h: Hash, posts: seq<Post>, e: Entry, now: Time)
    requires ValidEntry(e) && KeyOf(e) in Filled(h, posts).byEvent
    ensures var v := Filled(h, posts);
            var prior := v.byEvent[KeyOf(e)];
            AppendEntry(h, v, e, now) == (v, if Rearranged(prior.entry, e) then Ok(prior.(created := false)) else Err(DuplicateConflict))
  {
    hide Filled, CanonicalEntry;
    StoresVerify(h, posts);
    var v := Filled(h, posts);
    var prior := v.byEvent[KeyOf(e)];
    assert prior in ChainOf(v, e.tenant);
    assert Indexed(v, e.tenant, prior);
    CanonicalMeansRearranged(prior.entry, e);
  }

  /** A valid entry under a new event id is recorded at the end of its tenant's chain, at that time, and nothing
      else changes; an invalid one is refused. */
  lemma NewIsAppended(h: Hash, v: Vault, e: Entry, now: Time)
    requires KeyOf(e) !in v.byEvent
    ensures !ValidEntry(e) ==> AppendEntry(h, v, e, now) == (v, Err(InvalidEntry))
    ensures ValidEntry(e) ==>
              var (w, r) := AppendEntry(h, v, e, now);
              && r.Ok? && r.value.entry == e && r.value.created && r.value.recordedAt == now
              && w.chains == v.chains[e.tenant := ChainOf(v, e.tenant) + [r.value]]
              && w.byEvent == v.byEvent[(e.tenant, e.eventId) := r.value]
  {
    hide ValidEntry, CanonicalEntry;
  }

  predicate HasEdge(e: Entry, kind: string) { exists i :: 0 <= i < |e.edges| && e.edges[i].kind == kind }

  /** Every recorded event is joined to its own task, and to the approval, intent, workflow run or connector
      operation that an event of its kind reports. */
  lemma RecordedIsJoined(h: Hash, posts: seq<Post>, tenant: string, i: nat)
    requires i < |ChainOf(Filled(h, posts), tenant)|
    ensures var e := ChainOf(Filled(h, posts), tenant)[i].entry;
            && e.tenant == tenant && Edge("TASK", e.actor.task, e.eventId) in e.edges
            && (e.kind == "APPROVAL" ==> HasEdge(e, "APPROVAL")) && (e.kind == "INTENT_ORIGIN" ==> HasEdge(e, "INTENT"))
            && (e.kind == "WORKFLOW_RUN" ==> HasEdge(e, "WORKFLOW_RUN"))
            && (e.kind == "CONNECTOR_OPERATION" ==> HasEdge(e, "CONNECTOR_OPERATION"))
  {
    hide Filled;
    StoresVerify(h, posts);
    var v := Filled(h, posts);
    assert Indexed(v, tenant, ChainOf(v, tenant)[i]);
    ValidIsJoined(ChainOf(v, tenant)[i].entry);
  }

  lemma ValidIsJoined(e: Entry)
    requires ValidEntry(e)
    ensures Edge("TASK", e.actor.task, e.eventId) in e.edges
    ensures (e.kind == "APPROVAL" ==> HasEdge(e, "APPROVAL")) && (e.kind == "INTENT_ORIGIN" ==> HasEdge(e, "INTENT"))
    ensures (e.kind == "WORKFLOW_RUN" ==> HasEdge(e, "WORKFLOW_RUN"))
    ensures (e.kind == "CONNECTOR_OPERATION" ==> HasEdge(e, "CONNECTOR_OPERATION"))
  {
    hide Blank, FieldOk, DistinctNames, ActorComplete;
    assert |"APPROVAL"| == 8 && |"INTENT_ORIGIN"| == 13 && |"WORKFLOW_RUN"| == 12 && |"CONNECTOR_OPERATION"| == 19;
    var i :| 0 <= i < |e.edges| && e.edges[i].kind == "TASK" && e.edges[i].to == e.eventId;
    assert EdgeOk(e.edges[i], e.actor.task);
  }

  /** A chain built by sealing one entry after the other, as a durable store does. */
  function SealedChain(h: Hash, posts: seq<Post>): (chain: seq<Record>)
    ensures |chain| == |posts|
  {
    if posts == [] then []
    else
      var before := SealedChain(h, posts[..|posts| - 1]);
      before + [SealRecord(h, posts[|posts| - 1].entry, |posts|, Head(before), posts[|posts| - 1].at)]
  }

  lemma {:induction false} SealedChainVerifies(h: Hash, posts: seq<Post>)
    ensures Verifies(h, SealedChain(h, posts))
  {
    if posts != [] {
      SealedChainVerifies(h, posts[..|posts| - 1]);
      SealedVerifies(h, SealedChain(h, posts[..|posts| - 1]), posts[|posts| - 1].entry, posts[|posts| - 1].at);
    }
  }

  ghost predicate FreshPosts(tenant: string, posts: seq<Post>)
  {
    && (forall i :: 0 <= i < |posts| ==> ValidEntry(posts[i].entry) && posts[i].entry.tenant == tenant)
    && (forall i, j :: 0 <= i < j < |posts| ==> posts[i].entry.eventId != posts[j].entry.eventId)
  }

  /** Sealing one after the other builds the very chain that Append builds. */
  lemma {:induction false} SealedIsAppended(h: Hash, tenant: string, posts: seq<Post>)
    requires FreshPosts(tenant, posts)
    ensures ChainOf(Filled(h, posts), tenant) == SealedChain(h, posts)
    ensures forall k :: k in Filled(h, posts).byEvent ==> exists i :: 0 <= i < |posts| && KeyOf(posts[i].entry) == k
  {
    hide ValidEntry, CanonicalEntry;
    if posts != [] {
      var init, last := posts[..|posts| - 1], posts[|posts| - 1];
      SealedIsAppended(h, tenant, init);
      assert KeyOf(last.entry) !in Filled(h, init).byEvent;
      forall k | k in Filled(h, posts).byEvent ensures exists i :: 0 <= i < |posts| && KeyOf(posts[i].entry) == k {
        if k in Filled(h, init).byEvent {
          var i :| 0 <= i < |init| && KeyOf(init[i].entry) == k;
          assert KeyOf(posts[i].entry) == k;
        } else {
          assert KeyOf(posts[|posts| - 1].entry) == k;
        }
      }
    }
  }

  // ---- queries -------------------------------------------------------------------------------------

  datatype FieldView = FieldView(name: string, value: string, digest: string, classification: string, redacted: bool)
  datatype View = View(entry: Entry, fields: seq<FieldView>, sequence: nat, prevHash: string, chainHash: string)
  datatype Role = AsUser | AsAuditor | OtherRole
  datatype Viewer = Viewer(tenant: string, user: string, role: Role, allowed: set<string>)
  datatype AuditQuery = AuditQuery(viewer: Viewer, task: string, kinds: seq<string>)

  predicate QueryOk(q: AuditQuery) { !Blank(q.viewer.tenant) && !Blank(q.viewer.user) && q.viewer.role != OtherRole }

  predicate KindsOk(q: AuditQuery) { forall i :: 0 <= i < |q.kinds| ==> q.kinds[i] in EVENT_KINDS }

  predicate Visible(r: Record, q: AuditQuery)
  {
    && (q.viewer.role == AsUser ==> r.entry.actor.user == q.viewer.user)
    && (q.task == "" || r.entry.actor.task == q.task)
    && (q.kinds == [] || r.entry.kind in q.kinds)
  }

  function ProjectField(sha: string -> string, f: Field, viewer: Viewer): FieldView
  {
    if f.classification == "PUBLIC" || f.name in viewer.allowed then FieldView(f.name, f.value, "", f.classification, false)
    else FieldView(f.name, "", sha(f.value), f.classification, true)
  }

  function ProjectFields(sha: string -> string, fields: seq<Field>, viewer: Viewer): (r: seq<FieldView>)
    ensures |r| == |fields| && forall i :: 0 <= i < |r| ==> r[i] == ProjectField(sha, fields[i], viewer)
  {
    if fields == [] then [] else ProjectFields(sha, fields[..|fields| - 1], viewer) + [ProjectField(sha, fields[|fields| - 1], viewer)]
  }

  /** What the viewer gets of a record: the field values it may not see are replaced by digests. */
  function Project(sha: string -> string, r: Record, viewer: Viewer): View
  {
    View(r.entry.(fields := []), ProjectFields(sha, r.entry.fields, viewer), r.sequence, r.prevHash, r.chainHash)
  }

  function Answer(sha: string -> string, chain: seq<Record>, q: AuditQuery): seq<View>
  {
    if chain == [] then []
    else
      var before := Answer(sha, chain[..|chain| - 1], q);
      var r := chain[|chain| - 1];
      if Visible(r, q) then before + [Project(sha, r, q.viewer)] else before
  }

  /** What a query of the store answers. */
  function QueryAnswer(sha: string -> string, v: Vault, q: AuditQuery): Result<seq<View>>
  {
    if !QueryOk(q) then Err(Unauthorized) else if !KindsOk(q) then Err(InvalidEntry) else Ok(Answer(sha, ChainOf(v, q.viewer.tenant), q))
  }

  /** A view is in the answer exactly when it projects a record of the chain the query may see. */
  lemma {:induction false} AnswerShows(sha: string -> string, chain: seq<Record>, q: AuditQuery, w: View)
    ensures w in Answer(sha, chain, q) <==> exists i :: 0 <= i < |chain| && Visible(chain[i], q) && w == Project(sha, chain[i], q.viewer)
  {
    hide Visible, Project;
    if chain != [] {
      var init := chain[..|chain| - 1];
      AnswerShows(sha, init, q, w);
      if w in Answer(sha, init, q) {
        var i :| 0 <= i < |init| && Visible(init[i], q) && w == Project(sha, init[i], q.viewer);
        assert Visible(chain[i], q) && w == Project(sha, chain[i], q.viewer);
      }
    }
  }

  /** The query asks for the record: its user's own if it is a user's query, of the task asked for if any, of
      one of the kinds asked for if any. */
  predicate AsksFor(q: AuditQuery, r: Record)
  {
    && (q.viewer.role != AsUser || r.entry.actor.user == q.viewer.user)
    && (q.task != "" ==> r.entry.actor.task == q.task)
    && (q.kinds != [] ==> exists i :: 0 <= i < |q.kinds| && q.kinds[i] == r.entry.kind)
  }

  predicate FieldShownAs(sha: string -> string, f: Field, w: FieldView, allowed: set<string>)
  {
    && w.name == f.name && w.classification == f.classification
    && if f.classification == "PUBLIC" || f.name in allowed then !w.redacted && w.value == f.value && w.digest == ""
       else w.redacted && w.value == "" && w.digest == sha(f.value)
  }

  /** The view carries all of the record but the values the viewer may not see, and their digests for those. */
  predicate ShownAs(sha: string -> string, r: Record, w: View, allowed: set<string>)
  {
    && w.entry.eventId == r.entry.eventId && w.entry.tenant == r.entry.tenant && w.entry.kind == r.entry.kind && w.entry.actor == r.entry.actor
    && w.entry.action == r.entry.action && w.entry.argumentsDigest == r.entry.argumentsDigest && w.entry.resultDigest == r.entry.resultDigest
    && w.entry.approvalDigest == r.entry.approvalDigest && w.entry.edges == r.entry.edges && w.entry.occurredAt == r.entry.occurredAt
    && w.entry.fields == [] && w.sequence == r.sequence && w.prevHash == r.prevHash && w.chainHash == r.chainHash
    && |w.fields| == |r.entry.fields| && forall i :: 0 <= i < |w.fields| ==> FieldShownAs(sha, r.entry.fields[i], w.fields[i], allowed)
  }

  /** The views are the records at these places of the chain, in chain order: all that the query asks for, and
      no other. */
  ghost predicate Selected(sha: string -> string, chain: seq<Record>, q: AuditQuery, views: seq<View>, places: seq<nat>)
  {
    && Ascends(places) && |places| == |views|
    && (forall n :: 0 <= n < |places| ==> places[n] < |chain| && ShownAs(sha, chain[places[n]], views[n], q.viewer.allowed))
    && (forall i: nat :: i < |chain| ==> (i in places <==> AsksFor(q, chain[i])))
  }

  lemma {:induction false} AnswerSelects(sha: string -> string, chain: seq<Record>, q: AuditQuery) returns (places: seq<nat>)
    ensures Selected(sha, chain, q, Answer(sha, chain, q), places)
  {
    hide ShownAs, AsksFor, Visible, Project, Selected;
    if chain == [] {
      places := [];
      SelectedNone(sha, q);
    } else {
      var n := |chain| - 1;
      places := AnswerSelects(sha, chain[..n], q);
      SelectsOne(sha, chain[n], q);
      var before := Answer(sha, chain[..n], q);
      if Visible(chain[n], q) {
        SelectedToo(sha, chain, q, before, places, Project(sha, chain[n], q.viewer));
        places := places + [n];
      } else {
        SelectedStill(sha, chain, q, before, places);
      }
    }
  }

  lemma SelectedNone(sha: string -> string, q: AuditQuery)
    ensures Selected(sha, [], q, [], [])
  {
  }

  lemma SelectedStill(sha: string -> string, chain: seq<Record>, q: AuditQuery, views: seq<View>, places: seq<nat>)
    requires chain != [] && Selected(sha, chain[..|chain| - 1], q, views, places) && !AsksFor(q, chain[|chain| - 1])
    ensures Selected(sha, chain, q, views, places)
  {
    hide ShownAs, AsksFor;
  }

  lemma SelectedToo(sha: string -> string, chain: seq<Record>, q: AuditQuery, views: seq<View>, places: seq<nat>, view: View)
    requires chain != [] && Selected(sha, chain[..|chain| - 1], q, views, places)
    requires AsksFor(q, chain[|chain| - 1]) && ShownAs(sha, chain[|chain| - 1], view, q.viewer.allowed)
    ensures Selected(sha, chain, q, views + [view], places + [|chain| - 1])
  {
    hide ShownAs, AsksFor;
    var n := |chain| - 1;
    forall k | 0 <= k < |places| ensures places[k] < n && ShownAs(sha, chain[places[k]], views[k], q.viewer.allowed) {
      assert chain[..n][places[k]] == chain[places[k]];
    }
    forall i: nat | i < |chain| ensures i in places + [n] <==> AsksFor(q, chain[i]) {
      if i < n { assert chain[..n][i] == chain[i]; }
    }
  }

  lemma SelectsOne(sha: string -> string, r: Record, q: AuditQuery)
    ensures Visible(r, q) <==> AsksFor(q, r)
    ensures ShownAs(sha, r, Project(sha, r, q.viewer), q.viewer.allowed)
  {
  }

  /** What a query answers, from any store: for a proper viewer and known kinds, the tenant's records it asks
      for, in order, each as the viewer may see it. */
  lemma QuerySelects(sha: string -> string, v: Vault, q: AuditQuery)
    ensures QueryAnswer(sha, v, q).Ok? <==>
            && !Blank(q.viewer.tenant) && !Blank(q.viewer.user) && (q.viewer.role == AsUser || q.viewer.role == AsAuditor)
            && forall i :: 0 <= i < |q.kinds| ==> q.kinds[i] in EVENT_KINDS
    ensures QueryAnswer(sha, v, q).Ok? ==> exists places :: Selected(sha, ChainOf(v, q.viewer.tenant), q, QueryAnswer(sha, v, q).value, places)
  {
    hide Blank, Selected;
    var places := AnswerSelects(sha, ChainOf(v, q.viewer.tenant), q);
  }

  /** A user never gets another user's event, and a value is shown only when public or allowed. */
  lemma AnswersRespectViewer(sha: string -> string, chain: seq<Record>, q: AuditQuery, w: View, i: nat)
    requires w in Answer(sha, chain, q) && i < |w.fields|
    ensures q.viewer.role == AsUser ==> w.entry.actor.user == q.viewer.user
    ensures w.fields[i].redacted <==> w.fields[i].classification != "PUBLIC" && w.fields[i].name !in q.viewer.allowed
    ensures w.fields[i].redacted ==> w.fields[i].value == ""
  {
    AnswerShows(sha, chain, q, w);
  }

  class MemoryStore {
    const h: Hash
    const sha: string -> string
    var chains: map<string, seq<Record>>
    var byEvent: map<EventKey, Record>

    function State(): Vault reads this { Vault(chains, byEvent) }

    constructor (h: Hash, sha: string -> string)
      ensures this.h == h && this.sha == sha && State() == Filled(h, [])
    {
      this.h, this.sha, this.chains, this.byEvent := h, sha, map[], map[];
    }

    method Append(e: Entry, now: Time) returns (r: Result<Record>)
      modifies this
      ensures (State(), r) == AppendEntry(h, old(State()), e, now)
    {
      hide ValidEntry, CanonicalEntry;
      var ok := Validate(e);
      if !ok { return Err(InvalidEntry); }
      if KeyOf(e) in byEvent {
        var prior := byEvent[KeyOf(e)];
        if CanonicalEntry(prior.entry) != CanonicalEntry(e) { return Err(DuplicateConflict); }
        return Ok(prior.(created := false));
      }
      var chain := if e.tenant in chains then chains[e.tenant] else [];
      var prev := "";
      if |chain| > 0 { prev := chain[|chain| - 1].chainHash; }
      var record := Record(e, |chain| + 1, prev, "", now, true);
      record := record.(chainHash := h(MaterialOf(record)));
      chains := chains[e.tenant := chain + [record]];
      byEvent := byEvent[KeyOf(e) := record];
      return Ok(record);
    }

    method Query(q: AuditQuery) returns (r: Result<seq<View>>)
      ensures r == QueryAnswer(sha, State(), q)
    {
      hide Project, QueryOk;
      if !QueryOk(q) { return Err(Unauthorized); }
      for i := 0 to |q.kinds|
        invariant forall j :: 0 <= j < i ==> q.kinds[j] in EVENT_KINDS
      {
        if q.kinds[i] !in EVENT_KINDS { return Err(InvalidEntry); }
      }
      var chain := ChainOf(State(), q.viewer.tenant);
      var views := [];
      for i := 0 to |chain|
        invariant views == Answer(sha, chain[..i], q)
      {
        assert chain[..i + 1][..i] == chain[..i];
        var r := chain[i];
        if (q.viewer.role == AsUser && r.entry.actor.user != q.viewer.user) || (q.task != "" && r.entry.actor.task != q.task)
           || (|q.kinds| > 0 && r.entry.kind !in q.kinds) { continue; }
        views := views + [Project(sha, r, q.viewer)];
      }
      assert chain[..|chain|] == chain;
      return Ok(views);
    }

    method Verify(tenant: string) returns (r: Result<()>)
      ensures r == if Blank(tenant) then Err(InvalidEntry) else if Verifies(h, ChainOf(State(), tenant)) then Ok(()) else Err(ChainTampered)
    {
      hide Verifies;
      if Blank(tenant) { return Err(InvalidEntry); }
      var ok := VerifyChain(h, ChainOf(State(), tenant));
      return if ok then Ok(()) else Err(ChainTampered);
    }
  }
}
