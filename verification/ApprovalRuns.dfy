/** Every interleaving of Create, Approve, Revoke and Submit calls. A run is any sequence of
    actions; an action is one locked region, one external answer, or the call of the submitter.
    Between two regions of one call any other call may act. */
module ApprovalRuns {
  import opened Wrappers
  import opened Ordering
  import opened Text
  import opened Approval

  /** What a caller of Submit says: who asks, for which digest, under which key. */
  datatype Ask = Ask(user: string, expected: Digest, key: string)

  /** Where a call that has let go of the lock is waiting, with what its caller said. */
  datatype Pc =
    | Naming(req: CreateRequest, now: Time, id: string)
    | SteppingUp(decision: ApproveRequest, card: Card)
    | SteppedUp(decision: ApproveRequest, card: Card, proven: bool)
    | Submitting(card: Card, ask: Ask)
    | Returning(card: Card, ask: Ask, ok: bool)

  /** What happened: the card as stored, and otherwise what the callers sent and the ports answered. */
  datatype Event =
    | Created(card: Card, req: CreateRequest, at: Time)
    | Decided(decision: ApproveRequest, steppedUp: bool, at: Time)
    | Withdrawn(id: string)
    | Claimed(id: string, ask: Ask, check: Revalidation, at: Time)
    | Invoked(request: Request)
    | Returned(receipt: Receipt, ask: Ask)

  datatype System = System(ledger: Ledger, calls: map<nat, Pc>, log: seq<Event>)

  datatype Action =
    | StartCreate(call: nat, create: CreateRequest, clock: Time)
    | FinishCreate(call: nat)
    | StartApprove(call: nat, decision: ApproveRequest, clock: Time)
    | AnswerStepUp(call: nat, verified: bool)
    | FinishApprove(call: nat, clock: Time)
    | Revoke(id: string, reason: string)
    | StartSubmit(call: nat, id: string, ask: Ask, clock: Time, check: Revalidation)
    | CallSubmitter(call: nat, ok: bool)
    | FinishSubmit(call: nat, clock: Time)

  const START := System(Ledger(0, map[]), map[], [])

  // ---- the steps; one that its call is not ready for changes nothing ---------------------------

  ghost function DoStartCreate(s: System, call: nat, req: CreateRequest, clock: Time): System
  {
    var now := if req.now == 0 then clock else req.now;
    if call in s.calls || !ValidCreate(req, now) then s
    else if req.id != "" then s.(calls := s.calls[call := Naming(req, now, req.id)])
    else
      var (l, id) := ReserveId(s.ledger);
      s.(ledger := l, calls := s.calls[call := Naming(req, now, id)])
  }

  function DoFinishCreate(s: System, call: nat): System
  {
    if call !in s.calls || !s.calls[call].Naming? then s
    else
      var pc := s.calls[call];
      var (l, r) := InsertCard(s.ledger, NewCard(pc.req, pc.now, pc.id));
      System(l, s.calls - {call}, if r.Ok? then s.log + [Created(r.value, pc.req, pc.now)] else s.log)
  }

  function DoStartApprove(s: System, call: nat, req: ApproveRequest, clock: Time): System
  {
    var r := CheckDecision(s.ledger, req, clock);
    if call in s.calls || r.Err? then s else s.(calls := s.calls[call := SteppingUp(req, r.value)])
  }

  function DoAnswerStepUp(s: System, call: nat, verified: bool): System
  {
    if call !in s.calls || !s.calls[call].SteppingUp? then s
    else
      var pc := s.calls[call];
      if !NeedsStepUp(pc.card.items) then s.(calls := s.calls[call := SteppedUp(pc.decision, pc.card, false)])
      else if verified then s.(calls := s.calls[call := SteppedUp(pc.decision, pc.card, true)])
      else s.(calls := s.calls - {call})
  }

  function DoFinishApprove(s: System, call: nat, clock: Time): System
  {
    if call !in s.calls || !s.calls[call].SteppedUp? then s
    else
      var pc := s.calls[call];
      var (l, r) := CommitDecision(s.ledger, pc.card, clock);
      System(l, s.calls - {call}, if r.Ok? then s.log + [Decided(pc.decision, pc.proven, clock)] else s.log)
  }

  function DoRevoke(s: System, id: string, reason: string): System
  {
    var (l, r) := RevokeCard(s.ledger, id, reason);
    s.(ledger := l, log := if r.Ok? then s.log + [Withdrawn(id)] else s.log)
  }

  function DoStartSubmit(s: System, call: nat, id: string, ask: Ask, clock: Time, check: Revalidation): System
  {
    if call in s.calls then s
    else
      var (l, claim) := ClaimSubmission(s.ledger, id, ask.user, ask.expected, ask.key, clock, check);
      match claim
      case Won(card) => System(l, s.calls[call := Submitting(card, ask)], s.log + [Claimed(id, ask, check, clock)])
      case Replay(receipt) => s.(log := s.log + [Returned(receipt, ask)])
      case Refused(_) => s
  }

  function DoCallSubmitter(s: System, call: nat, ok: bool): System
  {
    if call !in s.calls || !s.calls[call].Submitting? then s
    else
      var pc := s.calls[call];
      s.(calls := s.calls[call := Returning(pc.card, pc.ask, ok)], log := s.log + [Invoked(RequestOf(pc.card, pc.ask.key))])
  }

  function DoFinishSubmit(s: System, call: nat, clock: Time): System
  {
    if call !in s.calls || !s.calls[call].Returning? || s.calls[call].card.id !in s.ledger.items then s
    else
      var pc := s.calls[call];
      var receipt := ReceiptFor(pc.card, pc.ask.key, clock);
      if pc.ok then System(SettleSuccess(s.ledger, receipt), s.calls - {call}, s.log + [Returned(receipt, pc.ask)])
      else s.(ledger := SettleFailure(s.ledger, pc.card.id), calls := s.calls - {call})
  }

  ghost function Do(s: System, a: Action): System
  {
    match a
    case StartCreate(call, req, clock) => DoStartCreate(s, call, req, clock)
    case FinishCreate(call) => DoFinishCreate(s, call)
    case StartApprove(call, req, clock) => DoStartApprove(s, call, req, clock)
    case AnswerStepUp(call, verified) => DoAnswerStepUp(s, call, verified)
    case FinishApprove(call, clock) => DoFinishApprove(s, call, clock)
    case Revoke(id, reason) => DoRevoke(s, id, reason)
    case StartSubmit(call, id, ask, clock, check) => DoStartSubmit(s, call, id, ask, clock, check)
    case CallSubmitter(call, ok) => DoCallSubmitter(s, call, ok)
    case FinishSubmit(call, clock) => DoFinishSubmit(s, call, clock)
  }

  ghost function Run(actions: seq<Action>): System
  {
    if actions == [] then START else Do(Run(actions[..|actions| - 1]), actions[|actions| - 1])
  }

  // ---- the history of one approval ---------------------------------------------------------

  function ApprovalOf(e: Event): string
  {
    match e
    case Created(c, _, _) => c.id
    case Decided(decision, _, _) => decision.approvalId
    case Withdrawn(id) => id
    case Claimed(id, _, _, _) => id
    case Invoked(r) => r.approvalId
    case Returned(r, _) => r.approvalId
  }

  /** The events of one approval, in the order they happened. */
  function History(log: seq<Event>, id: string): seq<Event>
  {
    if log == [] then []
    else
      var before := History(log[..|log| - 1], id);
      if ApprovalOf(log[|log| - 1]) == id then before + [log[|log| - 1]] else before
  }

  /** The card as Create fixed it: everything but its phase and the revocation reason. */
  function Fixed(c: Card): Card { c.(phase := Pending, revokeReason := "") }

  /** What the caller of Approve sent: the assigned user's own decision, from the product surface, on this
      very digest and these very items in their order, with no agent in its chain. */
  predicate RightRequest(q: ApproveRequest, c: Card)
  {
    && q.approvalId == c.id && q.user == c.user && q.productSurface && q.expectedDigest == c.digest && q.presentedIds == IdsOf(c.items)
    && Actor(Human, c.user) in q.decisionOrigin && forall a :: a in q.decisionOrigin ==> a.kind != Agent
  }

  /** Such a decision, stepped up when the risk asks for it, and recorded before both expiries. */
  predicate RightDecision(e: Event, c: Card)
  {
    e.Decided? && RightRequest(e.decision, c) && (NeedsStepUp(c.items) ==> e.steppedUp) && e.at < c.taskExpiresAt && e.at < c.expiresAt
  }

  /** The assigned user asks for this very digest. */
  predicate RightAsk(ask: Ask, c: Card) { ask.user == c.user && ask.expected == c.digest }

  predicate RightClaim(e: Event, c: Card)
  {
    e.Claimed? && RightAsk(e.ask, c) && e.check == Answer(true, true, true) && e.at < c.taskExpiresAt && e.at < c.expiresAt
  }

  predicate Decision(h: seq<Event>, c: Card) { 2 <= |h| && RightDecision(h[1], c) }

  predicate Execution(h: seq<Event>, c: Card)
  {
    3 <= |h| && Decision(h, c) && RightClaim(h[2], c) && (3 < |h| ==> h[3] == Invoked(RequestOf(c, h[2].ask.key)))
  }

  /** The same row, with its subjects, fields and sources in whatever order. */
  predicate SameItem(a: Item, b: Item)
  {
    && a.(subjects := b.subjects, fields := b.fields, sources := b.sources) == b
    && multiset(a.subjects) == multiset(b.subjects) && multiset(a.fields) == multiset(b.fields) && multiset(a.sources) == multiset(b.sources)
  }

  predicate HasItem(rows: seq<Item>, x: Item) { exists y :: y in rows && SameItem(y, x) }

  /** The same rows, in whatever order. */
  ghost predicate SameRows(a: seq<Item>, b: seq<Item>)
  {
    |a| == |b| && (forall x :: x in b ==> HasItem(a, x)) && (forall x :: x in a ==> HasItem(b, x))
  }

  ghost predicate ServerId(id: string) { exists n: nat :: id == "agent-approval-" + Pad(Itoa(n), 8) }

  /** The card is the one this request asked for when it was admitted. */
  ghost predicate Made(c: Card, req: CreateRequest, at: Time)
  {
    && c.tenant == req.tenant && c.task == req.task && c.user == req.user && c.agent == req.agent && c.origin == req.origin
    && c.taskExpiresAt == req.taskExpiresAt && c.createdAt == at && (req.now != 0 ==> at == req.now)
    && c.expiresAt == (if req.taskExpiresAt < at + 24 * 3600 * SECOND then req.taskExpiresAt else at + 24 * 3600 * SECOND)
    && SameRows(req.items, c.items)
    && (if req.id != "" then c.id == req.id else ServerId(c.id))
    && ValidCreate(req, at)
  }

  /** What Create admits: some rows with distinct ids, and a lifetime within both limits. */
  ghost predicate Admitted(c: Card)
  {
    && 1 <= |c.items| <= MAX_BATCH_ITEMS && DistinctIds(c.items)
    && c.createdAt < c.expiresAt <= c.taskExpiresAt <= c.createdAt + MAX_TASK_LIFETIME && c.expiresAt <= c.createdAt + APPROVAL_LIFETIME
  }

  /** The only histories an approval can have, by the phase its card is in. */
  ghost predicate Story(h: seq<Event>, r: Record)
  {
    var c := r.card;
    && 1 <= |h| && h[0].Created? && h[0].card == Fixed(c) && Made(Fixed(c), h[0].req, h[0].at)
    && match c.phase
       case Pending => |h| == 1
       case Approved => |h| == 2 && Decision(h, c)
       case Revoked => (|h| == 2 && h[1] == Withdrawn(c.id)) || (|h| == 3 && Decision(h, c) && h[2] == Withdrawn(c.id))
       case Executing => |h| <= 4 && Execution(h, c)
       case Failed => |h| == 4 && Execution(h, c)
       case Submitted =>
         && 5 <= |h| && Execution(h, c)
         && r.receipt == ReceiptFor(c, h[2].ask.key, r.receipt.submittedAt)
         && h[4] == Returned(r.receipt, h[2].ask)
         && forall k :: 5 <= k < |h| ==> h[k] == Returned(r.receipt.(replayed := true), h[2].ask)
  }

  ghost predicate SoundCard(c: Card, id: string) { c.id == id && c.digest == DigestOf(Fixed(c)) && Admitted(c) }

  ghost predicate RecordOk(s: System, id: string)
    requires id in s.ledger.items
  {
    var r := s.ledger.items[id];
    SoundCard(r.card, id) && Story(History(s.log, id), r)
  }

  /** The card a call carries is the stored one, apart from its phase. */
  predicate Carries(s: System, c: Card)
  {
    c.id in s.ledger.items && Fixed(s.ledger.items[c.id].card) == Fixed(c)
  }

  /** The call holds the EXECUTING claim on its card, with so many events behind it. */
  predicate Holds(s: System, c: Card, ask: Ask, events: nat)
  {
    && Carries(s, c) && s.ledger.items[c.id].card.phase == Executing
    && var h := History(s.log, c.id); |h| == events && 3 <= events && h[2].Claimed? && h[2].ask == ask
  }

  ghost predicate CallOk(s: System, pc: Pc)
  {
    match pc
    case Naming(req, now, id) => ValidCreate(req, now) && (req.now != 0 ==> now == req.now) && if req.id != "" then id == req.id else ServerId(id)
    case SteppingUp(q, c) => Carries(s, c) && RightRequest(q, c)
    case SteppedUp(q, c, proven) => Carries(s, c) && RightRequest(q, c) && (NeedsStepUp(c.items) ==> proven)
    case Submitting(c, ask) => Holds(s, c, ask, 3)
    case Returning(c, ask, _) => Holds(s, c, ask, 4)
  }

  predicate Executes(pc: Pc, id: string) { (pc.Submitting? || pc.Returning?) && pc.card.id == id }

  /** Both calls are executing the same approval. */
  predicate Rivals(a: Pc, b: Pc) { (a.Submitting? || a.Returning?) && Executes(b, a.card.id) }

  ghost predicate RecordsOk(s: System)
  {
    && (forall id :: id in s.ledger.items ==> RecordOk(s, id))
    && (forall id :: id !in s.ledger.items ==> History(s.log, id) == [])
  }

  ghost predicate CallsOk(s: System) { forall t :: t in s.calls ==> CallOk(s, s.calls[t]) }

  /** At most one call executes an approval at any time. */
  ghost predicate OneExecutor(calls: map<nat, Pc>)
  {
    forall t, u :: t in calls && u in calls && t != u ==> !Rivals(calls[t], calls[u])
  }

  lemma OneExecutorDrop(calls: map<nat, Pc>, call: nat)
    requires OneExecutor(calls)
    ensures OneExecutor(calls - {call})
  {
  }

  lemma OneExecutorPut(calls: map<nat, Pc>, call: nat, pc: Pc)
    requires OneExecutor(calls) && forall u :: u in calls && u != call ==> !Rivals(pc, calls[u])
    ensures OneExecutor(calls[call := pc])
  {
  }

  ghost predicate Inv(s: System) { RecordsOk(s) && CallsOk(s) && OneExecutor(s.calls) }

  lemma HistoryGrows(log: seq<Event>, e: Event, id: string)
    ensures History(log + [e], id) == if ApprovalOf(e) == id then History(log, id) + [e] else History(log, id)
  {
    assert (log + [e])[..|log|] == log;
  }

  // ---- what each event does to a story -----------------------------------------------------

  lemma NewCardSealed(req: CreateRequest, now: Time, id: string)
    requires ValidCreate(req, now) && (req.now != 0 ==> now == req.now) && if req.id != "" then id == req.id else ServerId(id)
    ensures var c := NewCard(req, now, id); SoundCard(c, id) && c.id == id && c == Fixed(c) && Made(c, req, now)
  {
    hide ValidItem, Canonical, EmptyOrCanonical, NormalizeItems, SameRows, ServerId, DistinctIds;
    NormalizeTwice(req.items);
    NormalizedDistinct(req.items);
    NormalizedRows(req.items);
  }

  lemma NormalizedItem(i: Item)
    ensures SameItem(i, NormalizeItem(i)) && SameItem(NormalizeItem(i), i)
  {
    hide Sort;
    SortKeeps(SubjectLe, i.subjects);
    SortKeeps(FieldLe, i.fields);
    SortKeeps(SourceLe, i.sources);
  }

  /** Normalising only rearranges. */
  lemma NormalizedRows(items: seq<Item>)
    ensures SameRows(items, NormalizeItems(items))
  {
    hide Sort, NormalizeItem, SameItem;
    var sorted, rows := Sort(ItemLe, items), NormalizeItems(items);
    SortKeeps(ItemLe, items);
    forall x | x in rows ensures HasItem(items, x) {
      var k :| 0 <= k < |rows| && rows[k] == x;
      assert sorted[k] in sorted;
      NormalizedItem(sorted[k]);
    }
    forall x | x in items ensures HasItem(rows, x) {
      assert x in sorted;
      var k :| 0 <= k < |sorted| && sorted[k] == x;
      assert rows[k] in rows;
      NormalizedItem(x);
    }
  }

  lemma NormalizedDistinct(items: seq<Item>)
    requires DistinctIds(items)
    ensures DistinctIds(NormalizeItems(items)) && |NormalizeItems(items)| == |items|
  {
    var sorted := Sort(ItemLe, items);
    SortKeeps(ItemLe, items);
    assert Distinct(items);
    SortDistinct(ItemLe, items);
    forall i, j | 0 <= i < j < |sorted| ensures sorted[i].id != sorted[j].id {
      assert sorted[i] in items && sorted[j] in items && sorted[i] != sorted[j];
    }
  }

  lemma FirstEvent(h: seq<Event>, c: Card, e: Event)
    requires h == [] && c == Fixed(c) && c.phase == Pending && e.Created? && e.card == c && Made(c, e.req, e.at)
    ensures Story(h + [e], Record(c, NO_RECEIPT))
  {
  }

  lemma StoryDecided(h: seq<Event>, r: Record, e: Event)
    requires Story(h, r) && r.card.phase == Pending && RightDecision(e, r.card)
    ensures Story(h + [e], r.(card := r.card.(phase := Approved)))
  {
    hide Made;
  }

  lemma StoryWithdrawn(h: seq<Event>, r: Record, reason: string)
    requires Story(h, r) && r.card.phase in {Pending, Approved}
    ensures Story(h + [Withdrawn(r.card.id)], r.(card := r.card.(phase := Revoked, revokeReason := reason)))
  {
    hide Made;
  }

  lemma StoryClaimed(h: seq<Event>, r: Record, e: Event)
    requires Story(h, r) && r.card.phase == Approved && RightClaim(e, r.card)
    ensures |h| == 2 && Story(h + [e], r.(card := r.card.(phase := Executing)))
  {
    hide Made;
  }

  lemma StoryInvoked(h: seq<Event>, r: Record, ask: Ask)
    requires Story(h, r) && r.card.phase == Executing && |h| == 3 && h[2].ask == ask
    ensures Story(h + [Invoked(RequestOf(r.card, ask.key))], r)
  {
    hide Made;
  }

  lemma StoryFailed(h: seq<Event>, r: Record)
    requires Story(h, r) && r.card.phase == Executing && |h| == 4
    ensures Story(h, r.(card := r.card.(phase := Failed)))
  {
    hide Made;
  }

  lemma StoryReturned(h: seq<Event>, r: Record, ask: Ask, now: Time)
    requires Story(h, r) && r.card.phase == Executing && |h| == 4 && h[2].ask == ask
    ensures var receipt := ReceiptFor(r.card, ask.key, now);
            Story(h + [Returned(receipt, ask)], Record(r.card.(phase := Submitted), receipt))
  {
    hide Made;
  }

  lemma StoryReplayed(h: seq<Event>, r: Record, ask: Ask)
    requires Story(h, r) && r.card.phase == Submitted && RightAsk(ask, r.card) && ask.key == r.receipt.key
    ensures Story(h + [Returned(r.receipt.(replayed := true), ask)], r) && r.receipt.approvalId == r.card.id
  {
    hide Made;
  }

  /** A step that touches one approval keeps the records of all the others. */
  lemma RecordsKept(s: System, t: System, id: string, r: Record, events: seq<Event>)
    requires RecordsOk(s)
    requires t.ledger.items == s.ledger.items[id := r] && t.log == s.log + events
    requires |events| <= 1 && forall e :: e in events ==> ApprovalOf(e) == id
    requires SoundCard(r.card, id) && Story(History(s.log, id) + events, r)
    ensures RecordsOk(t)
    ensures forall j :: History(t.log, j) == if j == id then History(s.log, j) + events else History(s.log, j)
  {
    hide DigestOf, NeedsStepUp, Story, History, SoundCard;
    forall j ensures History(t.log, j) == if j == id then History(s.log, j) + events else History(s.log, j) { HistoryWith(s.log, events, id, j); }
    forall j | j in t.ledger.items ensures RecordOk(t, j) {
      if j != id { assert RecordOk(s, j); }
    }
  }

  lemma HistoryWith(log: seq<Event>, events: seq<Event>, id: string, j: string)
    requires |events| <= 1 && forall e :: e in events ==> ApprovalOf(e) == id
    ensures History(log + events, j) == if j == id then History(log, j) + events else History(log, j)
  {
    hide History;
    if events == [] {
      assert log + events == log && History(log, j) + events == History(log, j);
    } else {
      assert events == [events[0]] && events[0] in events;
      HistoryGrows(log, events[0], j);
    }
  }

  /** Calls that do not execute the approval a step touched are still where they were. */
  lemma CallKept(s: System, t: System, id: string, pc: Pc)
    requires CallOk(s, pc) && !Executes(pc, id)
    requires id in t.ledger.items && (id in s.ledger.items ==> Fixed(t.ledger.items[id].card) == Fixed(s.ledger.items[id].card))
    requires forall j :: j in s.ledger.items && j != id ==> j in t.ledger.items && t.ledger.items[j] == s.ledger.items[j]
    requires forall j :: j != id ==> History(t.log, j) == History(s.log, j)
    ensures CallOk(t, pc)
  {
  }

  lemma CallsKept(s: System, t: System, id: string)
    requires CallsOk(s)
    requires id in t.ledger.items && (id in s.ledger.items ==> Fixed(t.ledger.items[id].card) == Fixed(s.ledger.items[id].card))
    requires forall j :: j in s.ledger.items && j != id ==> j in t.ledger.items && t.ledger.items[j] == s.ledger.items[j]
    requires forall j :: j != id ==> History(t.log, j) == History(s.log, j)
    requires forall u :: u in t.calls ==> CallOk(t, t.calls[u]) || (u in s.calls && t.calls[u] == s.calls[u] && !Executes(t.calls[u], id))
    ensures CallsOk(t)
  {
    forall u | u in t.calls ensures CallOk(t, t.calls[u]) {
      if !CallOk(t, t.calls[u]) { CallKept(s, t, id, s.calls[u]); }
    }
  }

  /** Outside the EXECUTING phase no call executes the approval. */
  lemma NobodyExecutes(s: System, id: string)
    requires CallsOk(s) && id in s.ledger.items && s.ledger.items[id].card.phase != Executing
    ensures forall u :: u in s.calls ==> !Executes(s.calls[u], id)
  {
    forall u | u in s.calls ensures !Executes(s.calls[u], id) { assert CallOk(s, s.calls[u]); }
  }

  lemma OnlyExecutor(s: System, call: nat)
    requires OneExecutor(s.calls) && call in s.calls && (s.calls[call].Submitting? || s.calls[call].Returning?)
    ensures forall u :: u in s.calls && u != call ==> !Executes(s.calls[u], s.calls[call].card.id)
  {
    forall u | u in s.calls && u != call ensures !Executes(s.calls[u], s.calls[call].card.id) {
      assert !Rivals(s.calls[call], s.calls[u]);
    }
  }

  /** A step on an approval nobody executes leaves all other calls where they were. */
  lemma QuietCalls(s: System, t: System, id: string)
    requires CallsOk(s) && id in s.ledger.items && s.ledger.items[id].card.phase != Executing
    requires id in t.ledger.items && Fixed(t.ledger.items[id].card) == Fixed(s.ledger.items[id].card)
    requires forall j :: j in s.ledger.items && j != id ==> j in t.ledger.items && t.ledger.items[j] == s.ledger.items[j]
    requires forall j :: j != id ==> History(t.log, j) == History(s.log, j)
    requires forall u :: u in t.calls ==> u in s.calls && t.calls[u] == s.calls[u]
    ensures CallsOk(t)
  {
    NobodyExecutes(s, id);
    CallsKept(s, t, id);
  }

  lemma RecordFact(s: System, id: string)
    requires RecordsOk(s) && id in s.ledger.items
    ensures var c := s.ledger.items[id].card;
            RecordOk(s, id) && SoundCard(c, id) && c.id == id && c.digest == DigestOf(Fixed(c)) && Story(History(s.log, id), s.ledger.items[id])
  {
    hide Story, DigestOf, Admitted, History;
  }

  /** Being sound does not depend on the phase. */
  lemma SoundStays(c: Card, d: Card, id: string)
    requires SoundCard(c, id) && Fixed(c) == Fixed(d)
    ensures SoundCard(d, id)
  {
    hide DigestOf, NormalizeItems;
    assert d.items == Fixed(d).items && d.expiresAt == Fixed(d).expiresAt && d.taskExpiresAt == Fixed(d).taskExpiresAt && d.createdAt == Fixed(d).createdAt;
  }

  lemma CallFact(s: System, call: nat)
    requires CallsOk(s) && call in s.calls
    ensures CallOk(s, s.calls[call])
  {
  }

  /** A step that only moves calls keeps the records. */
  lemma RecordsSame(s: System, t: System)
    requires RecordsOk(s) && t.ledger.items == s.ledger.items && t.log == s.log
    requires CallsOk(s) && forall u :: u in t.calls ==> (u in s.calls && t.calls[u] == s.calls[u]) || CallOk(s, t.calls[u])
    ensures RecordsOk(t) && CallsOk(t)
  {
    forall id | id in t.ledger.items ensures RecordOk(t, id) { assert RecordOk(s, id); }
    forall u | u in t.calls ensures CallOk(t, t.calls[u]) { assert CallOk(s, t.calls[u]); }
  }

  lemma ReservedId(l: Ledger)
    ensures ServerId(ReserveId(l).1)
  {
    hide Pad, Itoa;
  }

  lemma StartCreateKeeps(s: System, call: nat, req: CreateRequest, clock: Time)
    requires Inv(s)
    ensures Inv(DoStartCreate(s, call, req, clock))
  {
    hide History, DigestOf, NeedsStepUp, Story, ValidCreate, SoundCard, ServerId;
    var t := DoStartCreate(s, call, req, clock);
    ReservedId(s.ledger);
    RecordsSame(s, t);
    if t != s { OneExecutorPut(s.calls, call, t.calls[call]); }
  }

  lemma FinishCreateKeeps(s: System, call: nat)
    requires Inv(s)
    ensures Inv(DoFinishCreate(s, call))
  {
    hide History, DigestOf, NeedsStepUp, Story, NewCard, ValidCreate, SoundCard, Made, ServerId;
    var t := DoFinishCreate(s, call);
    OneExecutorDrop(s.calls, call);
    if t.log != s.log {
      var pc := s.calls[call];
      CallFact(s, call);
      var c := NewCard(pc.req, pc.now, pc.id);
      NewCardSealed(pc.req, pc.now, pc.id);
      var e := Created(c, pc.req, pc.now);
      FirstEvent(History(s.log, c.id), c, e);
      RecordsKept(s, t, c.id, Record(c, NO_RECEIPT), [e]);
      CallsKept(s, t, c.id);
    } else {
      RecordsSame(s, t);
    }
  }

  lemma StartApproveKeeps(s: System, call: nat, req: ApproveRequest, clock: Time)
    requires Inv(s)
    ensures Inv(DoStartApprove(s, call, req, clock))
  {
    hide History, DigestOf, NeedsStepUp, Story, Blank, IdsOf, CheckOpen;
    var t := DoStartApprove(s, call, req, clock);
    if t != s {
      RecordFact(s, req.approvalId);
      RecordsSame(s, t);
      OneExecutorPut(s.calls, call, t.calls[call]);
    }
  }

  lemma AnswerStepUpKeeps(s: System, call: nat, verified: bool)
    requires Inv(s)
    ensures Inv(DoAnswerStepUp(s, call, verified))
  {
    hide History, DigestOf, NeedsStepUp, Story, SoundCard, RightRequest, ValidCreate, ServerId;
    var t := DoAnswerStepUp(s, call, verified);
    if t != s {
      CallFact(s, call);
      RecordsSame(s, t);
      OneExecutorDrop(s.calls, call);
      if call in t.calls { OneExecutorPut(s.calls, call, t.calls[call]); }
    }
  }

  lemma RightForStored(q: ApproveRequest, c: Card, d: Card)
    requires RightRequest(q, c) && Fixed(c) == Fixed(d)
    ensures RightRequest(q, d) && c.items == d.items && c.taskExpiresAt == d.taskExpiresAt && c.expiresAt == d.expiresAt
  {
    hide IdsOf;
    assert c.items == Fixed(c).items && d.items == Fixed(d).items;
    assert c.taskExpiresAt == Fixed(c).taskExpiresAt && d.taskExpiresAt == Fixed(d).taskExpiresAt && c.expiresAt == Fixed(c).expiresAt && d.expiresAt == Fixed(d).expiresAt;
    assert c.user == Fixed(c).user && d.user == Fixed(d).user && c.id == Fixed(c).id && d.id == Fixed(d).id && c.digest == Fixed(c).digest && d.digest == Fixed(d).digest;
  }

  lemma FinishApproveKeeps(s: System, call: nat, clock: Time)
    requires Inv(s)
    ensures Inv(DoFinishApprove(s, call, clock))
  {
    hide History, DigestOf, NeedsStepUp, Story, SoundCard, IdsOf;
    var t := DoFinishApprove(s, call, clock);
    OneExecutorDrop(s.calls, call);
    if t.log != s.log {
      var pc := s.calls[call];
      var r := s.ledger.items[pc.card.id];
      var e := Decided(pc.decision, pc.proven, clock);
      CallFact(s, call);
      RecordFact(s, pc.card.id);
      RightForStored(pc.decision, pc.card, r.card);
      StoryDecided(History(s.log, pc.card.id), r, e);
      SoundStays(r.card, r.card.(phase := Approved), pc.card.id);
      RecordsKept(s, t, pc.card.id, r.(card := r.card.(phase := Approved)), [e]);
      QuietCalls(s, t, pc.card.id);
    } else {
      RecordsSame(s, t);
    }
  }

  lemma RevokeKeeps(s: System, id: string, reason: string)
    requires Inv(s)
    ensures Inv(DoRevoke(s, id, reason))
  {
    hide History, DigestOf, NeedsStepUp, Story, Blank, SoundCard, RightRequest, ValidCreate;
    var t := DoRevoke(s, id, reason);
    if t.log != s.log {
      var r := s.ledger.items[id];
      RecordFact(s, id);
      StoryWithdrawn(History(s.log, id), r, reason);
      SoundStays(r.card, r.card.(phase := Revoked, revokeReason := reason), id);
      RecordsKept(s, t, id, r.(card := r.card.(phase := Revoked, revokeReason := reason)), [Withdrawn(id)]);
      QuietCalls(s, t, id);
    } else {
      RecordsSame(s, t);
    }
  }

  lemma ClaimHeld(t: System, c: Card, ask: Ask, h: seq<Event>, e: Event)
    requires c.id in t.ledger.items && t.ledger.items[c.id].card == c.(phase := Executing)
    requires |h| == 2 && History(t.log, c.id) == h + [e] && e.Claimed? && e.ask == ask
    ensures CallOk(t, Submitting(c, ask))
  {
    hide History;
  }

  lemma StartSubmitKeeps(s: System, call: nat, id: string, ask: Ask, clock: Time, check: Revalidation)
    requires Inv(s)
    ensures Inv(DoStartSubmit(s, call, id, ask, clock, check))
  {
    hide History, DigestOf, NeedsStepUp, Story, Blank, BlankDigest, SoundCard, RightRequest, ValidCreate;
    var t := DoStartSubmit(s, call, id, ask, clock, check);
    if t.log != s.log {
      var r := s.ledger.items[id];
      RecordFact(s, id);
      var h := History(s.log, id);
      if r.card.phase == Submitted {
        StoryReplayed(h, r, ask);
        RecordsKept(s, t, id, r, [Returned(r.receipt.(replayed := true), ask)]);
        QuietCalls(s, t, id);
      } else {
        var e := Claimed(id, ask, check, clock);
        StoryClaimed(h, r, e);
        SoundStays(r.card, r.card.(phase := Executing), id);
        RecordsKept(s, t, id, r.(card := r.card.(phase := Executing)), [e]);
        ClaimHeld(t, r.card, ask, h, e);
        NobodyExecutes(s, id);
        CallsKept(s, t, id);
        OneExecutorPut(s.calls, call, t.calls[call]);
      }
    }
  }

  lemma CallSubmitterKeeps(s: System, call: nat, ok: bool)
    requires Inv(s)
    ensures Inv(DoCallSubmitter(s, call, ok))
  {
    hide History, DigestOf, NeedsStepUp, Story, SoundCard, RightRequest, ValidCreate, ServerId;
    var t := DoCallSubmitter(s, call, ok);
    if t.log != s.log {
      var pc := s.calls[call];
      var id := pc.card.id;
      CallFact(s, call);
      RecordFact(s, id);
      StoryInvoked(History(s.log, id), s.ledger.items[id], pc.ask);
      RecordsKept(s, t, id, s.ledger.items[id], [Invoked(RequestOf(pc.card, pc.ask.key))]);
      OnlyExecutor(s, call);
      CallHeld(s, t, pc.card, pc.ask, ok);
      CallsKept(s, t, id);
      OneExecutorPut(s.calls, call, t.calls[call]);
    }
  }

  lemma CallHeld(s: System, t: System, c: Card, ask: Ask, ok: bool)
    requires Holds(s, c, ask, 3) && t.ledger == s.ledger && History(t.log, c.id) == History(s.log, c.id) + [Invoked(RequestOf(c, ask.key))]
    ensures CallOk(t, Returning(c, ask, ok))
  {
    hide History;
  }

  lemma FinishSubmitKeeps(s: System, call: nat, clock: Time)
    requires Inv(s)
    ensures Inv(DoFinishSubmit(s, call, clock))
  {
    hide History, DigestOf, NeedsStepUp, Story, SoundCard, RightRequest, ValidCreate, ServerId;
    var t := DoFinishSubmit(s, call, clock);
    if call in s.calls && s.calls[call].Returning? {
      var pc := s.calls[call];
      var id := pc.card.id;
      CallFact(s, call);
      RecordFact(s, id);
      var r := s.ledger.items[id];
      var h := History(s.log, id);
      if pc.ok {
        var receipt := ReceiptFor(pc.card, pc.ask.key, clock);
        StoryReturned(h, r, pc.ask, clock);
        SoundStays(r.card, r.card.(phase := Submitted), id);
        RecordsKept(s, t, id, Record(r.card.(phase := Submitted), receipt), [Returned(receipt, pc.ask)]);
      } else {
        StoryFailed(h, r);
        SoundStays(r.card, r.card.(phase := Failed), id);
        assert h + [] == h;
        RecordsKept(s, t, id, r.(card := r.card.(phase := Failed)), []);
      }
      OnlyExecutor(s, call);
      CallsKept(s, t, id);
      OneExecutorDrop(s.calls, call);
    }
  }

  lemma StartOk()
    ensures Inv(START)
  {
  }

  lemma {:induction false} RunsKeepInv(actions: seq<Action>)
    ensures Inv(Run(actions))
  {
    hide Inv, DoStartCreate, DoFinishCreate, DoStartApprove, DoAnswerStepUp, DoFinishApprove, DoRevoke, DoStartSubmit, DoCallSubmitter, DoFinishSubmit;
    StartOk();
    if actions != [] {
      var s := Run(actions[..|actions| - 1]);
      RunsKeepInv(actions[..|actions| - 1]);
      match actions[|actions| - 1] {
        case StartCreate(call, req, clock) => StartCreateKeeps(s, call, req, clock);
        case FinishCreate(call) => FinishCreateKeeps(s, call);
        case StartApprove(call, req, clock) => StartApproveKeeps(s, call, req, clock);
        case AnswerStepUp(call, verified) => AnswerStepUpKeeps(s, call, verified);
        case FinishApprove(call, clock) => FinishApproveKeeps(s, call, clock);
        case Revoke(id, reason) => RevokeKeeps(s, id, reason);
        case StartSubmit(call, id, ask, clock, check) => StartSubmitKeeps(s, call, id, ask, clock, check);
        case CallSubmitter(call, ok) => CallSubmitterKeeps(s, call, ok);
        case FinishSubmit(call, clock) => FinishSubmitKeeps(s, call, clock);
      }
    }
  }

  // ---- what every run guarantees ------------------------------------------------------------

  /** History drops nothing of an approval and adds nothing to it. */
  lemma {:induction false} HistoryIsComplete(log: seq<Event>, id: string, e: Event)
    ensures e in History(log, id) <==> e in log && ApprovalOf(e) == id
  {
    if log != [] {
      var last := log[|log| - 1];
      HistoryIsComplete(log[..|log| - 1], id, e);
      assert log == log[..|log| - 1] + [last];
    }
  }

  lemma StoryOf(actions: seq<Action>, id: string) returns (r: Record)
    requires History(Run(actions).log, id) != []
    ensures Story(History(Run(actions).log, id), r) && SoundCard(r.card, id)
  {
    RunsKeepInv(actions);
    r := Run(actions).ledger.items[id];
    RecordFact(Run(actions), id);
  }

  /** The submitter is called at most once for an approval, whose card is what its Create was asked for, field
      by field: after the caller of Approve was the assigned user
      (a human, with no agent in the chain), presented the digest fixed at Create and the items in their
      order, and was stepped up if an item is high risk; after the same user claimed it for that digest and
      the revalidator accepted it, both before both expiries; with exactly the created items and digest; and
      never if it was ever revoked. */
  lemma SubmittedOnceAsApproved(actions: seq<Action>, id: string, k: nat)
    requires var h := History(Run(actions).log, id); k < |h| && h[k].Invoked?
    ensures var h := History(Run(actions).log, id);
            && k == 3 && (forall j :: 0 <= j < |h| && j != k ==> !h[j].Invoked?)
            && h[0].Created? && h[1].Decided? && h[2].Claimed?
            && var c, q := h[0].card, h[1].decision;
               && c.id == id && c.digest == DigestOf(c) && Admitted(c) && Made(c, h[0].req, h[0].at)
               && q.user == c.user && q.productSurface && q.expectedDigest == c.digest && q.presentedIds == IdsOf(c.items)
               && Actor(Human, c.user) in q.decisionOrigin && (forall a :: a in q.decisionOrigin ==> a.kind != Agent)
               && (forall i :: i in c.items && RiskOf(i) in {"HIGH", "CRITICAL"} ==> h[1].steppedUp)
               && h[1].at < c.taskExpiresAt && h[1].at < c.expiresAt
               && h[2].ask.user == c.user && h[2].ask.expected == c.digest && h[2].check == Answer(true, true, true)
               && h[2].at < c.taskExpiresAt && h[2].at < c.expiresAt
               && h[3].request == Request(id, c.tenant, c.user, c.digest, h[2].ask.key, c.items)
    ensures Withdrawn(id) !in Run(actions).log
  {
    hide Run, Do, History, DigestOf, NeedsStepUp, RiskOf, IdsOf, Admitted, Made;
    var r := StoryOf(actions, id);
    FixedIsAdmitted(r.card);
    RiskNeedsStepUp(r.card.items);
    HistoryIsComplete(Run(actions).log, id, Withdrawn(id));
  }

  lemma RiskNeedsStepUp(items: seq<Item>)
    ensures NeedsStepUp(items) <==> exists i :: i in items && RiskOf(i) in {"HIGH", "CRITICAL"}
  {
    hide RiskOf;
  }

  lemma FixedIsAdmitted(c: Card)
    ensures Admitted(Fixed(c)) == Admitted(c)
  {
  }

  /** A revoked approval is never claimed, handed to the submitter or answered with a receipt. */
  lemma RevokedStaysUnsubmitted(actions: seq<Action>, id: string, e: Event)
    requires Withdrawn(id) in Run(actions).log
    requires e in Run(actions).log && ApprovalOf(e) == id
    ensures e.Created? || e.Decided? || e == Withdrawn(id)
  {
    hide Run, Do, History, DigestOf, NeedsStepUp, Made;
    HistoryIsComplete(Run(actions).log, id, Withdrawn(id));
    HistoryIsComplete(Run(actions).log, id, e);
    var r := StoryOf(actions, id);
  }

  /** Every successful Submit of an approval, asked for by the same user under the same key and digest, returns
      the same digest, key and submission time, and only the first return is not marked as a replay. */
  lemma ReceiptsAgree(actions: seq<Action>, id: string, j: nat, k: nat)
    requires var h := History(Run(actions).log, id); j < k < |h| && h[j].Returned? && h[k].Returned?
    ensures var h := History(Run(actions).log, id);
            && h[k].receipt == h[j].receipt.(replayed := true)
            && h[0].Created? && h[2].Claimed? && h[3].Invoked?
            && h[k].ask == h[j].ask == h[2].ask && h[k].ask.user == h[0].card.user && h[k].ask.expected == h[0].card.digest
            && h[k].receipt.digest == h[0].card.digest && h[k].receipt.key == h[k].ask.key == h[3].request.key
  {
    hide Run, Do, History, DigestOf, NeedsStepUp, Made;
    var r := StoryOf(actions, id);
  }

  /** The card is approved and in time, and every part of the ask is filled in. */
  predicate Submittable(s: System, call: nat, id: string, key: string, clock: Time)
  {
    && call !in s.calls && id in s.ledger.items && !Blank(id) && !Blank(key)
    && var c := s.ledger.items[id].card; c.phase == Approved && clock < c.taskExpiresAt && clock < c.expiresAt && !Blank(c.user)
  }

  lemma ClaimIsWon(actions: seq<Action>, call: nat, id: string, key: string, clock: Time)
    requires Submittable(Run(actions), call, id, key, clock)
    ensures var s := Run(actions);
            var r := s.ledger.items[id];
            var ask := Ask(r.card.user, r.card.digest, key);
            Do(s, StartSubmit(call, id, ask, clock, Answer(true, true, true))) ==
              System(s.ledger.(items := s.ledger.items[id := r.(card := r.card.(phase := Executing))]), s.calls[call := Submitting(r.card, ask)],
                     s.log + [Claimed(id, ask, Answer(true, true, true), clock)])
    ensures Run(actions).ledger.items[id].card.id == id && !BlankDigest(Run(actions).ledger.items[id].card.digest)
  {
    hide Run, History, NormalizeItems, Blank, Story, Admitted;
    RunsKeepInv(actions);
    RecordFact(Run(actions), id);
  }

  lemma CallIsSettled(s: System, call: nat, c: Card, ask: Ask, ok: bool, done: Time)
    requires call in s.calls && s.calls[call] == Submitting(c, ask) && c.id in s.ledger.items
    ensures var r := s.ledger.items[c.id];
            var t := Do(Do(s, CallSubmitter(call, ok)), FinishSubmit(call, done));
            && t.calls == s.calls - {call}
            && t.log == s.log + [Invoked(Request(c.id, c.tenant, c.user, c.digest, ask.key, c.items))] + (if ok then [Returned(Receipt(c.id, c.digest, ask.key, done, false), ask)] else [])
            && t.ledger.items == s.ledger.items[c.id := if ok then Record(r.card.(phase := Submitted), Receipt(c.id, c.digest, ask.key, done, false)) else r.(card := r.card.(phase := Failed))]
  {
  }

  /** The gate is not a wall: in every reachable state an approved, unexpired card that the
      revalidator accepts can be claimed, handed over and answered. */
  lemma ApprovedCanBeSubmitted(actions: seq<Action>, call: nat, id: string, key: string, clock: Time, done: Time)
    requires Submittable(Run(actions), call, id, key, clock)
    ensures var s := Run(actions);
            var c := s.ledger.items[id].card;
            var ask := Ask(c.user, c.digest, key);
            var claimed := Do(s, StartSubmit(call, id, ask, clock, Answer(true, true, true)));
            var settled := Do(Do(claimed, CallSubmitter(call, true)), FinishSubmit(call, done));
            && settled.log == s.log + [Claimed(id, ask, Answer(true, true, true), clock), Invoked(Request(id, c.tenant, c.user, c.digest, key, c.items)), Returned(Receipt(id, c.digest, key, done, false), ask)]
            && settled.ledger.items == s.ledger.items[id := Record(c.(phase := Submitted), Receipt(id, c.digest, key, done, false))]
  {
    hide Run, Do;
    ClaimIsWon(actions, call, id, key, clock);
    var s := Run(actions);
    var c := s.ledger.items[id].card;
    var ask := Ask(c.user, c.digest, key);
    CallIsSettled(Do(s, StartSubmit(call, id, ask, clock, Answer(true, true, true))), call, c, ask, true, done);
  }

  /** The same claim when the submitter fails: the approval is spent and nothing is answered. */
  lemma FailedSubmissionIsFinal(actions: seq<Action>, call: nat, id: string, key: string, clock: Time, done: Time)
    requires Submittable(Run(actions), call, id, key, clock)
    ensures var s := Run(actions);
            var c := s.ledger.items[id].card;
            var ask := Ask(c.user, c.digest, key);
            var claimed := Do(s, StartSubmit(call, id, ask, clock, Answer(true, true, true)));
            var settled := Do(Do(claimed, CallSubmitter(call, false)), FinishSubmit(call, done));
            && settled.log == s.log + [Claimed(id, ask, Answer(true, true, true), clock), Invoked(Request(id, c.tenant, c.user, c.digest, key, c.items))]
            && settled.ledger.items == s.ledger.items[id := s.ledger.items[id].(card := c.(phase := Failed))]
            && ClaimSubmission(settled.ledger, id, ask.user, ask.expected, key, clock, Answer(true, true, true)) == (settled.ledger, Refused(NotApproved))
  {
    hide Run, Do, ClaimSubmission, Blank, BlankDigest;
    ClaimIsWon(actions, call, id, key, clock);
    var s := Run(actions);
    var c := s.ledger.items[id].card;
    var ask := Ask(c.user, c.digest, key);
    var claimed := Do(s, StartSubmit(call, id, ask, clock, Answer(true, true, true)));
    CallIsSettled(claimed, call, c, ask, false, done);
    FailedIsRefused(Do(Do(claimed, CallSubmitter(call, false)), FinishSubmit(call, done)).ledger, id, c.user, c.digest, key, clock);
  }

  lemma FailedIsRefused(l: Ledger, id: string, user: string, expected: Digest, key: string, clock: Time)
    requires id in l.items && l.items[id].card.phase == Failed && l.items[id].card.user == user && !Blank(id) && !Blank(user) && !Blank(key) && !BlankDigest(expected)
    ensures ClaimSubmission(l, id, user, expected, key, clock, Answer(true, true, true)) == (l, Refused(NotApproved))
  {
    hide Blank, BlankDigest, DigestOf;
  }

  /** A submitted approval answers the same ask again with its receipt, marked as a replay. */
  lemma SubmittedIsReplayed(actions: seq<Action>, call: nat, id: string, clock: Time, check: Revalidation)
    requires var s := Run(actions);
             && call !in s.calls && id in s.ledger.items && s.ledger.items[id].card.phase == Submitted
             && !Blank(id) && !Blank(s.ledger.items[id].card.user) && !Blank(s.ledger.items[id].receipt.key)
    ensures var s := Run(actions);
            var r := s.ledger.items[id];
            var ask := Ask(r.card.user, r.card.digest, r.receipt.key);
            Do(s, StartSubmit(call, id, ask, clock, check)) == s.(log := s.log + [Returned(r.receipt.(replayed := true), ask)])
  {
    hide Run, History, NormalizeItems, Blank, Made;
    RunsKeepInv(actions);
    RecordFact(Run(actions), id);
  }

  /** The id a Create gets: the one it asks for, or the next the server numbers. */
  function IdFor(s: System, req: CreateRequest): string { if req.id != "" then req.id else ReserveId(s.ledger).1 }

  /** A valid request under an unused id is recorded, as a pending card made from it. */
  lemma ValidRequestIsCreated(actions: seq<Action>, call: nat, req: CreateRequest, clock: Time)
    requires var s := Run(actions);
             call !in s.calls && ValidCreate(req, if req.now == 0 then clock else req.now) && IdFor(s, req) !in s.ledger.items
    ensures var s := Run(actions);
            var now := if req.now == 0 then clock else req.now;
            var t := Do(Do(s, StartCreate(call, req, clock)), FinishCreate(call));
            && t.calls == s.calls && IdFor(s, req) in t.ledger.items
            && var r := t.ledger.items[IdFor(s, req)];
               && r.card.phase == Pending && Made(r.card, req, now) && r.card.digest == DigestOf(r.card)
               && t.ledger.items == s.ledger.items[IdFor(s, req) := r] && t.log == s.log + [Created(r.card, req, now)]
  {
    hide Run, NewCard, ValidCreate, DigestOf, Made, ServerId, Pad, Itoa;
    var s := Run(actions);
    var now, id := if req.now == 0 then clock else req.now, IdFor(s, req);
    ReservedId(s.ledger);
    NewCardSealed(req, now, id);
    var mid := DoStartCreate(s, call, req, clock);
    assert mid.calls[call] == Naming(req, now, id);
    assert mid.calls - {call} == s.calls;
  }

  /** The assigned user's own decision, made in time, approves a pending card. */
  lemma PendingCanBeApproved(actions: seq<Action>, call: nat, q: ApproveRequest, clock: Time, done: Time)
    requires var s := Run(actions);
             && call !in s.calls && q.approvalId in s.ledger.items && !Blank(q.approvalId) && !Blank(q.user)
             && var c := s.ledger.items[q.approvalId].card;
                c.phase == Pending && RightRequest(q, c) && clock < c.taskExpiresAt && clock < c.expiresAt && done < c.taskExpiresAt && done < c.expiresAt
    ensures var s := Run(actions);
            var r := s.ledger.items[q.approvalId];
            var t := Do(Do(Do(s, StartApprove(call, q, clock)), AnswerStepUp(call, true)), FinishApprove(call, done));
            && t.ledger.items == s.ledger.items[q.approvalId := r.(card := r.card.(phase := Approved))]
            && t.log == s.log + [Decided(q, NeedsStepUp(r.card.items), done)] && t.calls == s.calls
  {
    hide Run, History, NormalizeItems, Blank, Story, IdsOf, NeedsStepUp, Admitted;
    RunsKeepInv(actions);
    var s := Run(actions);
    RecordFact(s, q.approvalId);
    var c := s.ledger.items[q.approvalId].card;
    var one := DoStartApprove(s, call, q, clock);
    assert one.calls[call] == SteppingUp(q, c);
    var two := DoAnswerStepUp(one, call, true);
    assert two.calls[call] == SteppedUp(q, c, NeedsStepUp(c.items));
    assert two.calls - {call} == s.calls;
  }

  /** Without a valid step-up proof a high-risk card is not approved, and the call is over. */
  lemma StepUpIsRequired(s: System, call: nat)
    requires call in s.calls && s.calls[call].SteppingUp? && NeedsStepUp(s.calls[call].card.items)
    ensures Do(s, AnswerStepUp(call, false)) == s.(calls := s.calls - {call})
  {
    hide NeedsStepUp;
  }

  /** A pending or approved card can be revoked, at any time and for any reason given. */
  lemma OpenCanBeRevoked(s: System, id: string, reason: string)
    requires id in s.ledger.items && s.ledger.items[id].card.phase in {Pending, Approved} && !Blank(id) && !Blank(reason)
    ensures var r := s.ledger.items[id];
            var t := Do(s, Revoke(id, reason));
            && t.ledger.items == s.ledger.items[id := r.(card := r.card.(phase := Revoked, revokeReason := reason))]
            && t.log == s.log + [Withdrawn(id)] && t.calls == s.calls
  {
    hide Blank;
  }
}
