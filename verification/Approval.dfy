/** The human gate in front of a governed submission: one approval card, the decision on it
    and the single hand-off to the submitter. Each function below is one region that the
    service runs under its mutex, as a function of the ledger it finds. */
module Approval {
  import opened Wrappers
  import opened Ordering
  import opened Text

  const SECOND := 1_000_000_000
  const APPROVAL_LIFETIME := 24 * 3600 * SECOND
  const MAX_TASK_LIFETIME := 7 * 24 * 3600 * SECOND
  const MAX_BATCH_ITEMS := 25

  /** Nanoseconds; 0 stands for Go's zero time. */
  type Time = nat

  datatype ItemKind = GovernedIntent | ConnectionWrite | UnknownKind
  datatype Subject = Subject(id: string, kind: string)
  datatype MaterialField = MaterialField(path: string, before: string, after: string)
  datatype Source = Source(ref: string, taint: string)
  datatype Item = Item(
    id: string, kind: ItemKind, tier: nat, intentId: string, intentVersion: string,
    connection: string, operation: string, subjects: seq<Subject>, fields: seq<MaterialField>,
    sources: seq<Source>, uncertainty: string, riskClass: string)

  datatype ActorKind = Human | Agent | OtherActor
  datatype Actor = Actor(kind: ActorKind, id: string)

  /** What the digest covers: everything the user was shown, in canonical order. */
  datatype Material = Material(
    tenant: string, task: string, user: string, agent: string,
    taskExpiresAt: Time, expiresAt: Time, items: seq<Item>)

  /** SHA-256 over the JSON of the material, as an injective symbol; callers may also send
      any other text where a digest is expected. */
  datatype Digest = Sha256(material: Material) | OtherText(text: string)

  datatype Phase = Pending | Approved | Revoked | Executing | Submitted | Failed

  datatype Card = Card(
    id: string, tenant: string, task: string, user: string, agent: string, origin: seq<Actor>,
    items: seq<Item>, digest: Digest, taskExpiresAt: Time, expiresAt: Time, createdAt: Time,
    phase: Phase, revokeReason: string)

  datatype Receipt = Receipt(approvalId: string, digest: Digest, key: string, submittedAt: Time, replayed: bool)
  datatype Record = Record(card: Card, receipt: Receipt)
  datatype Request = Request(approvalId: string, tenant: string, user: string, digest: Digest, key: string, items: seq<Item>)

  datatype CreateRequest = CreateRequest(
    id: string, tenant: string, task: string, user: string, agent: string, origin: seq<Actor>,
    items: seq<Item>, taskExpiresAt: Time, now: Time)
  datatype ApproveRequest = ApproveRequest(
    approvalId: string, user: string, productSurface: bool, expectedDigest: Digest,
    presentedIds: seq<string>, decisionOrigin: seq<Actor>)
  datatype Revalidation = Answer(grantValid: bool, authorityValid: bool, current: bool) | CheckFailed

  datatype Error =
    | Invalid | NotFound | Expired | TaskExpired | IsRevoked | DigestMismatch | Unauthorized
    | AgentCannotApprove | WrongSurface | StepUpRequired | AlreadyMade | NotApproved
    | RevalidationFailed | InFlight | IdempotencyConflict
  type Result<T> = Outcome<T, Error>
  datatype Claim = Won(card: Card) | Replay(receipt: Receipt) | Refused(error: Error)

  const NO_RECEIPT := Receipt("", OtherText(""), "", 0, false)

  /** The service's state: its id counter and its records. */
  datatype Ledger = Ledger(counter: nat, items: map<string, Record>)

  // ---- canonical order -------------------------------------------------------------------

  predicate ItemLe(a: Item, b: Item) { LexLe(a.id, b.id) }
  predicate SubjectLe(a: Subject, b: Subject) { Lex2Le((a.id, a.kind), (b.id, b.kind)) }
  predicate FieldLe(a: MaterialField, b: MaterialField)
  {
    if a.path == b.path then Lex2Le((a.before, a.after), (b.before, b.after)) else LexLe(a.path, b.path)
  }
  predicate SourceLe(a: Source, b: Source) { Lex2Le((a.ref, a.taint), (b.ref, b.taint)) }

  function NormalizeItem(i: Item): Item
  {
    i.(subjects := Sort(SubjectLe, i.subjects), fields := Sort(FieldLe, i.fields), sources := Sort(SourceLe, i.sources))
  }

  function NormalizeEach(items: seq<Item>): (r: seq<Item>)
    ensures |r| == |items| && forall k :: 0 <= k < |r| ==> r[k] == NormalizeItem(items[k])
  {
    if items == [] then [] else [NormalizeItem(items[0])] + NormalizeEach(items[1..])
  }

  function NormalizeItems(items: seq<Item>): seq<Item> { NormalizeEach(Sort(ItemLe, items)) }

  function MaterialOf(c: Card): Material
  {
    Material(c.tenant, c.task, c.user, c.agent, c.taskExpiresAt, c.expiresAt, NormalizeItems(c.items))
  }

  function DigestOf(c: Card): Digest { Sha256(MaterialOf(c)) }

  lemma OrdersAreTotal()
    ensures TotalPreorder(ItemLe) && TotalPreorder(SubjectLe) && TotalPreorder(FieldLe) && TotalPreorder(SourceLe)
    ensures forall a, b :: SubjectLe(a, b) && SubjectLe(b, a) ==> a == b
    ensures forall a, b :: FieldLe(a, b) && FieldLe(b, a) ==> a == b
    ensures forall a, b :: SourceLe(a, b) && SourceLe(b, a) ==> a == b
  {
    forall a: Item, b: Item ensures ItemLe(a, b) || ItemLe(b, a) { LexTotal(a.id, b.id); }
    forall a: Item, b: Item, c: Item | ItemLe(a, b) && ItemLe(b, c) ensures ItemLe(a, c) { LexTransitive(a.id, b.id, c.id); }
    forall a: Subject, b: Subject, c: Subject
      ensures SubjectLe(a, b) || SubjectLe(b, a)
      ensures SubjectLe(a, b) && SubjectLe(b, c) ==> SubjectLe(a, c)
      ensures SubjectLe(a, b) && SubjectLe(b, a) ==> a == b
    {
      Lex2Laws((a.id, a.kind), (b.id, b.kind), (c.id, c.kind));
    }
    forall a: Source, b: Source, c: Source
      ensures SourceLe(a, b) || SourceLe(b, a)
      ensures SourceLe(a, b) && SourceLe(b, c) ==> SourceLe(a, c)
      ensures SourceLe(a, b) && SourceLe(b, a) ==> a == b
    {
      Lex2Laws((a.ref, a.taint), (b.ref, b.taint), (c.ref, c.taint));
    }
    forall a: MaterialField, b: MaterialField, c: MaterialField
      ensures FieldLe(a, b) || FieldLe(b, a)
      ensures FieldLe(a, b) && FieldLe(b, c) ==> FieldLe(a, c)
      ensures FieldLe(a, b) && FieldLe(b, a) ==> a == b
    {
      FieldLaws(a, b, c);
    }
  }

  lemma FieldLaws(a: MaterialField, b: MaterialField, c: MaterialField)
    ensures FieldLe(a, b) || FieldLe(b, a)
    ensures FieldLe(a, b) && FieldLe(b, c) ==> FieldLe(a, c)
    ensures FieldLe(a, b) && FieldLe(b, a) ==> a == b
  {
    Lex2Laws((a.before, a.after), (b.before, b.after), (c.before, c.after));
    LexTotal(a.path, b.path);
    if LexLe(a.path, b.path) && LexLe(b.path, a.path) { LexAntisymmetric(a.path, b.path); }
    if LexLe(a.path, b.path) && LexLe(b.path, c.path) {
      LexTransitive(a.path, b.path, c.path);
      if a.path == c.path { LexAntisymmetric(a.path, b.path); }
    }
  }

  /** Normalising twice is normalising once, so the digest recomputed from a stored card is
      the one computed from the caller's rows. */
  lemma NormalizeTwice(items: seq<Item>)
    ensures NormalizeItems(NormalizeItems(items)) == NormalizeItems(items)
  {
    OrdersAreTotal();
    var sorted := Sort(ItemLe, items);
    var once := NormalizeEach(sorted);
    SortSorts(ItemLe, items);
    assert Sorted(ItemLe, once);
    SortOfSorted(ItemLe, once);
    forall k | 0 <= k < |once| ensures NormalizeItem(once[k]) == once[k] {
      SortTwice(SubjectLe, sorted[k].subjects);
      SortTwice(FieldLe, sorted[k].fields);
      SortTwice(SourceLe, sorted[k].sources);
    }
    assert NormalizeEach(once) == once;
  }

  ghost predicate DistinctIds(items: seq<Item>)
  {
    forall i, j :: 0 <= i < j < |items| ==> items[i].id != items[j].id
  }

  /** Cards that differ only in the order their rows were sent in have the same digest. */
  lemma DigestIgnoresOrder(a: Card, b: Card)
    requires DistinctIds(a.items) && multiset(a.items) == multiset(b.items)
    requires a.(items := []) == b.(items := [])
    ensures DigestOf(a) == DigestOf(b)
  {
    OrdersAreTotal();
    forall x, y | x in a.items && y in a.items && ItemLe(x, y) && ItemLe(y, x) ensures x == y {
      LexAntisymmetric(x.id, y.id);
    }
    SortIgnoresOrder(ItemLe, a.items, b.items);
  }

  /** Equal digests on stored cards mean the same people, the same expiries and the very same rows. */
  lemma DigestPinsMaterial(a: Card, b: Card)
    requires a.items == NormalizeItems(a.items) && b.items == NormalizeItems(b.items)
    ensures DigestOf(a) == DigestOf(b) <==>
            a.tenant == b.tenant && a.task == b.task && a.user == b.user && a.agent == b.agent
            && a.taskExpiresAt == b.taskExpiresAt && a.expiresAt == b.expiresAt && a.items == b.items
  {
  }

  // ---- admission checks --------------------------------------------------------------------

  predicate EmptyOrCanonical(s: string) { s == "" || Canonical(s) }

  predicate ValidItem(i: Item)
  {
    && Canonical(i.id) && (i.tier == 3 || i.tier == 4)
    && i.subjects != [] && i.fields != [] && i.sources != [] && !Blank(i.uncertainty) && !Blank(i.riskClass)
    && !i.kind.UnknownKind?
    && (i.kind.GovernedIntent? ==> !Blank(i.intentId) && !Blank(i.intentVersion) && i.connection == "" && i.operation == "")
    && (i.kind.ConnectionWrite? ==> !Blank(i.connection) && !Blank(i.operation) && i.intentId == "" && i.intentVersion == "")
    && (forall s :: s in i.subjects ==> !Blank(s.id) && !Blank(s.kind))
    && (forall f :: f in i.fields ==> !Blank(f.path))
    && (forall s :: s in i.sources ==> !Blank(s.ref) && !Blank(s.taint))
  }

  ghost predicate ValidCreate(req: CreateRequest, now: Time)
  {
    && EmptyOrCanonical(req.id) && Canonical(req.tenant) && Canonical(req.task) && Canonical(req.user) && Canonical(req.agent)
    && 1 <= |req.items| <= MAX_BATCH_ITEMS
    && req.taskExpiresAt != 0 && now < req.taskExpiresAt <= now + MAX_TASK_LIFETIME
    && (forall i :: i in req.items ==> ValidItem(i))
    && DistinctIds(req.items)
  }

  function Min(a: Time, b: Time): Time { if a < b then a else b }

  function NewCard(req: CreateRequest, now: Time, id: string): Card
  {
    var blank := Card(id, req.tenant, req.task, req.user, req.agent, req.origin, NormalizeItems(req.items),
                      OtherText(""), req.taskExpiresAt, Min(req.taskExpiresAt, now + APPROVAL_LIFETIME), now, Pending, "");
    blank.(digest := DigestOf(blank))
  }

  /** The decision came from the user, with no agent anywhere in its chain. */
  function HumanDecision(user: string, chain: seq<Actor>): Result<()>
  {
    if chain == [] then Err(Unauthorized)
    else if exists a :: a in chain && a.kind == Agent then Err(AgentCannotApprove)
    else if Actor(Human, user) in chain then Ok(())
    else Err(Unauthorized)
  }

  function Upper(s: string): (r: string)
    ensures |r| == |s| && forall i :: 0 <= i < |s| ==> r[i] == if 'a' <= s[i] <= 'z' then s[i] - 'a' + 'A' else s[i]
  {
    if s == [] then [] else [if 'a' <= s[0] <= 'z' then s[0] - ('a' - 'A') else s[0]] + Upper(s[1..])
  }

  function RiskOf(i: Item): string { Upper(TrimSpace(i.riskClass)) }

  predicate HighRisk(i: Item) { RiskOf(i) in {"HIGH", "CRITICAL"} }

  predicate NeedsStepUp(items: seq<Item>) { exists i :: i in items && HighRisk(i) }

  function IdsOf(items: seq<Item>): (r: seq<string>)
    ensures |r| == |items| && forall k :: 0 <= k < |r| ==> r[k] == items[k].id
  {
    if items == [] then [] else [items[0].id] + IdsOf(items[1..])
  }

  function CheckOpen(c: Card, now: Time): Result<()>
  {
    if c.phase == Revoked then Err(IsRevoked)
    else if c.taskExpiresAt <= now then Err(TaskExpired)
    else if c.expiresAt <= now then Err(Expired)
    else Ok(())
  }

  predicate BlankDigest(d: Digest) { d.OtherText? && Blank(d.text) }

  function RequestOf(c: Card, key: string): Request { Request(c.id, c.tenant, c.user, c.digest, key, c.items) }

  // ---- the locked regions ------------------------------------------------------------------

  function ReserveId(l: Ledger): (Ledger, string)
  {
    (l.(counter := l.counter + 1), "agent-approval-" + Pad(Itoa(l.counter + 1), 8))
  }

  function InsertCard(l: Ledger, c: Card): (Ledger, Result<Card>)
  {
    if c.id in l.items then (l, Err(Invalid)) else (l.(items := l.items[c.id := Record(c, NO_RECEIPT)]), Ok(c))
  }

  /** Approve, before the lock is dropped for step-up: the card it will present for proof. */
  function CheckDecision(l: Ledger, req: ApproveRequest, now: Time): Result<Card>
  {
    if Blank(req.approvalId) || Blank(req.user) then Err(Invalid)
    else if !req.productSurface then Err(WrongSurface)
    else if req.approvalId !in l.items then Err(NotFound)
    else
      var c := l.items[req.approvalId].card;
      if CheckOpen(c, now).Err? then Err(CheckOpen(c, now).error)
      else if c.phase != Pending then Err(AlreadyMade)
      else if req.user != c.user then Err(Unauthorized)
      else if req.expectedDigest != c.digest || DigestOf(c) != c.digest || req.presentedIds != IdsOf(c.items) then Err(DigestMismatch)
      else if HumanDecision(req.user, req.decisionOrigin).Err? then Err(HumanDecision(req.user, req.decisionOrigin).error)
      else Ok(c)
  }

  /** Approve, after step-up: the state is checked again and moved in one region. */
  function CommitDecision(l: Ledger, presented: Card, now: Time): (Ledger, Result<()>)
  {
    if presented.id !in l.items then (l, Err(NotFound))
    else
      var r := l.items[presented.id];
      if CheckOpen(r.card, now).Err? then (l, CheckOpen(r.card, now))
      else if r.card.phase != Pending then (l, Err(AlreadyMade))
      else if r.card.digest != presented.digest || DigestOf(r.card) != r.card.digest then (l, Err(DigestMismatch))
      else (l.(items := l.items[presented.id := r.(card := r.card.(phase := Approved))]), Ok(()))
  }

  function RevokeCard(l: Ledger, id: string, reason: string): (Ledger, Result<()>)
  {
    if Blank(id) || Blank(reason) then (l, Err(Invalid))
    else if id !in l.items then (l, Err(NotFound))
    else
      var r := l.items[id];
      match r.card.phase
      case Pending => (l.(items := l.items[id := r.(card := r.card.(phase := Revoked, revokeReason := reason))]), Ok(()))
      case Approved => (l.(items := l.items[id := r.(card := r.card.(phase := Revoked, revokeReason := reason))]), Ok(()))
      case Revoked => (l, Err(IsRevoked))
      case _ => (l, Err(AlreadyMade))
  }

  /** Submit up to the EXECUTING claim; the revalidator answers while the lock is held. */
  function ClaimSubmission(l: Ledger, id: string, user: string, expected: Digest, key: string, now: Time, check: Revalidation): (Ledger, Claim)
  {
    if Blank(id) || Blank(user) || BlankDigest(expected) || Blank(key) then (l, Refused(Invalid))
    else if id !in l.items then (l, Refused(NotFound))
    else
      var r := l.items[id];
      var c := r.card;
      if c.user != user then (l, Refused(Unauthorized))
      else if c.phase == Submitted then
        if r.receipt.key != key then (l, Refused(IdempotencyConflict))
        else if expected != r.receipt.digest || c.digest != r.receipt.digest || DigestOf(c) != r.receipt.digest then (l, Refused(DigestMismatch))
        else (l, Replay(r.receipt.(replayed := true)))
      else if c.phase == Executing then (l, Refused(InFlight))
      else if c.phase == Revoked then (l, Refused(IsRevoked))
      else if c.phase != Approved then (l, Refused(NotApproved))
      else if CheckOpen(c, now).Err? then (l, Refused(CheckOpen(c, now).error))
      else if expected != c.digest || DigestOf(c) != c.digest then (l, Refused(DigestMismatch))
      else if check.CheckFailed? || !check.grantValid || !check.authorityValid || !check.current then (l, Refused(RevalidationFailed))
      else (l.(items := l.items[id := r.(card := c.(phase := Executing))]), Won(c))
  }

  function ReceiptFor(c: Card, key: string, now: Time): Receipt { Receipt(c.id, c.digest, key, now, false) }

  function SettleSuccess(l: Ledger, receipt: Receipt): Ledger
    requires receipt.approvalId in l.items
  {
    l.(items := l.items[receipt.approvalId := Record(l.items[receipt.approvalId].card.(phase := Submitted), receipt)])
  }

  function SettleFailure(l: Ledger, id: string): Ledger
    requires id in l.items
  {
    l.(items := l.items[id := l.items[id].(card := l.items[id].card.(phase := Failed))])
  }

  // ---- the checks that the source writes as loops --------------------------------------------

  method SameIds(ids: seq<string>, items: seq<Item>) returns (same: bool)
    ensures same <==> ids == IdsOf(items)
  {
    if |ids| != |items| { return false; }
    for i := 0 to |items|
      invariant forall k :: 0 <= k < i ==> ids[k] == items[k].id
    {
      if ids[i] != items[i].id {
        assert IdsOf(items)[i] != ids[i];
        return false;
      }
    }
    return true;
  }

  method ValidateHumanDecision(user: string, chain: seq<Actor>) returns (r: Result<()>)
    ensures r == HumanDecision(user, chain)
    ensures r.Ok? <==> Actor(Human, user) in chain && forall a :: a in chain ==> a.kind != Agent
  {
    if chain == [] { return Err(Unauthorized); }
    var human := false;
    for i := 0 to |chain|
      invariant forall k :: 0 <= k < i ==> chain[k].kind != Agent
      invariant human <==> exists k :: 0 <= k < i && chain[k] == Actor(Human, user)
    {
      if chain[i].kind == Agent { return Err(AgentCannotApprove); }
      if chain[i].kind == Human && chain[i].id == user { human := true; }
    }
    return if human then Ok(()) else Err(Unauthorized);
  }

  method ApprovalNeedsStepUp(items: seq<Item>) returns (needed: bool)
    ensures needed <==> NeedsStepUp(items)
    ensures needed <==> exists i :: i in items && (RiskOf(i) == "HIGH" || RiskOf(i) == "CRITICAL")
  {
    hide RiskOf;
    for k := 0 to |items|
      invariant forall j :: 0 <= j < k ==> !HighRisk(items[j])
    {
      if HighRisk(items[k]) { return true; }
    }
    return false;
  }

  /** The coordinator itself; one method for each region it runs under its mutex. */
  class Service {
    var counter: nat
    var items: map<string, Record>

    function State(): Ledger reads this { Ledger(counter, items) }

    constructor ()
      ensures State() == Ledger(0, map[])
    {
      counter, items := 0, map[];
    }

    method Reserve() returns (id: string)
      modifies this
      ensures (State(), id) == ReserveId(old(State()))
    {
      counter := counter + 1;
      id := "agent-approval-" + Pad(Itoa(counter), 8);
    }

    method Insert(card: Card) returns (r: Result<Card>)
      modifies this
      ensures (State(), r) == InsertCard(old(State()), card)
    {
      if card.id in items { return Err(Invalid); }
      items := items[card.id := Record(card, NO_RECEIPT)];
      return Ok(card);
    }

    method BeginApprove(req: ApproveRequest, now: Time) returns (r: Result<Card>, needsStepUp: bool)
      ensures r == CheckDecision(State(), req, now)
      ensures r.Ok? ==> (needsStepUp <==> NeedsStepUp(r.value.items))
    {
      needsStepUp := false;
      if Blank(req.approvalId) || Blank(req.user) { return Err(Invalid), false; }
      if !req.productSurface { return Err(WrongSurface), false; }
      if req.approvalId !in items { return Err(NotFound), false; }
      var card := items[req.approvalId].card;
      var open := CheckOpen(card, now);
      if open.Err? { return Err(open.error), false; }
      if card.phase != Pending { return Err(AlreadyMade), false; }
      if req.user != card.user { return Err(Unauthorized), false; }
      var same := SameIds(req.presentedIds, card.items);
      if req.expectedDigest != card.digest || DigestOf(card) != card.digest || !same { return Err(DigestMismatch), false; }
      var human := ValidateHumanDecision(req.user, req.decisionOrigin);
      if human.Err? { return Err(human.error), false; }
      needsStepUp := ApprovalNeedsStepUp(card.items);
      return Ok(card), needsStepUp;
    }

    method FinishApprove(presented: Card, now: Time) returns (r: Result<()>)
      modifies this
      ensures (State(), r) == CommitDecision(old(State()), presented, now)
    {
      if presented.id !in items { return Err(NotFound); }
      var rec := items[presented.id];
      var open := CheckOpen(rec.card, now);
      if open.Err? { return open; }
      if rec.card.phase != Pending { return Err(AlreadyMade); }
      if rec.card.digest != presented.digest || DigestOf(rec.card) != rec.card.digest { return Err(DigestMismatch); }
      items := items[presented.id := rec.(card := rec.card.(phase := Approved))];
      return Ok(());
    }

    method Revoke(id: string, reason: string) returns (r: Result<()>)
      modifies this
      ensures (State(), r) == RevokeCard(old(State()), id, reason)
    {
      if Blank(id) || Blank(reason) { return Err(Invalid); }
      if id !in items { return Err(NotFound); }
      var rec := items[id];
      match rec.card.phase {
        case Pending | Approved =>
          items := items[id := rec.(card := rec.card.(phase := Revoked, revokeReason := reason))];
          return Ok(());
        case Revoked => return Err(IsRevoked);
        case _ => return Err(AlreadyMade);
      }
    }

    method BeginSubmit(id: string, user: string, expected: Digest, key: string, now: Time, check: Revalidation) returns (claim: Claim)
      modifies this
      ensures (State(), claim) == ClaimSubmission(old(State()), id, user, expected, key, now, check)
    {
      if Blank(id) || Blank(user) || BlankDigest(expected) || Blank(key) { return Refused(Invalid); }
      if id !in items { return Refused(NotFound); }
      var rec := items[id];
      if rec.card.user != user { return Refused(Unauthorized); }
      match rec.card.phase {
        case Submitted =>
          if rec.receipt.key != key { return Refused(IdempotencyConflict); }
          if expected != rec.receipt.digest || rec.card.digest != rec.receipt.digest || DigestOf(rec.card) != rec.receipt.digest {
            return Refused(DigestMismatch);
          }
          return Replay(rec.receipt.(replayed := true));
        case Executing => return Refused(InFlight);
        case Revoked => return Refused(IsRevoked);
        case Pending | Failed => return Refused(NotApproved);
        case Approved =>
      }
      var open := CheckOpen(rec.card, now);
      if open.Err? { return Refused(open.error); }
      if expected != rec.card.digest || DigestOf(rec.card) != rec.card.digest { return Refused(DigestMismatch); }
      if check.CheckFailed? || !check.grantValid || !check.authorityValid || !check.current { return Refused(RevalidationFailed); }
      items := items[id := rec.(card := rec.card.(phase := Executing))];
      return Won(rec.card);
    }

    method FinishSubmit(card: Card, key: string, succeeded: bool, now: Time) returns (receipt: Receipt)
      requires card.id in items
      modifies this
      ensures succeeded ==> receipt == ReceiptFor(card, key, now) && State() == SettleSuccess(old(State()), receipt)
      ensures !succeeded ==> receipt == NO_RECEIPT && State() == SettleFailure(old(State()), card.id)
    {
      if succeeded {
        receipt := ReceiptFor(card, key, now);
        items := items[card.id := Record(items[card.id].card.(phase := Submitted), receipt)];
      } else {
        receipt := NO_RECEIPT;
        items := items[card.id := items[card.id].(card := items[card.id].card.(phase := Failed))];
      }
    }
  }
}
