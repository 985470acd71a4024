/** Dual-control repair: an immutable plan for one observed drift, an approval bound to it, an effect
    between two fresh observations, and a receipt that is replayed afterwards. */
module Repair {
  import opened Wrappers

  /** 0 stands for Go's zero time. */
  type Time = nat

  datatype Error = StaleObservation | InvalidPlan | StoreError | ProbeError | EffectError | NotFresh
  type Result<T> = Outcome<T, Error>

  datatype PlanBody = PlanBody(
    planId: string, tenant: string, resource: string, expected: string, observed: string, observedAt: Time,
    createdBy: string, createdAt: Time, key: string)

  /** SHA-256 over the length-prefixed parts of a plan, as an injective symbol. */
  datatype Digest = Sha256(body: PlanBody) | OtherText(text: string)

  datatype Plan = Plan(body: PlanBody, digest: Digest)
  datatype Approval = Approval(approvedBy: string, approvedAt: Time, planDigest: Digest)
  datatype Receipt = Receipt(planId: string, planDigest: Digest, effectId: string, verifiedAt: Time)
  datatype Observation = Observation(tenant: string, resource: string, digest: string, observedAt: Time, freshUntil: Time)

  predicate PlanOk(p: Plan, at: Time)
  {
    var b := p.body;
    && b.planId != "" && b.tenant != "" && b.resource != "" && b.expected != "" && b.observed != "" && b.createdBy != "" && b.key != ""
    && b.createdAt != 0 && b.createdAt <= at && b.expected != b.observed && p.digest == Sha256(b)
  }

  predicate ObservationOk(o: Observation, at: Time)
  {
    && o.tenant != "" && o.resource != "" && o.digest != "" && o.observedAt != 0 && o.freshUntil != 0
    && o.observedAt < o.freshUntil && at < o.freshUntil
  }

  function Underscored(s: string): (r: string)
    ensures |r| == |s| && forall i :: 0 <= i < |s| ==> r[i] == if s[i] == ' ' then '_' else s[i]
  {
    if s == [] then [] else Underscored(s[..|s| - 1]) + [if s[|s| - 1] == ' ' then '_' else s[|s| - 1]]
  }

  function PlanIdOf(tenant: string, resource: string, key: string): string { "repair-" + Underscored(tenant + "-" + resource + "-" + key) }

  /** CreateRepairPlan up to the plan store. */
  function NewPlan(o: Observation, expected: string, requestedBy: string, key: string, at: Time): Result<Plan>
  {
    if !ObservationOk(o, at) then Err(StaleObservation)
    else if expected == "" || requestedBy == "" || key == "" || expected == o.digest then Err(InvalidPlan)
    else
      var body := PlanBody(PlanIdOf(o.tenant, o.resource, key), o.tenant, o.resource, expected, o.digest, o.observedAt, requestedBy, at, key);
      if PlanOk(Plan(body, Sha256(body)), at) then Ok(Plan(body, Sha256(body))) else Err(InvalidPlan)
  }

  /** A plan is made exactly from a fresh, complete observation of drift, and stays valid from then on. */
  lemma NewPlanIsValid(o: Observation, expected: string, requestedBy: string, key: string, at: Time, later: Time)
    requires at != 0 && at <= later
    ensures NewPlan(o, expected, requestedBy, key, at).Ok? <==>
            && o.tenant != "" && o.resource != "" && o.digest != "" && 0 < o.observedAt < o.freshUntil && at < o.freshUntil
            && expected != "" && requestedBy != "" && key != "" && expected != o.digest
    ensures NewPlan(o, expected, requestedBy, key, at).Ok? ==>
            var p := NewPlan(o, expected, requestedBy, key, at).value;
            && PlanOk(p, later) && p.digest == Sha256(p.body)
            && p.body.tenant == o.tenant && p.body.resource == o.resource && p.body.observed == o.digest && p.body.observedAt == o.observedAt
            && p.body.expected == expected && p.body.createdBy == requestedBy && p.body.createdAt == at && p.body.key == key
            && p.body.planId == PlanIdOf(o.tenant, o.resource, key)
  {
    assert PlanIdOf(o.tenant, o.resource, key)[0] == 'r';
  }

  /** Tenants are printed as UUIDs: of one length, without spaces. So plans of different tenants have different
      ids, and no receipt is replayed across tenants. */
  lemma PlanIdsTellTenants(t1: string, r1: string, k1: string, t2: string, r2: string, k2: string)
    requires |t1| == |t2| && ' ' !in t1 && ' ' !in t2 && PlanIdOf(t1, r1, k1) == PlanIdOf(t2, r2, k2)
    ensures t1 == t2
  {
    var a, b := t1 + "-" + r1 + "-" + k1, t2 + "-" + r2 + "-" + k2;
    var x, y := PlanIdOf(t1, r1, k1), PlanIdOf(t2, r2, k2);
    forall i | 0 <= i < |t1| ensures t1[i] == t2[i] {
      assert a[i] == t1[i] && b[i] == t2[i] && t1[i] in t1 && t2[i] in t2;
      assert x[7 + i] == Underscored(a)[i] && y[7 + i] == Underscored(b)[i];
    }
  }

  /** Within a tenant ids are the same exactly when resource and key read the same with their spaces underscored,
      so different resources can share one. */
  lemma PlanIdsOfOneTenant(t: string, r1: string, k1: string, r2: string, k2: string)
    ensures PlanIdOf(t, r1, k1) == PlanIdOf(t, r2, k2) <==> Underscored(r1 + "-" + k1) == Underscored(r2 + "-" + k2)
  {
    UnderscoredTail(t, r1, k1);
    UnderscoredTail(t, r2, k2);
    var x, y := PlanIdOf(t, r1, k1), PlanIdOf(t, r2, k2);
    assert x[7 + |t| + 1..] == Underscored(r1 + "-" + k1) && y[7 + |t| + 1..] == Underscored(r2 + "-" + k2);
  }

  lemma UnderscoredTail(t: string, r: string, k: string)
    ensures PlanIdOf(t, r, k) == "repair-" + (Underscored(t) + "-") + Underscored(r + "-" + k)
  {
    var whole, tail := t + "-" + r + "-" + k, r + "-" + k;
    assert whole == t + "-" + tail;
    assert Underscored(whole) == Underscored(t) + "-" + Underscored(tail);
  }

  /** Two resources of one tenant that share a plan id under one key. */
  lemma SharedPlanId(t: string, k: string)
    ensures PlanIdOf(t, "a b", k) == PlanIdOf(t, "a_b", k)
  {
    PlanIdsOfOneTenant(t, "a b", k, "a_b", k);
    assert Underscored("a b" + "-" + k) == Underscored("a_b" + "-" + k);
  }

  // ---- the world a repair acts on ------------------------------------------------------------------------

  /** What the ports answer during one call. The digest a probe reports is the resource's own. */
  datatype Probe = Probe(answers: bool, verifiedAt: Time, current: bool)

  /** What the executor reports, and the digest the effect really leaves, which may be any: the expected one,
      another, or the one it found. A failing executor may have left one too. */
  datatype Effect = Applies(effectId: string, leaves: string) | Breaks(left: Option<string>)

  datatype Env = Env(
    at: Time, wired: bool, keepsReceipts: bool, findFails: bool, before: Probe, effect: Effect, after: Probe,
    storeFails: bool, storedAnyway: bool)

  /** An effect that ran, with what it left; a receipt that was built, and whether the store kept it. */
  datatype Event =
    | Applied(plan: Plan, approval: Approval, executor: string, leaves: string)
    | Built(receipt: Receipt, plan: Plan, approval: Approval, executor: string, before: string, after: string, kept: bool)

  type ResourceKey = (string, string)
  type ReceiptKey = (string, string)
  datatype World = World(resources: map<ResourceKey, string>, receipts: map<ReceiptKey, Receipt>, log: seq<Event>)

  function ResourceOf(p: Plan): ResourceKey { (p.body.tenant, p.body.resource) }
  function ReceiptOf(p: Plan): ReceiptKey { (p.body.planId, p.body.key) }

  function Current(w: World, k: ResourceKey): string { if k in w.resources then w.resources[k] else "" }

  predicate Fresh(p: Probe, digest: string, at: Time) { p.current && digest != "" && p.verifiedAt != 0 && p.verifiedAt <= at }

  /** The approval is someone else's and bound to this very plan. */
  predicate Approves(a: Approval, p: Plan, executor: string, at: Time)
  {
    && executor != "" && a.approvedBy != "" && a.approvedBy != p.body.createdBy && a.approvedBy != executor
    && a.planDigest == p.digest && a.approvedAt != 0 && a.approvedAt <= at
  }

  function Moved(w: World, p: Plan, a: Approval, executor: string, leaves: string): World
  {
    w.(resources := w.resources[ResourceOf(p) := leaves], log := w.log + [Applied(p, a, executor, leaves)])
  }

  /** The checks before the effect: an error, a receipt to replay, or leave to go on. */
  datatype Gate = Refused(error: Error) | Replays(receipt: Receipt) | Open

  function Check(w: World, executor: string, p: Plan, a: Approval, e: Env): Gate
  {
    if !PlanOk(p, e.at) || !Approves(a, p, executor, e.at) then Refused(InvalidPlan)
    else if e.keepsReceipts && e.findFails then Refused(StoreError)
    else if e.keepsReceipts && ReceiptOf(p) in w.receipts then Replays(w.receipts[ReceiptOf(p)])
    else if !e.wired then Refused(InvalidPlan)
    else if !e.before.answers then Refused(ProbeError)
    else if !Fresh(e.before, Current(w, ResourceOf(p)), e.at) || Current(w, ResourceOf(p)) != p.body.observed then Refused(StaleObservation)
    else Open
  }

  /** After the effect: the second observation and the receipt. */
  function Conclude(w: World, executor: string, p: Plan, a: Approval, e: Env, effectId: string, before: string): (World, Result<Receipt>)
  {
    var after := Current(w, ResourceOf(p));
    if !e.after.answers then (w, Err(ProbeError))
    else if !Fresh(e.after, after, e.at) || after != p.body.expected then (w, Err(NotFresh))
    else
      var r := Receipt(p.body.planId, p.digest, effectId, e.after.verifiedAt);
      var kept := e.keepsReceipts && (!e.storeFails || e.storedAnyway);
      var built := World(w.resources, if kept then w.receipts[ReceiptOf(p) := r] else w.receipts,
                         w.log + [Built(r, p, a, executor, before, after, kept)]);
      (built, if e.keepsReceipts && e.storeFails then Err(StoreError) else Ok(r))
  }

  function Execute(w: World, executor: string, p: Plan, a: Approval, e: Env): (World, Result<Receipt>)
  {
    match Check(w, executor, p, a, e)
    case Refused(error) => (w, Err(error))
    case Replays(receipt) => (w, Ok(receipt))
    case Open =>
      match e.effect
      case Breaks(left) => (if left.Some? then Moved(w, p, a, executor, left.value) else w, Err(EffectError))
      case Applies(id, leaves) => Conclude(Moved(w, p, a, executor, leaves), executor, p, a, e, id, Current(w, ResourceOf(p)))
  }

  /** The ports, as the role calls them one after the other. */
  class Ports {
    var resources: map<ResourceKey, string>
    var receipts: map<ReceiptKey, Receipt>
    ghost var log: seq<Event>

    ghost function State(): World reads this { World(resources, receipts, log) }

    method ExecuteRepair(executor: string, p: Plan, a: Approval, e: Env) returns (r: Result<Receipt>)
      modifies this
      ensures (State(), r) == Execute(old(State()), executor, p, a, e)
    {
      if !PlanOk(p, e.at) { return Err(InvalidPlan); }
      if executor == "" || a.approvedBy == "" || a.approvedBy == p.body.createdBy || a.approvedBy == executor || a.planDigest != p.digest
         || a.approvedAt == 0 || e.at < a.approvedAt { return Err(InvalidPlan); }
      if e.keepsReceipts {
        if e.findFails { return Err(StoreError); }
        if ReceiptOf(p) in receipts { return Ok(receipts[ReceiptOf(p)]); }
      }
      if !e.wired { return Err(InvalidPlan); }
      var before := if ResourceOf(p) in resources then resources[ResourceOf(p)] else "";
      if !e.before.answers { return Err(ProbeError); }
      if !Fresh(e.before, before, e.at) || before != p.body.observed { return Err(StaleObservation); }
      match e.effect {
        case Breaks(None) => return Err(EffectError);
        case Breaks(Some(left)) =>
          resources := resources[ResourceOf(p) := left];
          log := log + [Applied(p, a, executor, left)];
          return Err(EffectError);
        case Applies(_, leaves) =>
          resources := resources[ResourceOf(p) := leaves];
          log := log + [Applied(p, a, executor, leaves)];
      }
      var after := resources[ResourceOf(p)];
      if !e.after.answers { return Err(ProbeError); }
      if !Fresh(e.after, after, e.at) || after != p.body.expected { return Err(NotFresh); }
      var receipt := Receipt(p.body.planId, p.digest, e.effect.effectId, e.after.verifiedAt);
      ghost var built := log;
      log := built + [Built(receipt, p, a, executor, before, after, false)];
      if e.keepsReceipts {
        if e.storeFails && !e.storedAnyway { return Err(StoreError); }
        receipts := receipts[ReceiptOf(p) := receipt];
        log := built + [Built(receipt, p, a, executor, before, after, true)];
        if e.storeFails { return Err(StoreError); }
      }
      return Ok(receipt);
    }
  }
}

/** Any sequence of repair calls, with the resources drifting in between. */
module RepairRuns {
  import opened Wrappers
  import opened Repair

  datatype Action = Attempt(executor: string, plan: Plan, approval: Approval, env: Env) | Drift(tenant: string, resource: string, digest: string)

  const START := World(map[], map[], [])

  function Do(w: World, a: Action): World
  {
    match a
    case Attempt(executor, plan, approval, env) => Execute(w, executor, plan, approval, env).0
    case Drift(tenant, resource, digest) => w.(resources := w.resources[(tenant, resource) := digest])
  }

  function Run(actions: seq<Action>): World
  {
    if actions == [] then START else Do(Run(actions[..|actions| - 1]), actions[|actions| - 1])
  }

  /** The action does not leave the plan's resource at what the plan observed. */
  predicate NotBack(a: Action, p: Plan)
  {
    match a
    case Attempt(_, plan, _, env) => ResourceOf(plan) == ResourceOf(p) && Leaves(env.effect).Some? ==> Leaves(env.effect).value != p.body.observed
    case Drift(tenant, resource, digest) => (tenant, resource) == ResourceOf(p) ==> digest != p.body.observed
  }

  /** What an effect leaves when it runs. */
  function Leaves(e: Effect): Option<string> { if e.Applies? then Some(e.leaves) else e.left }

  /** From the call that runs the effect of p on, nothing leaves the resource at what p observed: that effect
      moves it, and neither drift nor another effect moves it back. */
  ghost predicate NeverBack(actions: seq<Action>, p: Plan)
  {
    forall i :: 0 <= i < |actions| && 0 < Effects(Run(actions[..i + 1]).log, p) ==> NotBack(actions[i], p)
  }

  /** How often the effect of the plan has run. */
  function Effects(log: seq<Event>, p: Plan): nat
  {
    if log == [] then 0
    else Effects(log[..|log| - 1], p) + if log[|log| - 1].Applied? && log[|log| - 1].plan == p then 1 else 0
  }

  lemma EffectsGrow(log: seq<Event>, e: Event, p: Plan)
    ensures Effects(log + [e], p) == Effects(log, p) + if e.Applied? && e.plan == p then 1 else 0
  {
    assert (log + [e])[..|log|] == log;
  }

  /** The call went all the way: from the moved world to one with a receipt built, and perhaps kept. */
  predicate WithReceipt(moved: World, u: World, executor: string, p: Plan, a: Approval, leaves: string, receipt: Receipt, kept: bool)
  {
    && receipt.planId == p.body.planId && receipt.planDigest == p.digest && leaves == p.body.expected
    && u.log == moved.log + [Built(receipt, p, a, executor, p.body.observed, leaves, kept)] && u.resources == moved.resources
    && u.receipts == (if kept then moved.receipts[ReceiptOf(p) := receipt] else moved.receipts)
    && (kept ==> ReceiptOf(p) !in moved.receipts)
  }

  /** What a call that passes its checks can do: nothing; the effect; or the effect and a receipt. */
  ghost predicate Did(w: World, u: World, executor: string, p: Plan, a: Approval, e: Env)
  {
    && PlanOk(p, e.at) && Approves(a, p, executor, e.at) && Current(w, ResourceOf(p)) == p.body.observed && Leaves(e.effect).Some?
    && var leaves := Leaves(e.effect).value;
       var moved := Moved(w, p, a, executor, leaves);
       u == moved || exists receipt, kept :: WithReceipt(moved, u, executor, p, a, leaves, receipt, kept)
  }

  lemma ExecuteShape(w: World, executor: string, p: Plan, a: Approval, e: Env)
    ensures var u := Execute(w, executor, p, a, e).0; u == w || Did(w, u, executor, p, a, e)
  {
    hide PlanOk, Approves;
    if Check(w, executor, p, a, e).Open? && e.effect.Applies? {
      var leaves := e.effect.leaves;
      var moved, u := Moved(w, p, a, executor, leaves), Execute(w, executor, p, a, e).0;
      var receipt := Receipt(p.body.planId, p.digest, e.effect.effectId, e.after.verifiedAt);
      var kept := e.keepsReceipts && (!e.storeFails || e.storedAnyway);
      assert u == moved || WithReceipt(moved, u, executor, p, a, leaves, receipt, kept);
    }
  }

  lemma ExecuteEffects(w: World, executor: string, p: Plan, a: Approval, e: Env, q: Plan)
    ensures var u := Execute(w, executor, p, a, e).0;
            && (Effects(u.log, q) == Effects(w.log, q) || (p == q && Effects(u.log, q) == Effects(w.log, q) + 1))
            && (u == w || (Leaves(e.effect).Some? && u.resources == w.resources[ResourceOf(p) := Leaves(e.effect).value]))
            && (Effects(u.log, q) != Effects(w.log, q) ==> u != w && Current(w, ResourceOf(p)) == p.body.observed)
  {
    hide PlanOk, Approves, Execute;
    ExecuteShape(w, executor, p, a, e);
    var u := Execute(w, executor, p, a, e).0;
    if u != w {
      var leaves := Leaves(e.effect).value;
      var moved := Moved(w, p, a, executor, leaves);
      EffectsGrow(w.log, Applied(p, a, executor, leaves), q);
      if u != moved {
        var receipt, kept :| WithReceipt(moved, u, executor, p, a, leaves, receipt, kept);
        EffectsGrow(moved.log, Built(receipt, p, a, executor, p.body.observed, leaves, kept), q);
      }
    }
  }

  lemma NeverBackInit(actions: seq<Action>, p: Plan)
    requires NeverBack(actions, p) && actions != []
    ensures NeverBack(actions[..|actions| - 1], p)
    ensures 0 < Effects(Run(actions).log, p) ==> NotBack(actions[|actions| - 1], p)
  {
    hide Run, Effects, NotBack;
    var init := actions[..|actions| - 1];
    forall i | 0 <= i < |init| && 0 < Effects(Run(init[..i + 1]).log, p) ensures NotBack(init[i], p) { assert init[..i + 1] == actions[..i + 1]; }
    assert actions[..|init| + 1] == actions;
  }

  /** The effect of a plan runs at most once, whatever fails on the way and whatever it leaves, unless
      something from that effect on leaves the resource at what the plan observed. */
  lemma {:induction false} EffectAtMostOnce(actions: seq<Action>, p: Plan)
    requires NeverBack(actions, p)
    ensures Effects(Run(actions).log, p) <= 1
    ensures Effects(Run(actions).log, p) == 1 ==> Current(Run(actions), ResourceOf(p)) != p.body.observed
  {
    hide Execute, Effects, NeverBack;
    if actions == [] {
      NoEffects(p);
    } else {
      var init, last := actions[..|actions| - 1], actions[|actions| - 1];
      NeverBackInit(actions, p);
      EffectAtMostOnce(init, p);
      if last.Attempt? { ExecuteEffects(Run(init), last.executor, last.plan, last.approval, last.env, p); }
    }
  }

  lemma NoEffects(p: Plan)
    ensures Effects([], p) == 0
  {
  }

  /** Every receipt ever built had a distinct approver bound to the plan's own digest, the observed digest
      before the effect and the expected one after it, whatever effects leave, and that effect in between. */
  lemma {:induction false} BuiltUnderDualControl(actions: seq<Action>, j: nat)
    requires j < |Run(actions).log| && Run(actions).log[j].Built?
    ensures var b := Run(actions).log[j];
            && b.approval.approvedBy != "" && b.approval.approvedBy != b.plan.body.createdBy && b.approval.approvedBy != b.executor
            && b.approval.planDigest == b.plan.digest == Sha256(b.plan.body) == b.receipt.planDigest
            && b.before == b.plan.body.observed && b.after == b.plan.body.expected && b.before != b.after
            && 0 < j && Run(actions).log[j - 1] == Applied(b.plan, b.approval, b.executor, b.after)
  {
    hide Execute;
    var init, last := actions[..|actions| - 1], actions[|actions| - 1];
    if j < |Run(init).log| && Run(init).log[j].Built? { BuiltUnderDualControl(init, j); }
    if last.Attempt? { ExecuteShape(Run(init), last.executor, last.plan, last.approval, last.env); }
  }

  /** A call answers with a receipt only if it replays a stored one, or built it: then the observation after
      the effect is no later than the clock the call read before it, and the effect left the expected digest. */
  lemma ReceiptNeedsEarlyVerification(w: World, executor: string, p: Plan, a: Approval, e: Env)
    requires Execute(w, executor, p, a, e).1.Ok?
    ensures (ReceiptOf(p) in w.receipts && Execute(w, executor, p, a, e) == (w, Ok(w.receipts[ReceiptOf(p)])))
            || (e.effect.Applies? && e.effect.leaves == p.body.expected && e.after.answers && e.after.current && 0 < e.after.verifiedAt <= e.at
                && Execute(w, executor, p, a, e).1.value == Receipt(p.body.planId, p.digest, e.effect.effectId, e.after.verifiedAt))
  {
    hide PlanOk, Approves;
  }

  /** The effect runs only on a resource that was just seen as the plan observed it, and under an approval given
      by then; nothing is written before. */
  lemma EffectNeedsFreshObservation(w: World, executor: string, p: Plan, a: Approval, e: Env)
    requires Execute(w, executor, p, a, e).0 != w
    ensures e.before.answers && e.before.current && 0 < e.before.verifiedAt <= e.at && Current(w, ResourceOf(p)) == p.body.observed
    ensures 0 < a.approvedAt <= e.at && 0 < p.body.createdAt <= e.at && executor != ""
    ensures (e.keepsReceipts ==> ReceiptOf(p) !in w.receipts) && e.wired
    ensures |w.log| < |Execute(w, executor, p, a, e).0.log| && w.log <= Execute(w, executor, p, a, e).0.log
    ensures Execute(w, executor, p, a, e).0.log[|w.log|].Applied?
  {
  }

  /** Once the effect has run and no receipt was kept, the plan never gets one: every later call refuses. */
  lemma {:induction false} LostReceiptStaysLost(actions: seq<Action>, n: nat, executor: string, p: Plan, a: Approval, e: Env)
    requires n <= |actions| && NeverBack(actions, p)
    requires Effects(Run(actions[..n]).log, p) == 1 && ReceiptOf(p) !in Run(actions[..n]).receipts
    requires forall i :: n <= i < |actions| && actions[i].Attempt? && actions[i].plan != p ==> ReceiptOf(actions[i].plan) != ReceiptOf(p)
    ensures Execute(Run(actions), executor, p, a, e).1.Err? && Effects(Run(actions).log, p) == 1
    ensures ReceiptOf(p) !in Run(actions).receipts
  {
    hide Execute, Effects, NeverBack;
    EffectAtMostOnce(actions, p);
    if n == |actions| {
      assert actions[..n] == actions;
    } else {
      var init, last := actions[..|actions| - 1], actions[|actions| - 1];
      assert init[..n] == actions[..n];
      NeverBackInit(actions, p);
      LostReceiptStaysLost(init, n, executor, p, a, e);
      EffectAtMostOnce(init, p);
      if last.Attempt? {
        if last.plan == p {
          MovedRefuses(Run(init), last.executor, p, last.approval, last.env);
        } else {
          ExecuteEffects(Run(init), last.executor, last.plan, last.approval, last.env, p);
          ExecuteReceipts(Run(init), last.executor, last.plan, last.approval, last.env);
        }
      }
    }
    MovedRefuses(Run(actions), executor, p, a, e);
  }

  lemma MovedRefuses(w: World, executor: string, p: Plan, a: Approval, e: Env)
    requires Current(w, ResourceOf(p)) != p.body.observed && ReceiptOf(p) !in w.receipts
    ensures Execute(w, executor, p, a, e).0 == w && Execute(w, executor, p, a, e).1.Err?
  {
    hide PlanOk, Approves;
  }

  lemma ExecuteReceipts(w: World, executor: string, p: Plan, a: Approval, e: Env)
    ensures forall k :: k != ReceiptOf(p) && k !in w.receipts ==> k !in Execute(w, executor, p, a, e).0.receipts
  {
    hide PlanOk, Approves;
  }

  // ---- which plan a receipt names ----------------------------------------------------------------------------

  /** The event is a receipt that the store kept under this key. */
  predicate KeptUnder(e: Event, k: ReceiptKey) { e.Built? && e.kept && ReceiptOf(e.plan) == k }

  /** What the store holds under a key is the one receipt ever kept there. */
  ghost predicate StoredOnce(w: World, k: ReceiptKey)
  {
    && (k in w.receipts <==> exists i :: 0 <= i < |w.log| && KeptUnder(w.log[i], k))
    && (forall i :: 0 <= i < |w.log| && KeptUnder(w.log[i], k) ==>
          w.log[i].receipt.planDigest == w.log[i].plan.digest && k in w.receipts && w.receipts[k] == w.log[i].receipt)
  }

  lemma StoredAfter(w: World, u: World, events: seq<Event>, k: ReceiptKey)
    requires StoredOnce(w, k) && u.log == w.log + events
    requires forall i :: 0 <= i < |events| && KeptUnder(events[i], k) ==>
               k !in w.receipts && events[i].receipt.planDigest == events[i].plan.digest && k in u.receipts && u.receipts[k] == events[i].receipt
    requires (exists i :: 0 <= i < |events| && KeptUnder(events[i], k)) ||
             ((k in u.receipts <==> k in w.receipts) && (k in w.receipts ==> u.receipts[k] == w.receipts[k]))
    ensures StoredOnce(u, k)
  {
    hide KeptUnder;
    assert forall i :: 0 <= i < |w.log| ==> u.log[i] == w.log[i];
    assert forall i :: 0 <= i < |events| ==> u.log[|w.log| + i] == events[i];
    if exists i :: 0 <= i < |events| && KeptUnder(events[i], k) {
      var i :| 0 <= i < |events| && KeptUnder(events[i], k);
      assert KeptUnder(u.log[|w.log| + i], k);
    } else if k in w.receipts {
      var i :| 0 <= i < |w.log| && KeptUnder(w.log[i], k);
      assert KeptUnder(u.log[i], k);
    }
  }

  lemma AttemptStores(w: World, executor: string, p: Plan, a: Approval, e: Env, k: ReceiptKey)
    requires StoredOnce(w, k)
    ensures StoredOnce(Execute(w, executor, p, a, e).0, k)
  {
    hide PlanOk, Approves, Execute, StoredOnce;
    ExecuteShape(w, executor, p, a, e);
    var u := Execute(w, executor, p, a, e).0;
    if u != w {
      var leaves := Leaves(e.effect).value;
      var moved, ran := Moved(w, p, a, executor, leaves), Applied(p, a, executor, leaves);
      if u == moved {
        StoredAfter(w, u, [ran], k);
      } else {
        var receipt, kept :| WithReceipt(moved, u, executor, p, a, leaves, receipt, kept);
        var built := Built(receipt, p, a, executor, p.body.observed, leaves, kept);
        assert u.log == w.log + [ran, built];
        if KeptUnder(built, k) { assert [ran, built][1] == built; }
        StoredAfter(w, u, [ran, built], k);
      }
    }
  }

  lemma {:induction false} ReceiptsAreStoredOnce(actions: seq<Action>, k: ReceiptKey)
    ensures StoredOnce(Run(actions), k)
  {
    hide Execute;
    if actions != [] {
      var init, last := actions[..|actions| - 1], actions[|actions| - 1];
      ReceiptsAreStoredOnce(init, k);
      if last.Attempt? { AttemptStores(Run(init), last.executor, last.plan, last.approval, last.env, k); }
    }
  }

  /** A receipt of another plan was kept under this plan's id and key. */
  ghost predicate TakenByAnother(log: seq<Event>, p: Plan)
  {
    exists i :: 0 <= i < |log| && KeptUnder(log[i], ReceiptOf(p)) && log[i].plan.digest != p.digest
  }

  /** Receipts are found by plan id and idempotency key alone. So, after any calls, a receipt that is answered
      names its plan exactly when no earlier receipt of another plan was kept under that pair, or this role
      keeps none. */
  lemma ReplayNamesItsOwnPlan(actions: seq<Action>, executor: string, p: Plan, a: Approval, e: Env)
    requires Execute(Run(actions), executor, p, a, e).1.Ok?
    ensures Execute(Run(actions), executor, p, a, e).1.value.planDigest == p.digest <==> !(e.keepsReceipts && TakenByAnother(Run(actions).log, p))
  {
    hide Run, StoredOnce;
    var w := Run(actions);
    var k := ReceiptOf(p);
    ReceiptsAreStoredOnce(actions, k);
    AnswerSource(w, executor, p, a, e);
    StoredNames(w, p);
  }

  lemma AnswerSource(w: World, executor: string, p: Plan, a: Approval, e: Env)
    requires Execute(w, executor, p, a, e).1.Ok?
    ensures var r := Execute(w, executor, p, a, e).1.value;
            if e.keepsReceipts && ReceiptOf(p) in w.receipts then r == w.receipts[ReceiptOf(p)] else r.planDigest == p.digest
  {
    hide PlanOk, Approves;
  }

  lemma StoredNames(w: World, p: Plan)
    requires StoredOnce(w, ReceiptOf(p))
    ensures TakenByAnother(w.log, p) <==> ReceiptOf(p) in w.receipts && w.receipts[ReceiptOf(p)].planDigest != p.digest
  {
    hide KeptUnder;
    var k := ReceiptOf(p);
    if k in w.receipts && w.receipts[k].planDigest != p.digest {
      var i :| 0 <= i < |w.log| && KeptUnder(w.log[i], k);
      KeptIsBuilt(w.log[i], k);
      assert w.log[i].plan.digest != p.digest;
    }
  }

  lemma KeptIsBuilt(e: Event, k: ReceiptKey)
    requires KeptUnder(e, k)
    ensures e.Built?
  {
  }

  // ---- the failures, as runs -----------------------------------------------------------------------------------

  const SEEN := Observation("t", "r", "bad", 1, 9)
  const AGAIN := Observation("t", "r", "worse", 2, 9)
  const QUIET := Probe(true, 1, true)

  function PlanFor(o: Observation, at: Time): Plan
  {
    var body := PlanBody(PlanIdOf("t", "r", "key"), "t", "r", "good", o.digest, o.observedAt, "ann", at, "key");
    Plan(body, Sha256(body))
  }

  function SignOff(p: Plan): Approval { Approval("bob", p.body.createdAt, p.digest) }

  function Calm(at: Time, leaves: string, storeFails: bool): Env { Env(at, true, true, false, QUIET, Applies("e", leaves), QUIET, storeFails, false) }

  lemma PlansAreMade()
    ensures NewPlan(SEEN, "good", "ann", "key", 1) == Ok(PlanFor(SEEN, 1)) && NewPlan(AGAIN, "good", "ann", "key", 2) == Ok(PlanFor(AGAIN, 2))
    ensures PlanOk(PlanFor(SEEN, 1), 1) && PlanOk(PlanFor(AGAIN, 2), 2)
    ensures Approves(SignOff(PlanFor(SEEN, 1)), PlanFor(SEEN, 1), "robot", 1) && Approves(SignOff(PlanFor(AGAIN, 2)), PlanFor(AGAIN, 2), "robot", 2)
    ensures ReceiptOf(PlanFor(SEEN, 1)) == ReceiptOf(PlanFor(AGAIN, 2)) && PlanFor(SEEN, 1).digest != PlanFor(AGAIN, 2).digest
  {
    NewPlanIsValid(SEEN, "good", "ann", "key", 1, 1);
    NewPlanIsValid(AGAIN, "good", "ann", "key", 2, 2);
    assert PlanFor(SEEN, 1).body.createdAt != PlanFor(AGAIN, 2).body.createdAt;
  }

  /** What one call does when all its ports answer, found at the observed digest with no receipt stored. */
  lemma CallGoesThrough(w: World, p: Plan, at: Time, leaves: string, storeFails: bool)
    requires PlanOk(p, at) && Approves(SignOff(p), p, "robot", at) && 1 <= at
    requires Current(w, ResourceOf(p)) == p.body.observed && ReceiptOf(p) !in w.receipts
    ensures var u := Execute(w, "robot", p, SignOff(p), Calm(at, leaves, storeFails)).0;
            var r := Receipt(p.body.planId, p.digest, "e", 1);
            if leaves != p.body.expected then u == Moved(w, p, SignOff(p), "robot", leaves)
            else u == World(w.resources[ResourceOf(p) := leaves], if storeFails then w.receipts else w.receipts[ReceiptOf(p) := r],
                            w.log + [Applied(p, SignOff(p), "robot", leaves)] + [Built(r, p, SignOff(p), "robot", p.body.observed, leaves, !storeFails)])
  {
    hide PlanOk, Approves;
    PlanIsFresh(p, at);
  }

  /** A repair goes through: a valid, approved plan whose resource is as observed, with ports that answer in time
      and an effect that leaves the expected digest, is answered with its receipt, which is kept. */
  lemma RepairGoesThrough(w: World, executor: string, p: Plan, a: Approval, e: Env)
    requires PlanOk(p, e.at) && Approves(a, p, executor, e.at) && e.wired && !e.findFails && ReceiptOf(p) !in w.receipts
    requires Current(w, ResourceOf(p)) == p.body.observed && e.effect.Applies? && e.effect.leaves == p.body.expected
    requires e.before.answers && e.before.current && 0 < e.before.verifiedAt <= e.at && e.after.answers && e.after.current && 0 < e.after.verifiedAt <= e.at
    requires e.keepsReceipts && !e.storeFails
    ensures var (u, answer) := Execute(w, executor, p, a, e);
            var r := Receipt(p.body.planId, p.digest, e.effect.effectId, e.after.verifiedAt);
            && answer == Ok(r) && u.receipts == w.receipts[ReceiptOf(p) := r] && u.resources == w.resources[ResourceOf(p) := p.body.expected]
            && u.log == w.log + [Applied(p, a, executor, p.body.expected), Built(r, p, a, executor, p.body.observed, p.body.expected, true)]
            && Execute(u, executor, p, a, e) == (u, Ok(r))
  {
    hide PlanOk, Approves;
    PlanIsFresh(p, e.at);
  }

  lemma PlanIsFresh(p: Plan, at: Time)
    requires PlanOk(p, at)
    ensures p.body.observed != "" && p.body.expected != ""
  {
  }

  lemma RunGrows(actions: seq<Action>, a: Action)
    ensures Run(actions + [a]) == Do(Run(actions), a)
  {
    assert (actions + [a])[..|actions|] == actions;
  }

  function First(): Plan { PlanFor(SEEN, 1) }
  function Second(): Plan { PlanFor(AGAIN, 2) }
  function Try(leaves: string): Action { Attempt("robot", First(), SignOff(First()), Calm(1, leaves, false)) }

  const DRIFTED := World(map[("t", "r") := "bad"], map[], [])

  lemma RunOfDrift()
    ensures Run([Drift("t", "r", "bad")]) == DRIFTED
  {
    RunGrows([], Drift("t", "r", "bad"));
    assert [] + [Drift("t", "r", "bad")] == [Drift("t", "r", "bad")];
  }

  lemma TryGoesThrough(w: World, leaves: string)
    requires Current(w, ("t", "r")) == "bad" && ReceiptOf(First()) !in w.receipts
    ensures var u := Do(w, Try(leaves));
            && (leaves != "good" ==> u == Moved(w, First(), SignOff(First()), "robot", leaves))
            && (leaves == "good" ==> ReceiptOf(First()) in u.receipts && u.receipts[ReceiptOf(First())].planDigest == First().digest)
  {
    hide PlanOk, Approves, Execute, PlanFor, Calm;
    PlansAreMade();
    SeenPlan();
    CallGoesThrough(w, First(), 1, leaves, false);
  }

  lemma MovedEffects(w: World, p: Plan, leaves: string)
    ensures var u := Moved(w, p, SignOff(p), "robot", leaves);
            Effects(u.log, p) == Effects(w.log, p) + 1 && Current(u, ResourceOf(p)) == leaves && u.receipts == w.receipts
  {
    hide Effects;
    EffectsGrow(w.log, Applied(p, SignOff(p), "robot", leaves), p);
  }

  /** An effect that reports success and changes nothing runs again on the next call. */
  lemma IdleEffectRunsTwice()
    ensures Effects(Run([Drift("t", "r", "bad")] + [Try("bad")] + [Try("bad")]).log, First()) == 2
  {
    hide First, Do, Run, Effects, Try, Moved;
    var drift, idle := Drift("t", "r", "bad"), Try("bad");
    RunOfDrift();
    FirstPlan();
    RunGrows([drift], idle);
    RunGrows([drift] + [idle], idle);
    TryGoesThrough(DRIFTED, "bad");
    MovedEffects(DRIFTED, First(), "bad");
    TryGoesThrough(Run([drift] + [idle]), "bad");
    MovedEffects(Run([drift] + [idle]), First(), "bad");
    NoEffects(First());
  }

  lemma FirstPlan()
    ensures ResourceOf(First()) == ("t", "r") && "bad" != "good"
  {
    assert |"bad"| == 3 && |"good"| == 4;
  }

  lemma SeenPlan()
    ensures var p := PlanFor(SEEN, 1);
            ResourceOf(p) == ("t", "r") && p.body.observed == "bad" && p.body.expected == "good" && p.body.expected != p.body.observed
  {
    assert |"bad"| == 3 && |"good"| == 4;
  }

  /** A second drift of the same resource, diagnosed under the same idempotency key, is answered with the
      first plan's receipt, and the resource stays as it drifted. */
  lemma ReplayForAnotherPlan()
    ensures var w := Run([Drift("t", "r", "bad")] + [Try("good")] + [Drift("t", "r", "worse")]);
            var (u, answer) := Execute(w, "robot", Second(), SignOff(Second()), Calm(2, "good", false));
            && NewPlan(SEEN, "good", "ann", "key", 1) == Ok(First()) && NewPlan(AGAIN, "good", "ann", "key", 2) == Ok(Second())
            && answer.Ok? && answer.value.planDigest == First().digest != Second().digest
            && u == w && Current(u, ("t", "r")) == "worse"
  {
    hide PlanOk, Approves, PlanFor, Execute, NewPlan, Run, Try, Calm, SignOff, ReceiptOf;
    var drift, again := Drift("t", "r", "bad"), Drift("t", "r", "worse");
    RunOfDrift();
    PlansAreMade();
    RunGrows([drift], Try("good"));
    RunGrows([drift] + [Try("good")], again);
    TryGoesThrough(DRIFTED, "good");
    var w := Run([drift] + [Try("good")] + [again]);
    DriftMoves(Run([drift] + [Try("good")]), "t", "r", "worse");
    StoredReplays(w, Second());
  }

  lemma DriftMoves(w: World, tenant: string, resource: string, digest: string)
    ensures var u := Do(w, Drift(tenant, resource, digest)); u.receipts == w.receipts && Current(u, (tenant, resource)) == digest
  {
  }

  lemma StoredReplays(w: World, p: Plan)
    requires ReceiptOf(p) in w.receipts && PlanOk(p, 2) && Approves(SignOff(p), p, "robot", 2)
    ensures Execute(w, "robot", p, SignOff(p), Calm(2, "good", false)) == (w, Ok(w.receipts[ReceiptOf(p)]))
  {
    hide PlanOk, Approves;
  }
}
