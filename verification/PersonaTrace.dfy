/** Persona provenance: a run request is printed into the fields of an audit entry, and a trace is
    read back from the views of many such entries. Go ranges over its maps in any order; the orders
    are parameters here, so what is proved holds for all of them. */
module PersonaTrace {
  import opened Wrappers
  import opened Ordering
  import opened Text
  import opened Substrings
  import opened AuditChain

  const INSTRUCTION := "INVOKER_INSTRUCTION"
  const PEER := "UNTRUSTED_PEER"
  const CONTEXT := "persona.context."
  const INVOCATION := "persona.invocation_id"
  const CONFIDENTIAL := "CONFIDENTIAL"

  datatype ContextEntry = ContextEntry(post: string, author: string, digest: string, taint: string, attached: bool, attachmentId: string)
  datatype PersonaChain = PersonaChain(
    user: string, persona: string, version: string, installation: string, conversation: string, post: string, invocation: string)
  datatype Delegation = Delegation(id: string, user: string, tenant: string, skills: map<string, seq<string>>)
  datatype RunRequest = RunRequest(
    invocation: string, tenant: string, conversation: string, post: string, invoker: string, persona: string, version: string,
    installation: string, onBehalfOf: bool, grant: Delegation, skills: map<string, seq<string>>, context: seq<ContextEntry>, actor: PersonaChain)
  datatype Execution = Execution(task: string, plan: string, step: string, skill: string, skillVersion: string)

  /** One operation of the run: what is recorded beside the request. */
  datatype Operation = Operation(
    eventId: string, tenant: string, action: string, argumentsDigest: string, resultDigest: string,
    execution: Execution, skillSetDigest: string, occurredAt: Time)

  datatype Evidence = Evidence(post: string, digest: string, taint: string, attachmentId: string)
  datatype Trace = Trace(
    invocation: string, persona: string, version: string, installation: string, conversation: string, post: string,
    events: seq<string>, context: seq<Evidence>)

  // ---- printing ----------------------------------------------------------------------------------

  predicate IsHex(c: char) { IsDigit(c) || 'a' <= c <= 'f' || 'A' <= c <= 'F' }

  predicate Sha256Text(s: string) { StartsWith(s, "sha256:") && |s| == 7 + 64 && forall i :: 7 <= i < |s| ==> IsHex(s[i]) }

  predicate ExecutionOk(e: Execution)
  {
    Canonical(e.task) && Canonical(e.plan) && Canonical(e.step) && Canonical(e.skill) && Canonical(e.skillVersion)
  }

  predicate ChainComplete(c: PersonaChain)
  {
    !Blank(c.user) && !Blank(c.persona) && !Blank(c.version) && !Blank(c.installation) && !Blank(c.conversation) && !Blank(c.post) && !Blank(c.invocation)
  }

  predicate RunOk(r: RunRequest)
  {
    && ChainComplete(r.actor) && r.onBehalfOf && r.invocation == r.actor.invocation && r.tenant != "" && r.invoker == r.actor.user
    && r.persona == r.actor.persona && r.version == r.actor.version && r.installation == r.actor.installation
    && r.conversation == r.actor.conversation && r.post == r.actor.post
    && r.grant.id != "" && r.grant.user == r.invoker && r.grant.tenant == r.tenant
  }

  predicate HasSkill(skills: map<string, seq<string>>, id: string)
  {
    id in skills && skills[id] != [] && forall i :: 0 <= i < |skills[id]| ==> Canonical(skills[id][i])
  }

  predicate ContextEntryOk(e: ContextEntry, r: RunRequest)
  {
    && !Blank(e.post) && Sha256Text(e.digest)
    && (e.taint == INSTRUCTION || e.taint == PEER)
    && (e.taint == INSTRUCTION <==> e.post == r.post && e.author == r.invoker && !e.attached)
    && (e.attached ==> !Blank(e.attachmentId))
  }

  predicate ContextOk(r: RunRequest)
  {
    && (forall i :: 0 <= i < |r.context| ==> ContextEntryOk(r.context[i], r))
    && exists i :: 0 <= i < |r.context| && r.context[i].taint == INSTRUCTION
  }

  method ValidateContext(r: RunRequest) returns (ok: bool)
    ensures ok <==> ContextOk(r)
  {
    hide Blank, Sha256Text;
    if r.context == [] { return false; }
    var invoker := false;
    for i := 0 to |r.context|
      invariant forall j :: 0 <= j < i ==> ContextEntryOk(r.context[j], r)
      invariant invoker <==> exists j :: 0 <= j < i && r.context[j].taint == INSTRUCTION
    {
      var e := r.context[i];
      assert ContextEntryOk(e, r) ==> !Blank(e.post) && Sha256Text(e.digest);
      if Blank(e.post) || !Sha256Text(e.digest) { return false; }
      if e.taint == INSTRUCTION {
        if e.post != r.post || e.author != r.invoker || e.attached { return false; }
        invoker := true;
      } else if e.taint == PEER {
        if e.post == r.post && e.author == r.invoker && !e.attached { return false; }
      } else {
        return false;
      }
      if e.attached && Blank(e.attachmentId) { return false; }
    }
    return invoker;
  }

  function Shade(name: string, value: string): Field { Field(name, value, CONFIDENTIAL) }

  function IdentityFields(c: PersonaChain): seq<Field>
  {
    [Shade("persona.id", c.persona), Shade("persona.version", c.version), Shade("persona.installation_id", c.installation),
     Shade("persona.conversation_id", c.conversation), Shade("persona.invoking_post_id", c.post), Shade(INVOCATION, c.invocation)]
  }

  function SkillFields(e: Execution, skillSetDigest: string): seq<Field>
  {
    [Shade("persona.step_id", e.step), Shade("persona.skill_id", e.skill), Shade("persona.skill_version", e.skillVersion),
     Shade("persona.skill_set_digest", skillSetDigest)]
  }

  function ContextName(i: nat, suffix: string): string { CONTEXT + (Pad(Itoa(i), 6) + ("." + suffix)) }

  function EntryFields(i: nat, e: ContextEntry): seq<Field>
  {
    [Shade(ContextName(i, "post_id"), e.post), Shade(ContextName(i, "digest"), e.digest), Shade(ContextName(i, "taint"), e.taint)]
    + if e.attached then [Shade(ContextName(i, "attachment_id"), e.attachmentId)] else []
  }

  function ContextFields(context: seq<ContextEntry>): seq<Field>
  {
    if context == [] then []
    else ContextFields(context[..|context| - 1]) + EntryFields(|context| - 1, context[|context| - 1])
  }

  function PersonaFields(o: Operation, r: RunRequest): seq<Field>
  {
    IdentityFields(r.actor) + SkillFields(o.execution, o.skillSetDigest) + ContextFields(r.context)
  }

  function PersonaEntry(o: Operation, r: RunRequest): Entry
  {
    Entry(o.eventId, o.tenant, "SKILL_CALL",
          Actor(r.actor.user, r.actor.version, r.actor.installation, o.execution.task, o.execution.plan, o.execution.step, 0, r.grant.id),
          o.action, o.argumentsDigest, o.resultDigest, "", PersonaFields(o, r),
          [Edge("TASK", o.execution.task, o.eventId), Edge("CAUSED", o.eventId, r.actor.invocation)], o.occurredAt)
  }

  function NewPersonaAuditEntry(o: Operation, r: RunRequest): Result<Entry>
  {
    if !ExecutionOk(o.execution) || !RunOk(r) || !HasSkill(r.skills, o.execution.skill) || !HasSkill(r.grant.skills, o.execution.skill)
       || !ContextOk(r) then Err(InvalidEntry)
    else if Blank(o.tenant) || o.tenant != r.tenant then Err(TenantBoundary)
    else if Blank(o.eventId) || Blank(o.action) || Blank(o.argumentsDigest) || Blank(o.resultDigest) || o.occurredAt == 0 then Err(InvalidEntry)
    else if ValidEntry(PersonaEntry(o, r)) then Ok(PersonaEntry(o, r)) else Err(InvalidEntry)
  }

  // ---- reading names back --------------------------------------------------------------------------

  datatype ContextKey = NotContext | Malformed | At(index: nat, suffix: string)

  /** The position of the first '.', or the length. */
  function DotAt(s: string): (n: nat)
    ensures n <= |s| && (n < |s| ==> s[n] == '.') && forall i :: 0 <= i < n ==> s[i] != '.'
  {
    if s == [] || s[0] == '.' then 0 else
      var n := DotAt(s[1..]);
      assert forall i :: 0 < i <= n ==> s[i] == s[1..][i - 1];
      n + 1
  }

  function ParseName(name: string): ContextKey
  {
    if !StartsWith(name, CONTEXT) then NotContext
    else
      var rest := name[|CONTEXT|..];
      var dot := DotAt(rest);
      if dot == |rest| then Malformed
      else
        match Atoi(rest[..dot])
        case NotANumber => Malformed
        case Number(v) => if v < 0 then Malformed else At(v, rest[dot + 1..])
  }

  /** Every printed context name is read back as its index and suffix. */
  lemma ParsePrintedName(i: nat, suffix: string)
    requires i <= MAX_INT
    ensures ParseName(ContextName(i, suffix)) == At(i, suffix)
  {
    hide Atoi, Itoa, Pad;
    var stem := Pad(Itoa(i), 6);
    var tail := stem + ("." + suffix);
    var name := ContextName(i, suffix);
    assert name[..|CONTEXT|] == CONTEXT && name[|CONTEXT|..] == tail;
    assert forall k :: 0 <= k < |stem| ==> IsDigit(stem[k]) && tail[k] == stem[k];
    assert tail[|stem|] == '.';
    assert DotAt(tail) == |stem|;
    assert tail[..|stem|] == stem && tail[|stem| + 1..] == suffix;
    ParsePrinted(i, 6);
  }

  /** Length and one letter tell the ten plain names apart. */
  const MARKS: seq<(nat, char)> :=
    [(10, 'i'), (15, 'v'), (23, 'i'), (23, 'c'), (24, 'i'), (21, 'i'), (15, 's'), (16, 's'), (21, 's'), (24, 's')]

  predicate Marked(s: string, m: (nat, char)) { 8 < |s| == m.0 && s[8] == m.1 }

  lemma MarksDiffer(i: nat, j: nat)
    requires i < j < |MARKS|
    ensures MARKS[i] != MARKS[j]
  {
  }

  lemma PlainMarks(c: PersonaChain, e: Execution, d: string, i: nat)
    requires i < 10
    ensures var fields := IdentityFields(c) + SkillFields(e, d); |fields| == 10 && Marked(fields[i].name, MARKS[i])
  {
  }

  lemma MarkedIsPlain(c: PersonaChain, e: Execution, d: string, i: nat)
    requires i < 10
    ensures var fields := IdentityFields(c) + SkillFields(e, d); ParseName(fields[i].name) == NotContext
  {
    var name := (IdentityFields(c) + SkillFields(e, d))[i].name;
    if i == 3 {
      assert name[11] == 'v';
      Mismatch(name, CONTEXT, 11);
    } else {
      PlainMarks(c, e, d, i);
      Mismatch(name, CONTEXT, 8);
    }
  }

  lemma PlainNames(c: PersonaChain, e: Execution, d: string)
    ensures forall f :: f in IdentityFields(c) + SkillFields(e, d) ==> ParseName(f.name) == NotContext
    ensures DistinctNames(IdentityFields(c) + SkillFields(e, d))
  {
    hide IdentityFields, SkillFields, ParseName;
    var fields := IdentityFields(c) + SkillFields(e, d);
    PlainMarks(c, e, d, 0);
    forall f | f in fields ensures ParseName(f.name) == NotContext {
      var i :| 0 <= i < |fields| && fields[i] == f;
      MarkedIsPlain(c, e, d, i);
    }
    forall i, j | 0 <= i < j < |fields| ensures fields[i].name != fields[j].name {
      PlainMarks(c, e, d, i);
      PlainMarks(c, e, d, j);
      MarksDiffer(i, j);
    }
  }

  // ---- what the fields of a run say about its context ------------------------------------------------

  const SUFFIXES := {"post_id", "digest", "taint", "attachment_id"}

  function EvidenceOf(e: ContextEntry): Evidence { Evidence(e.post, e.digest, e.taint, if e.attached then e.attachmentId else "") }

  function ValueOf(e: Evidence, suffix: string): string
  {
    if suffix == "post_id" then e.post else if suffix == "digest" then e.digest
    else if suffix == "taint" then e.taint else if suffix == "attachment_id" then e.attachmentId else ""
  }

  function WithValue(e: Evidence, suffix: string, value: string): Evidence
    requires suffix in SUFFIXES
  {
    if suffix == "post_id" then e.(post := value) else if suffix == "digest" then e.(digest := value)
    else if suffix == "taint" then e.(taint := value) else e.(attachmentId := value)
  }

  lemma ValueAfter(e: Evidence, suffix: string, value: string, other: string)
    requires suffix in SUFFIXES
    ensures ValueOf(WithValue(e, suffix, value), other) == if other == suffix then value else ValueOf(e, other)
  {
    assert |"post_id"| == 7 && |"digest"| == 6 && |"taint"| == 5 && |"attachment_id"| == 13;
  }

  lemma EvidenceIsItsValues(a: Evidence, b: Evidence)
    requires forall s :: s in SUFFIXES ==> ValueOf(a, s) == ValueOf(b, s)
    ensures a == b
  {
    assert |"post_id"| == 7 && |"digest"| == 6 && |"taint"| == 5 && |"attachment_id"| == 13;
    assert ValueOf(a, "post_id") == ValueOf(b, "post_id");
    assert ValueOf(a, "digest") == ValueOf(b, "digest");
    assert ValueOf(a, "taint") == ValueOf(b, "taint");
    assert ValueOf(a, "attachment_id") == ValueOf(b, "attachment_id");
  }

  /** The suffixes printed for a context entry. */
  predicate Printed(e: ContextEntry, s: string) { s == "post_id" || s == "digest" || s == "taint" || (s == "attachment_id" && e.attached) }

  lemma UnprintedIsEmpty(e: ContextEntry, s: string)
    requires s in SUFFIXES && !Printed(e, s)
    ensures ValueOf(EvidenceOf(e), s) == ""
  {
    assert |"post_id"| == 7 && |"digest"| == 6 && |"taint"| == 5 && |"attachment_id"| == 13;
  }

  /** The field names one piece of the context and gives its value. */
  ghost predicate Tells(f: Field, context: seq<ContextEntry>)
  {
    var k := ParseName(f.name);
    k.At? && k.index < |context| && k.suffix in SUFFIXES && f == Shade(ContextName(k.index, k.suffix), ValueOf(EvidenceOf(context[k.index]), k.suffix))
  }

  lemma EntryFieldsTell(context: seq<ContextEntry>, i: nat)
    requires i < |context| <= MAX_INT
    ensures forall f :: f in EntryFields(i, context[i]) ==> Tells(f, context) && ParseName(f.name).index == i
    ensures DistinctNames(EntryFields(i, context[i]))
    ensures forall s :: Printed(context[i], s) ==> Shade(ContextName(i, s), ValueOf(EvidenceOf(context[i]), s)) in EntryFields(i, context[i])
  {
    hide ContextName, ParseName;
    assert |"post_id"| == 7 && |"digest"| == 6 && |"taint"| == 5 && |"attachment_id"| == 13;
    ParsePrintedName(i, "post_id");
    ParsePrintedName(i, "digest");
    ParsePrintedName(i, "taint");
    ParsePrintedName(i, "attachment_id");
    var fields := EntryFields(i, context[i]);
    forall s | Printed(context[i], s) ensures Shade(ContextName(i, s), ValueOf(EvidenceOf(context[i]), s)) in fields {
      assert fields[0].name == ContextName(i, "post_id") && fields[1].name == ContextName(i, "digest") && fields[2].name == ContextName(i, "taint");
      if s == "attachment_id" { assert fields[3].name == ContextName(i, s); }
    }
  }

  lemma TellsMore(f: Field, a: seq<ContextEntry>, b: seq<ContextEntry>)
    requires Tells(f, a) && a <= b
    ensures Tells(f, b)
  {
  }

  lemma {:induction false} ContextFieldsTell(context: seq<ContextEntry>)
    requires |context| <= MAX_INT
    ensures forall f :: f in ContextFields(context) ==> Tells(f, context)
    ensures DistinctNames(ContextFields(context))
    ensures forall i, s :: 0 <= i < |context| && Printed(context[i], s) ==> Shade(ContextName(i, s), ValueOf(EvidenceOf(context[i]), s)) in ContextFields(context)
  {
    hide EntryFields, ContextName, ParseName, Printed, ValueOf;
    if context != [] {
      var n := |context| - 1;
      var init, last := ContextFields(context[..n]), EntryFields(n, context[n]);
      ContextFieldsTell(context[..n]);
      EntryFieldsTell(context, n);
      forall f | f in init ensures Tells(f, context) { TellsMore(f, context[..n], context); }
      forall f, g | f in init && g in last ensures f.name != g.name {
        assert Tells(f, context[..n]);
        assert ParseName(f.name).index < n == ParseName(g.name).index;
      }
      forall i, s | 0 <= i < |context| && Printed(context[i], s)
        ensures Shade(ContextName(i, s), ValueOf(EvidenceOf(context[i]), s)) in init + last {
        if i < n { assert Printed(context[..n][i], s); }
      }
    }
  }

  /** The fields of a run: each context piece exactly once, beside the plain names. */
  lemma PersonaFieldsTell(o: Operation, r: RunRequest)
    requires |r.context| <= MAX_INT
    ensures DistinctNames(PersonaFields(o, r))
    ensures forall f :: f in PersonaFields(o, r) ==> ParseName(f.name) == NotContext || Tells(f, r.context)
    ensures forall i, s :: 0 <= i < |r.context| && Printed(r.context[i], s)
              ==> Shade(ContextName(i, s), ValueOf(EvidenceOf(r.context[i]), s)) in PersonaFields(o, r)
    ensures forall f :: f in IdentityFields(r.actor) ==> f in PersonaFields(o, r)
  {
    hide EntryFields, ContextName, ParseName, Printed, ValueOf, IdentityFields, SkillFields, ContextFields;
    var plain, context := IdentityFields(r.actor) + SkillFields(o.execution, o.skillSetDigest), ContextFields(r.context);
    PlainNames(r.actor, o.execution, o.skillSetDigest);
    ContextFieldsTell(r.context);
    forall f, g | f in plain && g in context ensures f.name != g.name {
      assert Tells(g, r.context);
    }
  }
}
