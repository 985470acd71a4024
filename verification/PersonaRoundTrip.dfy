/** Printing a run into audit entries and resolving it from their views are inverse. */
module PersonaRoundTrip {
  import opened Wrappers
  import opened Ordering
  import opened Text
  import opened Substrings
  import opened AuditChain
  import opened PersonaTrace
  import opened PersonaReading

  // ---- printing never fails on its own account -------------------------------------------------------

  ghost predicate Printable(o: Operation, r: RunRequest)
  {
    && ExecutionOk(o.execution) && RunOk(r) && !Blank(r.grant.id)
    && HasSkill(r.skills, o.execution.skill) && HasSkill(r.grant.skills, o.execution.skill) && ContextOk(r)
    && !Blank(o.tenant) && o.tenant == r.tenant
    && !Blank(o.eventId) && !Blank(o.action) && !Blank(o.argumentsDigest) && !Blank(o.resultDigest) && o.occurredAt != 0
  }

  /** The entry is the invoker's, under the run's grant, caused by its invocation, and records the operation:
      its skill and step, its digests and its time, every field confidential. The grant is that invoker's, of
      that tenant, and gives out the skill; the context holds the invoker's own post as the instruction. */
  ghost predicate BindsRun(e: Entry, o: Operation, r: RunRequest)
  {
    && e.eventId == o.eventId && e.tenant == r.tenant && e.kind == "SKILL_CALL" && e.action == o.action && e.occurredAt == o.occurredAt
    && e.argumentsDigest == o.argumentsDigest && e.resultDigest == o.resultDigest && e.approvalDigest == ""
    && e.actor == Actor(r.invoker, r.version, r.installation, o.execution.task, o.execution.plan, o.execution.step, 0, r.grant.id)
    && multiset(e.edges) == multiset{Edge("TASK", o.execution.task, o.eventId), Edge("CAUSED", o.eventId, r.invocation)}
    && r.onBehalfOf && r.grant.user == e.actor.user && r.grant.tenant == e.tenant
    && o.execution.skill in r.grant.skills && r.grant.skills[o.execution.skill] != []
    && o.execution.skill in r.skills && r.skills[o.execution.skill] != []
    && (exists c :: c in r.context && c.post == r.post && c.author == r.invoker && !c.attached && c.taint == "INVOKER_INSTRUCTION")
    && (forall c :: c in r.context && (c.post != r.post || c.author != r.invoker || c.attached) ==> c.taint == "UNTRUSTED_PEER")
    && (forall i :: 0 <= i < |e.fields| ==> e.fields[i].classification == "CONFIDENTIAL")
    && Names(e, "persona.step_id", o.execution.step) && Names(e, "persona.skill_id", o.execution.skill)
    && Names(e, "persona.skill_version", o.execution.skillVersion) && Names(e, "persona.skill_set_digest", o.skillSetDigest)
  }

  predicate Names(e: Entry, name: string, value: string) { exists f :: f in e.fields && f.name == name && f.value == value }

  lemma SkillIsNamed(o: Operation, r: RunRequest)
    ensures forall f :: f in SkillFields(o.execution, o.skillSetDigest) ==> f in PersonaFields(o, r)
  {
    hide IdentityFields, ContextFields, SkillFields;
  }

  lemma {:induction false} ContextIsConfidential(context: seq<ContextEntry>)
    ensures forall f :: f in ContextFields(context) ==> f.classification == "CONFIDENTIAL"
  {
    hide ContextName;
    if context != [] { ContextIsConfidential(context[..|context| - 1]); }
  }

  lemma FieldsAreConfidential(o: Operation, r: RunRequest)
    ensures forall f :: f in PersonaFields(o, r) ==> f.classification == "CONFIDENTIAL"
  {
    hide ContextFields;
    ContextIsConfidential(r.context);
  }

  lemma CanonicalIsNotBlank(s: string)
    requires Canonical(s)
    ensures !Blank(s)
  {
  }

  lemma NonBlankStart(s: string)
    requires s != [] && !IsSpace(s[0])
    ensures !Blank(s)
  {
    assert TrimLeft(s) == s;
    TrimRightKeeps(s);
  }

  lemma {:induction false} TrimRightKeeps(s: string)
    requires s != [] && !IsSpace(s[0])
    ensures TrimRight(s) != []
  {
    if IsSpace(s[|s| - 1]) {
      TrimRightKeeps(s[..|s| - 1]);
    }
  }

  lemma FieldNameStarts(o: Operation, r: RunRequest, i: nat)
    requires |r.context| <= MAX_INT && i < |PersonaFields(o, r)|
    ensures FieldOk(PersonaFields(o, r)[i])
  {
    hide EntryFields, ContextName, ParseName, IdentityFields, SkillFields, ContextFields, ValueOf, Blank, IsSpace;
    PersonaFieldsTell(o, r);
    var plain, fields := IdentityFields(r.actor) + SkillFields(o.execution, o.skillSetDigest), PersonaFields(o, r);
    PlainMarks(r.actor, o.execution, o.skillSetDigest, 0);
    if i < 10 {
      assert fields[i] == plain[i];
      PlainOk(r.actor, o.execution, o.skillSetDigest, i);
    } else {
      var context := ContextFields(r.context);
      assert fields[i] == context[i - 10] && context[i - 10] in context;
      ContextFieldsTell(r.context);
      var k := ParseName(fields[i].name);
      ContextNameOk(k.index, k.suffix);
    }
  }

  lemma PlainOk(c: PersonaChain, e: Execution, d: string, i: nat)
    requires i < 10
    ensures var fields := IdentityFields(c) + SkillFields(e, d); |fields| == 10 && FieldOk(fields[i])
  {
    hide Blank;
    var f := (IdentityFields(c) + SkillFields(e, d))[i];
    assert f.name[0] == 'p';
    NonBlankStart(f.name);
  }

  lemma ContextNameOk(i: nat, suffix: string)
    ensures !Blank(ContextName(i, suffix))
  {
    hide Blank, Pad, Itoa;
    assert ContextName(i, suffix)[0] == 'p';
    NonBlankStart(ContextName(i, suffix));
  }

  lemma PrintedEdges(o: Operation, r: RunRequest)
    requires !Blank(o.execution.task) && !Blank(o.eventId) && !Blank(r.actor.invocation)
    ensures var e := PersonaEntry(o, r);
            && |e.edges| == 2 && (forall i :: 0 <= i < |e.edges| ==> EdgeOk(e.edges[i], e.actor.task))
            && e.edges[0].kind == "TASK" && e.edges[0].to == e.eventId && e.edges[1] == Edge("CAUSED", e.eventId, r.actor.invocation)
  {
    hide Blank, PersonaFields;
    assert |"CAUSED"| == 6 && |"TASK"| == 4;
  }

  lemma PrintedActor(o: Operation, r: RunRequest)
    requires ExecutionOk(o.execution) && ChainComplete(r.actor) && !Blank(r.grant.id)
    ensures ActorComplete(PersonaEntry(o, r).actor) && !Blank(o.execution.task)
  {
    hide Blank, Canonical, PersonaFields;
    CanonicalIsNotBlank(o.execution.task);
    CanonicalIsNotBlank(o.execution.plan);
    CanonicalIsNotBlank(o.execution.step);
  }

  lemma PrintableIsValid(o: Operation, r: RunRequest)
    requires |r.context| <= MAX_INT && Printable(o, r)
    ensures ValidEntry(PersonaEntry(o, r))
  {
    hide Blank, Canonical, HasSkill, ContextOk, PersonaFields, FieldOk, DistinctNames, ExecutionOk, ActorComplete, EdgeOk, RequiredJoin;
    var e := PersonaEntry(o, r);
    PersonaFieldsTell(o, r);
    forall i | 0 <= i < |e.fields| ensures FieldOk(e.fields[i]) { FieldNameStarts(o, r, i); }
    PrintedActor(o, r);
    PrintedEdges(o, r);
    SkillCallNeedsNoJoin();
  }

  lemma InstructionIsOwn(r: RunRequest)
    requires ContextOk(r)
    ensures exists c :: c in r.context && c.post == r.post && c.author == r.invoker && !c.attached && c.taint == "INVOKER_INSTRUCTION"
    ensures forall c :: c in r.context && (c.post != r.post || c.author != r.invoker || c.attached) ==> c.taint == "UNTRUSTED_PEER"
  {
    hide Blank, Sha256Text;
    var i :| 0 <= i < |r.context| && r.context[i].taint == INSTRUCTION;
    assert ContextEntryOk(r.context[i], r) && r.context[i] in r.context;
  }

  lemma PrintedBinds(o: Operation, r: RunRequest)
    requires RunOk(r) && o.tenant == r.tenant && ContextOk(r)
    requires HasSkill(r.skills, o.execution.skill) && HasSkill(r.grant.skills, o.execution.skill)
    ensures BindsRun(PersonaEntry(o, r), o, r)
  {
    hide Blank, PersonaFields, ChainComplete, ContextOk;
    InstructionIsOwn(r);
    SkillIsNamed(o, r);
    FieldsAreConfidential(o, r);
    var e, skill := PersonaEntry(o, r), SkillFields(o.execution, o.skillSetDigest);
    assert skill[0] in skill && skill[1] in skill && skill[2] in skill && skill[3] in skill;
    assert skill[0] in e.fields && skill[1] in e.fields && skill[2] in e.fields && skill[3] in e.fields;
    forall i | 0 <= i < |e.fields| ensures e.fields[i].classification == "CONFIDENTIAL" { assert e.fields[i] in PersonaFields(o, r); }
    assert e.edges == [Edge("TASK", o.execution.task, o.eventId), Edge("CAUSED", o.eventId, r.invocation)];
  }

  /** An entry is built exactly when the run, the operation and the context pass their own checks; the
      final validation of the entry refuses nothing else. */
  lemma PrintedExactlyWhenPrintable(o: Operation, r: RunRequest)
    requires |r.context| <= MAX_INT
    ensures NewPersonaAuditEntry(o, r).Ok? <==> Printable(o, r)
    ensures NewPersonaAuditEntry(o, r).Ok? ==> BindsRun(NewPersonaAuditEntry(o, r).value, o, r)
  {
    hide Blank, HasSkill, ContextOk, PersonaEntry, ExecutionOk, RunOk, BindsRun, ValidEntry;
    if Printable(o, r) { PrintableIsValid(o, r); }
    if NewPersonaAuditEntry(o, r).Ok? {
      ValidHasGrant(o, r);
      PrintedBinds(o, r);
    }
  }

  lemma ValidHasGrant(o: Operation, r: RunRequest)
    requires ValidEntry(PersonaEntry(o, r))
    ensures !Blank(r.grant.id)
  {
    hide Blank, PersonaFields, FieldOk, DistinctNames, EdgeOk, RequiredJoin;
  }

  lemma SkillCallNeedsNoJoin()
    ensures RequiredJoin("SKILL_CALL") == ""
  {
    assert |"SKILL_CALL"| == 10 && |"APPROVAL"| == 8 && |"INTENT_ORIGIN"| == 13 && |"WORKFLOW_RUN"| == 12 && |"CONNECTOR_OPERATION"| == 19;
  }

  // ---- what a view of a run carries ------------------------------------------------------------------

  lemma {:induction false} FieldMapDistinct(fields: seq<FieldView>)
    requires forall i, j :: 0 <= i < j < |fields| ==> fields[i].name != fields[j].name
    ensures forall i :: 0 <= i < |fields| ==> fields[i].name in FieldMap(fields) && FieldMap(fields)[fields[i].name] == fields[i]
    ensures forall n :: n in FieldMap(fields) ==> FieldMap(fields)[n] in fields && FieldMap(fields)[n].name == n
  {
    if fields != [] { FieldMapDistinct(fields[..|fields| - 1]); }
  }

  function Shown(f: Field): FieldView { FieldView(f.name, f.value, "", f.classification, false) }

  /** The view shows every field of an entry printed from the run. */
  ghost predicate Shows(view: View, o: Operation, r: RunRequest)
  {
    var fields := PersonaFields(o, r);
    |view.fields| == |fields| && forall i :: 0 <= i < |fields| ==> view.fields[i] == Shown(fields[i])
  }

  /** Every context field fits the run's context, and every printed piece is there. */
  ghost predicate Carries(fields: Fields, context: seq<ContextEntry>)
  {
    && (forall n :: n in fields ==> Fits(fields[n], context))
    && (forall i, s :: 0 <= i < |context| && Printed(context[i], s) ==> ContextName(i, s) in fields)
    && (forall n :: n in fields ==> fields[n].name == n)
  }

  ghost predicate Fits(f: FieldView, context: seq<ContextEntry>)
  {
    var k := ParseName(f.name);
    k.NotContext? || (k.At? && !f.redacted && k.index < |context| && k.suffix in SUFFIXES && f.value == ValueOf(EvidenceOf(context[k.index]), k.suffix))
  }

  predicate Identifies(fields: Fields, name: string, value: string) { name in fields && fields[name] == Shown(Shade(name, value)) }

  ghost predicate Identity(fields: Fields, c: PersonaChain)
  {
    && Identifies(fields, "persona.id", c.persona) && Identifies(fields, "persona.version", c.version)
    && Identifies(fields, "persona.installation_id", c.installation) && Identifies(fields, "persona.conversation_id", c.conversation)
    && Identifies(fields, "persona.invoking_post_id", c.post) && Identifies(fields, INVOCATION, c.invocation)
  }

  lemma ShownField(view: View, o: Operation, r: RunRequest, f: Field)
    requires |r.context| <= MAX_INT && Shows(view, o, r) && f in PersonaFields(o, r)
    ensures f.name in FieldMap(view.fields) && FieldMap(view.fields)[f.name] == Shown(f)
  {
    hide PersonaFields, FieldMap, ParseName, ContextName, ValueOf;
    ShownDistinct(view, o, r);
    FieldMapDistinct(view.fields);
    var i :| 0 <= i < |PersonaFields(o, r)| && PersonaFields(o, r)[i] == f;
    assert view.fields[i] == Shown(f);
  }

  lemma ShownDistinct(view: View, o: Operation, r: RunRequest)
    requires |r.context| <= MAX_INT && Shows(view, o, r)
    ensures forall i, j :: 0 <= i < j < |view.fields| ==> view.fields[i].name != view.fields[j].name
  {
    hide PersonaFields, ParseName, ContextName, ValueOf;
    PersonaFieldsTell(o, r);
    forall i, j | 0 <= i < j < |view.fields| ensures view.fields[i].name != view.fields[j].name {
      assert view.fields[i] == Shown(PersonaFields(o, r)[i]) && view.fields[j] == Shown(PersonaFields(o, r)[j]);
    }
  }

  lemma RunIsIdentified(view: View, o: Operation, r: RunRequest)
    requires |r.context| <= MAX_INT && Shows(view, o, r)
    ensures Identity(FieldMap(view.fields), r.actor)
  {
    hide PersonaFields, FieldMap, Shows, ParseName, ContextName, ValueOf;
    PersonaFieldsTell(o, r);
    var id := IdentityFields(r.actor);
    assert id[0] in id && id[1] in id && id[2] in id && id[3] in id && id[4] in id && id[5] in id;
    ShownField(view, o, r, id[0]);
    ShownField(view, o, r, id[1]);
    ShownField(view, o, r, id[2]);
    ShownField(view, o, r, id[3]);
    ShownField(view, o, r, id[4]);
    ShownField(view, o, r, id[5]);
  }

  lemma RunIsCarried(view: View, o: Operation, r: RunRequest)
    requires |r.context| <= MAX_INT && Shows(view, o, r)
    ensures Carries(FieldMap(view.fields), r.context)
  {
    hide PersonaFields, FieldMap, ParseName, ContextName, ValueOf, Printed;
    PersonaFieldsTell(o, r);
    ShownDistinct(view, o, r);
    FieldMapDistinct(view.fields);
    var m := FieldMap(view.fields);
    forall n | n in m ensures Fits(m[n], r.context) {
      assert m[n] in view.fields;
      var i :| 0 <= i < |view.fields| && view.fields[i] == m[n];
      var f := PersonaFields(o, r)[i];
      assert f in PersonaFields(o, r) && m[n] == Shown(f);
    }
    forall i, s | 0 <= i < |r.context| && Printed(r.context[i], s) ensures ContextName(i, s) in m {
      ShownField(view, o, r, Shade(ContextName(i, s), ValueOf(EvidenceOf(r.context[i]), s)));
    }
  }

  // ---- collecting the context ------------------------------------------------------------------------

  /** What is known of item i's suffix is its true value. */
  ghost predicate Holds(m: map<nat, Evidence>, context: seq<ContextEntry>, i: nat, s: string)
    requires i < |context|
  {
    i in m && ValueOf(m[i], s) == ValueOf(EvidenceOf(context[i]), s)
  }

  /** Nothing known is wrong. */
  ghost predicate Partial(m: map<nat, Evidence>, context: seq<ContextEntry>)
  {
    forall i :: i in m ==> i < |context| && forall s :: s in SUFFIXES ==> ValueOf(m[i], s) == "" || Holds(m, context, i, s)
  }

  function Full(context: seq<ContextEntry>): map<nat, Evidence> { map i: nat | 0 <= i < |context| :: EvidenceOf(context[i]) }

  /** One field of the run: never refused, keeps what is known, and adds its own piece. */
  lemma LearnFits(m: map<nat, Evidence>, f: FieldView, context: seq<ContextEntry>)
    requires Partial(m, context) && Fits(f, context)
    ensures var r := Learn(m, f);
            && r.Ok? && Partial(r.value, context)
            && (forall i, s :: 0 <= i < |context| && s in SUFFIXES && Holds(m, context, i, s) ==> Holds(r.value, context, i, s))
            && (ParseName(f.name).At? ==> Holds(r.value, context, ParseName(f.name).index, ParseName(f.name).suffix))
  {
    hide ParseName, ValueOf, WithValue;
    var k := ParseName(f.name);
    if k.At? {
      var item := ItemAt(m, k.index);
      NothingKnown(k.suffix);
      var after := m[k.index := WithValue(item, k.suffix, f.value)];
      forall s ensures ValueOf(after[k.index], s) == if s == k.suffix then f.value else ValueOf(item, s) {
        ValueAfter(item, k.suffix, f.value, s);
      }
      forall s | s in SUFFIXES ensures ValueOf(item, s) == "" || Holds(m, context, k.index, s) { NothingKnown(s); }
    }
  }

  lemma NothingKnown(s: string)
    ensures ValueOf(NO_EVIDENCE, s) == ""
  {
  }

  lemma {:induction false} CollectKeeps(m: map<nat, Evidence>, fields: Fields, order: seq<string>, context: seq<ContextEntry>)
    requires (forall i :: 0 <= i < |order| ==> order[i] in fields) && Partial(m, context) && Carries(fields, context)
    ensures var r := Collect(m, fields, order);
            && r.Ok? && Partial(r.value, context)
            && (forall j :: 0 <= j < |order| && ParseName(order[j]).At? ==>
                  ParseName(order[j]).index < |context| && Holds(r.value, context, ParseName(order[j]).index, ParseName(order[j]).suffix))
  {
    hide ParseName, ValueOf, Learn, Partial, Printed, ContextName;
    if order != [] {
      var init, last := order[..|order| - 1], order[|order| - 1];
      CollectKeeps(m, fields, init, context);
      var before := Collect(m, fields, init).value;
      assert last in fields && fields[last].name == last && Fits(fields[last], context);
      LearnFits(before, fields[last], context);
      var after := Collect(m, fields, order).value;
      forall j | 0 <= j < |order| && ParseName(order[j]).At?
        ensures ParseName(order[j]).index < |context| && Holds(after, context, ParseName(order[j]).index, ParseName(order[j]).suffix) {
        if j < |init| {
          assert init[j] == order[j];
          assert order[j] in fields && fields[order[j]].name == order[j] && Fits(fields[order[j]], context);
        }
      }
    }
  }

  /** Ranging over all fields of a run, in any order and after any other of its views, gives its context. */
  lemma CollectFull(m: map<nat, Evidence>, fields: Fields, order: seq<string>, context: seq<ContextEntry>)
    requires Listing(order, fields.Keys) && Partial(m, context) && Carries(fields, context) && |context| <= MAX_INT
    ensures Collect(m, fields, order) == Ok(Full(context))
  {
    hide ParseName, ValueOf, Collect, ContextName, EvidenceOf, Printed;
    CollectKeeps(m, fields, order, context);
    var after := Collect(m, fields, order).value;
    forall i | 0 <= i < |context| ensures i in after && after[i] == EvidenceOf(context[i]) {
      forall s | s in SUFFIXES && Printed(context[i], s) ensures Holds(after, context, i, s) {
        assert ContextName(i, s) in fields.Keys && ContextName(i, s) in order;
        var j :| 0 <= j < |order| && order[j] == ContextName(i, s);
        ParsePrintedName(i, s);
        assert ParseName(order[j]) == At(i, s);
      }
      PostIsPrinted(context[i]);
      assert Holds(after, context, i, "post_id");
      forall s | s in SUFFIXES ensures ValueOf(after[i], s) == ValueOf(EvidenceOf(context[i]), s) {
        if !Printed(context[i], s) { UnprintedIsEmpty(context[i], s); }
      }
      EvidenceIsItsValues(after[i], EvidenceOf(context[i]));
    }
    assert after == Full(context);
  }

  lemma PostIsPrinted(e: ContextEntry)
    ensures Printed(e, "post_id") && "post_id" in SUFFIXES
  {
  }

  lemma FullIsPartial(context: seq<ContextEntry>)
    ensures Partial(Full(context), context) && Partial(map[], context)
  {
  }

  // ---- the round trip --------------------------------------------------------------------------------

  /** Either the view does not expose the invocation, or it shows an entry printed from the run. */
  ghost predicate Genuine(view: View, r: RunRequest)
  {
    !Mentions(FieldMap(view.fields), r.invocation) || exists o :: Shows(view, o, r)
  }

  ghost predicate Relevant(view: View, invocation: string) { Mentions(FieldMap(view.fields), invocation) }

  /** The scan has seen the run: its identity, its context and the events of its views so far. */
  ghost predicate Seen(p: Progress, views: seq<View>, r: RunRequest)
  {
    && p.trace.invocation == r.invocation && p.trace.context == []
    && (p.found <==> exists i :: 0 <= i < |views| && Relevant(views[i], r.invocation))
    && (!p.found ==> p == Begin(r.invocation))
    && (p.found ==> p.evidence == Full(r.context) && p.trace == TraceOf(r).(events := p.trace.events, context := []))
    && (forall x :: x in p.trace.events <==> exists i :: 0 <= i < |views| && Relevant(views[i], r.invocation) && views[i].entry.eventId == x)
    && Distinct(p.trace.events)
  }

  /** The run's own account of itself. */
  function TraceOf(r: RunRequest): Trace
  {
    Trace(r.invocation, r.persona, r.version, r.installation, r.conversation, r.post, [], EvidenceList(r.context))
  }

  function EvidenceList(context: seq<ContextEntry>): (e: seq<Evidence>)
    ensures |e| == |context| && forall i :: 0 <= i < |e| ==> e[i] == EvidenceOf(context[i])
  {
    if context == [] then [] else EvidenceList(context[..|context| - 1]) + [EvidenceOf(context[|context| - 1])]
  }

  lemma ApplyRun(fields: Fields, t: Trace, r: RunRequest)
    requires RunOk(r) && Identity(fields, r.actor)
    requires (t.persona == t.version == t.installation == t.conversation == t.post == "")
             || t == TraceOf(r).(events := t.events, context := t.context)
    ensures ApplyIdentity(fields, t) == Ok(t.(persona := r.persona, version := r.version, installation := r.installation,
                                              conversation := r.conversation, post := r.post))
  {
    hide Blank, EvidenceList;
    NotBlankNotEmpty(r.persona);
    NotBlankNotEmpty(r.version);
    NotBlankNotEmpty(r.installation);
    NotBlankNotEmpty(r.conversation);
    NotBlankNotEmpty(r.post);
  }

  lemma NotBlankNotEmpty(s: string)
    ensures !Blank(s) ==> s != ""
  {
  }

  lemma ReadRun(p: Progress, view: View, order: seq<string>, o: Operation, r: RunRequest, views: seq<View>)
    requires RunOk(r) && |r.context| <= MAX_INT && Shows(view, o, r) && Seen(p, views, r) && Listing(order, FieldMap(view.fields).Keys)
    ensures Mentions(FieldMap(view.fields), r.invocation)
    ensures Read(p, view, order) == Ok(Progress(TraceOf(r).(events := WithEvent(p.trace.events, view.entry.eventId), context := []), Full(r.context), true))
  {
    hide FieldMap, Shows, Collect, ApplyIdentity, Carries, Full, EvidenceList, Partial, Blank;
    RunIsIdentified(view, o, r);
    RunIsCarried(view, o, r);
    FullIsPartial(r.context);
    CollectFull(p.evidence, FieldMap(view.fields), order, r.context);
    ApplyRun(FieldMap(view.fields), p.trace, r);
  }

  lemma SeenMore(p: Progress, views: seq<View>, view: View, r: RunRequest, q: Progress)
    requires Seen(p, views, r)
    requires if Relevant(view, r.invocation)
             then q == Progress(TraceOf(r).(events := WithEvent(p.trace.events, view.entry.eventId), context := []), Full(r.context), true)
             else q == p
    ensures Seen(q, views + [view], r)
  {
    hide FieldMap, Full, EvidenceList, Mentions;
    var more := views + [view];
    forall i | 0 <= i < |views| ensures more[i] == views[i] { }
    assert more[|views|] == view;
    forall x ensures x in q.trace.events <==> exists i :: 0 <= i < |more| && Relevant(more[i], r.invocation) && more[i].entry.eventId == x {
      if exists i :: 0 <= i < |views| && Relevant(views[i], r.invocation) && views[i].entry.eventId == x {
        var i :| 0 <= i < |views| && Relevant(views[i], r.invocation) && views[i].entry.eventId == x;
        assert Relevant(more[i], r.invocation) && more[i].entry.eventId == x;
        assert x in p.trace.events;
      }
    }
    assert q.found <==> exists i :: 0 <= i < |more| && Relevant(more[i], r.invocation) by {
      if p.found {
        var i :| 0 <= i < |views| && Relevant(views[i], r.invocation);
        assert Relevant(more[i], r.invocation);
      }
    }
  }

  lemma {:induction false} ScanRun(views: seq<View>, orders: seq<seq<string>>, r: RunRequest)
    requires OrdersOk(views, orders) && RunOk(r) && |r.context| <= MAX_INT && forall i :: 0 <= i < |views| ==> Genuine(views[i], r)
    ensures Scan(views, r.invocation, orders).Ok? && Seen(Scan(views, r.invocation, orders).value, views, r)
  {
    hide FieldMap, Shows, Read, Full, EvidenceList, Seen, RunOk;
    if views == [] {
      BeginSeen(r);
    } else {
      var n := |views| - 1;
      ScanRun(views[..n], orders[..n], r);
      var p := Scan(views[..n], r.invocation, orders[..n]).value;
      assert Genuine(views[n], r) && Listing(orders[n], FieldMap(views[n].fields).Keys);
      assert views == views[..n] + [views[n]];
      if Relevant(views[n], r.invocation) {
        var o :| Shows(views[n], o, r);
        ReadRun(p, views[n], orders[n], o, r, views[..n]);
      } else {
        ReadForeign(p, views[..n], views[n], orders[n], r);
      }
      SeenMore(p, views[..n], views[n], r, Scan(views, r.invocation, orders).value);
    }
  }

  lemma BeginSeen(r: RunRequest)
    ensures Seen(Begin(r.invocation), [], r)
  {
  }

  lemma ReadForeign(p: Progress, views: seq<View>, view: View, order: seq<string>, r: RunRequest)
    requires Seen(p, views, r) && !Relevant(view, r.invocation) && Listing(order, FieldMap(view.fields).Keys)
    ensures Read(p, view, order) == Ok(p)
  {
  }

  ghost predicate Exactly(indices: seq<nat>, n: nat) { forall i: nat :: i in indices <==> i < n }

  lemma LastOfAll(indices: seq<nat>, n: nat)
    requires Ascends(indices) && Exactly(indices, n) && 0 < n
    ensures indices != [] && indices[|indices| - 1] == n - 1
  {
    assert n - 1 in indices;
    var k :| 0 <= k < |indices| && indices[k] == n - 1;
    assert indices[|indices| - 1] in indices;
    assert indices[k] <= indices[|indices| - 1];
  }

  lemma InitOfAll(indices: seq<nat>, n: nat)
    requires Ascends(indices) && Exactly(indices, n) && indices != [] && indices[|indices| - 1] == n - 1
    ensures Ascends(indices[..|indices| - 1]) && Exactly(indices[..|indices| - 1], n - 1)
  {
    var init := indices[..|indices| - 1];
    assert indices == init + [n - 1];
    forall i: nat ensures i in init <==> i < n - 1 {
      assert i in indices <==> i in init || i == n - 1;
      if i in init {
        var k :| 0 <= k < |init| && init[k] == i;
        assert indices[k] < indices[|indices| - 1];
      }
    }
  }

  lemma {:induction false} AscendsFromZero(indices: seq<nat>, n: nat)
    requires Ascends(indices) && Exactly(indices, n)
    ensures |indices| == n && forall j :: 0 <= j < n ==> indices[j] == j
  {
    if n == 0 {
      NoneLeft(indices);
    } else {
      hide Ascends, Exactly;
      LastOfAll(indices, n);
      InitOfAll(indices, n);
      AscendsFromZero(indices[..|indices| - 1], n - 1);
    }
  }

  lemma NoneLeft(indices: seq<nat>)
    ensures Exactly(indices, 0) ==> indices == []
  {
    if indices != [] { assert indices[0] in indices; }
  }

  /** What a resolved trace of the run must be. */
  ghost predicate Faithful(t: Trace, views: seq<View>, r: RunRequest)
  {
    && t == TraceOf(r).(events := t.events)
    && Sorted(LexLe, t.events) && Distinct(t.events)
    && forall x :: x in t.events <==> exists i :: 0 <= i < |views| && Relevant(views[i], r.invocation) && views[i].entry.eventId == x
  }

  lemma ContextIsComplete(r: RunRequest)
    requires ContextOk(r)
    ensures forall i :: 0 <= i < |r.context| ==> Complete(EvidenceOf(r.context[i]))
  {
    hide Blank, Sha256Text;
    forall i | 0 <= i < |r.context| ensures Complete(EvidenceOf(r.context[i])) {
      assert ContextEntryOk(r.context[i], r);
      NotBlankNotEmpty(r.context[i].post);
    }
  }

  lemma ConcludeContext(p: Progress, t: Trace, r: RunRequest, indices: seq<nat>)
    requires p.evidence == Full(r.context) && Assembled(p.evidence, t.context, indices)
    ensures t.context == EvidenceList(r.context)
  {
    hide Complete;
    assert Exactly(indices, |r.context|) by { forall i: nat ensures i in indices <==> i < |r.context| { assert i in p.evidence <==> i in indices; } }
    AscendsFromZero(indices, |r.context|);
  }

  lemma SortedEvents(s: seq<string>)
    requires Distinct(s)
    ensures var t := Sort(LexLe, s); Sorted(LexLe, t) && Distinct(t) && forall x :: x in t <==> x in s
  {
    hide LexLe, Sort, Distinct;
    LexOrder();
    SortSorts(LexLe, s);
    SortKeeps(LexLe, s);
    SortDistinct(LexLe, s);
  }

  lemma LexOrder()
    ensures TotalPreorder(LexLe)
  {
    hide LexLe;
    forall a, b ensures LexLe(a, b) || LexLe(b, a) { LexTotal(a, b); }
    forall a, b, c | LexLe(a, b) && LexLe(b, c) ensures LexLe(a, c) { LexTransitive(a, b, c); }
  }

  lemma ConcludeRun(p: Progress, views: seq<View>, r: RunRequest, answer: Result<Trace>)
    requires ContextOk(r) && Seen(p, views, r) && p.found && Concludes(p, answer)
    ensures answer.Ok? && Faithful(answer.value, views, r)
  {
    hide FieldMap, EvidenceList, Sort, LexLe, Relevant, Complete, ContextOk, Assembled;
    ContextIsComplete(r);
    assert forall i :: i in p.evidence ==> Complete(p.evidence[i]);
    var indices :| Assembled(p.evidence, answer.value.context, indices);
    ConcludeContext(p, answer.value, r, indices);
    SortedEvents(p.trace.events);
  }

  lemma RunIsNamed(r: RunRequest)
    requires RunOk(r)
    ensures !Blank(r.invocation)
  {
  }

  lemma SeenFound(p: Progress, views: seq<View>, r: RunRequest)
    requires Seen(p, views, r) && exists i :: 0 <= i < |views| && Relevant(views[i], r.invocation)
    ensures p.found
  {
  }

  /** Resolving views of a run, among any views that do not expose its invocation and however the
      maps are ranged over, gives back the run: its identity, its context in order, and the sorted
      set of its events. */
  lemma ViewsRoundTrip(views: seq<View>, orders: seq<seq<string>>, r: RunRequest, answer: Result<Trace>)
    requires OrdersOk(views, orders) && RunOk(r) && ContextOk(r) && |r.context| <= MAX_INT
    requires forall i :: 0 <= i < |views| ==> Genuine(views[i], r)
    requires exists i :: 0 <= i < |views| && Relevant(views[i], r.invocation)
    requires Resolves(views, r.invocation, orders, answer)
    ensures answer.Ok? && Faithful(answer.value, views, r)
  {
    hide FieldMap, Scan, RunOk, Seen, Concludes, Genuine, Relevant, ContextOk, Blank, Faithful;
    ScanRun(views, orders, r);
    RunIsNamed(r);
    var p := Scan(views, r.invocation, orders).value;
    SeenFound(p, views, r);
    ConcludeRun(p, views, r, answer);
  }

  // ---- through the store -----------------------------------------------------------------------------

  /** The entry was printed from the run. */
  ghost predicate FromRun(e: Entry, r: RunRequest) { exists o :: NewPersonaAuditEntry(o, r) == Ok(e) }

  predicate Unrelated(e: Entry, invocation: string)
  {
    forall i :: 0 <= i < |e.fields| ==> e.fields[i].name != INVOCATION || e.fields[i].value != invocation
  }

  /** Every post is of the run or does not name its invocation. */
  ghost predicate Separate(posts: seq<Post>, r: RunRequest)
  {
    forall i :: 0 <= i < |posts| ==> FromRun(posts[i].entry, r) || Unrelated(posts[i].entry, r.invocation)
  }

  /** The query reaches the run's events and may see what they say of the run; it may ask for one of its tasks
      only, or for some kinds of events. */
  ghost predicate Permits(q: AuditQuery, r: RunRequest)
  {
    && q.viewer.tenant == r.tenant && (q.viewer.role == AsUser ==> q.viewer.user == r.actor.user)
    && (q.kinds == [] || "SKILL_CALL" in q.kinds)
    && forall o, f :: f in PersonaFields(o, r) ==> f.name in q.viewer.allowed
  }

  predicate Asked(e: Entry, q: AuditQuery) { q.task == "" || e.actor.task == q.task }

  /** The post is the first valid one under its event id, so it is the one the store holds. */
  predicate Leads(posts: seq<Post>, i: nat)
    requires i < |posts|
  {
    ValidEntry(posts[i].entry) && forall j :: 0 <= j < i && ValidEntry(posts[j].entry) ==> KeyOf(posts[j].entry) != KeyOf(posts[i].entry)
  }

  lemma AppendHolds(h: Hash, v: Vault, e: Entry, now: Time)
    ensures var w := AppendEntry(h, v, e, now).0;
            && (forall k :: k in v.byEvent ==> k in w.byEvent && w.byEvent[k] == v.byEvent[k])
            && (forall k :: k in w.byEvent && k !in v.byEvent ==> k == KeyOf(e) && w.byEvent[k].entry == e && ValidEntry(e))
            && (ValidEntry(e) ==> KeyOf(e) in w.byEvent)
  {
    hide ValidEntry, CanonicalEntry;
  }

  lemma LeadsOn(posts: seq<Post>, i: nat)
    requires i < |posts| - 1
    ensures Leads(posts[..|posts| - 1], i) == Leads(posts, i)
  {
    hide ValidEntry;
    var init := posts[..|posts| - 1];
    assert forall j :: 0 <= j < |init| ==> init[j] == posts[j];
  }

  /** What the store holds under an event id is the first valid entry it was offered for it. */
  lemma {:induction false} HeldIsFirst(h: Hash, posts: seq<Post>)
    ensures forall k :: k in Filled(h, posts).byEvent ==>
              exists i :: 0 <= i < |posts| && Leads(posts, i) && KeyOf(posts[i].entry) == k && posts[i].entry == Filled(h, posts).byEvent[k].entry
    ensures forall i :: 0 <= i < |posts| && ValidEntry(posts[i].entry) ==> KeyOf(posts[i].entry) in Filled(h, posts).byEvent
  {
    hide ValidEntry, AppendEntry, Leads;
    if posts != [] {
      var n := |posts| - 1;
      var init, last := posts[..n], posts[n];
      HeldIsFirst(h, init);
      var v, w := Filled(h, init), Filled(h, posts);
      AppendHolds(h, v, last.entry, last.at);
      forall i | 0 <= i < |posts| && ValidEntry(posts[i].entry) ensures KeyOf(posts[i].entry) in w.byEvent {
        if i < n { assert init[i] == posts[i]; }
      }
      forall k | k in w.byEvent
        ensures exists i :: 0 <= i < |posts| && Leads(posts, i) && KeyOf(posts[i].entry) == k && posts[i].entry == w.byEvent[k].entry {
        if k in v.byEvent {
          var i :| 0 <= i < n && Leads(init, i) && KeyOf(init[i].entry) == k && init[i].entry == v.byEvent[k].entry;
          LeadsOn(posts, i);
          assert posts[i] == init[i];
        } else {
          forall j | 0 <= j < n && ValidEntry(posts[j].entry) ensures KeyOf(posts[j].entry) != k { assert init[j] == posts[j]; }
          LeadsNow(posts);
        }
      }
    }
  }

  lemma LeadsNow(posts: seq<Post>)
    requires posts != [] && ValidEntry(posts[|posts| - 1].entry)
    requires forall j :: 0 <= j < |posts| - 1 && ValidEntry(posts[j].entry) ==> KeyOf(posts[j].entry) != KeyOf(posts[|posts| - 1].entry)
    ensures Leads(posts, |posts| - 1)
  {
  }

  /** Two posts that lead under one event id are the same. */
  lemma LeaderIsUnique(posts: seq<Post>, i: nat, j: nat)
    requires i < |posts| && j < |posts| && Leads(posts, i) && Leads(posts, j) && KeyOf(posts[i].entry) == KeyOf(posts[j].entry)
    ensures i == j
  {
    hide ValidEntry;
  }

  lemma ChainWasOffered(h: Hash, posts: seq<Post>, tenant: string, i: nat)
    requires i < |ChainOf(Filled(h, posts), tenant)|
    ensures var e := ChainOf(Filled(h, posts), tenant)[i].entry;
            ValidEntry(e) && e.tenant == tenant && exists j :: 0 <= j < |posts| && Leads(posts, j) && posts[j].entry == e
  {
    hide ValidEntry, Filled, Leads;
    StoresVerify(h, posts);
    HeldIsFirst(h, posts);
    var v := Filled(h, posts);
    assert Indexed(v, tenant, ChainOf(v, tenant)[i]);
  }

  lemma RunIsShown(sha: string -> string, rec: Record, q: AuditQuery, r: RunRequest)
    requires FromRun(rec.entry, r) && Permits(q, r)
    ensures (Asked(rec.entry, q) ==> Visible(rec, q)) && exists o :: Shows(Project(sha, rec, q.viewer), o, r)
  {
    hide PersonaFields, ValidEntry, ExecutionOk, RunOk, ContextOk, HasSkill, Blank;
    var o :| NewPersonaAuditEntry(o, r) == Ok(rec.entry);
    var view := Project(sha, rec, q.viewer);
    assert rec.entry.fields == PersonaFields(o, r);
    forall i | 0 <= i < |view.fields| ensures view.fields[i] == Shown(PersonaFields(o, r)[i]) {
      assert PersonaFields(o, r)[i] in PersonaFields(o, r);
    }
    assert Shows(view, o, r);
  }

  lemma ProjectedDistinct(sha: string -> string, rec: Record, viewer: Viewer)
    requires DistinctNames(rec.entry.fields)
    ensures var fields := Project(sha, rec, viewer).fields; forall i, j :: 0 <= i < j < |fields| ==> fields[i].name != fields[j].name
  {
    var fields := Project(sha, rec, viewer).fields;
    forall i, j | 0 <= i < j < |fields| ensures fields[i].name != fields[j].name {
      assert rec.entry.fields[i].name != rec.entry.fields[j].name;
    }
  }

  lemma ValidIsDistinct(e: Entry)
    requires ValidEntry(e)
    ensures DistinctNames(e.fields)
  {
  }

  lemma UnrelatedIsForeign(sha: string -> string, rec: Record, viewer: Viewer, invocation: string)
    requires ValidEntry(rec.entry) && Unrelated(rec.entry, invocation)
    ensures !Relevant(Project(sha, rec, viewer), invocation)
  {
    hide ValidEntry, DistinctNames, FieldMap;
    var view := Project(sha, rec, viewer);
    ValidIsDistinct(rec.entry);
    ProjectedDistinct(sha, rec, viewer);
    FieldMapDistinct(view.fields);
    if INVOCATION in FieldMap(view.fields) {
      var i :| 0 <= i < |view.fields| && view.fields[i] == FieldMap(view.fields)[INVOCATION];
      assert rec.entry.fields[i].name == INVOCATION;
    }
  }

  /** A view in the answer exposes the invocation exactly when its record is of the run. */
  lemma AnswerIsGenuine(sha: string -> string, rec: Record, q: AuditQuery, r: RunRequest)
    requires Permits(q, r) && ValidEntry(rec.entry) && |r.context| <= MAX_INT && RunOk(r)
    requires FromRun(rec.entry, r) || Unrelated(rec.entry, r.invocation)
    ensures var view := Project(sha, rec, q.viewer);
            Genuine(view, r) && (Relevant(view, r.invocation) <==> FromRun(rec.entry, r)) && view.entry.eventId == rec.entry.eventId
    ensures FromRun(rec.entry, r) && Asked(rec.entry, q) ==> Visible(rec, q)
  {
    hide FromRun, Permits, ValidEntry, Visible, Shows, FieldMap;
    var view := Project(sha, rec, q.viewer);
    if FromRun(rec.entry, r) {
      RunIsShown(sha, rec, q, r);
      var o :| Shows(view, o, r);
      RunIsIdentified(view, o, r);
    } else {
      UnrelatedIsForeign(sha, rec, q.viewer, r.invocation);
    }
  }

  /** The post is an event of the run that the store holds and the query asks for. */
  ghost predicate Counts(posts: seq<Post>, q: AuditQuery, r: RunRequest, i: nat)
    requires i < |posts|
  {
    Leads(posts, i) && FromRun(posts[i].entry, r) && Asked(posts[i].entry, q)
  }

  /** The whole way: entries printed from one run are appended among any others, the store is queried, and the
      trace resolved from its answer is the run, with exactly the events of it that the store holds and the
      query asks for. */
  lemma StoreRoundTrip(h: Hash, sha: string -> string, posts: seq<Post>, q: AuditQuery, r: RunRequest, views: seq<View>, orders: seq<seq<string>>, answer: Result<Trace>)
    requires RunOk(r) && ContextOk(r) && |r.context| <= MAX_INT && Separate(posts, r) && Permits(q, r)
    requires exists i :: 0 <= i < |posts| && Counts(posts, q, r, i)
    requires QueryAnswer(sha, Filled(h, posts), q) == Ok(views) && OrdersOk(views, orders) && Resolves(views, r.invocation, orders, answer)
    ensures answer.Ok? && answer.value == TraceOf(r).(events := answer.value.events)
    ensures Sorted(LexLe, answer.value.events) && Distinct(answer.value.events)
    ensures forall x :: x in answer.value.events <==> exists i :: 0 <= i < |posts| && Counts(posts, q, r, i) && posts[i].entry.eventId == x
  {
    hide Filled, Answer, Counts, RunOk, ContextOk, Relevant, Resolves, OrdersOk, Project, Genuine, Separate, LexLe, EvidenceList, QueryOk, KindsOk;
    PermitsTenant(q, r);
    hide Permits;
    assert views == Answer(sha, ChainOf(Filled(h, posts), r.tenant), q);
    forall i | 0 <= i < |views| ensures Genuine(views[i], r) { ViewIsGenuine(h, sha, posts, q, r, views[i]); }
    var first :| 0 <= first < |posts| && Counts(posts, q, r, first);
    var w := RunIsAnswered(h, sha, posts, q, r, first);
    var i :| 0 <= i < |views| && views[i] == w;
    ViewsRoundTrip(views, orders, r, answer);
    forall x ensures x in answer.value.events <==> exists i :: 0 <= i < |posts| && Counts(posts, q, r, i) && posts[i].entry.eventId == x {
      if x in answer.value.events {
        var k :| 0 <= k < |views| && Relevant(views[k], r.invocation) && views[k].entry.eventId == x;
        ViewIsGenuine(h, sha, posts, q, r, views[k]);
      }
      if exists k :: 0 <= k < |posts| && Counts(posts, q, r, k) && posts[k].entry.eventId == x {
        var k :| 0 <= k < |posts| && Counts(posts, q, r, k) && posts[k].entry.eventId == x;
        var u := RunIsAnswered(h, sha, posts, q, r, k);
        var m :| 0 <= m < |views| && views[m] == u;
        assert Relevant(views[m], r.invocation) && views[m].entry.eventId == x;
      }
    }
  }

  lemma PermitsTenant(q: AuditQuery, r: RunRequest)
    requires Permits(q, r)
    ensures q.viewer.tenant == r.tenant
  {
  }

  lemma ViewIsGenuine(h: Hash, sha: string -> string, posts: seq<Post>, q: AuditQuery, r: RunRequest, w: View)
    requires RunOk(r) && |r.context| <= MAX_INT && Separate(posts, r) && Permits(q, r)
    requires w in Answer(sha, ChainOf(Filled(h, posts), r.tenant), q)
    ensures Genuine(w, r)
    ensures Relevant(w, r.invocation) ==> exists i :: 0 <= i < |posts| && Counts(posts, q, r, i) && posts[i].entry.eventId == w.entry.eventId
  {
    hide Filled, Answer, FromRun, Permits, RunOk, Relevant, Project, Genuine, ValidEntry, Unrelated, Leads;
    var chain := ChainOf(Filled(h, posts), r.tenant);
    AnswerShows(sha, chain, q, w);
    var i :| 0 <= i < |chain| && Visible(chain[i], q) && w == Project(sha, chain[i], q.viewer);
    ChainWasOffered(h, posts, r.tenant, i);
    AnswerIsGenuine(sha, chain[i], q, r);
    var j :| 0 <= j < |posts| && Leads(posts, j) && posts[j].entry == chain[i].entry;
  }

  lemma RunIsAnswered(h: Hash, sha: string -> string, posts: seq<Post>, q: AuditQuery, r: RunRequest, i: nat) returns (w: View)
    requires RunOk(r) && |r.context| <= MAX_INT && Permits(q, r) && i < |posts| && Counts(posts, q, r, i)
    ensures w in Answer(sha, ChainOf(Filled(h, posts), r.tenant), q) && Relevant(w, r.invocation) && w.entry.eventId == posts[i].entry.eventId
  {
    hide Filled, Answer, FromRun, Permits, RunOk, Relevant, Visible, Project, Genuine, ValidEntry, Unrelated, Leads;
    var v, e := Filled(h, posts), posts[i].entry;
    RunIsValid(e, r);
    HeldIsFirst(h, posts);
    StoresVerify(h, posts);
    var rec := v.byEvent[KeyOf(e)];
    var j :| 0 <= j < |posts| && Leads(posts, j) && KeyOf(posts[j].entry) == KeyOf(e) && posts[j].entry == rec.entry;
    LeaderIsUnique(posts, i, j);
    var k :| 0 <= k < |ChainOf(v, r.tenant)| && ChainOf(v, r.tenant)[k] == rec;
    ChainWasOffered(h, posts, r.tenant, k);
    AnswerIsGenuine(sha, rec, q, r);
    w := Project(sha, rec, q.viewer);
    AnswerShows(sha, ChainOf(v, r.tenant), q, w);
  }

  lemma RunIsValid(e: Entry, r: RunRequest)
    requires FromRun(e, r)
    ensures ValidEntry(e) && e.tenant == r.tenant
  {
    hide ValidEntry, ExecutionOk, RunOk, ContextOk, HasSkill, Blank, PersonaFields;
  }

  // ---- failing closed --------------------------------------------------------------------------------

  predicate Agrees(fields: Fields, t: Trace)
  {
    && Exposes(fields, "persona.id", t.persona) && Exposes(fields, "persona.version", t.version)
    && Exposes(fields, "persona.installation_id", t.installation) && Exposes(fields, "persona.conversation_id", t.conversation)
    && Exposes(fields, "persona.invoking_post_id", t.post)
  }

  predicate Exposes(fields: Fields, name: string, value: string)
  {
    name in fields && !fields[name].redacted && fields[name].value == value != ""
  }

  lemma ApplyAgrees(fields: Fields, t: Trace)
    requires ApplyIdentity(fields, t).Ok?
    ensures Agrees(fields, ApplyIdentity(fields, t).value)
    ensures forall g :: Agrees(g, t) ==> Agrees(g, ApplyIdentity(fields, t).value)
  {
  }

  lemma {:induction false} ScanAgrees(views: seq<View>, invocation: string, orders: seq<seq<string>>)
    requires OrdersOk(views, orders) && Scan(views, invocation, orders).Ok?
    ensures var p := Scan(views, invocation, orders).value;
            && p.trace.invocation == invocation
            && (forall i :: 0 <= i < |views| && Relevant(views[i], invocation) ==>
                  Agrees(FieldMap(views[i].fields), p.trace) && views[i].entry.eventId in p.trace.events)
            && (p.found ==> exists i :: 0 <= i < |views| && Relevant(views[i], invocation))
            && (forall x :: x in p.trace.events ==> exists i :: 0 <= i < |views| && Relevant(views[i], invocation) && views[i].entry.eventId == x)
  {
    hide FieldMap, Collect, ApplyIdentity, Agrees, Mentions;
    if views != [] {
      var n := |views| - 1;
      ScanAgrees(views[..n], invocation, orders[..n]);
      var before, p := Scan(views[..n], invocation, orders[..n]).value, Scan(views, invocation, orders).value;
      assert forall i :: 0 <= i < n ==> views[..n][i] == views[i];
      if Relevant(views[n], invocation) {
        ApplyAgrees(FieldMap(views[n].fields), before.trace);
        ApplyKeeps(FieldMap(views[n].fields), before.trace);
        AgreesApart(ApplyIdentity(FieldMap(views[n].fields), before.trace).value, p.trace);
        forall x | x in p.trace.events ensures exists i :: 0 <= i < |views| && Relevant(views[i], invocation) && views[i].entry.eventId == x {
          if x in before.trace.events {
            var i :| 0 <= i < n && Relevant(views[..n][i], invocation) && views[..n][i].entry.eventId == x;
            assert Relevant(views[i], invocation) && views[i].entry.eventId == x;
          } else {
            assert x == views[n].entry.eventId;
          }
        }
      } else {
        assert p == before;
        forall x | x in p.trace.events ensures exists i :: 0 <= i < |views| && Relevant(views[i], invocation) && views[i].entry.eventId == x {
          var i :| 0 <= i < n && Relevant(views[..n][i], invocation) && views[..n][i].entry.eventId == x;
          assert Relevant(views[i], invocation) && views[i].entry.eventId == x;
        }
        if p.found {
          var i :| 0 <= i < n && Relevant(views[..n][i], invocation);
          assert Relevant(views[i], invocation);
        }
      }
    }
  }

  /** The evidence repeats what the field says about the context, if it says anything. */
  ghost predicate Heard(f: FieldView, m: map<nat, Evidence>)
  {
    var k := ParseName(f.name);
    || k.NotContext?
    || (k.At? && !f.redacted && k.suffix in SUFFIXES && k.index in m && (f.value != "" ==> ValueOf(m[k.index], k.suffix) == f.value))
  }

  /** The field says this piece of the context. */
  ghost predicate Says(f: FieldView, i: nat, suffix: string, value: string)
  {
    ParseName(f.name) == At(i, suffix) && f.value == value
  }

  lemma LearnHears(m: map<nat, Evidence>, f: FieldView)
    requires Learn(m, f).Ok?
    ensures var after := Learn(m, f).value;
            && Heard(f, after) && (forall g :: Heard(g, m) ==> Heard(g, after))
            && forall i, s :: s in SUFFIXES && i in after && ValueOf(after[i], s) != "" ==>
                 ValueOf(ItemAt(m, i), s) == ValueOf(after[i], s) || Says(f, i, s, ValueOf(after[i], s))
  {
    hide ParseName, ValueOf, WithValue;
    var k := ParseName(f.name);
    if k.At? {
      forall other ensures ValueOf(Learn(m, f).value[k.index], other) == if other == k.suffix then f.value else ValueOf(ItemAt(m, k.index), other) {
        ValueAfter(ItemAt(m, k.index), k.suffix, f.value, other);
      }
    }
  }

  lemma {:induction false} CollectHears(m: map<nat, Evidence>, fields: Fields, order: seq<string>)
    requires (forall j :: 0 <= j < |order| ==> order[j] in fields) && Collect(m, fields, order).Ok?
    ensures var after := Collect(m, fields, order).value;
            && (forall j :: 0 <= j < |order| ==> Heard(fields[order[j]], after))
            && (forall g :: Heard(g, m) ==> Heard(g, after))
            && forall i, s :: s in SUFFIXES && i in after && ValueOf(after[i], s) != "" ==>
                 || ValueOf(ItemAt(m, i), s) == ValueOf(after[i], s)
                 || exists j :: 0 <= j < |order| && Says(fields[order[j]], i, s, ValueOf(after[i], s))
  {
    hide Learn, Heard, Says, ValueOf;
    if order != [] {
      var n := |order| - 1;
      var init := order[..n];
      CollectHears(m, fields, init);
      var before, after := Collect(m, fields, init).value, Collect(m, fields, order).value;
      LearnHears(before, fields[order[n]]);
      forall j | 0 <= j < |order| ensures Heard(fields[order[j]], after) {
        if j < n { assert init[j] == order[j]; }
      }
      forall i, s | s in SUFFIXES && i in after && ValueOf(after[i], s) != "" && ValueOf(ItemAt(m, i), s) != ValueOf(after[i], s)
        ensures exists j :: 0 <= j < |order| && Says(fields[order[j]], i, s, ValueOf(after[i], s)) {
        if !Says(fields[order[n]], i, s, ValueOf(after[i], s)) {
          EmptyItem(before, i, s);
          var j :| 0 <= j < n && Says(fields[init[j]], i, s, ValueOf(after[i], s));
          assert init[j] == order[j];
        }
      }
    }
  }

  lemma EmptyItem(m: map<nat, Evidence>, i: nat, s: string)
    ensures ValueOf(ItemAt(m, i), s) != "" ==> i in m && ItemAt(m, i) == m[i]
  {
  }

  /** Some view that exposes the invocation says this piece of the context. */
  ghost predicate Sourced(views: seq<View>, invocation: string, i: nat, s: string, value: string)
  {
    exists v, name :: 0 <= v < |views| && Relevant(views[v], invocation) && name in FieldMap(views[v].fields)
                      && Says(FieldMap(views[v].fields)[name], i, s, value)
  }

  ghost predicate AllHeard(view: View, m: map<nat, Evidence>)
  {
    forall name :: name in FieldMap(view.fields) ==> Heard(FieldMap(view.fields)[name], m)
  }

  lemma ReadHears(p: Progress, view: View, order: seq<string>)
    requires Listing(order, FieldMap(view.fields).Keys) && Read(p, view, order).Ok? && Relevant(view, p.trace.invocation)
    ensures var after := Read(p, view, order).value.evidence;
            && AllHeard(view, after) && (forall g :: Heard(g, p.evidence) ==> Heard(g, after))
            && forall i, s :: s in SUFFIXES && i in after && ValueOf(after[i], s) != "" ==>
                 || (i in p.evidence && ValueOf(p.evidence[i], s) == ValueOf(after[i], s))
                 || exists name :: name in FieldMap(view.fields) && Says(FieldMap(view.fields)[name], i, s, ValueOf(after[i], s))
  {
    hide FieldMap, Collect, ApplyIdentity, Heard, Says, ValueOf;
    CollectHears(p.evidence, FieldMap(view.fields), order);
    var after := Read(p, view, order).value.evidence;
    forall i, s | s in SUFFIXES && i in after && ValueOf(after[i], s) != "" && !(i in p.evidence && ValueOf(p.evidence[i], s) == ValueOf(after[i], s))
      ensures exists name :: name in FieldMap(view.fields) && Says(FieldMap(view.fields)[name], i, s, ValueOf(after[i], s)) {
      EmptyItem(p.evidence, i, s);
      var j :| 0 <= j < |order| && Says(FieldMap(view.fields)[order[j]], i, s, ValueOf(after[i], s));
    }
  }

  /** What scanning has collected repeats all that the views say, and says nothing else. */
  lemma {:induction false} ScanHears(views: seq<View>, invocation: string, orders: seq<seq<string>>)
    requires OrdersOk(views, orders) && Scan(views, invocation, orders).Ok?
    ensures var p := Scan(views, invocation, orders).value;
            && p.trace.invocation == invocation
            && (forall v :: 0 <= v < |views| && Relevant(views[v], invocation) ==> AllHeard(views[v], p.evidence))
            && forall i, s :: s in SUFFIXES && i in p.evidence && ValueOf(p.evidence[i], s) != "" ==>
                 Sourced(views, invocation, i, s, ValueOf(p.evidence[i], s))
  {
    hide FieldMap, Collect, ApplyIdentity, Relevant, Heard, Says, ValueOf, Sourced, Read, AllHeard, Agrees;
    ScanAgrees(views, invocation, orders);
    if views != [] {
      var n := |views| - 1;
      ScanAgrees(views[..n], invocation, orders[..n]);
      ScanHears(views[..n], invocation, orders[..n]);
      var before, p := Scan(views[..n], invocation, orders[..n]).value, Scan(views, invocation, orders).value;
      assert Listing(orders[n], FieldMap(views[n].fields).Keys);
      assert forall v :: 0 <= v < n ==> views[..n][v] == views[v];
      if Relevant(views[n], invocation) {
        ReadHears(before, views[n], orders[n]);
      } else {
        ReadsPast(before, views[n], orders[n]);
      }
      forall v | 0 <= v < n && Relevant(views[v], invocation) ensures AllHeard(views[v], p.evidence) {
        assert AllHeard(views[..n][v], before.evidence);
        HeardOn(views[v], before.evidence, p.evidence);
      }
      forall i, s | s in SUFFIXES && i in p.evidence && ValueOf(p.evidence[i], s) != ""
        ensures Sourced(views, invocation, i, s, ValueOf(p.evidence[i], s)) {
        SourcedOn(views, invocation, i, s, ValueOf(p.evidence[i], s));
      }
    }
  }

  lemma HeardOn(view: View, m: map<nat, Evidence>, after: map<nat, Evidence>)
    requires AllHeard(view, m) && forall g :: Heard(g, m) ==> Heard(g, after)
    ensures AllHeard(view, after)
  {
    hide FieldMap, Heard;
  }

  lemma ReadsPast(p: Progress, view: View, order: seq<string>)
    requires Listing(order, FieldMap(view.fields).Keys) && !Relevant(view, p.trace.invocation)
    ensures Read(p, view, order) == Ok(p)
  {
  }

  lemma SourcedOn(views: seq<View>, invocation: string, i: nat, s: string, value: string)
    requires views != []
    ensures Sourced(views[..|views| - 1], invocation, i, s, value) ==> Sourced(views, invocation, i, s, value)
    ensures var view := views[|views| - 1];
            Relevant(view, invocation) && (exists name :: name in FieldMap(view.fields) && Says(FieldMap(view.fields)[name], i, s, value)) ==>
              Sourced(views, invocation, i, s, value)
  {
    hide FieldMap, Mentions, Says;
    var most := views[..|views| - 1];
    if v, name :| 0 <= v < |most| && Relevant(most[v], invocation) && name in FieldMap(most[v].fields) && Says(FieldMap(most[v].fields)[name], i, s, value) {
      assert most[v] == views[v];
    }
  }

  /** The field is about no piece of the context, or is readable and repeated by the item at its index. */
  ghost predicate Told(f: FieldView, context: seq<Evidence>, indices: seq<nat>)
  {
    var k := ParseName(f.name);
    || k.NotContext?
    || (&& k.At? && !f.redacted && k.suffix in SUFFIXES && k.index in indices
        && forall j :: 0 <= j < |indices| && j < |context| && indices[j] == k.index && f.value != "" ==> ValueOf(context[j], k.suffix) == f.value)
  }

  /** The context, by ascending index, is what the views that expose the invocation say, all of it and nothing else. */
  ghost predicate ContextAgrees(views: seq<View>, invocation: string, context: seq<Evidence>, indices: seq<nat>)
  {
    && Ascends(indices) && |indices| == |context|
    && (forall v, name :: 0 <= v < |views| && Relevant(views[v], invocation) && name in FieldMap(views[v].fields) ==>
          Told(FieldMap(views[v].fields)[name], context, indices))
    && (forall j, s :: 0 <= j < |context| && s in SUFFIXES && ValueOf(context[j], s) != "" ==>
          Sourced(views, invocation, indices[j], s, ValueOf(context[j], s)))
  }

  lemma HeardIsTold(f: FieldView, m: map<nat, Evidence>, context: seq<Evidence>, indices: seq<nat>)
    requires Heard(f, m) && Assembled(m, context, indices)
    ensures Told(f, context, indices)
  {
    hide ParseName, ValueOf, Complete;
  }

  lemma AssembledAgrees(views: seq<View>, invocation: string, orders: seq<seq<string>>, context: seq<Evidence>, indices: seq<nat>)
    requires OrdersOk(views, orders) && Scan(views, invocation, orders).Ok? && Assembled(Scan(views, invocation, orders).value.evidence, context, indices)
    ensures ContextAgrees(views, invocation, context, indices)
  {
    hide FieldMap, Scan, Heard, Told, Sourced, ValueOf, Complete, Mentions;
    ScanHears(views, invocation, orders);
    var m := Scan(views, invocation, orders).value.evidence;
    forall v, name | 0 <= v < |views| && Relevant(views[v], invocation) && name in FieldMap(views[v].fields)
      ensures Told(FieldMap(views[v].fields)[name], context, indices) {
      assert AllHeard(views[v], m);
      HeardIsTold(FieldMap(views[v].fields)[name], m, context, indices);
    }
  }

  lemma AgreesApart(a: Trace, b: Trace)
    requires a == b.(events := a.events, context := a.context)
    ensures forall g :: Agrees(g, a) <==> Agrees(g, b)
  {
  }

  /** Whatever the views are: a trace is answered only if every view that exposes the invocation
      exposes one and the same identity; its context is what those views say, none of them hiding or
      contradicting a piece of it; and each item is complete. */
  lemma ResolvesOnlyAgreement(views: seq<View>, invocation: string, orders: seq<seq<string>>, answer: Result<Trace>)
    requires OrdersOk(views, orders) && Resolves(views, invocation, orders, answer) && answer.Ok?
    ensures answer.value.invocation == invocation && !Blank(invocation)
    ensures exists i :: 0 <= i < |views| && Relevant(views[i], invocation)
    ensures forall i :: 0 <= i < |views| && Relevant(views[i], invocation) ==> Agrees(FieldMap(views[i].fields), answer.value)
    ensures forall x :: x in answer.value.events <==> exists i :: 0 <= i < |views| && Relevant(views[i], invocation) && views[i].entry.eventId == x
    ensures forall i :: 0 <= i < |answer.value.context| ==> Complete(answer.value.context[i])
    ensures exists indices :: ContextAgrees(views, invocation, answer.value.context, indices)
  {
    hide FieldMap, Scan, Agrees, Complete, Sort, LexLe, Blank, Relevant, ContextAgrees;
    ScanAgrees(views, invocation, orders);
    var p := Scan(views, invocation, orders).value;
    var indices :| Assembled(p.evidence, answer.value.context, indices);
    AssembledAgrees(views, invocation, orders, answer.value.context, indices);
    AgreesApart(p.trace, answer.value);
    SortKeeps(LexLe, p.trace.events);
  }
}
