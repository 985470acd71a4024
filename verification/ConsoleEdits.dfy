/** What each editing command does, stated on the revisions before and after it. */
module ConsoleEdits {
  import opened Wrappers
  import opened Ordering
  import opened Text
  import opened ConnectionConsole
  import opened ConsoleState
  import opened ConsoleSteps

  predicate Edits(cmd: Command)
  {
    (cmd.Import? && cmd.tools.Listed?) || cmd.SetTier? || cmd.SetGrants? || cmd.RequestApproval? || cmd.Approve?
  }

  /** When a command may change the revision it is about. */
  predicate Accepts(r: Revision, actor: string, cmd: Command)
    requires Edits(cmd)
  {
    match cmd
    case Import(_, _, _) => r.status == Draft
    case SetTier(_, skill, _) => r.status != Published && r.status != Superseded && exists s :: s in r.skills && s.id == skill
    case SetGrants(_, grants) => r.status != Published && r.status != Superseded && NewGrantsFit(grants, r.skills)
    case RequestApproval(_) => r.status == Draft
    case Approve(_, stepUp) => r.status == AwaitingApproval && stepUp && actor != r.createdBy && actor != r.requestedBy && r.digest == DigestOf(r)
  }

  predicate Unknown(t: Tool, have: seq<Skill>) { forall s :: s in have ==> s.id != t.name }

  /** The tools that are not skills yet, in order. */
  function UnknownTools(tools: seq<Tool>, have: seq<Skill>): (r: seq<Tool>)
    ensures forall t :: t in r <==> t in tools && Unknown(t, have)
  {
    if tools == [] then []
    else
      var last := tools[|tools| - 1];
      assert tools == tools[..|tools| - 1] + [last];
      UnknownTools(tools[..|tools| - 1], have) + if Unknown(last, have) then [last] else []
  }

  /** A tool comes in under its own name, as T0 if it only reads and as T4 otherwise; a read is shared only
      under a brokered credential. */
  predicate ComesInAs(t: Tool, s: Skill, mode: Mode)
  {
    && s.id == t.name && s.capability == t.name && s.recordFilter == ""
    && (if t.readOnly then s.tier == T0 else s.tier == T4) && (s.sharedRead <==> t.readOnly && mode == Brokered)
  }

  predicate ImportedFrom(have: seq<Skill>, after: seq<Skill>, tools: seq<Tool>, mode: Mode)
  {
    var added := UnknownTools(tools, have);
    && |after| == |have| + |added| && after[..|have|] == have
    && forall i :: 0 <= i < |added| ==> ComesInAs(added[i], after[|have| + i], mode)
  }

  predicate Reset(e: Revision) { e.status == Draft && e.requestedBy == "" && e.approvedBy == "" && e.approvedAt == 0 && !e.stepUp }

  /** The revision that a command leaves in the place of r. */
  predicate Becomes(r: Revision, e: Revision, actor: string, cmd: Command, clock: Time)
    requires Edits(cmd)
  {
    match cmd
    case Import(_, snapshot, tools) =>
      && e == r.(skills := e.skills, snapshot := snapshot, digest := e.digest) && e.digest == DigestOf(e)
      && ImportedFrom(r.skills, e.skills, tools.tools, r.mode)
    case SetTier(_, skill, tier) =>
      && Reset(e) && e.digest == DigestOf(e)
      && e == r.(skills := e.skills, digest := e.digest, status := e.status, requestedBy := e.requestedBy, approvedBy := e.approvedBy, approvedAt := e.approvedAt, stepUp := e.stepUp)
      && |e.skills| == |r.skills| && forall i :: 0 <= i < |r.skills| ==> e.skills[i] == if r.skills[i].id == skill then r.skills[i].(tier := tier) else r.skills[i]
    case SetGrants(_, grants) =>
      && Reset(e) && e.digest == DigestOf(e) && e.grants == grants
      && e == r.(grants := e.grants, digest := e.digest, status := e.status, requestedBy := e.requestedBy, approvedBy := e.approvedBy, approvedAt := e.approvedAt, stepUp := e.stepUp)
    case RequestApproval(_) => e == r.(status := AwaitingApproval, requestedBy := actor)
    case Approve(_, _) => e == r.(status := Approved, approvedBy := actor, approvedAt := clock, stepUp := true)
  }

  lemma {:induction false} ImportAdds(tools: seq<Tool>, have: seq<Skill>, mode: Mode)
    ensures var added, skills := UnknownTools(tools, have), NewSkills(tools, have, mode);
            |skills| == |added| && forall i :: 0 <= i < |added| ==> ComesInAs(added[i], skills[i], mode)
  {
    if tools != [] { ImportAdds(tools[..|tools| - 1], have, mode); }
  }

  lemma ImportIsFrom(r: Revision, tools: seq<Tool>)
    ensures ImportedFrom(r.skills, r.skills + NewSkills(tools, r.skills, r.mode), tools, r.mode)
  {
    hide UnknownTools, NewSkills, ComesInAs;
    ImportAdds(tools, r.skills, r.mode);
  }

  /** A command is accepted exactly when it may be, and then leaves what it should. */
  lemma EditDoes(r: Revision, actor: string, cmd: Command, clock: Time)
    requires Edits(cmd)
    ensures Edit(r, actor, cmd, clock).Ok? <==> Accepts(r, actor, cmd)
    ensures Edit(r, actor, cmd, clock).Ok? ==> Becomes(r, Edit(r, actor, cmd, clock).value, actor, cmd, clock)
  {
    hide DigestOf, NewGrantsFit, NewSkills, ImportedFrom;
    if cmd.Import? && r.status == Draft {
      ImportIsFrom(r, cmd.tools.tools);
      SealSealed(r.(skills := r.skills + NewSkills(cmd.tools.tools, r.skills, r.mode), snapshot := cmd.snapshot));
    } else if Edit(r, actor, cmd, clock).Ok? && (cmd.SetTier? || cmd.SetGrants?) {
      EditResetsApproval(r, actor, cmd, clock);
    }
  }

  /** An imported tool that may write needs the second administrator as soon as it is granted. */
  lemma ImportedWritesNeedSecondAdmin(r: Revision, e: Revision, actor: string, cmd: Command, clock: Time, t: Tool, granted: Revision)
    requires cmd.Import? && Edits(cmd) && Becomes(r, e, actor, cmd, clock) && t in cmd.tools.tools && !t.readOnly && Unknown(t, r.skills)
    requires granted.skills == e.skills && Granted(granted.grants, t.name)
    ensures NeedsSecondAdmin(granted)
  {
    hide DigestOf, Granted;
    var added := UnknownTools(cmd.tools.tools, r.skills);
    var i :| 0 <= i < |added| && added[i] == t;
    var s := e.skills[|r.skills| + i];
    assert ComesInAs(added[i], s, r.mode) && s in granted.skills;
  }

  /** The command passed its own checks and found the revision it is about: the named one, or the newest. */
  ghost predicate Reaches(d: Desk, tenant: string, actor: string, cmd: Command, w: World, open: Desk, p: Place)
    requires Edits(cmd)
  {
    && !Blank(actor) && w.allowed && (cmd.SetTier? ==> !cmd.tier.OtherTier?) && Load(d, tenant, w.fetched) == Some(open)
    && (if cmd.Import? then var list := ListOf(open.lists, (tenant, cmd.connection)); list != [] && p == Place(cmd.connection, |list| - 1)
        else Find(open.lists, tenant, cmd.id) == Some(p))
  }

  /** What memory keeps of the revision when the store does not take the write: itself, except that SetTier has
      already overwritten the tiers. */
  predicate KeepsUnsaved(r: Revision, e: Revision, cmd: Command)
  {
    if cmd.SetTier? then
      && e == r.(skills := e.skills) && |e.skills| == |r.skills|
      && forall i :: 0 <= i < |r.skills| ==> e.skills[i] == if r.skills[i].id == cmd.skill then r.skills[i].(tier := cmd.tier) else r.skills[i]
    else e == r
  }

  /** An edit, from every state: one that is not accepted changes nothing; one that is accepted replaces the
      revision by what it should become, and nothing else, if the store takes it. */
  lemma EditingReplaces(d: Desk, tenant: string, actor: string, cmd: Command, w: World, open: Desk, p: Place)
    requires Edits(cmd) && Reaches(d, tenant, actor, cmd, w, open, p)
    ensures p.index < |ListOf(open.lists, (tenant, p.connection))|
    ensures var k := (tenant, p.connection);
            var list := ListOf(open.lists, k);
            var (e, answer) := Exec(d, tenant, actor, cmd, w);
            && e.announced == open.announced && e.loaded == open.loaded
            && if !Accepts(list[p.index], actor, cmd) then e == open && answer.Err? && answer.error in {WrongState, Invalid, Separation}
               else if open.store.Store? && !w.writes
               then && answer == Err(Unavailable) && e.store == open.store && e.audit == open.audit
                    && exists x :: KeepsUnsaved(list[p.index], x, cmd) && ListOf(e.lists, k) == list[p.index := x] && forall j :: j != k ==> ListOf(e.lists, j) == ListOf(open.lists, j)
               else && answer.Ok? && Becomes(list[p.index], answer.value, actor, cmd, w.clock)
                    && e.lists == open.lists[k := list[p.index := answer.value]]
                    && e.audit == open.audit + [AuditEvent(w.stamp, tenant, actor, ActionOf(cmd), IdOf(answer.value))]
  {
    hide Find, DigestOf, NewGrantsFit, Blank, Save, IdOf, Load, Edit, Becomes, Accepts, Carry, LeftBehind, KeepsUnsaved;
    FindsIndex(open.lists, tenant, cmd);
    var k := (tenant, p.connection);
    var list := ListOf(open.lists, k);
    var r := list[p.index];
    EditDoes(r, actor, cmd, w.clock);
    EditErrors(r, actor, cmd, w.clock);
    LoadSame(d, tenant, w.fetched);
    LeftIsKept(r, cmd);
    if Accepts(r, actor, cmd) { EditCarried(open, tenant, actor, p, Edit(r, actor, cmd, w.clock).value, LeftBehind(r, cmd), cmd, w); }
  }

  lemma EditCarried(open: Desk, tenant: string, actor: string, p: Place, x: Revision, left: Revision, cmd: Command, w: World)
    requires var k := (tenant, p.connection); k in open.lists && p.index < |open.lists[k]|
    ensures var k := (tenant, p.connection);
            var list := open.lists[k];
            var (e, answer) := Carry(open, tenant, actor, Change(p.connection, list[p.index := x], [x], x, None, list[p.index := left], ActionOf(cmd)), w);
            && e.announced == open.announced && e.loaded == open.loaded
            && if open.store.Store? && !w.writes
               then && answer == Err(Unavailable) && e.store == open.store && e.audit == open.audit
                    && ListOf(e.lists, k) == list[p.index := left] && forall j :: j != k ==> ListOf(e.lists, j) == ListOf(open.lists, j)
               else && answer == Ok(x) && e.lists == open.lists[k := list[p.index := x]]
                    && e.audit == open.audit + [AuditEvent(w.stamp, tenant, actor, ActionOf(cmd), IdOf(x))]
  {
    hide Save, IdOf, ActionOf;
  }

  lemma FindsIndex(lists: map<Key, seq<Revision>>, tenant: string, cmd: Command)
    requires Edits(cmd)
    ensures var p := Locate(lists, tenant, cmd);
            p.Some? ==> (tenant, p.value.connection) in lists && p.value.index < |ListOf(lists, (tenant, p.value.connection))|
  {
  }

  lemma LeftIsKept(r: Revision, cmd: Command)
    ensures KeepsUnsaved(r, LeftBehind(r, cmd), cmd)
  {
  }

  lemma EditErrors(r: Revision, actor: string, cmd: Command, clock: Time)
    requires Edits(cmd)
    ensures Edit(r, actor, cmd, clock).Err? ==> Edit(r, actor, cmd, clock).error in {WrongState, Invalid, Separation}
  {
    hide DigestOf, NewGrantsFit, Knows, NewSkills;
  }

  /** A draft is created exactly when its author may, it is complete, and the store can be read and written. */
  lemma CreateSucceeds(d: Desk, tenant: string, actor: string, draft: Revision, w: World)
    ensures Exec(d, tenant, actor, Create(draft), w).1.Ok? <==>
            !Blank(actor) && w.allowed && DraftFits(draft) && Load(d, tenant, w.fetched).Some? && (d.store.NoStore? || w.writes)
    ensures Exec(d, tenant, actor, Create(draft), w).0.announced == d.announced
  {
    hide DraftFits, Blank, Load, DigestOf, IdOf, Save;
    LoadSame(d, tenant, w.fetched);
  }
}
