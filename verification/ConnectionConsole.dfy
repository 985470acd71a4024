/** The administrators' console: numbered revisions of what a connection exposes to agents, who
    may publish them, and the durable copy behind the console's memory. */
module ConnectionConsole {
  import opened Wrappers
  import opened Ordering
  import opened Text

  type Time = nat

  datatype Tier = T0 | T1 | T2 | T3 | T4 | OtherTier(text: string)
  datatype Mode = Brokered | UserDelegated | OtherMode(text: string)
  datatype Status = Draft | AwaitingApproval | Approved | Published | Superseded

  datatype Skill = Skill(id: string, tier: Tier, capability: string, sharedRead: bool, recordFilter: string)
  datatype Grant = Grant(id: string, roles: seq<string>, population: string, scopes: seq<string>, skills: seq<string>)

  datatype Material = Material(
    connection: string, tenant: string, mode: Mode, snapshot: string, number: nat, skills: seq<Skill>, grants: seq<Grant>)

  /** SHA-256 over the JSON of the material, as an injective symbol. */
  datatype Digest = Sha256(material: Material) | OtherText(text: string)

  datatype Revision = Revision(
    connection: string, tenant: string, number: nat, provider: string, status: Status, mode: Mode, snapshot: string,
    skills: seq<Skill>, grants: seq<Grant>, createdBy: string, requestedBy: string, approvedBy: string,
    approvedAt: Time, stepUp: bool, digest: Digest, publishedAt: Time)

  datatype Tool = Tool(name: string, readOnly: bool)
  datatype Tools = NoService | Unreadable | Listed(tools: seq<Tool>)

  datatype Command =
    | Create(draft: Revision)
    | Import(connection: string, snapshot: string, tools: Tools)
    | SetTier(id: string, skill: string, tier: Tier)
    | SetGrants(id: string, grants: seq<Grant>)
    | RequestApproval(id: string)
    | Approve(id: string, stepUp: bool)
    | Publish(id: string)
    | Rollback(id: string)

  /** How the console's surroundings answer one command. */
  datatype World = World(allowed: bool, fetched: Option<seq<Revision>>, publishes: bool, writes: bool, clock: Time, stamp: Time)

  datatype Error = Denied | Invalid | Separation | WrongState | Absent | Unavailable | SnapshotUnreadable | PublisherFailed
  type Result<T> = Outcome<T, Error>

  datatype AuditEvent = AuditEvent(at: Time, tenant: string, actor: string, action: string, revision: string)

  /** A connection of a tenant. */
  type Key = (string, string)
  datatype RowKey = RowKey(tenant: string, connection: string, number: nat)
  datatype Store = NoStore | Store(rows: map<RowKey, Revision>, trail: seq<AuditEvent>)

  /** What the console remembers, what its store holds, and what its publisher was told. */
  datatype Desk = Desk(lists: map<Key, seq<Revision>>, loaded: set<string>, audit: seq<AuditEvent>, store: Store, announced: seq<Revision>)

  function ListOf(lists: map<Key, seq<Revision>>, k: Key): seq<Revision> { if k in lists then lists[k] else [] }

  function RowOf(r: Revision): RowKey { RowKey(r.tenant, r.connection, r.number) }

  // ---- content, digest and the second administrator ------------------------------------------

  predicate HighImpact(t: Tier) { t == T3 || t == T4 }

  predicate Granted(grants: seq<Grant>, skill: string) { exists g :: g in grants && skill in g.skills }

  predicate NeedsSecondAdmin(r: Revision)
  {
    r.mode == Brokered || exists s :: s in r.skills && HighImpact(s.tier) && Granted(r.grants, s.id)
  }

  predicate SkillLe(a: Skill, b: Skill) { LexLe(a.id, b.id) }
  predicate GrantLe(a: Grant, b: Grant) { LexLe(a.id, b.id) }

  function CanonicalGrant(g: Grant): Grant
  {
    g.(roles := Sort(LexLe, g.roles), scopes := Sort(LexLe, g.scopes), skills := Sort(LexLe, g.skills))
  }

  function CanonicalGrants(grants: seq<Grant>): (r: seq<Grant>)
    ensures |r| == |grants| && forall i :: 0 <= i < |r| ==> r[i] == CanonicalGrant(grants[i])
  {
    if grants == [] then [] else [CanonicalGrant(grants[0])] + CanonicalGrants(grants[1..])
  }

  function DigestOf(r: Revision): Digest
  {
    Sha256(Material(r.connection, r.tenant, r.mode, r.snapshot, r.number,
                    Sort(SkillLe, r.skills), Sort(GrantLe, CanonicalGrants(r.grants))))
  }

  function Sealed(r: Revision): Revision { r.(digest := DigestOf(r)) }

  /** The two revisions expose the same skills under the same grants, in whatever order. */
  predicate SameContent(a: Revision, b: Revision)
  {
    && a.tenant == b.tenant && a.connection == b.connection && a.mode == b.mode && a.snapshot == b.snapshot
    && multiset(a.skills) == multiset(b.skills)
    && multiset(CanonicalGrants(a.grants)) == multiset(CanonicalGrants(b.grants))
  }

  /** Equal digests pin the content. */
  lemma DigestPinsContent(a: Revision, b: Revision)
    requires DigestOf(a) == DigestOf(b)
    ensures SameContent(a, b) && a.number == b.number
  {
    SortKeeps(SkillLe, a.skills);
    SortKeeps(SkillLe, b.skills);
    SortKeeps(GrantLe, CanonicalGrants(a.grants));
    SortKeeps(GrantLe, CanonicalGrants(b.grants));
  }

  lemma GrantedCanonically(grants: seq<Grant>, skill: string)
    ensures Granted(grants, skill) <==> Granted(CanonicalGrants(grants), skill)
  {
    var c := CanonicalGrants(grants);
    forall i | 0 <= i < |grants| ensures skill in grants[i].skills <==> skill in c[i].skills {
      SortKeeps(LexLe, grants[i].skills);
    }
    if Granted(grants, skill) {
      var i :| 0 <= i < |grants| && skill in grants[i].skills;
      assert c[i] in c && skill in c[i].skills;
    }
    if Granted(c, skill) {
      var i :| 0 <= i < |c| && skill in c[i].skills;
      assert grants[i] in grants && skill in grants[i].skills;
    }
  }

  /** A second administrator is needed for a brokered credential, and for a skill of tier T3 or T4 that some
      grant gives out. */
  lemma SecondAdminIsFor(r: Revision)
    ensures NeedsSecondAdmin(r) <==>
            || r.mode == Brokered
            || exists s, g :: s in r.skills && g in r.grants && s.id in g.skills && (s.tier == T3 || s.tier == T4)
  {
    if s, g :| s in r.skills && g in r.grants && s.id in g.skills && (s.tier == T3 || s.tier == T4) {
      var i :| 0 <= i < |r.grants| && r.grants[i] == g;
      assert Granted(r.grants, s.id);
    }
  }

  /** Whether a second administrator is needed depends on the content alone. */
  lemma ContentDecidesSecondAdmin(a: Revision, b: Revision)
    requires SameContent(a, b)
    ensures NeedsSecondAdmin(a) <==> NeedsSecondAdmin(b)
  {
    forall s: Skill
      ensures s in a.skills <==> s in b.skills
      ensures Granted(a.grants, s.id) <==> Granted(b.grants, s.id)
    {
      assert s in a.skills <==> s in multiset(a.skills);
      assert s in b.skills <==> s in multiset(b.skills);
      GrantedCanonically(a.grants, s.id);
      GrantedCanonically(b.grants, s.id);
      var ca, cb := CanonicalGrants(a.grants), CanonicalGrants(b.grants);
      forall g: Grant ensures g in ca <==> g in cb {
        assert g in ca <==> g in multiset(ca);
        assert g in cb <==> g in multiset(cb);
      }
    }
  }

  // ---- finding a revision by the id the page shows --------------------------------------------

  const MAX_UINT := 0xFFFF_FFFF_FFFF_FFFF

  function IdOf(r: Revision): string { r.connection + "#" + Itoa(r.number) }

  /** strconv.ParseUint in base ten. */
  function ParseUint(s: string): Option<nat>
  {
    if s == "" || exists c :: c in s && !IsDigit(c) then None
    else if DigitsValue(s) <= MAX_UINT then Some(DigitsValue(s)) else None
  }

  /** The position of the first '#', or the length. */
  function HashAt(s: string): (n: nat)
    ensures n <= |s| && (n < |s| ==> s[n] == '#') && forall h :: 0 <= h < n ==> s[h] != '#'
  {
    if s == [] || s[0] == '#' then 0 else
      var n := HashAt(s[1..]);
      assert forall h :: 0 < h <= n ==> s[h] == s[1..][h - 1];
      n + 1
  }

  function Numbered(list: seq<Revision>, n: nat): (i: nat)
    ensures i <= |list| && (i < |list| ==> list[i].number == n) && forall j :: 0 <= j < i ==> list[j].number != n
  {
    if list == [] || list[0].number == n then 0 else
      var i := Numbered(list[1..], n);
      assert forall j :: 0 < j < i + 1 ==> list[j] == list[1..][j - 1];
      i + 1
  }

  datatype Place = Place(connection: string, index: nat)

  function Find(lists: map<Key, seq<Revision>>, tenant: string, id: string): Option<Place>
  {
    var cut := HashAt(id);
    if cut == |id| then None
    else
      match ParseUint(id[cut + 1..])
      case None => None
      case Some(n) =>
        var list := ListOf(lists, (tenant, id[..cut]));
        var i := Numbered(list, n);
        if i < |list| then Some(Place(id[..cut], i)) else None
  }

  // ---- lists of revisions ---------------------------------------------------------------------

  predicate Increasing(list: seq<Revision>) { forall i, j :: 0 <= i < j < |list| ==> list[i].number < list[j].number }

  predicate OnePublished(list: seq<Revision>)
  {
    forall i, j :: 0 <= i < j < |list| ==> list[i].status != Published || list[j].status != Published
  }

  predicate Proper(k: Key, list: seq<Revision>)
  {
    && Increasing(list) && OnePublished(list)
    && forall i :: 0 <= i < |list| ==> list[i].tenant == k.0 && list[i].connection == k.1
  }

  /** The id the page shows leads back to its revision exactly when the connection's own id has no '#'. */
  lemma IdLeadsBack(lists: map<Key, seq<Revision>>, k: Key, i: nat)
    requires k in lists && Proper(k, lists[k]) && i < |lists[k]| && lists[k][i].number <= MAX_UINT
    ensures Find(lists, k.0, IdOf(lists[k][i])) == Some(Place(k.1, i)) <==> '#' !in k.1
    ensures '#' in k.1 ==> Find(lists, k.0, IdOf(lists[k][i])) == None
  {
    var r := lists[k][i];
    var id, digits := IdOf(r), Itoa(r.number);
    var cut := HashAt(id);
    ItoaValue(r.number);
    assert id[|k.1|] == '#' && id[|k.1| + 1..] == digits && id[..|k.1|] == k.1;
    assert cut <= |k.1|;
    if '#' in k.1 {
      var h :| 0 <= h < |k.1| && k.1[h] == '#';
      assert id[h] == '#' && cut <= h;
      var rest := id[cut + 1..];
      assert rest[|k.1| - cut - 1] == '#' && '#' in rest && !IsDigit('#');
    } else {
      assert forall h :: 0 <= h < |k.1| ==> id[h] == k.1[h] != '#';
    }
  }

  // ---- what each command makes of a revision --------------------------------------------------

  predicate SkillsNamed(skills: seq<Skill>) { forall i :: 0 <= i < |skills| ==> !Blank(skills[i].id) }

  predicate Knows(skills: seq<Skill>, id: string) { exists s :: s in skills && s.id == id }

  predicate GrantFits(g: Grant, skills: seq<Skill>)
  {
    && g.roles != [] && !Blank(g.population) && g.scopes != []
    && forall i :: 0 <= i < |g.skills| ==> Knows(skills, g.skills[i])
  }

  predicate DraftFits(d: Revision)
  {
    && !Blank(d.connection) && d.mode != OtherMode("") && SkillsNamed(d.skills)
    && forall i :: 0 <= i < |d.grants| ==> GrantFits(d.grants[i], d.skills)
  }

  predicate NewGrantsFit(grants: seq<Grant>, skills: seq<Skill>)
  {
    && (forall i :: 0 <= i < |grants| ==> !Blank(grants[i].id) && grants[i].skills != [] && GrantFits(grants[i], skills))
    && (forall i, j :: 0 <= i < j < |grants| ==> grants[i].id != grants[j].id)
  }

  function Unapproved(r: Revision): Revision { r.(status := Draft, requestedBy := "", approvedBy := "", approvedAt := 0, stepUp := false) }

  function NextNumber(list: seq<Revision>): nat { if list == [] then 1 else list[|list| - 1].number + 1 }

  function NewDraft(draft: Revision, tenant: string, actor: string, number: nat): Revision
  {
    Sealed(Unapproved(draft.(tenant := tenant, createdBy := actor, publishedAt := 0, number := number)))
  }

  function SkillOf(t: Tool, mode: Mode): Skill { Skill(t.name, if t.readOnly then T0 else T4, t.name, t.readOnly && mode == Brokered, "") }

  function NewSkills(tools: seq<Tool>, have: seq<Skill>, mode: Mode): seq<Skill>
  {
    if tools == [] then []
    else
      var before := NewSkills(tools[..|tools| - 1], have, mode);
      var tool := tools[|tools| - 1];
      if Knows(have, tool.name) then before else before + [SkillOf(tool, mode)]
  }

  function Retiered(skills: seq<Skill>, id: string, tier: Tier): (r: seq<Skill>)
    ensures |r| == |skills|
    ensures forall i :: 0 <= i < |r| ==> r[i] == if skills[i].id == id then skills[i].(tier := tier) else skills[i]
  {
    if skills == [] then [] else [if skills[0].id == id then skills[0].(tier := tier) else skills[0]] + Retiered(skills[1..], id, tier)
  }

  predicate Live(r: Revision) { r.status == Published || r.status == Superseded }

  /** The revision a command would leave in the place of r. */
  function Edit(r: Revision, actor: string, cmd: Command, clock: Time): Result<Revision>
    requires cmd.Import? || cmd.SetTier? || cmd.SetGrants? || cmd.RequestApproval? || cmd.Approve?
    requires cmd.Import? ==> cmd.tools.Listed?
  {
    match cmd
    case Import(_, snapshot, tools) =>
      if r.status != Draft then Err(WrongState)
      else Ok(Sealed(r.(skills := r.skills + NewSkills(tools.tools, r.skills, r.mode), snapshot := snapshot)))
    case SetTier(_, skill, tier) =>
      if Live(r) then Err(WrongState)
      else if !Knows(r.skills, skill) then Err(Invalid)
      else Ok(Sealed(Unapproved(r.(skills := Retiered(r.skills, skill, tier)))))
    case SetGrants(_, grants) =>
      if Live(r) then Err(WrongState)
      else if !NewGrantsFit(grants, r.skills) then Err(Invalid)
      else Ok(Sealed(Unapproved(r.(grants := grants))))
    case RequestApproval(_) =>
      if r.status != Draft then Err(WrongState) else Ok(r.(status := AwaitingApproval, requestedBy := actor))
    case Approve(_, stepUp) =>
      if r.status != AwaitingApproval then Err(WrongState)
      else if !stepUp || actor == r.createdBy || actor == r.requestedBy || r.digest != DigestOf(r) then Err(Separation)
      else Ok(r.(status := Approved, approvedBy := actor, approvedAt := clock, stepUp := true))
  }

  predicate Cleared(r: Revision)
  {
    r.status == Approved && r.stepUp && r.approvedBy != "" && r.approvedBy != r.createdBy && r.digest == DigestOf(r)
  }

  function Retire(r: Revision): Revision { if r.status == Published then r.(status := Superseded) else r }

  function RetireAll(list: seq<Revision>): (after: seq<Revision>)
    ensures |after| == |list| && forall i :: 0 <= i < |list| ==> after[i] == Retire(list[i])
  {
    if list == [] then [] else [Retire(list[0])] + RetireAll(list[1..])
  }

  /** The published revisions of a list, retired, in order. */
  function Retired(list: seq<Revision>): (r: seq<Revision>)
    ensures forall x :: x in r <==> exists i :: 0 <= i < |list| && list[i].status == Published && x == Retire(list[i])
  {
    if list == [] then []
    else
      var before := Retired(list[..|list| - 1]);
      var last := list[|list| - 1];
      if last.status == Published then before + [Retire(last)] else before
  }

  function Republished(earlier: Revision, number: nat): Revision
  {
    Sealed(earlier.(number := number, status := if NeedsSecondAdmin(earlier) then Approved else Draft, publishedAt := 0))
  }

  /** What a command would do to one list: the rows it writes, the list it leaves behind, the
      revision it announces, and the list it leaves behind when the write fails. */
  datatype Change = Change(
    connection: string, after: seq<Revision>, written: seq<Revision>, result: Revision, announces: Option<Revision>,
    unsaved: seq<Revision>, action: string)

  function Publication(connection: string, list: seq<Revision>, index: nat, clock: Time, unsaved: seq<Revision>, action: string): Change
    requires index < |list|
  {
    var r := list[index].(status := Published, publishedAt := clock);
    Change(connection, RetireAll(list)[index := r], Retired(list) + [r], r, Some(list[index]), unsaved, action)
  }

  function ActionOf(cmd: Command): string
  {
    match cmd
    case Create(_) => "create"
    case Import(_, _, _) => "import-snapshot"
    case SetTier(_, _, _) => "set-tier"
    case SetGrants(_, _) => "set-grants"
    case RequestApproval(_) => "request-approval"
    case Approve(_, _) => "approve"
    case Publish(_) => "publish"
    case Rollback(_) => "rollback"
  }

  /** The revision a command is about: the newest one for an import, else the one it names. */
  function Locate(lists: map<Key, seq<Revision>>, tenant: string, cmd: Command): (p: Option<Place>)
    requires !cmd.Create?
    ensures p.Some? ==> p.value.index < |ListOf(lists, (tenant, p.value.connection))|
  {
    if cmd.Import? then
      var list := ListOf(lists, (tenant, cmd.connection));
      if list == [] then None else Some(Place(cmd.connection, |list| - 1))
    else Find(lists, tenant, cmd.id)
  }

  /** SetTier has already written the tiers through the shared slice when its write fails. */
  function LeftBehind(r: Revision, cmd: Command): Revision
  {
    if cmd.SetTier? then r.(skills := Retiered(r.skills, cmd.skill, cmd.tier)) else r
  }

  function PlanAt(list: seq<Revision>, p: Place, actor: string, cmd: Command, clock: Time): Result<Change>
    requires p.index < |list| && !cmd.Create? && (cmd.Import? ==> cmd.tools.Listed?)
  {
    var r := list[p.index];
    if cmd.Publish? then
      if Live(r) then Err(WrongState)
      else if NeedsSecondAdmin(r) && !Cleared(r) then Err(Separation)
      else Ok(Publication(p.connection, list, p.index, clock, list, ActionOf(cmd)))
    else if cmd.Rollback? then
      if r.status != Superseded then Err(WrongState)
      else Ok(Publication(p.connection, list + [Republished(r, NextNumber(list))], |list|, clock, list, ActionOf(cmd)))
    else
      match Edit(r, actor, cmd, clock)
      case Err(e) => Err(e)
      case Ok(e) => Ok(Change(p.connection, list[p.index := e], [e], e, None, list[p.index := LeftBehind(r, cmd)], ActionOf(cmd)))
  }

  function Plan(lists: map<Key, seq<Revision>>, tenant: string, actor: string, cmd: Command, clock: Time): Result<Change>
    requires cmd.Import? ==> cmd.tools.Listed?
  {
    if cmd.Create? then
      var list := ListOf(lists, (tenant, cmd.draft.connection));
      var r := NewDraft(cmd.draft, tenant, actor, NextNumber(list));
      Ok(Change(cmd.draft.connection, list + [r], [r], r, None, list, ActionOf(cmd)))
    else
      match Locate(lists, tenant, cmd)
      case None => Err(Absent)
      case Some(p) => PlanAt(ListOf(lists, (tenant, p.connection)), p, actor, cmd, clock)
  }

  // ---- the store -------------------------------------------------------------------------------

  predicate RevisionLe(a: Revision, b: Revision) { if a.connection == b.connection then a.number <= b.number else LexLe(a.connection, b.connection) }

  /** LoadRevisions' promise: every revision of the tenant once, in any order. */
  predicate Faithful(rows: map<RowKey, Revision>, tenant: string, fetched: seq<Revision>)
  {
    && (forall i :: 0 <= i < |fetched| ==> fetched[i].tenant == tenant && RowOf(fetched[i]) in rows && rows[RowOf(fetched[i])] == fetched[i])
    && (forall k :: k in rows && k.tenant == tenant ==> rows[k] in fetched)
    && (forall i, j :: 0 <= i < j < |fetched| ==> fetched[i] != fetched[j])
  }

  /** Every revision appended to the list of its connection. */
  function Grouped(lists: map<Key, seq<Revision>>, tenant: string, rs: seq<Revision>): map<Key, seq<Revision>>
  {
    if rs == [] then lists
    else
      var g := Grouped(lists, tenant, rs[..|rs| - 1]);
      var r := rs[|rs| - 1];
      g[(tenant, r.connection) := ListOf(g, (tenant, r.connection)) + [r]]
  }

  function Load(d: Desk, tenant: string, fetched: Option<seq<Revision>>): Option<Desk>
  {
    if d.store.NoStore? || tenant in d.loaded then Some(d)
    else if fetched.None? then None
    else Some(d.(lists := Grouped(d.lists, tenant, Sort(RevisionLe, fetched.value)), loaded := d.loaded + {tenant}))
  }

  function SaveRows(rows: map<RowKey, Revision>, rs: seq<Revision>): map<RowKey, Revision>
  {
    if rs == [] then rows else SaveRows(rows, rs[..|rs| - 1])[RowOf(rs[|rs| - 1]) := rs[|rs| - 1]]
  }

  function Save(s: Store, event: AuditEvent, rs: seq<Revision>): Store
  {
    if s.NoStore? then s else Store(SaveRows(s.rows, rs), s.trail + [event])
  }

  // ---- one command -----------------------------------------------------------------------------

  function Refusal(actor: string, cmd: Command, allowed: bool): Option<Error>
  {
    if Blank(actor) || !allowed then Some(Denied)
    else
      match cmd
      case Create(draft) => if DraftFits(draft) then None else Some(Invalid)
      case Import(_, _, tools) => if tools.NoService? then Some(Invalid) else if tools.Unreadable? then Some(SnapshotUnreadable) else None
      case SetTier(_, _, tier) => if tier.OtherTier? then Some(Invalid) else None
      case _ => None
  }

  function Put(lists: map<Key, seq<Revision>>, k: Key, list: seq<Revision>): map<Key, seq<Revision>>
  {
    if ListOf(lists, k) == list then lists else lists[k := list]
  }

  /** A planned change, carried out as far as the publisher and the store let it. */
  function Carry(d: Desk, tenant: string, actor: string, ch: Change, w: World): (Desk, Result<Revision>)
  {
    var k := (tenant, ch.connection);
    if ch.announces.Some? && !w.publishes then (d, Err(PublisherFailed))
    else
      var told := if ch.announces.Some? then d.(announced := d.announced + [ch.announces.value]) else d;
      var event := AuditEvent(w.stamp, tenant, actor, ch.action, IdOf(ch.result));
      if d.store.Store? && !w.writes then (told.(lists := Put(d.lists, k, ch.unsaved)), Err(Unavailable))
      else (told.(lists := d.lists[k := ch.after], audit := d.audit + [event], store := Save(d.store, event, ch.written)), Ok(ch.result))
  }

  function Exec(d: Desk, tenant: string, actor: string, cmd: Command, w: World): (Desk, Result<Revision>)
  {
    match Refusal(actor, cmd, w.allowed)
    case Some(e) => (d, Err(e))
    case None =>
      match Load(d, tenant, w.fetched)
      case None => (d, Err(Unavailable))
      case Some(open) =>
        match Plan(open.lists, tenant, actor, cmd, w.clock)
        case Err(e) => (open, Err(e))
        case Ok(ch) => Carry(open, tenant, actor, ch, w)
  }
}
