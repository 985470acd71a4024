/** The console as it runs: one method for each command, each proved to do what Exec says. */
module ConsoleService {
  import opened Wrappers
  import opened Ordering
  import opened Text
  import opened ConnectionConsole
  import opened ConsoleState
  import opened ConsoleSteps

  method RequiresSecondAdmin(r: Revision) returns (needed: bool)
    ensures needed <==> NeedsSecondAdmin(r)
    ensures needed <==>
            || r.mode == Brokered
            || exists s, g :: s in r.skills && g in r.grants && s.id in g.skills && (s.tier == T3 || s.tier == T4)
  {
    SecondAdminIsFor(r);
    if r.mode == Brokered { return true; }
    var granted: set<string> := {};
    for i := 0 to |r.grants|
      invariant forall id :: id in granted <==> exists j :: 0 <= j < i && id in r.grants[j].skills
    {
      ghost var was := granted;
      for s := 0 to |r.grants[i].skills|
        invariant forall id :: id in granted <==> id in was || id in r.grants[i].skills[..s]
      {
        granted := granted + {r.grants[i].skills[s]};
      }
      assert r.grants[i].skills[..|r.grants[i].skills|] == r.grants[i].skills;
    }
    for i := 0 to |r.skills|
      invariant forall j :: 0 <= j < i ==> !(HighImpact(r.skills[j].tier) && Granted(r.grants, r.skills[j].id))
    {
      assert Granted(r.grants, r.skills[i].id) <==> r.skills[i].id in granted;
      if r.skills[i].id in granted && HighImpact(r.skills[i].tier) { return true; }
    }
    return false;
  }

  method KnownIds(skills: seq<Skill>) returns (known: set<string>)
    ensures forall id :: id in known <==> Knows(skills, id)
  {
    known := {};
    for i := 0 to |skills|
      invariant forall id :: id in known <==> exists j :: 0 <= j < i && skills[j].id == id
    {
      known := known + {skills[i].id};
    }
  }

  method AllKnown(ids: seq<string>, skills: seq<Skill>, known: set<string>) returns (all: bool)
    requires forall id :: id in known <==> Knows(skills, id)
    ensures all <==> forall i :: 0 <= i < |ids| ==> Knows(skills, ids[i])
  {
    for i := 0 to |ids|
      invariant forall j :: 0 <= j < i ==> Knows(skills, ids[j])
    {
      if ids[i] !in known { return false; }
    }
    return true;
  }

  method CheckDraft(d: Revision) returns (fits: bool)
    ensures fits <==> DraftFits(d)
  {
    hide Blank, Knows;
    if Blank(d.connection) || d.mode == OtherMode("") { return false; }
    for i := 0 to |d.skills|
      invariant forall j :: 0 <= j < i ==> !Blank(d.skills[j].id)
    {
      if Blank(d.skills[i].id) { return false; }
    }
    var known := KnownIds(d.skills);
    for i := 0 to |d.grants|
      invariant forall j :: 0 <= j < i ==> GrantFits(d.grants[j], d.skills)
    {
      var g := d.grants[i];
      if g.roles == [] || Blank(g.population) || g.scopes == [] { assert !GrantFits(d.grants[i], d.skills); return false; }
      var all := AllKnown(g.skills, d.skills, known);
      if !all { assert !GrantFits(d.grants[i], d.skills); return false; }
    }
    return true;
  }

  method CheckGrants(grants: seq<Grant>, skills: seq<Skill>) returns (next: Option<seq<Grant>>)
    ensures next == if NewGrantsFit(grants, skills) then Some(grants) else None
  {
    hide Blank, Knows;
    var known := KnownIds(skills);
    var seen: set<string> := {};
    var out: seq<Grant> := [];
    for i := 0 to |grants|
      invariant out == grants[..i]
      invariant forall id :: id in seen <==> exists j :: 0 <= j < i && grants[j].id == id
      invariant forall j :: 0 <= j < i ==> !Blank(grants[j].id) && grants[j].skills != [] && GrantFits(grants[j], skills)
      invariant forall j, l :: 0 <= j < l < i ==> grants[j].id != grants[l].id
    {
      var g := grants[i];
      if Blank(g.id) || g.id in seen || g.roles == [] || Blank(g.population) || g.scopes == [] || g.skills == [] {
        assert !NewGrantsFit(grants, skills);
        return None;
      }
      seen := seen + {g.id};
      var all := AllKnown(g.skills, skills, known);
      if !all {
        assert !GrantFits(grants[i], skills);
        return None;
      }
      out := out + [g];
    }
    assert grants[..|grants|] == grants;
    return Some(out);
  }

  method ImportedSkills(r: Revision, tools: seq<Tool>) returns (skills: seq<Skill>)
    ensures skills == r.skills + NewSkills(tools, r.skills, r.mode)
  {
    hide Knows;
    var have := KnownIds(r.skills);
    skills := r.skills;
    for i := 0 to |tools|
      invariant skills == r.skills + NewSkills(tools[..i], r.skills, r.mode)
    {
      assert tools[..i + 1][..i] == tools[..i];
      if tools[i].name !in have {
        skills := skills + [Skill(tools[i].name, if tools[i].readOnly then T0 else T4, tools[i].name, tools[i].readOnly && r.mode == Brokered, "")];
      }
    }
    assert tools[..|tools|] == tools;
  }

  method RetierSkills(skills: seq<Skill>, id: string, tier: Tier) returns (after: seq<Skill>, changed: bool)
    ensures after == Retiered(skills, id, tier)
    ensures changed <==> Knows(skills, id)
  {
    after, changed := skills, false;
    for i := 0 to |skills|
      invariant |after| == |skills|
      invariant forall j :: 0 <= j < |skills| ==> after[j] == if j < i && skills[j].id == id then skills[j].(tier := tier) else skills[j]
      invariant changed <==> exists j :: 0 <= j < i && skills[j].id == id
    {
      if after[i].id == id { after, changed := after[i := after[i].(tier := tier)], true; }
    }
    assert changed ==> Knows(skills, id);
  }

  method ReplaceOne(list: seq<Revision>, older: Revision) returns (after: seq<Revision>)
    ensures |after| == |list| && forall i :: 0 <= i < |list| ==> after[i] == if list[i].number == older.number then older else list[i]
  {
    after := list;
    for i := 0 to |list|
      invariant |after| == |list|
      invariant forall j :: 0 <= j < |list| ==> after[j] == if j < i && list[j].number == older.number then older else list[j]
    {
      if after[i].number == older.number { after := after[i := older]; }
    }
  }

  method CollectPublished(list: seq<Revision>) returns (superseded: seq<Revision>)
    ensures superseded == Retired(list)
  {
    superseded := [];
    for i := 0 to |list|
      invariant superseded == Retired(list[..i])
    {
      assert list[..i + 1][..i] == list[..i];
      if list[i].status == Published { superseded := superseded + [list[i].(status := Superseded)]; }
    }
    assert list[..|list|] == list;
  }

  /** Replacing by number retires exactly the published revisions, because numbers are distinct. */
  method ReplaceAll(list: seq<Revision>, superseded: seq<Revision>) returns (after: seq<Revision>)
    requires Increasing(list) && superseded == Retired(list)
    ensures after == RetireAll(list)
  {
    hide Retired, RetireAll;
    after := list;
    for s := 0 to |superseded|
      invariant |after| == |list|
      invariant forall i :: 0 <= i < |list| ==> after[i] == if Retire(list[i]) in superseded[..s] then Retire(list[i]) else list[i]
    {
      var older := superseded[s];
      assert older in superseded;
      ghost var m :| 0 <= m < |list| && list[m].status == Published && older == Retire(list[m]);
      ghost var was := after;
      after := ReplaceOne(after, older);
      assert superseded[..s + 1] == superseded[..s] + [older];
      forall i | 0 <= i < |list| ensures after[i] == if Retire(list[i]) in superseded[..s + 1] then Retire(list[i]) else list[i] {
        assert was[i].number == list[i].number && (list[i].number == older.number <==> i == m);
        assert Retire(list[i]) == older ==> i == m;
      }
    }
    assert superseded[..|superseded|] == superseded;
    forall i | 0 <= i < |list| ensures after[i] == RetireAll(list)[i] {
      if list[i].status == Published { assert Retire(list[i]) in superseded; }
    }
    assert after == RetireAll(list);
  }

  lemma NextInOrder(d: Desk, k: Key, next: Revision)
    requires Valid(d, false) && k in d.lists && next.number == NextNumber(d.lists[k])
    ensures Increasing(d.lists[k] + [next])
  {
    hide Mirrors, RowsOk;
    assert Proper(k, d.lists[k]);
  }

  /** A rollback that fails takes the appended revision back; one that succeeds replaces it. */
  lemma TakenBack(d: Desk, tenant: string, actor: string, c: string, next: Revision, w: World)
    requires (tenant, c) in d.lists
    ensures var k := (tenant, c);
            var list := d.lists[k];
            var longer := list + [next];
            var ahead := d.(lists := d.lists[k := longer]);
            var (tried, r) := Carry(ahead, tenant, actor, Publication(c, longer, |list|, w.clock, longer, "rollback"), w);
            var (done, s) := Carry(d, tenant, actor, Publication(c, longer, |list|, w.clock, list, "rollback"), w);
            && r == s && (r.Ok? ==> tried == done)
            && (r.Err? ==> tried.lists == ahead.lists && done == tried.(lists := d.lists))
  {
    hide Save, IdOf, Retired, RetireAll;
    var k := (tenant, c);
    var longer := d.lists[k] + [next];
    var ahead := d.(lists := d.lists[k := longer]);
    PutSame(ahead.lists, k);
    PutSame(d.lists, k);
    var after := Publication(c, longer, |d.lists[k]|, w.clock, longer, "rollback").after;
    assert ahead.lists[k := after] == d.lists[k := after];
  }

  class Console {
    var lists: map<Key, seq<Revision>>
    var loaded: set<string>
    var audit: seq<AuditEvent>
    var store: Store
    var announced: seq<Revision>

    function State(): Desk reads this { Desk(lists, loaded, audit, store, announced) }

    constructor (store: Store)
      requires store.Store? ==> RowsOk(store.rows)
      ensures Valid(State(), true) && State() == Desk(map[], {}, [], store, [])
    {
      this.lists, this.loaded, this.audit, this.store, this.announced := map[], {}, [], store, [];
    }

    method LoadTenant(tenant: string, fetched: Option<seq<Revision>>) returns (ok: bool)
      modifies this`lists, this`loaded
      ensures ok <==> Load(old(State()), tenant, fetched).Some?
      ensures State() == if ok then Load(old(State()), tenant, fetched).value else old(State())
    {
      if store.NoStore? || tenant in loaded { return true; }
      if fetched.None? { return false; }
      var sorted := Sort(RevisionLe, fetched.value);
      for i := 0 to |sorted|
        invariant lists == Grouped(old(lists), tenant, sorted[..i]) && loaded == old(loaded)
      {
        assert sorted[..i + 1][..i] == sorted[..i];
        var k := (tenant, sorted[i].connection);
        lists := lists[k := ListOf(lists, k) + [sorted[i]]];
      }
      assert sorted[..|sorted|] == sorted;
      loaded := loaded + {tenant};
      return true;
    }

    method Persist(tenant: string, actor: string, action: string, id: string, revisions: seq<Revision>, w: World) returns (ok: bool)
      modifies this`audit, this`store
      ensures ok <==> old(store).NoStore? || w.writes
      ensures var event := AuditEvent(w.stamp, tenant, actor, action, id);
              State() == if ok then old(State()).(audit := old(audit) + [event], store := Save(old(store), event, revisions)) else old(State())
    {
      var event := AuditEvent(w.stamp, tenant, actor, action, id);
      if store.Store? {
        if !w.writes { return false; }
        store := Save(store, event, revisions);
      }
      audit := audit + [event];
      return true;
    }

    method FindRevision(tenant: string, id: string) returns (p: Option<Place>)
      ensures p == Find(lists, tenant, id)
      ensures p.Some? ==> (tenant, p.value.connection) in lists && p.value.index < |lists[(tenant, p.value.connection)]|
    {
      var cut := HashAt(id);
      if cut == |id| { return None; }
      var number := ParseUint(id[cut + 1..]);
      if number.None? { return None; }
      var list := ListOf(lists, (tenant, id[..cut]));
      for i := 0 to |list|
        invariant forall j :: 0 <= j < i ==> list[j].number != number.value
      {
        if list[i].number == number.value { return Some(Place(id[..cut], i)); }
      }
      return None;
    }

    method Create(tenant: string, actor: string, draft: Revision, w: World) returns (r: Result<Revision>)
      modifies this
      ensures (State(), r) == Exec(old(State()), tenant, actor, Command.Create(draft), w)
    {
      hide DraftFits, Load, DigestOf, IdOf, Save, Blank;
      if Blank(actor) || !w.allowed { return Err(Denied); }
      var fits := CheckDraft(draft);
      if !fits { return Err(Invalid); }
      var ok := LoadTenant(tenant, w.fetched);
      if !ok { return Err(Unavailable); }
      var k := (tenant, draft.connection);
      var list := ListOf(lists, k);
      var next := NewDraft(draft, tenant, actor, if list == [] then 1 else list[|list| - 1].number + 1);
      LoadSame(old(State()), tenant, w.fetched);
      PutSame(lists, k);
      ok := Persist(tenant, actor, "create", IdOf(next), [next], w);
      if !ok { return Err(Unavailable); }
      lists := lists[k := list + [next]];
      return Ok(next);
    }

    /** The tail that Import, SetGrants, RequestApproval and Approve share: write, then replace. */
    method Replace(tenant: string, actor: string, cmd: Command, p: Place, e: Revision, w: World) returns (r: Result<Revision>)
      requires (tenant, p.connection) in lists && p.index < |lists[(tenant, p.connection)]|
      modifies this
      ensures var list := old(lists)[(tenant, p.connection)];
              (State(), r) == Carry(old(State()), tenant, actor, Change(p.connection, list[p.index := e], [e], e, None, list, ActionOf(cmd)), w)
    {
      hide Save, IdOf;
      var k := (tenant, p.connection);
      var ok := Persist(tenant, actor, ActionOf(cmd), IdOf(e), [e], w);
      if !ok { return Err(Unavailable); }
      lists := lists[k := lists[k][p.index := e]];
      return Ok(e);
    }

    method ImportSnapshot(tenant: string, actor: string, connection: string, snapshot: string, tools: Tools, w: World) returns (r: Result<Revision>)
      modifies this
      ensures (State(), r) == Exec(old(State()), tenant, actor, Import(connection, snapshot, tools), w)
    {
      hide Load, Sealed, Blank, Carry, NewSkills;
      if Blank(actor) || !w.allowed { return Err(Denied); }
      if tools.NoService? { return Err(Invalid); }
      if tools.Unreadable? { return Err(SnapshotUnreadable); }
      var ok := LoadTenant(tenant, w.fetched);
      if !ok { return Err(Unavailable); }
      var list := ListOf(lists, (tenant, connection));
      if list == [] { return Err(Absent); }
      var revision := list[|list| - 1];
      if revision.status != Draft { return Err(WrongState); }
      var skills := ImportedSkills(revision, tools.tools);
      var next := Sealed(revision.(skills := skills, snapshot := snapshot));
      assert list[|list| - 1 := revision] == list;
      r := Replace(tenant, actor, Import(connection, snapshot, tools), Place(connection, |list| - 1), next, w);
    }

    /** The tiers are written into the list before the store is asked. */
    method SetTier(tenant: string, actor: string, id: string, skill: string, tier: Tier, w: World) returns (r: Result<Revision>)
      modifies this
      ensures (State(), r) == Exec(old(State()), tenant, actor, Command.SetTier(id, skill, tier), w)
    {
      hide Load, DigestOf, Blank, Save, IdOf, Find, Knows, Retiered;
      if Blank(actor) || !w.allowed { return Err(Denied); }
      if tier.OtherTier? { return Err(Invalid); }
      var ok := LoadTenant(tenant, w.fetched);
      if !ok { return Err(Unavailable); }
      var p := FindRevision(tenant, id);
      if p.None? { return Err(Absent); }
      var k := (tenant, p.value.connection);
      var revision := lists[k][p.value.index];
      if revision.status == Published || revision.status == Superseded { return Err(WrongState); }
      var skills, changed := RetierSkills(revision.skills, skill, tier);
      if !changed { return Err(Invalid); }
      ghost var loadedLists := lists;
      ghost var list := lists[k];
      lists := Put(lists, k, lists[k][p.value.index := revision.(skills := skills)]);
      var next := Sealed(Unapproved(revision.(skills := skills)));
      ok := Persist(tenant, actor, "set-tier", IdOf(next), [next], w);
      if !ok { return Err(Unavailable); }
      lists := lists[k := lists[k][p.value.index := next]];
      assert list[p.value.index := revision.(skills := skills)][p.value.index := next] == list[p.value.index := next];
      assert lists == loadedLists[k := list[p.value.index := next]];
      return Ok(next);
    }

    method SetGrants(tenant: string, actor: string, id: string, grants: seq<Grant>, w: World) returns (r: Result<Revision>)
      modifies this
      ensures (State(), r) == Exec(old(State()), tenant, actor, Command.SetGrants(id, grants), w)
    {
      hide Load, DigestOf, Blank, Carry, Find, NewGrantsFit;
      if Blank(actor) || !w.allowed { return Err(Denied); }
      var ok := LoadTenant(tenant, w.fetched);
      if !ok { return Err(Unavailable); }
      var p := FindRevision(tenant, id);
      if p.None? { return Err(Absent); }
      var list := lists[(tenant, p.value.connection)];
      var revision := list[p.value.index];
      if revision.status == Published || revision.status == Superseded { return Err(WrongState); }
      var next := CheckGrants(grants, revision.skills);
      if next.None? { return Err(Invalid); }
      assert list[p.value.index := revision] == list;
      r := Replace(tenant, actor, Command.SetGrants(id, grants), p.value, Sealed(Unapproved(revision.(grants := next.value))), w);
    }

    method RequestApproval(tenant: string, actor: string, id: string, w: World) returns (r: Result<Revision>)
      modifies this
      ensures (State(), r) == Exec(old(State()), tenant, actor, Command.RequestApproval(id), w)
    {
      hide Load, Blank, Carry, Find;
      if Blank(actor) || !w.allowed { return Err(Denied); }
      var ok := LoadTenant(tenant, w.fetched);
      if !ok { return Err(Unavailable); }
      var p := FindRevision(tenant, id);
      if p.None? { return Err(Absent); }
      var list := lists[(tenant, p.value.connection)];
      var revision := list[p.value.index];
      if revision.status != Draft { return Err(WrongState); }
      assert list[p.value.index := revision] == list;
      r := Replace(tenant, actor, Command.RequestApproval(id), p.value, revision.(status := AwaitingApproval, requestedBy := actor), w);
    }

    method Approve(tenant: string, actor: string, id: string, stepUp: bool, w: World) returns (r: Result<Revision>)
      modifies this
      ensures (State(), r) == Exec(old(State()), tenant, actor, Command.Approve(id, stepUp), w)
    {
      hide Load, DigestOf, Blank, Carry, Find;
      if Blank(actor) || !w.allowed { return Err(Denied); }
      var ok := LoadTenant(tenant, w.fetched);
      if !ok { return Err(Unavailable); }
      var p := FindRevision(tenant, id);
      if p.None? { return Err(Absent); }
      var list := lists[(tenant, p.value.connection)];
      var revision := list[p.value.index];
      if revision.status != AwaitingApproval { return Err(WrongState); }
      if !stepUp || actor == revision.createdBy || actor == revision.requestedBy || revision.digest != DigestOf(revision) { return Err(Separation); }
      assert list[p.value.index := revision] == list;
      r := Replace(tenant, actor, Command.Approve(id, stepUp), p.value,
                   revision.(status := Approved, approvedBy := actor, approvedAt := w.clock, stepUp := true), w);
    }

    /** Announces, writes, and only then retires what was live and puts the revision in its place. */
    method PublishLocked(tenant: string, actor: string, connection: string, index: nat, action: string, w: World) returns (r: Result<Revision>)
      requires var k := (tenant, connection); k in lists && index < |lists[k]| && Increasing(lists[k])
      modifies this
      ensures var list := old(lists)[(tenant, connection)];
              (State(), r) == Carry(old(State()), tenant, actor, Publication(connection, list, index, w.clock, list, action), w)
    {
      hide Save, IdOf, Retired, RetireAll;
      var k := (tenant, connection);
      var list := lists[k];
      if !w.publishes { return Err(PublisherFailed); }
      announced := announced + [list[index]];
      var superseded := CollectPublished(list);
      var revision := list[index].(status := Published, publishedAt := w.clock);
      var ok := Persist(tenant, actor, action, IdOf(revision), superseded + [revision], w);
      if !ok { return Err(Unavailable); }
      var after := ReplaceAll(list, superseded);
      lists := lists[k := after[index := revision]];
      return Ok(revision);
    }

    method Publish(tenant: string, actor: string, id: string, w: World) returns (r: Result<Revision>)
      requires Valid(State(), false) && GoodAnswer(State(), tenant, w.fetched)
      modifies this
      ensures (State(), r) == Exec(old(State()), tenant, actor, Command.Publish(id), w)
    {
      hide Load, Blank, Carry, Find, Mirrors, RowsOk, GoodAnswer, NeedsSecondAdmin, Publication, DigestOf;
      if Blank(actor) || !w.allowed { return Err(Denied); }
      var ok := LoadTenant(tenant, w.fetched);
      if !ok { return Err(Unavailable); }
      LoadKeeps(old(State()), tenant, w.fetched, false);
      var p := FindRevision(tenant, id);
      if p.None? { return Err(Absent); }
      var revision := lists[(tenant, p.value.connection)][p.value.index];
      if revision.status == Published || revision.status == Superseded { return Err(WrongState); }
      var second := RequiresSecondAdmin(revision);
      if second {
        if revision.status != Approved || !revision.stepUp || revision.approvedBy == "" || revision.approvedBy == revision.createdBy || revision.digest != DigestOf(revision) {
          return Err(Separation);
        }
      }
      r := PublishLocked(tenant, actor, p.value.connection, p.value.index, "publish", w);
    }

    method Rollback(tenant: string, actor: string, id: string, w: World) returns (r: Result<Revision>)
      requires Valid(State(), false) && GoodAnswer(State(), tenant, w.fetched)
      modifies this
      ensures (State(), r) == Exec(old(State()), tenant, actor, Command.Rollback(id), w)
    {
      hide Load, Blank, Find, Valid, Increasing, GoodAnswer, NeedsSecondAdmin, DigestOf, Publication, Carry;
      if Blank(actor) || !w.allowed { return Err(Denied); }
      var ok := LoadTenant(tenant, w.fetched);
      if !ok { return Err(Unavailable); }
      LoadKeeps(old(State()), tenant, w.fetched, false);
      var p := FindRevision(tenant, id);
      if p.None? { return Err(Absent); }
      var k := (tenant, p.value.connection);
      ghost var before := lists;
      var list := lists[k];
      var earlier := list[p.value.index];
      if earlier.status != Superseded { return Err(WrongState); }
      var second := RequiresSecondAdmin(earlier);
      var next := Sealed(earlier.(number := list[|list| - 1].number + 1, status := if second then Approved else Draft, publishedAt := 0));
      NextInOrder(State(), k, next);
      TakenBack(State(), tenant, actor, p.value.connection, next, w);
      lists := lists[k := list + [next]];
      r := PublishLocked(tenant, actor, p.value.connection, |list|, "rollback", w);
      if r.Err? {
        lists := lists[k := lists[k][..|list|]];
        assert lists[k] == list;
        assert lists == before;
      }
    }
  }
}
