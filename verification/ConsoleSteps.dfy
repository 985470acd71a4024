/** What every console command keeps, whatever the publisher and the store answer. */
module ConsoleSteps {
  import opened Wrappers
  import opened Ordering
  import opened Text
  import opened ConnectionConsole
  import opened ConsoleState

  /** Editing keeps a revision's place and author and never publishes it. */
  lemma EditStaysPut(r: Revision, actor: string, cmd: Command, clock: Time)
    requires cmd.Import? || cmd.SetTier? || cmd.SetGrants? || cmd.RequestApproval? || cmd.Approve?
    requires cmd.Import? ==> cmd.tools.Listed?
    ensures var e := Edit(r, actor, cmd, clock);
            e.Ok? ==> !Live(r) && !Live(e.value) && RowOf(e.value) == RowOf(r) && e.value.createdBy == r.createdBy
  {
    hide DigestOf, NewGrantsFit, Knows, NewSkills;
  }

  /** Changing tiers or grants drops the approval: the revision cannot pass the publishing gate again before
      a new one, and keeps everything else. */
  lemma EditResetsApproval(r: Revision, actor: string, cmd: Command, clock: Time)
    requires (cmd.SetTier? || cmd.SetGrants?) && Edit(r, actor, cmd, clock).Ok?
    ensures var e := Edit(r, actor, cmd, clock).value;
            && !Cleared(e) && e.status == Draft && e.requestedBy == e.approvedBy == "" && e.approvedAt == 0 && !e.stepUp
            && e.digest == DigestOf(e) && RowOf(e) == RowOf(r) && e.createdBy == r.createdBy && e.mode == r.mode && e.snapshot == r.snapshot
            && (cmd.SetTier? ==> e.grants == r.grants) && (cmd.SetGrants? ==> e.skills == r.skills)
            && (e.digest == r.digest == DigestOf(r) ==> SameContent(e, r))
  {
    hide NewGrantsFit, Knows, SameContent, DigestOf;
    var e := Edit(r, actor, cmd, clock).value;
    SealSealed(Unapproved(if cmd.SetTier? then r.(skills := e.skills) else r.(grants := e.grants)));
    if DigestOf(e) == DigestOf(r) { DigestPinsContent(e, r); }
  }

  lemma SealSealed(r: Revision)
    ensures Sealed(r).digest == DigestOf(Sealed(r))
  {
  }

  /** A created revision is its author's draft with the content it was given, numbered after all others. */
  lemma CreateStartsOver(d: Desk, tenant: string, actor: string, draft: Revision, w: World)
    requires Valid(d, false) && GoodAnswer(d, tenant, w.fetched) && Exec(d, tenant, actor, Create(draft), w).1.Ok?
    ensures var (e, result) := Exec(d, tenant, actor, Create(draft), w);
            var r := result.value;
            var list := ListOf(e.lists, (tenant, draft.connection));
            && list != [] && list[|list| - 1] == r && (forall i :: 0 <= i < |list| - 1 ==> list[i].number < r.number)
            && r.tenant == tenant && r.createdBy == actor && r.status == Draft && r.requestedBy == r.approvedBy == "" && !r.stepUp
            && r.connection == draft.connection && r.mode == draft.mode && r.snapshot == draft.snapshot && r.skills == draft.skills && r.grants == draft.grants
  {
    hide Valid, DigestOf, Load, GoodAnswer, Refusal, IdOf, Save, Proper;
    var e := Exec(d, tenant, actor, Create(draft), w).0;
    ExecKeeps(d, tenant, actor, Create(draft), w, false);
    ValidLists(e, false);
    ListIsProper(e.lists, (tenant, draft.connection));
    LastIsGreatest((tenant, draft.connection), ListOf(e.lists, (tenant, draft.connection)));
  }

  lemma LastIsGreatest(k: Key, list: seq<Revision>)
    requires Proper(k, list)
    ensures forall i :: 0 <= i < |list| - 1 ==> list[i].number < list[|list| - 1].number
  {
  }

  lemma AppendOrderly(k: Key, list: seq<Revision>, r: Revision, ch: Change)
    requires Proper(k, list) && r.number == NextNumber(list) && (r.tenant, r.connection) == k && r.status != Published
    requires ch.connection == k.1 && ch.after == list + [r] && ch.written == [r] && ch.unsaved == list
    ensures Orderly(k, list, ch)
  {
    assert Proper(k, ch.after);
    assert ch.after[|list|] == r;
    forall i | 0 <= i < |list| ensures HasNumber(ch.after, list[i].number) { assert ch.after[i] == list[i]; }
  }

  lemma ReplaceOrderly(k: Key, list: seq<Revision>, i: nat, r: Revision, left: Revision, ch: Change)
    requires Proper(k, list) && i < |list| && RowOf(r) == RowOf(list[i]) && r.status != Published && Alike(left, list[i])
    requires ch.connection == k.1 && ch.after == list[i := r] && ch.written == [r] && ch.unsaved == list[i := left]
    ensures Orderly(k, list, ch)
  {
    assert r.number == list[i].number && r.tenant == list[i].tenant && r.connection == list[i].connection;
    assert Proper(k, ch.after);
    assert ch.after[i] == r;
    forall j | 0 <= j < |list| ensures HasNumber(ch.after, list[j].number) { assert ch.after[j].number == list[j].number; }
  }

  lemma PublishedIsProper(k: Key, list: seq<Revision>, i: nat, r: Revision)
    requires Proper(k, list) && i < |list| && RowOf(r) == RowOf(list[i])
    ensures Proper(k, RetireAll(list)[i := r])
  {
    hide RetireAll;
    var after := RetireAll(list)[i := r];
    forall j | 0 <= j < |list| ensures RowOf(after[j]) == RowOf(list[j]) && (j != i ==> after[j].status != Published) { }
    forall j | 0 <= j < |list| ensures after[j].number == list[j].number && after[j].tenant == list[j].tenant && after[j].connection == list[j].connection {
      assert RowOf(after[j]) == RowOf(list[j]);
    }
  }

  lemma PublicationOrderly(k: Key, stored: seq<Revision>, list: seq<Revision>, i: nat, clock: Time, action: string)
    requires Proper(k, list) && i < |list| && list[i].status != Published
    requires list == stored || (i == |stored| && list == stored + [list[i]])
    ensures Orderly(k, stored, Publication(k.1, list, i, clock, stored, action))
  {
    hide RetireAll, Retired, Proper;
    var ch := Publication(k.1, list, i, clock, stored, action);
    var r := ch.result;
    assert ch.after == RetireAll(list)[i := r] && ch.written == Retired(list) + [r];
    PublishedIsProper(k, list, i, r);
    forall j | 0 <= j < |ch.written| ensures ch.written[j] in ch.after {
      if ch.written[j] == r {
        assert ch.after[i] == r;
      } else {
        assert ch.written[j] in Retired(list);
        var m :| 0 <= m < |list| && list[m].status == Published && ch.written[j] == Retire(list[m]);
        assert ch.after[m] == ch.written[j];
      }
    }
    assert ch.written[|Retired(list)|] == r;
    forall j | 0 <= j < |ch.after| ensures ch.after[j] in ch.written || ch.after[j] in stored {
      if j != i && list[j].status == Published { assert Retire(list[j]) in Retired(list); }
    }
    forall j | 0 <= j < |stored| ensures HasNumber(ch.after, stored[j].number) { assert ch.after[j].number == list[j].number; }
  }

  lemma PlanAtOrderly(k: Key, list: seq<Revision>, p: Place, actor: string, cmd: Command, clock: Time)
    requires Proper(k, list) && p.index < |list| && p.connection == k.1 && !cmd.Create? && (cmd.Import? ==> cmd.tools.Listed?)
    ensures var plan := PlanAt(list, p, actor, cmd, clock); plan.Ok? ==> Orderly(k, list, plan.value)
  {
    hide Orderly, DigestOf, NeedsSecondAdmin, Cleared, Edit, Publication, Proper, Retiered;
    var plan, r := PlanAt(list, p, actor, cmd, clock), list[p.index];
    if plan.Ok? {
      if cmd.Publish? {
        PublicationOrderly(k, list, list, p.index, clock, "publish");
      } else if cmd.Rollback? {
        var next := Republished(r, NextNumber(list));
        AppendIsProper(k, list, p.index, next);
        PublicationOrderly(k, list, list + [next], |list|, clock, "rollback");
      } else {
        EditStaysPut(r, actor, cmd, clock);
        ReplaceOrderly(k, list, p.index, plan.value.result, LeftBehind(r, cmd), plan.value);
      }
    }
  }

  lemma AppendIsProper(k: Key, list: seq<Revision>, i: nat, next: Revision)
    requires Proper(k, list) && i < |list| && next.number == NextNumber(list) && next.status != Published
    requires next.tenant == list[i].tenant && next.connection == list[i].connection
    ensures Proper(k, list + [next])
  {
  }

  lemma PlanOrderly(lists: map<Key, seq<Revision>>, tenant: string, actor: string, cmd: Command, clock: Time)
    requires ListsOk(lists) && (cmd.Import? ==> cmd.tools.Listed?)
    ensures var plan := Plan(lists, tenant, actor, cmd, clock);
            plan.Ok? ==> Orderly((tenant, plan.value.connection), ListOf(lists, (tenant, plan.value.connection)), plan.value)
  {
    hide Orderly, DigestOf, PlanAt, Proper;
    if cmd.Create? {
      var k := (tenant, cmd.draft.connection);
      ListIsProper(lists, k);
      var ch := Plan(lists, tenant, actor, cmd, clock).value;
      AppendOrderly(k, ListOf(lists, k), ch.result, ch);
    } else {
      var p := Locate(lists, tenant, cmd);
      if p.Some? {
        var k := (tenant, p.value.connection);
        ListIsProper(lists, k);
        PlanAtConnection(ListOf(lists, k), p.value, actor, cmd, clock);
        PlanAtOrderly(k, ListOf(lists, k), p.value, actor, cmd, clock);
      }
    }
  }

  lemma PlanAtConnection(list: seq<Revision>, p: Place, actor: string, cmd: Command, clock: Time)
    requires p.index < |list| && !cmd.Create? && (cmd.Import? ==> cmd.tools.Listed?)
    ensures var plan := PlanAt(list, p, actor, cmd, clock); plan.Ok? ==> plan.value.connection == p.connection
  {
  }

  lemma ListIsProper(lists: map<Key, seq<Revision>>, k: Key)
    requires ListsOk(lists)
    ensures Proper(k, ListOf(lists, k))
  {
  }

  // ---- SetTier and a failing write --------------------------------------------------------------

  predicate Overwrites(r: Revision, skill: string, tier: Tier) { exists s :: s in r.skills && s.id == skill && s.tier != tier }

  /** A SetTier that would change a tier of a revision not yet live, and cannot be written. */
  ghost predicate Spoils(d: Desk, tenant: string, actor: string, cmd: Command, w: World)
  {
    && d.store.Store? && !w.writes && cmd.SetTier? && Refusal(actor, cmd, w.allowed) == None
    && var open := Load(d, tenant, w.fetched);
       && open.Some?
       && var p := Find(open.value.lists, tenant, cmd.id);
          && p.Some?
          && var r := ListOf(open.value.lists, (tenant, p.value.connection))[p.value.index];
             !Live(r) && Overwrites(r, cmd.skill, cmd.tier)
  }

  lemma RetieringChanges(r: Revision, skill: string, tier: Tier)
    ensures Retiered(r.skills, skill, tier) == r.skills <==> !Overwrites(r, skill, tier)
    ensures Overwrites(r, skill, tier) ==> Knows(r.skills, skill)
  {
    var after := Retiered(r.skills, skill, tier);
    if Overwrites(r, skill, tier) {
      var i :| 0 <= i < |r.skills| && r.skills[i].id == skill && r.skills[i].tier != tier;
      assert after[i] != r.skills[i];
    } else {
      forall i | 0 <= i < |after| ensures after[i] == r.skills[i] { assert r.skills[i] in r.skills; }
      assert after == r.skills;
    }
  }

  /** Only SetTier leaves anything behind, and only tiers that differ. */
  lemma LeftBehindSame(list: seq<Revision>, p: Place, actor: string, cmd: Command, clock: Time)
    requires p.index < |list| && !cmd.Create? && (cmd.Import? ==> cmd.tools.Listed?)
    ensures var plan := PlanAt(list, p, actor, cmd, clock);
            plan.Ok? ==> (plan.value.unsaved == list <==> !(cmd.SetTier? && Overwrites(list[p.index], cmd.skill, cmd.tier)))
    ensures cmd.SetTier? && !Live(list[p.index]) && Overwrites(list[p.index], cmd.skill, cmd.tier) ==> PlanAt(list, p, actor, cmd, clock).Ok?
    ensures cmd.SetTier? && Live(list[p.index]) ==> PlanAt(list, p, actor, cmd, clock).Err?
  {
    hide DigestOf, Overwrites, NeedsSecondAdmin, Knows, NewGrantsFit, NewSkills, Cleared, RetireAll, Retired;
    if cmd.SetTier? {
      var r := list[p.index];
      RetieringChanges(r, cmd.skill, cmd.tier);
      var left := LeftBehind(r, cmd);
      assert list[p.index := left][p.index] == left;
      assert left == r <==> Retiered(r.skills, cmd.skill, cmd.tier) == r.skills;
      assert left == r ==> list[p.index := left] == list;
    } else {
      assert list[p.index := list[p.index]] == list;
    }
  }

  lemma SpoiledNotExact(d: Desk, k: Key, unsaved: seq<Revision>)
    requires Valid(d, true) && d.store.Store? && k in d.lists && AllAlike(unsaved, d.lists[k]) && unsaved != d.lists[k]
    ensures !Valid(d.(lists := d.lists[k := unsaved]), true)
  {
    var e := d.(lists := d.lists[k := unsaved]);
    var i :| 0 <= i < |unsaved| && unsaved[i] != d.lists[k][i];
    assert Backed(d.store.rows, d.lists[k][i], true) && Alike(unsaved[i], d.lists[k][i]);
    assert RowOf(unsaved[i]) == RowOf(d.lists[k][i]);
    assert !Backed(d.store.rows, unsaved[i], true);
    assert !ListBacked(e.store.rows, e.lists[k], true);
  }

  lemma PutSame(lists: map<Key, seq<Revision>>, k: Key)
    ensures Put(lists, k, ListOf(lists, k)) == lists
  {
  }

  lemma AnnouncedApart(d: Desk, announced: seq<Revision>, audit: seq<AuditEvent>, exact: bool)
    ensures Valid(d.(announced := announced, audit := audit), exact) == Valid(d, exact)
  {
    hide Proper, RowListed, ListBacked;
  }

  /** Carrying out an orderly change. */
  lemma CarryKeeps(d: Desk, tenant: string, actor: string, ch: Change, w: World, exact: bool)
    requires Valid(d, exact) && (d.store.Store? ==> tenant in d.loaded)
    requires var k := (tenant, ch.connection); Orderly(k, ListOf(d.lists, k), ch)
    ensures Valid(Carry(d, tenant, actor, ch, w).0, false)
    ensures exact && (d.store.NoStore? || w.writes || ch.unsaved == ListOf(d.lists, (tenant, ch.connection))) ==> Valid(Carry(d, tenant, actor, ch, w).0, true)
    ensures d.store.Store? && !w.writes && ch.unsaved != ListOf(d.lists, (tenant, ch.connection)) && ch.announces.None? && exact
            ==> !Valid(Carry(d, tenant, actor, ch, w).0, true)
  {
    hide Valid, AllAlike, Proper, WrittenListed, OthersStay, NoneLost, IdOf;
    var k := (tenant, ch.connection);
    var list := ListOf(d.lists, k);
    var e := Carry(d, tenant, actor, ch, w).0;
    InexactToo(d, exact);
    if e != d {
      if d.store.Store? && !w.writes {
        UnsavedKeeps(d, k, ch);
        AnnouncedApart(d.(lists := Put(d.lists, k, ch.unsaved)), e.announced, e.audit, false);
        AnnouncedApart(d.(lists := Put(d.lists, k, ch.unsaved)), e.announced, e.audit, true);
        if ch.unsaved == list {
          PutSame(d.lists, k);
        } else if exact {
          if k !in d.lists { NothingAlike(ch.unsaved); }
          SpoiledNotExact(d, k, ch.unsaved);
        }
      } else {
        var event := AuditEvent(w.stamp, tenant, actor, ch.action, IdOf(ch.result));
        SavedKeeps(d, k, ch, event, exact);
        var saved := d.(lists := d.lists[k := ch.after], store := Save(d.store, event, ch.written));
        AnnouncedApart(saved, e.announced, e.audit, exact);
        InexactToo(e, exact);
      }
    }
  }

  /** Every command keeps the state valid, and exactly mirrored unless SetTier spoils it. */
  lemma ExecKeeps(d: Desk, tenant: string, actor: string, cmd: Command, w: World, exact: bool)
    requires Valid(d, exact) && GoodAnswer(d, tenant, w.fetched)
    ensures Valid(Exec(d, tenant, actor, cmd, w).0, false)
    ensures exact ==> (Valid(Exec(d, tenant, actor, cmd, w).0, true) <==> !Spoils(d, tenant, actor, cmd, w))
  {
    hide Valid, Load, Carry, PlanAt, Orderly, Overwrites, ListsOk, DigestOf, Live, Find, GoodAnswer;
    InexactToo(d, exact);
    var open := Load(d, tenant, w.fetched);
    if Refusal(actor, cmd, w.allowed) == None && open.Some? {
      var o := open.value;
      LoadKeeps(d, tenant, w.fetched, exact);
      LoadSame(d, tenant, w.fetched);
      InexactToo(o, exact);
      ValidLists(o, exact);
      var plan := Plan(o.lists, tenant, actor, cmd, w.clock);
      PlanOrderly(o.lists, tenant, actor, cmd, w.clock);
      if !cmd.Create? {
        var p := Locate(o.lists, tenant, cmd);
        if p.Some? {
          LeftBehindSame(ListOf(o.lists, (tenant, p.value.connection)), p.value, actor, cmd, w.clock);
          PlanAtConnection(ListOf(o.lists, (tenant, p.value.connection)), p.value, actor, cmd, w.clock);
        }
      }
      if plan.Ok? {
        CarryKeeps(o, tenant, actor, plan.value, w, exact);
        if cmd.SetTier? { QuietPlan(o.lists, tenant, actor, cmd, w.clock); }
      }
    }
  }

  lemma QuietPlan(lists: map<Key, seq<Revision>>, tenant: string, actor: string, cmd: Command, clock: Time)
    requires cmd.SetTier? && Plan(lists, tenant, actor, cmd, clock).Ok?
    ensures Plan(lists, tenant, actor, cmd, clock).value.announces == None
  {
  }

  lemma LoadSame(d: Desk, tenant: string, fetched: Option<seq<Revision>>)
    ensures var open := Load(d, tenant, fetched);
            open.Some? ==> open.value.store == d.store && open.value.announced == d.announced && open.value.audit == d.audit
  {
  }

  lemma ValidLists(d: Desk, exact: bool)
    requires Valid(d, exact)
    ensures ListsOk(d.lists)
  {
  }

  /** What a spoiling SetTier leaves: an error, the store as it was, and the new tiers in memory. */
  lemma SpoiledOutcome(d: Desk, tenant: string, actor: string, cmd: Command, w: World)
    requires Valid(d, true) && tenant in d.loaded && Spoils(d, tenant, actor, cmd, w)
    ensures var p := Find(d.lists, tenant, cmd.id).value;
            var k := (tenant, p.connection);
            var r := ListOf(d.lists, k)[p.index];
            var (e, result) := Exec(d, tenant, actor, cmd, w);
            && result == Err(Unavailable) && e.store == d.store
            && e.lists == d.lists[k := ListOf(d.lists, k)[p.index := r.(skills := Retiered(r.skills, cmd.skill, cmd.tier))]]
            && !Valid(e, true)
  {
    hide Valid, Overwrites, DigestOf, IdOf, Retiered, Refusal, Knows;
    var p := Find(d.lists, tenant, cmd.id).value;
    var list := ListOf(d.lists, (tenant, p.connection));
    LeftBehindSame(list, p, actor, cmd, w.clock);
    ExecKeeps(d, tenant, actor, cmd, w, true);
  }
}
