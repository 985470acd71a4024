/** Every run of the console: commands by any administrators, failing writes and failing
    publications among them, and restarts that throw its memory away. */
module ConsoleRuns {
  import opened Wrappers
  import opened Ordering
  import opened Text
  import opened ConnectionConsole
  import opened ConsoleState
  import opened ConsoleSteps

  /** A command that succeeded. */
  datatype Event = Done(tenant: string, actor: string, cmd: Command, result: Revision, at: Time)

  datatype Machine = Machine(desk: Desk, log: seq<Event>)

  datatype Action = Issue(tenant: string, actor: string, cmd: Command, world: World) | Restart

  function Start(durable: bool): Machine
  {
    Machine(Desk(map[], {}, [], if durable then Store(map[], []) else NoStore, []), [])
  }

  ghost function Step(m: Machine, a: Action): Machine
  {
    match a
    case Restart => m.(desk := Desk(map[], {}, [], m.desk.store, m.desk.announced))
    case Issue(tenant, actor, cmd, w) =>
      if !GoodAnswer(m.desk, tenant, w.fetched) then m
      else
        var (d, r) := Exec(m.desk, tenant, actor, cmd, w);
        Machine(d, if r.Ok? then m.log + [Done(tenant, actor, cmd, r.value, w.stamp)] else m.log)
  }

  ghost function Run(durable: bool, actions: seq<Action>): Machine
  {
    if actions == [] then Start(durable) else Step(Run(durable, actions[..|actions| - 1]), actions[|actions| - 1])
  }

  // ---- approvals ------------------------------------------------------------------------------

  /** An approval with step-up of a revision of this connection, by the administrator the revision
      names, who is neither its author nor its requester. */
  predicate Signs(e: Event, r: Revision)
  {
    && e.cmd.Approve? && e.cmd.stepUp && r.stepUp && e.actor == r.approvedBy != ""
    && e.actor != r.createdBy && e.actor != r.requestedBy
    && e.tenant == r.tenant && e.result.connection == r.connection
  }

  /** The revision was created by the author it names. */
  predicate Authors(e: Event, r: Revision) { e.cmd.Create? && e.tenant == r.tenant && e.actor == r.createdBy && e.result.connection == r.connection }

  /** Its approval was asked for by the requester it names. */
  predicate Requests(e: Event, r: Revision)
  {
    e.cmd.RequestApproval? && e.tenant == r.tenant && e.actor == r.requestedBy && e.result.connection == r.connection
  }

  /** Before position n its author created revision number of the connection. */
  predicate Authored(log: seq<Event>, n: nat, r: Revision, number: nat)
  {
    n <= |log| && exists h :: 0 <= h < n && Authors(log[h], r) && log[h].result.number == number
  }

  /** Before position n its requester asked for the approval of that revision, created before that. */
  predicate AskedFor(log: seq<Event>, n: nat, r: Revision, number: nat)
  {
    n <= |log| && exists i :: 0 <= i < n && Requests(log[i], r) && log[i].result.number == number && Authored(log, i, r, number)
  }

  /** The approval was given on exactly this content, of a revision asked for before. */
  predicate Vouches(log: seq<Event>, j: nat, r: Revision)
    requires j < |log|
  {
    Signs(log[j], r) && SameContent(log[j].result, r) && AskedFor(log, j, r, log[j].result.number)
  }

  predicate Vouched(log: seq<Event>, r: Revision) { exists j :: 0 <= j < |log| && Vouches(log, j, r) }

  /** The approval was given on the content whose digest the revision still carries. */
  predicate SignedDigest(e: Event, r: Revision) { Signs(e, r) && e.result.digest == DigestOf(e.result) == r.digest }

  predicate Backs(log: seq<Event>, j: nat, r: Revision)
    requires j < |log|
  {
    SignedDigest(log[j], r) && log[j].result.number == r.number && AskedFor(log, j, r, r.number)
  }

  predicate Backing(log: seq<Event>, r: Revision) { exists j :: 0 <= j < |log| && Backs(log, j, r) }

  predicate Sound(log: seq<Event>, r: Revision)
  {
    && (!Live(r) ==> Authored(log, |log|, r, r.number))
    && (r.status == AwaitingApproval ==> AskedFor(log, |log|, r, r.number))
    && (r.status == Approved ==> Backing(log, r))
    && (Live(r) && NeedsSecondAdmin(r) ==> Vouched(log, r))
  }

  predicate AllSound(log: seq<Event>, rs: seq<Revision>) { forall i :: 0 <= i < |rs| ==> Sound(log, rs[i]) }

  predicate Announceable(log: seq<Event>, r: Revision) { NeedsSecondAdmin(r) ==> Vouched(log, r) }

  ghost predicate SoundLists(log: seq<Event>, lists: map<Key, seq<Revision>>) { forall k :: k in lists ==> AllSound(log, lists[k]) }

  ghost predicate SoundRows(log: seq<Event>, rows: map<RowKey, Revision>) { forall k :: k in rows ==> Sound(log, rows[k]) }

  ghost predicate SoundDesk(log: seq<Event>, d: Desk)
  {
    && SoundLists(log, d.lists)
    && (d.store.Store? ==> SoundRows(log, d.store.rows))
    && forall i :: 0 <= i < |d.announced| ==> Announceable(log, d.announced[i])
  }

  /** The people a revision names, and where it belongs. */
  predicate SamePeople(a: Revision, b: Revision)
  {
    a.tenant == b.tenant && a.connection == b.connection && a.createdBy == b.createdBy && a.requestedBy == b.requestedBy
  }

  lemma AuthoredGrows(log: seq<Event>, e: Event, n: nat, m: nat, a: Revision, b: Revision, number: nat)
    requires Authored(log, n, a, number) && n <= m <= |log| + 1
    requires a.tenant == b.tenant && a.connection == b.connection && a.createdBy == b.createdBy
    ensures Authored(log + [e], m, b, number)
  {
    var h :| 0 <= h < n && Authors(log[h], a) && log[h].result.number == number;
    assert (log + [e])[h] == log[h] && Authors((log + [e])[h], b);
  }

  lemma AskedGrows(log: seq<Event>, e: Event, n: nat, m: nat, a: Revision, b: Revision, number: nat)
    requires AskedFor(log, n, a, number) && n <= m <= |log| + 1 && SamePeople(a, b)
    ensures AskedFor(log + [e], m, b, number)
  {
    hide Authored;
    var i :| 0 <= i < n && Requests(log[i], a) && log[i].result.number == number && Authored(log, i, a, number);
    AuthoredGrows(log, e, i, i, a, b, number);
    assert (log + [e])[i] == log[i] && Requests((log + [e])[i], b);
  }

  lemma AskedAlike(log: seq<Event>, n: nat, a: Revision, b: Revision, number: nat)
    requires AskedFor(log, n, a, number) && SamePeople(a, b)
    ensures AskedFor(log, n, b, number)
  {
    var i :| 0 <= i < n && Requests(log[i], a) && log[i].result.number == number && Authored(log, i, a, number);
    var h :| 0 <= h < i && Authors(log[h], a) && log[h].result.number == number;
    assert Authors(log[h], b) && Requests(log[i], b);
    assert Authored(log, i, b, number);
  }

  lemma SoundGrows(log: seq<Event>, e: Event, r: Revision)
    ensures Sound(log, r) ==> Sound(log + [e], r)
    ensures Announceable(log, r) ==> Announceable(log + [e], r)
  {
    hide SameContent, SignedDigest, Signs, NeedsSecondAdmin, Authored, AskedFor;
    var longer := log + [e];
    if Vouched(log, r) {
      var j :| 0 <= j < |log| && Vouches(log, j, r);
      AskedGrows(log, e, j, j, r, r, log[j].result.number);
      assert longer[j] == log[j] && Vouches(longer, j, r);
    }
    if Backing(log, r) {
      var j :| 0 <= j < |log| && Backs(log, j, r);
      AskedGrows(log, e, j, j, r, r, r.number);
      assert longer[j] == log[j] && Backs(longer, j, r);
    }
    if Authored(log, |log|, r, r.number) { AuthoredGrows(log, e, |log|, |log| + 1, r, r, r.number); }
    if AskedFor(log, |log|, r, r.number) { AskedGrows(log, e, |log|, |log| + 1, r, r, r.number); }
  }

  lemma AllSoundGrows(log: seq<Event>, e: Event, rs: seq<Revision>)
    requires AllSound(log, rs)
    ensures AllSound(log + [e], rs)
  {
    hide Sound, Announceable;
    forall i | 0 <= i < |rs| ensures Sound(log + [e], rs[i]) { SoundGrows(log, e, rs[i]); }
  }

  lemma SoundDeskGrows(log: seq<Event>, e: Event, d: Desk)
    requires SoundDesk(log, d)
    ensures SoundDesk(log + [e], d)
  {
    hide Sound, Announceable;
    forall k | k in d.lists ensures AllSound(log + [e], d.lists[k]) { AllSoundGrows(log, e, d.lists[k]); }
    if d.store.Store? {
      forall k | k in d.store.rows ensures Sound(log + [e], d.store.rows[k]) { SoundGrows(log, e, d.store.rows[k]); }
    }
    forall i | 0 <= i < |d.announced| ensures Announceable(log + [e], d.announced[i]) { SoundGrows(log, e, d.announced[i]); }
  }

  lemma SoundMember(log: seq<Event>, lists: map<Key, seq<Revision>>, k: Key, i: nat)
    requires SoundLists(log, lists) && i < |ListOf(lists, k)|
    ensures Sound(log, ListOf(lists, k)[i])
  {
  }

  // ---- what each command does to soundness -----------------------------------------------------

  /** What an edit leaves is backed: a draft by its author, a pending revision by its requester, and an
      approved one by the approval that has just happened. */
  lemma EditSound(log: seq<Event>, tenant: string, actor: string, r: Revision, cmd: Command, w: World)
    requires cmd.Import? || cmd.SetTier? || cmd.SetGrants? || cmd.RequestApproval? || cmd.Approve?
    requires cmd.Import? ==> cmd.tools.Listed?
    requires Sound(log, r) && Edit(r, actor, cmd, w.clock).Ok? && r.tenant == tenant && actor != ""
    ensures var e := Edit(r, actor, cmd, w.clock).value; Sound(log + [Done(tenant, actor, cmd, e, w.stamp)], e)
  {
    hide DigestOf, NewGrantsFit, Knows, NewSkills, SameContent, NeedsSecondAdmin, Authored, AskedFor, Backing, Vouched, Edit;
    var e := Edit(r, actor, cmd, w.clock).value;
    var event := Done(tenant, actor, cmd, e, w.stamp);
    EditStaysPut(r, actor, cmd, w.clock);
    AuthoredGrows(log, event, |log|, |log| + 1, r, e, e.number);
    AuthoredGrows(log, event, |log|, |log|, r, e, e.number);
    EditState(r, actor, cmd, w.clock);
    if cmd.RequestApproval? {
      AskedNow(log, event, e);
    } else if cmd.Approve? {
      AskedGrows(log, event, |log|, |log|, r, e, e.number);
      DigestIgnoresState(r, e);
      BackedNow(log, event, e);
    }
  }

  /** The state each edit leaves a revision in. */
  lemma EditState(r: Revision, actor: string, cmd: Command, clock: Time)
    requires cmd.Import? || cmd.SetTier? || cmd.SetGrants? || cmd.RequestApproval? || cmd.Approve?
    requires (cmd.Import? ==> cmd.tools.Listed?) && Edit(r, actor, cmd, clock).Ok?
    ensures var e := Edit(r, actor, cmd, clock).value;
            && (cmd.RequestApproval? ==> r.status == Draft && e == r.(status := AwaitingApproval, requestedBy := actor))
            && (cmd.Approve? ==> && r.status == AwaitingApproval && e == r.(status := Approved, approvedBy := actor, approvedAt := clock, stepUp := true)
                                 && cmd.stepUp && actor != r.createdBy && actor != r.requestedBy && r.digest == DigestOf(r))
            && (!cmd.RequestApproval? && !cmd.Approve? ==> e.status == Draft)
  {
    hide DigestOf, NewGrantsFit, Knows, NewSkills;
  }

  lemma AskedNow(log: seq<Event>, event: Event, e: Revision)
    requires Requests(event, e) && event.result.number == e.number && Authored(log + [event], |log|, e, e.number)
    ensures AskedFor(log + [event], |log| + 1, e, e.number)
  {
    hide Authored;
    assert (log + [event])[|log|] == event;
  }

  lemma BackedNow(log: seq<Event>, event: Event, e: Revision)
    requires SignedDigest(event, e) && event.result.number == e.number && AskedFor(log + [event], |log|, e, e.number)
    ensures Backing(log + [event], e)
  {
    hide AskedFor, SignedDigest;
    assert (log + [event])[|log|] == event && Backs(log + [event], |log|, e);
  }

  lemma DigestIgnoresState(r: Revision, e: Revision)
    requires r == e.(status := r.status, requestedBy := r.requestedBy, approvedBy := r.approvedBy, approvedAt := r.approvedAt, stepUp := r.stepUp, publishedAt := r.publishedAt)
    ensures DigestOf(e) == DigestOf(r)
  {
  }

  /** What SetTier leaves behind is not live and carries the digest it had. */
  lemma LeftBehindSound(log: seq<Event>, r: Revision, cmd: Command)
    requires Sound(log, r) && (cmd.SetTier? ==> !Live(r))
    ensures Sound(log, LeftBehind(r, cmd))
  {
    hide DigestOf, SameContent, NeedsSecondAdmin, AskedFor;
    var e := LeftBehind(r, cmd);
    if !Live(r) {
      var h :| 0 <= h < |log| && Authors(log[h], r) && log[h].result.number == r.number;
      assert Authors(log[h], e);
    }
    if r.status == AwaitingApproval { AskedAlike(log, |log|, r, e, r.number); }
    if r.status == Approved {
      var j :| 0 <= j < |log| && Backs(log, j, r);
      AskedAlike(log, j, r, e, r.number);
      assert SignedDigest(log[j], e) && Backs(log, j, e);
    }
  }

  /** The publishing gate: what it lets through was approved on exactly this content. */
  lemma GateSound(log: seq<Event>, r: Revision)
    requires Sound(log, r) && NeedsSecondAdmin(r) && Cleared(r)
    ensures Vouched(log, r)
  {
    hide DigestOf, SameContent, NeedsSecondAdmin, AskedFor, Authored;
    var j :| 0 <= j < |log| && Backs(log, j, r);
    DigestPinsContent(log[j].result, r);
    assert Vouches(log, j, r);
  }

  /** Only the state around the content differs, and the number. */
  predicate SameBody(a: Revision, b: Revision)
  {
    && a.tenant == b.tenant && a.connection == b.connection && a.mode == b.mode && a.snapshot == b.snapshot
    && a.skills == b.skills && a.grants == b.grants && a.createdBy == b.createdBy && a.requestedBy == b.requestedBy
    && a.approvedBy == b.approvedBy && a.stepUp == b.stepUp
  }

  lemma VouchedBody(log: seq<Event>, a: Revision, b: Revision)
    requires SameBody(a, b)
    ensures Vouched(log, a) ==> Vouched(log, b)
    ensures NeedsSecondAdmin(a) == NeedsSecondAdmin(b)
  {
    hide AskedFor;
    if Vouched(log, a) {
      var j :| 0 <= j < |log| && Vouches(log, j, a);
      AskedAlike(log, j, a, b, log[j].result.number);
      assert Signs(log[j], b) && SameContent(log[j].result, b) && Vouches(log, j, b);
    }
  }

  lemma BodySound(log: seq<Event>, a: Revision, b: Revision)
    requires SameBody(a, b) && Live(b) && (NeedsSecondAdmin(a) ==> Vouched(log, a))
    ensures Sound(log, b)
  {
    hide NeedsSecondAdmin, Vouched;
    VouchedBody(log, a, b);
  }

  lemma RetiredSound(log: seq<Event>, list: seq<Revision>)
    requires AllSound(log, list)
    ensures AllSound(log, Retired(list))
  {
    hide Sound, Retired;
    forall i | 0 <= i < |Retired(list)| ensures Sound(log, Retired(list)[i]) {
      var x := Retired(list)[i];
      assert x in Retired(list);
      var m :| 0 <= m < |list| && list[m].status == Published && x == Retire(list[m]);
      SoundWhenLive(log, list[m]);
      BodySound(log, list[m], x);
    }
  }

  lemma SoundWhenLive(log: seq<Event>, r: Revision)
    requires Sound(log, r) && Live(r)
    ensures NeedsSecondAdmin(r) ==> Vouched(log, r)
  {
  }

  lemma AppendSound(log: seq<Event>, rs: seq<Revision>, r: Revision)
    requires AllSound(log, rs) && Sound(log, r)
    ensures AllSound(log, rs + [r])
  {
    hide Sound;
  }

  /** Everything a change writes, leaves behind or announces is backed by an approval where one is needed. */
  ghost predicate SoundChange(log: seq<Event>, e: Event, ch: Change)
  {
    && AllSound(log + [e], ch.written) && AllSound(log, ch.unsaved)
    && (ch.announces.Some? ==> Announceable(log, ch.announces.value))
  }

  lemma PublicationSound(log: seq<Event>, e: Event, c: string, list: seq<Revision>, i: nat, clock: Time, stored: seq<Revision>, action: string)
    requires i < |list| && AllSound(log, stored) && AllSound(log, Retired(list)) && Announceable(log, list[i])
    ensures SoundChange(log, e, Publication(c, list, i, clock, stored, action))
  {
    hide NeedsSecondAdmin, Vouched, Retired, RetireAll, Sound;
    var ch := Publication(c, list, i, clock, stored, action);
    AllSoundGrows(log, e, Retired(list));
    SoundGrows(log, e, list[i]);
    BodySound(log + [e], list[i], ch.result);
    AppendSound(log + [e], Retired(list), ch.result);
  }

  lemma RollbackRetired(list: seq<Revision>, next: Revision)
    requires next.status != Published
    ensures Retired(list + [next]) == Retired(list)
  {
    assert (list + [next])[..|list|] == list;
  }

  lemma PlanAtSound(log: seq<Event>, tenant: string, actor: string, list: seq<Revision>, p: Place, cmd: Command, w: World)
    requires p.index < |list| && !cmd.Create? && (cmd.Import? ==> cmd.tools.Listed?)
    requires AllSound(log, list) && Proper((tenant, p.connection), list) && actor != "" && PlanAt(list, p, actor, cmd, w.clock).Ok?
    ensures var ch := PlanAt(list, p, actor, cmd, w.clock).value; SoundChange(log, Done(tenant, actor, cmd, ch.result, w.stamp), ch)
  {
    hide Publication, DigestOf, NeedsSecondAdmin, Sound, Vouched, Edit, Cleared, SoundChange, Announceable;
    var ch, r := PlanAt(list, p, actor, cmd, w.clock).value, list[p.index];
    var e := Done(tenant, actor, cmd, ch.result, w.stamp);
    assert Sound(log, r) && r.tenant == tenant;
    RetiredSound(log, list);
    if cmd.Publish? {
      PublishSound(log, r);
      PublicationSound(log, e, p.connection, list, p.index, w.clock, list, "publish");
    } else if cmd.Rollback? {
      var next := Republished(r, NextNumber(list));
      SoundWhenLive(log, r);
      VouchedBody(log, r, next);
      RollbackRetired(list, next);
      NextAnnounceable(log, next);
      PublicationSound(log, e, p.connection, list + [next], |list|, w.clock, list, "rollback");
    } else {
      EditSound(log, tenant, actor, r, cmd, w);
      EditStaysPut(r, actor, cmd, w.clock);
      LeftBehindSound(log, r, cmd);
      EditChange(log, e, list, p.index, LeftBehind(r, cmd), ch);
    }
  }

  lemma NextAnnounceable(log: seq<Event>, next: Revision)
    requires NeedsSecondAdmin(next) ==> Vouched(log, next)
    ensures Announceable(log, next)
  {
  }

  lemma PublishSound(log: seq<Event>, r: Revision)
    requires Sound(log, r) && (NeedsSecondAdmin(r) ==> Cleared(r))
    ensures Announceable(log, r)
  {
    hide NeedsSecondAdmin, Cleared, Vouched;
    if NeedsSecondAdmin(r) { GateSound(log, r); }
  }

  lemma EditChange(log: seq<Event>, e: Event, list: seq<Revision>, i: nat, left: Revision, ch: Change)
    requires i < |list| && AllSound(log, list) && Sound(log, left) && Sound(log + [e], ch.result)
    requires ch.written == [ch.result] && ch.unsaved == list[i := left] && ch.announces == None
    ensures SoundChange(log, e, ch)
  {
    hide Sound;
  }

  lemma PlanSound(log: seq<Event>, lists: map<Key, seq<Revision>>, tenant: string, actor: string, cmd: Command, w: World)
    requires (cmd.Import? ==> cmd.tools.Listed?) && SoundLists(log, lists) && ListsOk(lists) && actor != ""
    requires Plan(lists, tenant, actor, cmd, w.clock).Ok?
    ensures var ch := Plan(lists, tenant, actor, cmd, w.clock).value; SoundChange(log, Done(tenant, actor, cmd, ch.result, w.stamp), ch)
  {
    hide DigestOf, NeedsSecondAdmin, Vouched, Backing, PlanAt, SoundChange, Proper;
    var ch := Plan(lists, tenant, actor, cmd, w.clock).value;
    var e := Done(tenant, actor, cmd, ch.result, w.stamp);
    if cmd.Create? {
      var list := ListOf(lists, (tenant, cmd.draft.connection));
      CreateChange(log, e, list, ch);
    } else {
      var p := Locate(lists, tenant, cmd).value;
      ListIsProper(lists, (tenant, p.connection));
      PlanAtSound(log, tenant, actor, ListOf(lists, (tenant, p.connection)), p, cmd, w);
    }
  }

  lemma CreateChange(log: seq<Event>, e: Event, list: seq<Revision>, ch: Change)
    requires AllSound(log, list) && ch.written == [ch.result] && ch.unsaved == list && ch.announces == None && ch.result.status == Draft
    requires Authors(e, ch.result) && e.result.number == ch.result.number
    ensures SoundChange(log, e, ch)
  {
    hide AskedFor, Backing, Vouched, NeedsSecondAdmin;
    assert (log + [e])[|log|] == e;
    assert Authored(log + [e], |log| + 1, ch.result, ch.result.number);
  }

  // ---- soundness is kept -----------------------------------------------------------------------

  lemma SavedSound(log: seq<Event>, rows: map<RowKey, Revision>, rs: seq<Revision>)
    requires SoundRows(log, rows) && AllSound(log, rs)
    ensures SoundRows(log, SaveRows(rows, rs))
  {
    hide Sound, SaveRows;
    forall k | k in SaveRows(rows, rs) ensures Sound(log, SaveRows(rows, rs)[k]) { SavedRow(rows, rs, k); }
  }

  lemma AfterSound(log: seq<Event>, k: Key, list: seq<Revision>, ch: Change)
    requires AllSound(log, list) && AllSound(log, ch.written) && Orderly(k, list, ch)
    ensures AllSound(log, ch.after)
  {
    hide Sound, Proper;
    forall i | 0 <= i < |ch.after| ensures Sound(log, ch.after[i]) {
      assert ch.after[i] in ch.written || ch.after[i] in list;
    }
  }

  lemma CarrySound(log: seq<Event>, d: Desk, tenant: string, actor: string, ch: Change, w: World, e: Event)
    requires SoundDesk(log, d) && SoundChange(log, e, ch)
    requires Orderly((tenant, ch.connection), ListOf(d.lists, (tenant, ch.connection)), ch)
    ensures var (after, r) := Carry(d, tenant, actor, ch, w); SoundDesk(if r.Ok? then log + [e] else log, after)
  {
    hide Sound, Announceable, Orderly, SaveRows, IdOf;
    var (after, r) := Carry(d, tenant, actor, ch, w);
    var k := (tenant, ch.connection);
    if r.Ok? {
      SoundDeskGrows(log, e, d);
      if ch.announces.Some? { SoundGrows(log, e, ch.announces.value); }
      AfterSound(log + [e], k, ListOf(d.lists, k), ch);
      if d.store.Store? { SavedSound(log + [e], d.store.rows, ch.written); }
    }
  }

  lemma LoadSound(log: seq<Event>, d: Desk, tenant: string, fetched: Option<seq<Revision>>)
    requires SoundDesk(log, d) && Valid(d, false) && GoodAnswer(d, tenant, fetched)
    ensures var open := Load(d, tenant, fetched); open.Some? ==> SoundDesk(log, open.value)
  {
    hide Sound, Announceable, Faithful, Grouped, Sort, Proper, Mirrors, FreshLists, RowsOk;
    if d.store.Store? && tenant !in d.loaded && fetched.Some? {
      var open := Load(d, tenant, fetched).value;
      forall k | k in open.lists ensures AllSound(log, open.lists[k]) {
        LoadedList(d, tenant, fetched.value, k);
        if k.0 == tenant {
          FreshList(d.store.rows, tenant, fetched.value, k.1);
          forall i | 0 <= i < |open.lists[k]| ensures Sound(log, open.lists[k][i]) {
            assert open.lists[k][i] in ListOf(FreshLists(tenant, fetched.value), k);
            assert Held(d.store.rows, k, open.lists[k][i]);
          }
        }
      }
    }
  }

  lemma StepSound(m: Machine, a: Action)
    requires SoundDesk(m.log, m.desk) && Valid(m.desk, false)
    ensures SoundDesk(Step(m, a).log, Step(m, a).desk) && Valid(Step(m, a).desk, false)
  {
    hide Valid, SoundLists, SoundRows, Announceable, Load, Carry, Plan, Orderly, ListsOk, GoodAnswer, SoundDesk;
    match a
    case Restart => RestartSound(m.log, m.desk);
    case Issue(tenant, actor, cmd, w) =>
      if GoodAnswer(m.desk, tenant, w.fetched) {
        ExecKeeps(m.desk, tenant, actor, cmd, w, false);
        var open := Load(m.desk, tenant, w.fetched);
        if Refusal(actor, cmd, w.allowed) == None && open.Some? {
          var o := open.value;
          LoadSound(m.log, m.desk, tenant, w.fetched);
          LoadKeeps(m.desk, tenant, w.fetched, false);
          ValidLists(o, false);
          SoundListsOf(m.log, o);
          PlanOrderly(o.lists, tenant, actor, cmd, w.clock);
          if Plan(o.lists, tenant, actor, cmd, w.clock).Ok? {
            var ch := Plan(o.lists, tenant, actor, cmd, w.clock).value;
            assert actor != "";
            PlanSound(m.log, o.lists, tenant, actor, cmd, w);
            CarryResult(o, tenant, actor, ch, w);
            CarrySound(m.log, o, tenant, actor, ch, w, Done(tenant, actor, cmd, ch.result, w.stamp));
          }
        }
      }
  }

  lemma CarryResult(d: Desk, tenant: string, actor: string, ch: Change, w: World)
    ensures Carry(d, tenant, actor, ch, w).1.Ok? ==> Carry(d, tenant, actor, ch, w).1.value == ch.result
  {
  }

  lemma SoundListsOf(log: seq<Event>, d: Desk)
    requires SoundDesk(log, d)
    ensures SoundLists(log, d.lists)
  {
  }

  lemma RestartSound(log: seq<Event>, d: Desk)
    requires SoundDesk(log, d) && Valid(d, false)
    ensures var r := Desk(map[], {}, [], d.store, d.announced); SoundDesk(log, r) && Valid(r, false) && (Valid(d, true) ==> Valid(r, true))
  {
  }

  lemma {:induction false} RunsAreSound(durable: bool, actions: seq<Action>)
    ensures var m := Run(durable, actions); SoundDesk(m.log, m.desk) && Valid(m.desk, false)
  {
    hide Step, Sound;
    if actions != [] {
      RunsAreSound(durable, actions[..|actions| - 1]);
      StepSound(Run(durable, actions[..|actions| - 1]), actions[|actions| - 1]);
    }
  }

  // ---- digests, while no write of SetTier is lost ------------------------------------------------

  predicate AllSealed(rs: seq<Revision>) { forall i :: 0 <= i < |rs| ==> rs[i].digest == DigestOf(rs[i]) }

  ghost predicate SealedLists(lists: map<Key, seq<Revision>>) { forall k :: k in lists ==> AllSealed(lists[k]) }

  ghost predicate SealedRows(rows: map<RowKey, Revision>) { forall k :: k in rows ==> rows[k].digest == DigestOf(rows[k]) }

  ghost predicate SealedDesk(d: Desk) { SealedLists(d.lists) && (d.store.Store? ==> SealedRows(d.store.rows)) }

  lemma StateKeepsSeal(r: Revision, e: Revision)
    requires r.digest == DigestOf(r)
    requires r == e.(status := r.status, requestedBy := r.requestedBy, approvedBy := r.approvedBy, approvedAt := r.approvedAt, stepUp := r.stepUp, publishedAt := r.publishedAt)
    ensures e.digest == DigestOf(e)
  {
    DigestIgnoresState(r, e);
  }

  lemma EditSeals(r: Revision, actor: string, cmd: Command, clock: Time)
    requires cmd.Import? || cmd.SetTier? || cmd.SetGrants? || cmd.RequestApproval? || cmd.Approve?
    requires cmd.Import? ==> cmd.tools.Listed?
    requires r.digest == DigestOf(r) && Edit(r, actor, cmd, clock).Ok?
    ensures var e := Edit(r, actor, cmd, clock).value; e.digest == DigestOf(e)
  {
    hide DigestOf, NewGrantsFit, Knows, NewSkills, Sealed, Unapproved;
    var e := Edit(r, actor, cmd, clock).value;
    match cmd
    case RequestApproval(_) => StateKeepsSeal(r, e);
    case Approve(_, _) => StateKeepsSeal(r, e);
    case Import(_, snapshot, tools) => SealSealed(r.(skills := r.skills + NewSkills(tools.tools, r.skills, r.mode), snapshot := snapshot));
    case SetTier(_, skill, tier) => SealSealed(Unapproved(r.(skills := Retiered(r.skills, skill, tier))));
    case SetGrants(_, grants) => SealSealed(Unapproved(r.(grants := grants)));
  }

  lemma PublicationSealed(c: string, list: seq<Revision>, i: nat, clock: Time, stored: seq<Revision>, action: string)
    requires i < |list| && AllSealed(list)
    ensures AllSealed(Publication(c, list, i, clock, stored, action).written)
  {
    hide DigestOf, Retired, RetireAll;
    var ch := Publication(c, list, i, clock, stored, action);
    StateKeepsSeal(list[i], ch.result);
    forall j | 0 <= j < |ch.written| ensures ch.written[j].digest == DigestOf(ch.written[j]) {
      if j < |Retired(list)| {
        assert ch.written[j] in Retired(list);
        var m :| 0 <= m < |list| && list[m].status == Published && ch.written[j] == Retire(list[m]);
        StateKeepsSeal(list[m], ch.written[j]);
      }
    }
  }

  lemma PlanSealed(lists: map<Key, seq<Revision>>, tenant: string, actor: string, cmd: Command, clock: Time)
    requires (cmd.Import? ==> cmd.tools.Listed?) && SealedLists(lists) && Plan(lists, tenant, actor, cmd, clock).Ok?
    ensures AllSealed(Plan(lists, tenant, actor, cmd, clock).value.written)
  {
    hide DigestOf, Publication, Edit, NeedsSecondAdmin, Cleared, Unapproved, Sealed;
    var ch := Plan(lists, tenant, actor, cmd, clock).value;
    if cmd.Create? {
      NewDraftSealed(cmd.draft, tenant, actor, NextNumber(ListOf(lists, (tenant, cmd.draft.connection))));
    } else {
      var p := Locate(lists, tenant, cmd).value;
      var list := ListOf(lists, (tenant, p.connection));
      var r := list[p.index];
      assert AllSealed(list);
      if cmd.Publish? {
        PublicationSealed(p.connection, list, p.index, clock, list, "publish");
      } else if cmd.Rollback? {
        var next := Republished(r, NextNumber(list));
        RepublishedSealed(r, NextNumber(list));
        PublicationSealed(p.connection, list + [next], |list|, clock, list, "rollback");
      } else {
        EditSeals(r, actor, cmd, clock);
      }
    }
  }

  lemma NewDraftSealed(draft: Revision, tenant: string, actor: string, number: nat)
    ensures var r := NewDraft(draft, tenant, actor, number); r.digest == DigestOf(r)
  {
  }

  lemma RepublishedSealed(r: Revision, number: nat)
    ensures var next := Republished(r, number); next.digest == DigestOf(next)
  {
  }

  lemma SavedSealed(rows: map<RowKey, Revision>, rs: seq<Revision>)
    requires SealedRows(rows) && AllSealed(rs)
    ensures SealedRows(SaveRows(rows, rs))
  {
    hide DigestOf, SaveRows;
    forall k | k in SaveRows(rows, rs) ensures SaveRows(rows, rs)[k].digest == DigestOf(SaveRows(rows, rs)[k]) { SavedRow(rows, rs, k); }
  }

  /** Memory that mirrors sealed rows is sealed. */
  lemma MirrorsSeal(d: Desk)
    requires Valid(d, true) && d.store.Store? && SealedRows(d.store.rows)
    ensures SealedDesk(d)
  {
    hide DigestOf, Proper, RowsOk;
    forall k | k in d.lists ensures AllSealed(d.lists[k]) {
      forall i | 0 <= i < |d.lists[k]| ensures d.lists[k][i].digest == DigestOf(d.lists[k][i]) {
        assert Backed(d.store.rows, d.lists[k][i], true);
      }
    }
  }

  lemma AfterSealed(k: Key, list: seq<Revision>, ch: Change)
    requires AllSealed(list) && AllSealed(ch.written) && Orderly(k, list, ch)
    ensures AllSealed(ch.after)
  {
    hide DigestOf, Proper;
    forall i | 0 <= i < |ch.after| ensures ch.after[i].digest == DigestOf(ch.after[i]) {
      assert ch.after[i] in ch.written || ch.after[i] in list;
    }
  }

  lemma CarrySealed(d: Desk, tenant: string, actor: string, ch: Change, w: World)
    requires SealedDesk(d) && AllSealed(ch.written) && Orderly((tenant, ch.connection), ListOf(d.lists, (tenant, ch.connection)), ch)
    ensures var e := Carry(d, tenant, actor, ch, w).0;
            (if d.store.Store? then e.store.Store? && SealedRows(e.store.rows) else SealedDesk(e))
  {
    hide DigestOf, Orderly, SaveRows, IdOf;
    AfterSealed((tenant, ch.connection), ListOf(d.lists, (tenant, ch.connection)), ch);
    if d.store.Store? { SavedSealed(d.store.rows, ch.written); }
  }

  lemma ExecSealed(d: Desk, tenant: string, actor: string, cmd: Command, w: World)
    requires SealedDesk(d) && Valid(d, true) && GoodAnswer(d, tenant, w.fetched) && !Spoils(d, tenant, actor, cmd, w)
    ensures var e := Exec(d, tenant, actor, cmd, w).0; SealedDesk(e) && Valid(e, true)
  {
    hide Valid, Load, Carry, Plan, Orderly, SealedLists, SealedRows, Spoils, GoodAnswer, ListsOk;
    var e := Exec(d, tenant, actor, cmd, w).0;
    ExecKeeps(d, tenant, actor, cmd, w, true);
    var open := Load(d, tenant, w.fetched);
    if Refusal(actor, cmd, w.allowed) == None && open.Some? {
      var o := open.value;
      LoadKeeps(d, tenant, w.fetched, true);
      LoadSame(d, tenant, w.fetched);
      if d.store.Store? { MirrorsSeal(o); } else { LoadIdle(d, tenant, w.fetched); }
      ValidLists(o, true);
      PlanOrderly(o.lists, tenant, actor, cmd, w.clock);
      if Plan(o.lists, tenant, actor, cmd, w.clock).Ok? {
        var ch := Plan(o.lists, tenant, actor, cmd, w.clock).value;
        PlanSealed(o.lists, tenant, actor, cmd, w.clock);
        CarrySealed(o, tenant, actor, ch, w);
      }
      if e.store.Store? && SealedRows(e.store.rows) { MirrorsSeal(e); }
    }
  }

  lemma LoadIdle(d: Desk, tenant: string, fetched: Option<seq<Revision>>)
    requires d.store.NoStore?
    ensures Load(d, tenant, fetched) == Some(d)
  {
  }

  /** No SetTier of the run loses its write on a tier it changes. */
  ghost predicate Clean(durable: bool, actions: seq<Action>)
  {
    actions == [] ||
    var before, a := actions[..|actions| - 1], actions[|actions| - 1];
    Clean(durable, before) && (a.Issue? ==> !Spoils(Run(durable, before).desk, a.tenant, a.actor, a.cmd, a.world))
  }

  lemma {:induction false} CleanRunsMirror(durable: bool, actions: seq<Action>)
    requires Clean(durable, actions)
    ensures SealedDesk(Run(durable, actions).desk) && Valid(Run(durable, actions).desk, true)
  {
    hide Spoils, Valid, SealedLists, SealedRows, Exec, GoodAnswer;
    if actions == [] {
      StartIsExact(durable);
    } else {
      var before, a := actions[..|actions| - 1], actions[|actions| - 1];
      CleanRunsMirror(durable, before);
      var m := Run(durable, before);
      match a
      case Restart => RestartExact(m.desk);
      case Issue(tenant, actor, cmd, w) =>
        if GoodAnswer(m.desk, tenant, w.fetched) { ExecSealed(m.desk, tenant, actor, cmd, w); }
    }
  }

  /** The same since the last restart, which throws away whatever memory had come to hold. */
  ghost predicate CleanSinceRestart(durable: bool, actions: seq<Action>)
  {
    actions == [] ||
    var before, a := actions[..|actions| - 1], actions[|actions| - 1];
    a.Restart? || (CleanSinceRestart(durable, before) && !Spoils(Run(durable, before).desk, a.tenant, a.actor, a.cmd, a.world))
  }

  lemma {:induction false} RestartsMirror(durable: bool, actions: seq<Action>)
    requires CleanSinceRestart(durable, actions)
    ensures Valid(Run(durable, actions).desk, true)
  {
    hide Spoils, Valid, Exec, GoodAnswer, SoundDesk;
    if actions == [] {
      StartIsExact(durable);
    } else {
      var before, a := actions[..|actions| - 1], actions[|actions| - 1];
      RunsAreSound(durable, before);
      var m := Run(durable, before);
      match a
      case Restart => RestartMirrors(m.desk);
      case Issue(tenant, actor, cmd, w) =>
        RestartsMirror(durable, before);
        if GoodAnswer(m.desk, tenant, w.fetched) { ExecKeeps(m.desk, tenant, actor, cmd, w, true); }
    }
  }

  lemma RestartMirrors(d: Desk)
    requires Valid(d, false)
    ensures Valid(Desk(map[], {}, [], d.store, d.announced), true)
  {
  }

  lemma StartIsExact(durable: bool)
    ensures SealedDesk(Start(durable).desk) && Valid(Start(durable).desk, true)
  {
  }

  lemma RestartExact(d: Desk)
    requires SealedDesk(d) && Valid(d, true)
    ensures var r := Desk(map[], {}, [], d.store, d.announced); SealedDesk(r) && Valid(r, true)
  {
    hide DigestOf;
  }

  // ---- the audit trail ---------------------------------------------------------------------------

  function Entry(e: Event): AuditEvent { AuditEvent(e.at, e.tenant, e.actor, ActionOf(e.cmd), IdOf(e.result)) }

  function Entries(log: seq<Event>): (r: seq<AuditEvent>)
    ensures |r| == |log| && forall i :: 0 <= i < |r| ==> r[i] == Entry(log[i])
  {
    if log == [] then [] else Entries(log[..|log| - 1]) + [Entry(log[|log| - 1])]
  }

  predicate Suffix(a: seq<AuditEvent>, b: seq<AuditEvent>) { |a| <= |b| && b[|b| - |a|..] == a }

  lemma PlanAction(lists: map<Key, seq<Revision>>, tenant: string, actor: string, cmd: Command, clock: Time)
    requires (cmd.Import? ==> cmd.tools.Listed?) && Plan(lists, tenant, actor, cmd, clock).Ok?
    ensures Plan(lists, tenant, actor, cmd, clock).value.action == ActionOf(cmd)
  {
    hide DigestOf, Edit, NeedsSecondAdmin, Cleared;
  }

  lemma ExecTrail(d: Desk, tenant: string, actor: string, cmd: Command, w: World)
    ensures var (e, r) := Exec(d, tenant, actor, cmd, w);
            && e.store.Store? == d.store.Store?
            && (r.Err? ==> e.audit == d.audit && e.store == d.store)
            && (r.Ok? ==> var entry := Entry(Done(tenant, actor, cmd, r.value, w.stamp));
                          e.audit == d.audit + [entry] && (d.store.Store? ==> e.store.trail == d.store.trail + [entry]))
  {
    hide Load, Plan, SaveRows, IdOf;
    var open := Load(d, tenant, w.fetched);
    if Refusal(actor, cmd, w.allowed) == None && open.Some? {
      LoadSame(d, tenant, w.fetched);
      if Plan(open.value.lists, tenant, actor, cmd, w.clock).Ok? { PlanAction(open.value.lists, tenant, actor, cmd, w.clock); }
    }
  }

  lemma EntriesGrow(log: seq<Event>, e: Event, a: seq<AuditEvent>)
    ensures Entries(log + [e]) == Entries(log) + [Entry(e)]
    ensures Suffix(a, Entries(log)) ==> Suffix(a + [Entry(e)], Entries(log + [e]))
  {
    hide Entry;
    assert (log + [e])[..|log|] == log;
  }

  /** The store's trail is one entry for each command that succeeded, in order; the memory's is its
      part since the last restart. */
  lemma {:induction false} TrailIsComplete(durable: bool, actions: seq<Action>)
    ensures var m := Run(durable, actions);
            && m.desk.store.Store? == durable
            && (durable ==> m.desk.store.trail == Entries(m.log))
            && Suffix(m.desk.audit, Entries(m.log))
  {
    hide Exec, GoodAnswer, Entries, Entry;
    if actions == [] {
      assert Entries([]) == [];
    } else {
      var before, a := actions[..|actions| - 1], actions[|actions| - 1];
      TrailIsComplete(durable, before);
      var m := Run(durable, before);
      if a.Issue? && GoodAnswer(m.desk, a.tenant, a.world.fetched) {
        ExecTrail(m.desk, a.tenant, a.actor, a.cmd, a.world);
        var r := Exec(m.desk, a.tenant, a.actor, a.cmd, a.world).1;
        if r.Ok? { EntriesGrow(m.log, Done(a.tenant, a.actor, a.cmd, r.value, a.world.stamp), m.desk.audit); }
      }
    }
  }

  // ---- the promises --------------------------------------------------------------------------------

  /** In memory or in the store. */
  ghost predicate Known(d: Desk, r: Revision)
  {
    (exists k, i :: k in d.lists && 0 <= i < |d.lists[k]| && d.lists[k][i] == r)
    || (d.store.Store? && exists k :: k in d.store.rows && d.store.rows[k] == r)
  }

  /** The three events behind a live revision, in this order: its creation, the request for its approval, and
      the approval with step-up by someone who did neither, on exactly the revision's content; all three of
      one revision of its connection, by the people the revision names. */
  ghost predicate ApprovedBySomeoneElse(log: seq<Event>, r: Revision, h: nat, i: nat, j: nat)
    requires h < i < j < |log|
  {
    var c, q, a := log[h], log[i], log[j];
    && c.cmd.Create? && q.cmd.RequestApproval? && a.cmd.Approve? && a.cmd.stepUp
    && c.tenant == q.tenant == a.tenant == r.tenant && c.result.connection == q.result.connection == a.result.connection == r.connection
    && c.result.number == q.result.number == a.result.number
    && c.actor == r.createdBy && q.actor == r.requestedBy && a.actor == r.approvedBy && a.actor != c.actor && a.actor != q.actor
    && SameContent(a.result, r)
  }

  lemma VouchedInOrder(log: seq<Event>, r: Revision)
    requires Vouched(log, r)
    ensures exists h: nat, i: nat, j: nat :: h < i < j < |log| && ApprovedBySomeoneElse(log, r, h, i, j)
  {
    hide SameContent;
    var j :| 0 <= j < |log| && Vouches(log, j, r);
    var n := log[j].result.number;
    var i :| 0 <= i < j && Requests(log[i], r) && log[i].result.number == n && Authored(log, i, r, n);
    var h :| 0 <= h < i && Authors(log[h], r) && log[h].result.number == n;
    assert ApprovedBySomeoneElse(log, r, h, i, j);
  }

  /** At every point of every run, whatever writes failed: a revision that is or was live and needs a second
      administrator was created, asked for and approved with step-up by someone other than whoever did the
      first two, on exactly its skills, grants, mode and snapshot. */
  lemma LiveWasApproved(durable: bool, actions: seq<Action>, r: Revision)
    requires Known(Run(durable, actions).desk, r) && Live(r) && NeedsSecondAdmin(r)
    ensures var log := Run(durable, actions).log;
            exists h: nat, i: nat, j: nat :: h < i < j < |log| && ApprovedBySomeoneElse(log, r, h, i, j) && NeedsSecondAdmin(log[j].result)
  {
    hide Run, Step, Valid, SameContent, NeedsSecondAdmin, Vouched, Authored, AskedFor;
    RunsAreSound(durable, actions);
    var log := Run(durable, actions).log;
    assert Sound(log, r);
    VouchedInOrder(log, r);
    var h: nat, i: nat, j: nat :| h < i < j < |log| && ApprovedBySomeoneElse(log, r, h, i, j);
    ContentDecidesSecondAdmin(log[j].result, r);
  }

  /** The same holds of everything the publisher was ever asked to make live. */
  lemma AnnouncedWasApproved(durable: bool, actions: seq<Action>, k: nat)
    requires k < |Run(durable, actions).desk.announced| && NeedsSecondAdmin(Run(durable, actions).desk.announced[k])
    ensures var m := Run(durable, actions);
            exists h: nat, i: nat, j: nat :: h < i < j < |m.log| && ApprovedBySomeoneElse(m.log, m.desk.announced[k], h, i, j)
  {
    hide Run, Step, Valid, SameContent, NeedsSecondAdmin, Vouched, ApprovedBySomeoneElse;
    RunsAreSound(durable, actions);
    var m := Run(durable, actions);
    assert Announceable(m.log, m.desk.announced[k]);
    VouchedInOrder(m.log, m.desk.announced[k]);
  }

  /** Numbers strictly increase along every list and at most one revision of it is published. */
  lemma ListsStayProper(durable: bool, actions: seq<Action>, k: Key)
    ensures Proper(k, ListOf(Run(durable, actions).desk.lists, k))
  {
    hide Run, Step, SoundDesk, Mirrors, RowsOk, Proper;
    RunsAreSound(durable, actions);
    ListIsProper(Run(durable, actions).desk.lists, k);
  }

  /** A console that starts now and reads the store, in whatever order it answers, sees the lists this one
      remembers, unless a SetTier since the last restart lost its write; and while none ever did, each
      revision stands under its own recomputed digest. */
  lemma MemoryIsTheStore(actions: seq<Action>, tenant: string, fetched: seq<Revision>, c: string)
    requires CleanSinceRestart(true, actions)
    requires var d := Run(true, actions).desk; tenant in d.loaded && d.store.Store? && Faithful(d.store.rows, tenant, fetched)
    ensures var d := Run(true, actions).desk;
            && ListOf(FreshLists(tenant, fetched), (tenant, c)) == ListOf(d.lists, (tenant, c))
            && (Clean(true, actions) ==> AllSealed(ListOf(d.lists, (tenant, c))))
  {
    hide Run, Clean, CleanSinceRestart, Valid, DigestOf, Faithful, FreshLists, SealedRows;
    RestartsMirror(true, actions);
    FreshSeesMemory(Run(true, actions).desk, tenant, fetched, c);
    if Clean(true, actions) { CleanRunsMirror(true, actions); }
  }

  // ---- what publishing does ------------------------------------------------------------------------------

  /** The list after revision i of it became r: r in its place, what was live retired, all else as it was. */
  ghost predicate PutLive(list: seq<Revision>, after: seq<Revision>, i: nat, r: Revision)
  {
    && i < |after| == |list| && after[i] == r && r.status == Published
    && forall k :: 0 <= k < |list| && k != i ==> after[k] == if list[k].status == Published then list[k].(status := Superseded) else list[k]
  }

  /** The named revision may be made live: a new one past its gate, or a superseded one again. */
  ghost predicate MayPublish(r: Revision, cmd: Command)
  {
    if cmd.Publish? then !Live(r) && (NeedsSecondAdmin(r) ==> r.status == Approved && r.stepUp && r.approvedBy != "" && r.approvedBy != r.createdBy && r.digest == DigestOf(r))
    else r.status == Superseded
  }

  /** What the publisher is told: the named revision itself, or its content under the next number. */
  ghost predicate ToldAs(told: Revision, named: Revision, list: seq<Revision>, cmd: Command)
  {
    if cmd.Publish? then told == named
    else && SameBody(told, named) && told.provider == named.provider && told.approvedAt == named.approvedAt && told.digest == DigestOf(told)
         && forall k :: 0 <= k < |list| ==> list[k].number < told.number
  }

  /** The list that a publication works on: the stored one, with the revision to roll back to appended. */
  function WorkList(list: seq<Revision>, cmd: Command, told: Revision): seq<Revision> { if cmd.Publish? then list else list + [told] }

  lemma PlannedPublication(list: seq<Revision>, p: Place, actor: string, cmd: Command, clock: Time)
    requires p.index < |list| && Increasing(list) && (cmd.Publish? || cmd.Rollback?)
    ensures PlanAt(list, p, actor, cmd, clock).Ok? <==> MayPublish(list[p.index], cmd)
    ensures var plan := PlanAt(list, p, actor, cmd, clock);
            plan.Ok? ==>
              && plan.value.announces.Some? && plan.value.connection == p.connection && plan.value.unsaved == list
              && var told, r := plan.value.announces.value, plan.value.result;
                 && ToldAs(told, list[p.index], list, cmd) && r == told.(status := Published, publishedAt := clock)
                 && PutLive(WorkList(list, cmd, told), plan.value.after, if cmd.Publish? then p.index else |list|, r)
  {
    hide DigestOf, NeedsSecondAdmin, RetireAll, Retired;
    if cmd.Rollback? && list[p.index].status == Superseded {
      RepublishedBody(list[p.index], NextNumber(list));
    }
  }

  lemma RepublishedBody(r: Revision, number: nat)
    ensures var next := Republished(r, number);
            SameBody(next, r) && next.provider == r.provider && next.approvedAt == r.approvedAt && next.number == number && next.digest == DigestOf(next)
  {
  }

  /** The command got as far as the named revision. */
  ghost predicate Reaches(d: Desk, tenant: string, actor: string, cmd: Command, w: World, open: Desk, p: Place)
    requires cmd.Publish? || cmd.Rollback?
  {
    !Blank(actor) && w.allowed && Load(d, tenant, w.fetched) == Some(open) && Find(open.lists, tenant, cmd.id) == Some(p)
  }

  /** Publish and Rollback, from every reachable state: if the publisher refuses, the answer is its error and
      nothing is changed; if it accepts, it has been told exactly one revision, the named one as it stood or
      its content under a new number; and then the store's answer decides whether that revision is live. */
  lemma PublishingTells(durable: bool, actions: seq<Action>, tenant: string, actor: string, cmd: Command, w: World, open: Desk, p: Place)
    requires cmd.Publish? || cmd.Rollback?
    requires GoodAnswer(Run(durable, actions).desk, tenant, w.fetched) && Reaches(Run(durable, actions).desk, tenant, actor, cmd, w, open, p)
    ensures p.index < |ListOf(open.lists, (tenant, p.connection))|
    ensures var list := ListOf(open.lists, (tenant, p.connection));
            var (e, answer) := Exec(Run(durable, actions).desk, tenant, actor, cmd, w);
            if !MayPublish(list[p.index], cmd) then e == open && answer.Err? && answer.error != PublisherFailed
            else if !w.publishes then e == open && answer == Err(PublisherFailed)
            else exists told, after :: Told(open, e, answer, tenant, cmd, w, p, told, after)
  {
    hide Run, Find, DigestOf, NeedsSecondAdmin, Blank, Save, IdOf, MayPublish, Load, PlanAt, Valid, ListsOk;
    RunsAreSound(durable, actions);
    var d := Run(durable, actions).desk;
    LoadKeeps(d, tenant, w.fetched, false);
    LoadSame(d, tenant, w.fetched);
    ValidLists(open, false);
    var k := (tenant, p.connection);
    FindIsThere(open.lists, tenant, cmd.id);
    ListIsProper(open.lists, k);
    var list := ListOf(open.lists, k);
    PlannedPublication(list, p, actor, cmd, w.clock);
    if !MayPublish(list[p.index], cmd) { RefusedError(list, p, actor, cmd, w.clock); }
    if MayPublish(list[p.index], cmd) && w.publishes {
      var ch := PlanAt(list, p, actor, cmd, w.clock).value;
      PutSame(open.lists, k);
      var (e, answer) := Exec(d, tenant, actor, cmd, w);
      assert Told(open, e, answer, tenant, cmd, w, p, ch.announces.value, ch.after);
    }
  }

  /** The publisher was told one revision; with a store that writes, it is live, and otherwise all else is as
      it was. */
  ghost predicate Told(open: Desk, e: Desk, answer: Result<Revision>, tenant: string, cmd: Command, w: World, p: Place, told: Revision, after: seq<Revision>)
    requires cmd.Publish? || cmd.Rollback?
    requires p.index < |ListOf(open.lists, (tenant, p.connection))|
  {
    var list := ListOf(open.lists, (tenant, p.connection));
    var r := told.(status := Published, publishedAt := w.clock);
    && ToldAs(told, list[p.index], list, cmd) && e.announced == open.announced + [told] && e.loaded == open.loaded
    && if open.store.Store? && !w.writes then answer == Err(Unavailable) && e == open.(announced := e.announced)
       else answer == Ok(r) && e.lists == open.lists[(tenant, p.connection) := after]
            && PutLive(WorkList(list, cmd, told), after, if cmd.Publish? then p.index else |list|, r)
  }

  lemma FindIsThere(lists: map<Key, seq<Revision>>, tenant: string, id: string)
    ensures var p := Find(lists, tenant, id);
            p.Some? ==> (tenant, p.value.connection) in lists && p.value.index < |ListOf(lists, (tenant, p.value.connection))|
  {
  }

  lemma RefusedError(list: seq<Revision>, p: Place, actor: string, cmd: Command, clock: Time)
    requires p.index < |list| && (cmd.Publish? || cmd.Rollback?) && PlanAt(list, p, actor, cmd, clock).Err?
    ensures PlanAt(list, p, actor, cmd, clock).error != PublisherFailed
  {
    hide DigestOf, NeedsSecondAdmin;
  }

  /** No other command tells the publisher anything. */
  lemma OthersTellNothing(d: Desk, tenant: string, actor: string, cmd: Command, w: World)
    requires !cmd.Publish? && !cmd.Rollback?
    ensures Exec(d, tenant, actor, cmd, w).0.announced == d.announced
  {
    hide Find, DigestOf, NeedsSecondAdmin, Blank, Save, IdOf, Load, Edit, Put;
    LoadSame(d, tenant, w.fetched);
  }

  /** The gate is not a wall: in every clean run an approved revision of a connection whose id has no '#' can
      be published. The publisher is told that very revision, it is live in memory and store, what was live
      before is retired, and the trail has one more entry. */
  lemma ApprovedCanBePublished(actions: seq<Action>, k: Key, i: nat, actor: string, w: World)
    requires Clean(true, actions)
    requires var d := Run(true, actions).desk; k in d.lists && i < |d.lists[k]| && d.lists[k][i].status == Approved && d.lists[k][i].number <= MAX_UINT
    requires '#' !in k.1 && !Blank(actor) && w.allowed && w.publishes && w.writes
    ensures var d := Run(true, actions).desk;
            var r := d.lists[k][i];
            var (e, answer) := Exec(d, k.0, actor, Publish(IdOf(r)), w);
            && answer == Ok(r.(status := Published, publishedAt := w.clock)) && e.announced == d.announced + [r]
            && k in e.lists && e.lists == d.lists[k := e.lists[k]] && PutLive(d.lists[k], e.lists[k], i, answer.value)
            && e.loaded == d.loaded && Valid(e, true)
            && d.store.Store? && e.store.Store? && e.store.trail == d.store.trail + [AuditEvent(w.stamp, k.0, actor, "publish", IdOf(answer.value))]
  {
    hide Run, Clean, DigestOf, NeedsSecondAdmin, IdOf, Find, Carry, Valid, Proper, Exec, PutLive, ToldAs, GoodAnswer, Sound;
    CleanRunsMirror(true, actions);
    RunsAreSound(true, actions);
    TrailIsComplete(true, actions);
    var m := Run(true, actions);
    var d, r := m.desk, m.desk.lists[k][i];
    KeyIsLoaded(d, k);
    IdLeadsBack(d.lists, k, i);
    SoundMember(m.log, d.lists, k, i);
    SealedMember(d, k, i);
    ApprovedIsCleared(m.log, r);
    var cmd := Publish(IdOf(r));
    assert Load(d, k.0, w.fetched) == Some(d);
    LoadedAnswers(d, k.0, w.fetched);
    assert Reaches(d, k.0, actor, cmd, w, d, Place(k.1, i));
    PublishingTells(true, actions, k.0, actor, cmd, w, d, Place(k.1, i));
    var (e, answer) := Exec(d, k.0, actor, cmd, w);
    var told, after :| Told(d, e, answer, k.0, cmd, w, Place(k.1, i), told, after);
    ToldPublish(told, r, d.lists[k], cmd);
    ExecKeeps(d, k.0, actor, cmd, w, true);
    ExecTrail(d, k.0, actor, cmd, w);
  }

  lemma ToldPublish(told: Revision, r: Revision, list: seq<Revision>, cmd: Command)
    requires ToldAs(told, r, list, cmd) && cmd.Publish?
    ensures told == r
  {
  }

  lemma KeyIsLoaded(d: Desk, k: Key)
    requires Valid(d, true) && d.store.Store? && k in d.lists
    ensures k.0 in d.loaded && Proper(k, d.lists[k])
  {
    hide Proper, ListBacked;
  }

  lemma SealedMember(d: Desk, k: Key, i: nat)
    requires SealedDesk(d) && k in d.lists && i < |d.lists[k]|
    ensures d.lists[k][i].digest == DigestOf(d.lists[k][i])
  {
    hide DigestOf;
    assert AllSealed(d.lists[k]);
  }

  lemma ApprovedIsCleared(log: seq<Event>, r: Revision)
    requires Sound(log, r) && r.status == Approved && r.digest == DigestOf(r)
    ensures Cleared(r)
  {
    hide DigestOf, NeedsSecondAdmin, SameContent;
    var j :| 0 <= j < |log| && Backs(log, j, r);
  }

  // ---- where the promises end, as runs -----------------------------------------------------------------

  lemma RunGrows(durable: bool, actions: seq<Action>, a: Action)
    ensures Run(durable, actions + [a]) == Step(Run(durable, actions), a)
  {
    hide Step;
    assert (actions + [a])[..|actions|] == actions;
  }

  /** Nothing stored yet, and everything answers. */
  const CALM := World(true, Some([]), true, true, 0, 0)

  /** The desk after the first revision was created. */
  function FirstDesk(r: Revision, actor: string): Desk
  {
    var event := AuditEvent(0, r.tenant, actor, "create", IdOf(r));
    Desk(map[(r.tenant, r.connection) := [r]], {r.tenant}, [event], Store(map[RowOf(r) := r], [event]), [])
  }

  lemma EmptyLoad(tenant: string)
    ensures var d := Start(true).desk; GoodAnswer(d, tenant, Some([])) && Load(d, tenant, Some([])) == Some(d.(loaded := {tenant}))
  {
    var none: seq<Revision> := [];
    assert Sort(RevisionLe, none) == none;
    assert Grouped(map[], tenant, none) == map[];
    assert {} + {tenant} == {tenant};
  }

  lemma FirstCarry(tenant: string, actor: string, r: Revision)
    requires r.tenant == tenant
    ensures var d := Start(true).desk.(loaded := {tenant});
            Carry(d, tenant, actor, Change(r.connection, [r], [r], r, None, [], "create"), CALM) == (FirstDesk(r, actor), Ok(r))
  {
    hide IdOf;
    var none: map<RowKey, Revision> := map[];
    var event := AuditEvent(0, tenant, actor, "create", IdOf(r));
    assert [r][..0] == [];
    assert SaveRows(none, [r]) == none[RowOf(r) := r] == map[RowOf(r) := r];
    assert [] + [event] == [event];
  }

  lemma FirstCreate(tenant: string, actor: string, draft: Revision)
    requires DraftFits(draft) && !Blank(actor)
    ensures var r := NewDraft(draft, tenant, actor, 1);
            Run(true, [Issue(tenant, actor, Create(draft), CALM)]) == Machine(FirstDesk(r, actor), [Done(tenant, actor, Create(draft), r, 0)])
  {
    hide DraftFits, Blank, NewDraft, Load, Carry, GoodAnswer, FirstDesk;
    var r, a := NewDraft(draft, tenant, actor, 1), Issue(tenant, actor, Create(draft), CALM);
    RunGrows(true, [], a);
    assert [] + [a] == [a];
    EmptyLoad(tenant);
    DraftIsPlaced(draft, tenant, actor, 1);
    FirstCarry(tenant, actor, r);
    assert [] + [r] == [r];
  }

  lemma DraftIsPlaced(draft: Revision, tenant: string, actor: string, number: nat)
    ensures var r := NewDraft(draft, tenant, actor, number);
            && RowOf(r) == RowKey(tenant, draft.connection, number) && r.tenant == tenant && r.connection == draft.connection
            && r.skills == draft.skills && r.status == Draft && r.number == number
  {
  }

  lemma FirstIsExact(tenant: string, actor: string, draft: Revision)
    requires DraftFits(draft) && !Blank(actor)
    ensures Valid(Run(true, [Issue(tenant, actor, Create(draft), CALM)]).desk, true)
  {
    hide DraftFits, Blank, Run, Valid;
    var a := Issue(tenant, actor, Create(draft), CALM);
    assert Clean(true, [a]) by { assert [a][..0] == []; }
    CleanRunsMirror(true, [a]);
  }

  const DRAFT := Revision("c", "", 0, "", Draft, UserDelegated, "", [Skill("s", T0, "", false, "")], [], "", "", "", 0, false, OtherText(""), 0)
  const KEPT := NewDraft(DRAFT, "t", "a", 1)

  lemma DraftIsFit(connection: string)
    requires connection == "c" || connection == "a#b"
    ensures DraftFits(DRAFT.(connection := connection)) && !Blank("a")
  {
    assert !IsSpace('c') && !IsSpace('s') && !IsSpace('a') && !IsSpace('b');
    assert !Blank("c") && !Blank("s") && !Blank("a#b");
    assert |""| == 0;
  }

  /** One creation, then a SetTier whose write fails: memory holds the new tier under an error, the store the
      old one, and nothing was recorded. */
  lemma SpoiledRun()
    ensures var created := Issue("t", "a", Create(DRAFT), CALM);
            var retier := Issue("t", "a", SetTier(IdOf(KEPT), "s", T4), CALM.(writes := false));
            var m := Run(true, [created] + [retier]);
            && m.log == [Done("t", "a", Create(DRAFT), KEPT, 0)]
            && m.desk.lists == map[("t", "c") := [KEPT.(skills := [Skill("s", T4, "", false, "")])]]
            && m.desk.store.Store? && m.desk.store.rows == map[RowKey("t", "c", 1) := KEPT] && KEPT.skills == [Skill("s", T0, "", false, "")]
            && !Valid(m.desk, true)
  {
    hide DraftFits, Blank, Run, Valid, NewDraft, IdOf, Exec, GoodAnswer, Find, Retiered;
    var created, w := Issue("t", "a", Create(DRAFT), CALM), CALM.(writes := false);
    var cmd := SetTier(IdOf(KEPT), "s", T4);
    DraftIsFit("c");
    FirstCreate("t", "a", DRAFT);
    FirstIsExact("t", "a", DRAFT);
    DraftIsPlaced(DRAFT, "t", "a", 1);
    RunGrows(true, [created], Issue("t", "a", cmd, w));
    var d := FirstDesk(KEPT, "a");
    KeptSpoils(d, w);
    SpoiledOutcome(d, "t", "a", cmd, w);
    LoadedAnswers(d, "t", w.fetched);
    OneRetiered(KEPT);
  }

  lemma LoadedAnswers(d: Desk, tenant: string, fetched: Option<seq<Revision>>)
    requires tenant in d.loaded
    ensures GoodAnswer(d, tenant, fetched)
  {
  }

  lemma KeptSpoils(d: Desk, w: World)
    requires d == FirstDesk(KEPT, "a") && w == CALM.(writes := false) && Valid(d, true)
    ensures Find(d.lists, "t", IdOf(KEPT)) == Some(Place("c", 0)) && Spoils(d, "t", "a", SetTier(IdOf(KEPT), "s", T4), w)
  {
    hide NewDraft, IdOf, Find, Blank;
    DraftIsFit("c");
    DraftIsPlaced(DRAFT, "t", "a", 1);
    assert d.lists[("t", "c")][0] == KEPT;
    assert Proper(("t", "c"), [KEPT]);
    assert '#' !in "c";
    IdLeadsBack(d.lists, ("t", "c"), 0);
    assert KEPT.skills[0] in KEPT.skills;
    assert Overwrites(KEPT, "s", T4);
  }

  lemma OneRetiered(r: Revision)
    requires r.skills == [Skill("s", T0, "", false, "")]
    ensures Retiered(r.skills, "s", T4) == [Skill("s", T4, "", false, "")]
    ensures [r][0 := r.(skills := Retiered(r.skills, "s", T4))] == [r.(skills := [Skill("s", T4, "", false, "")])]
  {
    assert Retiered(r.skills, "s", T4) == [Skill("s", T4, "", false, "")];
  }

  /** One creation on a connection whose id holds a '#': the console answers with a revision that no command
      can name any more. */
  lemma UnreachableRun(cmd: Command, w: World)
    requires w.allowed && (cmd.RequestApproval? || cmd.Approve? || cmd.Publish? || cmd.Rollback? || cmd.SetGrants?)
    requires cmd.id == IdOf(NewDraft(DRAFT.(connection := "a#b"), "t", "a", 1))
    ensures var draft := DRAFT.(connection := "a#b");
            var r := NewDraft(draft, "t", "a", 1);
            var m := Run(true, [Issue("t", "a", Create(draft), CALM)]);
            && m.log == [Done("t", "a", Create(draft), r, 0)] && ListOf(m.desk.lists, ("t", "a#b")) == [r]
            && Exec(m.desk, "t", "a", cmd, w) == (m.desk, Err(Absent))
  {
    hide DraftFits, Blank, Run, NewDraft, IdOf, Find;
    var draft := DRAFT.(connection := "a#b");
    var r, d := NewDraft(draft, "t", "a", 1), FirstDesk(NewDraft(draft, "t", "a", 1), "a");
    DraftIsFit("a#b");
    FirstCreate("t", "a", draft);
    DraftIsPlaced(draft, "t", "a", 1);
    assert d.lists[("t", "a#b")][0] == r;
    assert Proper(("t", "a#b"), [r]);
    assert "a#b"[1] == '#';
    IdLeadsBack(d.lists, ("t", "a#b"), 0);
    assert Load(d, "t", w.fetched) == Some(d);
  }
}
