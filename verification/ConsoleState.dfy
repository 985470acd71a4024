/** The shape every console state keeps: numbered lists in memory over the rows of the store. */
module ConsoleState {
  import opened Wrappers
  import opened Ordering
  import opened ConnectionConsole

  /** Equal but for the skills. */
  predicate Alike(a: Revision, b: Revision) { a == b.(skills := a.skills) }

  predicate HasNumber(list: seq<Revision>, n: nat) { exists i :: 0 <= i < |list| && list[i].number == n }

  predicate Rivals(rows: map<RowKey, Revision>, j: RowKey, k: RowKey)
    requires j in rows && k in rows
  {
    j != k && j.tenant == k.tenant && j.connection == k.connection && rows[j].status == Published && rows[k].status == Published
  }

  ghost predicate RowsOk(rows: map<RowKey, Revision>)
  {
    && (forall k :: k in rows ==> RowOf(rows[k]) == k)
    && (forall j, k :: j in rows && k in rows ==> !Rivals(rows, j, k))
  }

  predicate Backed(rows: map<RowKey, Revision>, r: Revision, exact: bool)
  {
    RowOf(r) in rows && Alike(rows[RowOf(r)], r) && (exact ==> rows[RowOf(r)] == r)
  }

  predicate ListBacked(rows: map<RowKey, Revision>, list: seq<Revision>, exact: bool)
  {
    forall i :: 0 <= i < |list| ==> Backed(rows, list[i], exact)
  }

  predicate RowListed(lists: map<Key, seq<Revision>>, k: RowKey) { HasNumber(ListOf(lists, (k.tenant, k.connection)), k.number) }

  ghost predicate Mirrors(d: Desk, exact: bool)
    requires d.store.Store?
  {
    && (forall k :: k in d.lists ==> k.0 in d.loaded && ListBacked(d.store.rows, d.lists[k], exact))
    && (forall k :: k in d.store.rows && k.tenant in d.loaded ==> RowListed(d.lists, k))
  }

  ghost predicate ListsOk(lists: map<Key, seq<Revision>>) { forall k :: k in lists ==> Proper(k, lists[k]) }

  /** Memory holds proper lists; the store holds the same revisions, the very same ones when exact. */
  ghost predicate Valid(d: Desk, exact: bool)
  {
    ListsOk(d.lists) && (d.store.Store? ==> RowsOk(d.store.rows) && Mirrors(d, exact))
  }

  // ---- reading a tenant's revisions back ------------------------------------------------------

  function OnConnection(rs: seq<Revision>, c: string): (r: seq<Revision>)
    ensures forall x :: x in r <==> x in rs && x.connection == c
  {
    if rs == [] then []
    else
      var before := OnConnection(rs[..|rs| - 1], c);
      var last := rs[|rs| - 1];
      assert rs == rs[..|rs| - 1] + [last];
      if last.connection == c then before + [last] else before
  }

  lemma {:induction false} GroupedLists(lists: map<Key, seq<Revision>>, tenant: string, rs: seq<Revision>, k: Key)
    ensures ListOf(Grouped(lists, tenant, rs), k) == ListOf(lists, k) + if k.0 == tenant then OnConnection(rs, k.1) else []
    ensures k in Grouped(lists, tenant, rs) ==> k in lists || k.0 == tenant
  {
    if rs != [] { GroupedLists(lists, tenant, rs[..|rs| - 1], k); }
  }

  predicate NoTwins(rs: seq<Revision>) { forall i, j :: 0 <= i < j < |rs| ==> RowOf(rs[i]) != RowOf(rs[j]) }

  lemma {:induction false} SortedConnection(rs: seq<Revision>, c: string)
    requires Sorted(RevisionLe, rs) && NoTwins(rs) && forall i, j :: 0 <= i < j < |rs| ==> rs[i].tenant == rs[j].tenant
    ensures Increasing(OnConnection(rs, c))
  {
    if rs != [] {
      var init, last := rs[..|rs| - 1], rs[|rs| - 1];
      SortedConnection(init, c);
      if last.connection == c {
        forall x | x in OnConnection(init, c) ensures x.number < last.number {
          var i :| 0 <= i < |init| && init[i] == x;
          assert RevisionLe(rs[i], last) && RowOf(rs[i]) != RowOf(last);
        }
      }
    }
  }

  lemma RevisionOrder()
    ensures TotalPreorder(RevisionLe)
  {
    forall a: Revision, b: Revision ensures RevisionLe(a, b) || RevisionLe(b, a) { LexTotal(a.connection, b.connection); }
    forall a: Revision, b: Revision, c: Revision | RevisionLe(a, b) && RevisionLe(b, c) ensures RevisionLe(a, c) {
      if a.connection != b.connection && b.connection != c.connection {
        LexTransitive(a.connection, b.connection, c.connection);
        if a.connection == c.connection { LexAntisymmetric(a.connection, b.connection); }
      }
    }
  }

  /** What the sort makes of a faithful answer. */
  lemma SortedFetch(rows: map<RowKey, Revision>, tenant: string, fetched: seq<Revision>)
    requires RowsOk(rows) && Faithful(rows, tenant, fetched)
    ensures var sorted := Sort(RevisionLe, fetched);
            && (forall x :: x in sorted <==> RowOf(x) in rows && rows[RowOf(x)] == x && x.tenant == tenant)
            && forall c :: Increasing(OnConnection(sorted, c))
  {
    var sorted := Sort(RevisionLe, fetched);
    RevisionOrder();
    SortSorts(RevisionLe, fetched);
    SortKeeps(RevisionLe, fetched);
    SortDistinct(RevisionLe, fetched);
    forall i | 0 <= i < |sorted| ensures sorted[i].tenant == tenant && RowOf(sorted[i]) in rows && rows[RowOf(sorted[i])] == sorted[i] {
      assert sorted[i] in fetched;
    }
    forall c ensures Increasing(OnConnection(sorted, c)) { SortedConnection(sorted, c); }
  }

  lemma SameLast(a: seq<Revision>, b: seq<Revision>)
    requires Increasing(a) && Increasing(b) && a != [] && b != [] && a[|a| - 1] in b && b[|b| - 1] in a
    ensures a[|a| - 1] == b[|b| - 1]
  {
    var x, y := a[|a| - 1], b[|b| - 1];
    var j :| 0 <= j < |b| && b[j] == x;
    var i :| 0 <= i < |a| && a[i] == y;
    assert y.number <= x.number <= y.number;
    assert i == |a| - 1;
  }

  lemma WithoutLast(a: seq<Revision>)
    requires Increasing(a) && a != []
    ensures Increasing(a[..|a| - 1])
    ensures forall z :: z in a[..|a| - 1] <==> z in a && z != a[|a| - 1]
  {
    var init, last := a[..|a| - 1], a[|a| - 1];
    assert a == init + [last];
    forall z | z in init ensures z != last {
      var i :| 0 <= i < |init| && init[i] == z;
      assert a[i].number < last.number;
    }
  }

  lemma {:induction false} IncreasingUnique(a: seq<Revision>, b: seq<Revision>)
    requires Increasing(a) && Increasing(b) && forall x :: x in a <==> x in b
    ensures a == b
  {
    hide Increasing;
    assert a == [] || a[0] in b;
    assert b == [] || b[0] in a;
    if a != [] && b != [] {
      SameLast(a, b);
      WithoutLast(a);
      WithoutLast(b);
      var a', b' := a[..|a| - 1], b[..|b| - 1];
      forall z ensures z in a' <==> z in b' { assert z in a <==> z in b; }
      IncreasingUnique(a', b');
      assert a == a[..|a| - 1] + [a[|a| - 1]] && b == b[..|b| - 1] + [b[|b| - 1]];
    }
  }

  /** The tenant's revisions as a console that starts now reads them. */
  function FreshLists(tenant: string, fetched: seq<Revision>): map<Key, seq<Revision>>
  {
    Grouped(map[], tenant, Sort(RevisionLe, fetched))
  }

  ghost predicate Held(rows: map<RowKey, Revision>, k: Key, x: Revision)
  {
    RowOf(x) in rows && rows[RowOf(x)] == x && x.tenant == k.0 && x.connection == k.1
  }

  lemma HeldIsProper(rows: map<RowKey, Revision>, k: Key, list: seq<Revision>)
    requires RowsOk(rows) && Increasing(list) && forall x :: x in list ==> Held(rows, k, x)
    ensures Proper(k, list)
  {
    forall i | 0 <= i < |list| ensures Held(rows, k, list[i]) { }
    forall i, j | 0 <= i < j < |list| ensures list[i].status != Published || list[j].status != Published {
      assert list[i].number < list[j].number;
      assert !Rivals(rows, RowOf(list[i]), RowOf(list[j]));
    }
  }

  lemma FreshList(rows: map<RowKey, Revision>, tenant: string, fetched: seq<Revision>, c: string)
    requires RowsOk(rows) && Faithful(rows, tenant, fetched)
    ensures var list := ListOf(FreshLists(tenant, fetched), (tenant, c));
            Proper((tenant, c), list) && forall x :: x in list <==> Held(rows, (tenant, c), x)
  {
    hide Faithful, RowsOk, Sort, Increasing, Grouped, Proper;
    SortedFetch(rows, tenant, fetched);
    GroupedLists(map[], tenant, Sort(RevisionLe, fetched), (tenant, c));
    var list := ListOf(FreshLists(tenant, fetched), (tenant, c));
    assert list == OnConnection(Sort(RevisionLe, fetched), c);
    HeldIsProper(rows, (tenant, c), list);
  }

  /** A console that starts now sees exactly what this one remembers. */
  lemma FreshSeesMemory(d: Desk, tenant: string, fetched: seq<Revision>, c: string)
    requires Valid(d, true) && d.store.Store? && tenant in d.loaded && Faithful(d.store.rows, tenant, fetched)
    ensures ListOf(FreshLists(tenant, fetched), (tenant, c)) == ListOf(d.lists, (tenant, c))
  {
    hide FreshLists, Faithful;
    var list, seen, rows := ListOf(d.lists, (tenant, c)), ListOf(FreshLists(tenant, fetched), (tenant, c)), d.store.rows;
    FreshList(rows, tenant, fetched, c);
    forall x ensures x in list <==> x in seen {
      if x in list {
        assert Backed(rows, x, true);
      }
      if x in seen {
        assert RowListed(d.lists, RowOf(x));
        var i :| 0 <= i < |list| && list[i].number == x.number;
        assert Backed(rows, list[i], true) && RowOf(list[i]) == RowOf(x);
      }
    }
    IncreasingUnique(list, seen);
  }

  ghost predicate GoodAnswer(d: Desk, tenant: string, fetched: Option<seq<Revision>>)
  {
    d.store.Store? && fetched.Some? && tenant !in d.loaded ==> Faithful(d.store.rows, tenant, fetched.value)
  }

  lemma LoadedList(d: Desk, tenant: string, fetched: seq<Revision>, k: Key)
    requires Valid(d, false) && d.store.Store? && tenant !in d.loaded
    ensures ListOf(Grouped(d.lists, tenant, Sort(RevisionLe, fetched)), k)
            == if k.0 == tenant then ListOf(FreshLists(tenant, fetched), k) else ListOf(d.lists, k)
    ensures k in Grouped(d.lists, tenant, Sort(RevisionLe, fetched)) ==> k in d.lists || k.0 == tenant
  {
    GroupedLists(d.lists, tenant, Sort(RevisionLe, fetched), k);
    GroupedLists(map[], tenant, Sort(RevisionLe, fetched), k);
  }

  lemma LoadKeeps(d: Desk, tenant: string, fetched: Option<seq<Revision>>, exact: bool)
    requires Valid(d, exact) && GoodAnswer(d, tenant, fetched)
    ensures var open := Load(d, tenant, fetched); open.Some? ==> Valid(open.value, exact)
    ensures var open := Load(d, tenant, fetched); open.Some? && d.store.Store? ==> tenant in open.value.loaded
  {
    hide FreshLists, Faithful, Grouped, Sort, Proper;
    var open := Load(d, tenant, fetched);
    if d.store.Store? && tenant !in d.loaded && fetched.Some? {
      var e, rows := open.value, d.store.rows;
      forall k | k in e.lists ensures Proper(k, e.lists[k]) && k.0 in e.loaded && ListBacked(rows, e.lists[k], exact) {
        LoadedList(d, tenant, fetched.value, k);
        if k.0 == tenant {
          FreshList(rows, tenant, fetched.value, k.1);
          assert e.lists[k] == ListOf(FreshLists(tenant, fetched.value), k);
          forall i | 0 <= i < |e.lists[k]| ensures Backed(rows, e.lists[k][i], exact) { assert Held(rows, k, e.lists[k][i]); }
        } else {
          assert k in d.lists && e.lists[k] == d.lists[k];
        }
      }
      forall k | k in rows && k.tenant in e.loaded ensures RowListed(e.lists, k) {
        LoadedList(d, tenant, fetched.value, (k.tenant, k.connection));
        if k.tenant == tenant {
          FreshList(rows, tenant, fetched.value, k.connection);
          assert RowOf(rows[k]) == k;
          assert rows[k] in ListOf(FreshLists(tenant, fetched.value), (tenant, k.connection));
        } else {
          assert RowListed(d.lists, k);
        }
      }
    }
  }

  // ---- carrying out a change ------------------------------------------------------------------

  lemma {:induction false} SavedRow(rows: map<RowKey, Revision>, rs: seq<Revision>, k: RowKey)
    ensures k in SaveRows(rows, rs) <==> k in rows || exists i :: 0 <= i < |rs| && RowOf(rs[i]) == k
    ensures k in SaveRows(rows, rs) ==>
              (k in rows && SaveRows(rows, rs)[k] == rows[k] && forall i :: 0 <= i < |rs| ==> RowOf(rs[i]) != k)
              || exists i :: 0 <= i < |rs| && RowOf(rs[i]) == k && SaveRows(rows, rs)[k] == rs[i]
  {
    if rs != [] {
      var init := rs[..|rs| - 1];
      SavedRow(rows, init, k);
      if exists i :: 0 <= i < |init| && RowOf(init[i]) == k {
        var i :| 0 <= i < |init| && RowOf(init[i]) == k;
        assert rs[i] == init[i];
      }
      if k in SaveRows(rows, init) && exists i :: 0 <= i < |init| && RowOf(init[i]) == k && SaveRows(rows, init)[k] == init[i] {
        var i :| 0 <= i < |init| && RowOf(init[i]) == k && SaveRows(rows, init)[k] == init[i];
        assert rs[i] == init[i];
      }
    }
  }

  predicate WrittenListed(ch: Change) { forall i :: 0 <= i < |ch.written| ==> ch.written[i] in ch.after }

  predicate OthersStay(list: seq<Revision>, ch: Change) { forall i :: 0 <= i < |ch.after| ==> ch.after[i] in ch.written || ch.after[i] in list }

  predicate NoneLost(list: seq<Revision>, ch: Change) { forall i :: 0 <= i < |list| ==> HasNumber(ch.after, list[i].number) }

  predicate AllAlike(a: seq<Revision>, b: seq<Revision>) { |a| == |b| && forall i :: 0 <= i < |a| ==> Alike(a[i], b[i]) }

  /** A change that leaves a proper list behind, writes what it changed and loses nothing. */
  ghost predicate Orderly(k: Key, list: seq<Revision>, ch: Change)
  {
    && ch.connection == k.1 && Proper(k, ch.after) && WrittenListed(ch) && OthersStay(list, ch) && NoneLost(list, ch)
    && AllAlike(ch.unsaved, list)
  }

  lemma AlikeIsProper(k: Key, a: seq<Revision>, b: seq<Revision>)
    requires AllAlike(a, b) && Proper(k, b)
    ensures Proper(k, a)
  {
    forall i | 0 <= i < |a| ensures a[i].number == b[i].number && a[i].status == b[i].status && a[i].tenant == b[i].tenant && a[i].connection == b[i].connection {
      assert Alike(a[i], b[i]);
    }
  }

  /** Saving what the change wrote backs the list it leaves behind. */
  lemma SavedBacks(rows: map<RowKey, Revision>, k: Key, list: seq<Revision>, ch: Change, exact: bool)
    requires Orderly(k, list, ch) && ListBacked(rows, list, exact)
    ensures ListBacked(SaveRows(rows, ch.written), ch.after, exact)
  {
    hide SaveRows, Alike;
    forall i | 0 <= i < |ch.after| ensures Backed(SaveRows(rows, ch.written), ch.after[i], exact) {
      var r := ch.after[i];
      SavedRow(rows, ch.written, RowOf(r));
      forall j | 0 <= j < |ch.written| && RowOf(ch.written[j]) == RowOf(r) ensures ch.written[j] == r {
        assert ch.written[j] in ch.after;
        var m :| 0 <= m < |ch.after| && ch.after[m] == ch.written[j];
        assert m == i;
      }
      if r !in ch.written {
        assert r in list;
        var m :| 0 <= m < |list| && list[m] == r;
        assert Backed(rows, list[m], exact);
      } else {
        var m :| 0 <= m < |ch.written| && ch.written[m] == r;
        BackedByItself(SaveRows(rows, ch.written), r, exact);
      }
    }
  }

  lemma BackedByItself(rows: map<RowKey, Revision>, r: Revision, exact: bool)
    requires RowOf(r) in rows && rows[RowOf(r)] == r
    ensures Backed(rows, r, exact)
  {
  }

  lemma SavedElsewhere(rows: map<RowKey, Revision>, k: Key, list: seq<Revision>, ch: Change, j: RowKey)
    requires Orderly(k, list, ch) && (j.tenant, j.connection) != k
    ensures j in SaveRows(rows, ch.written) <==> j in rows
    ensures j in rows ==> SaveRows(rows, ch.written)[j] == rows[j]
  {
    SavedRow(rows, ch.written, j);
    forall i | 0 <= i < |ch.written| ensures RowOf(ch.written[i]) != j {
      assert ch.written[i] in ch.after;
    }
  }

  lemma SavedHere(rows: map<RowKey, Revision>, k: Key, list: seq<Revision>, ch: Change, j: RowKey)
    requires Orderly(k, list, ch) && (j.tenant, j.connection) == k
    requires j in rows ==> HasNumber(list, j.number)
    requires j in SaveRows(rows, ch.written)
    ensures HasNumber(ch.after, j.number)
  {
    SavedRow(rows, ch.written, j);
    if j in rows {
      var i :| 0 <= i < |list| && list[i].number == j.number;
      assert HasNumber(ch.after, list[i].number);
    } else {
      var i :| 0 <= i < |ch.written| && RowOf(ch.written[i]) == j;
      assert ch.written[i] in ch.after;
    }
  }

  lemma ListedOnce(rows: map<RowKey, Revision>, k: Key, after: seq<Revision>, j: RowKey, l: RowKey)
    requires Proper(k, after) && ListBacked(rows, after, false)
    requires (j.tenant, j.connection) == k == (l.tenant, l.connection) && j in rows && l in rows
    requires HasNumber(after, j.number) && HasNumber(after, l.number)
    ensures RowOf(rows[j]) == j && !Rivals(rows, j, l)
  {
    var a :| 0 <= a < |after| && after[a].number == j.number;
    var b :| 0 <= b < |after| && after[b].number == l.number;
    assert Backed(rows, after[a], false) && Backed(rows, after[b], false);
    assert RowOf(after[a]) == j && RowOf(after[b]) == l;
  }

  lemma SavedRowsOk(d: Desk, k: Key, ch: Change)
    requires Valid(d, false) && d.store.Store? && k.0 in d.loaded && Orderly(k, ListOf(d.lists, k), ch)
    ensures RowsOk(SaveRows(d.store.rows, ch.written))
  {
    hide SaveRows, Orderly, Rivals, Proper;
    var list, rows := ListOf(d.lists, k), d.store.rows;
    var saved := SaveRows(rows, ch.written);
    SavedBacks(rows, k, list, ch, false);
    OrderlyAfter(k, list, ch);
    forall j | j in saved && (j.tenant, j.connection) == k ensures HasNumber(ch.after, j.number) {
      assert j in rows ==> RowListed(d.lists, j);
      SavedHere(rows, k, list, ch, j);
    }
    forall j | j in saved ensures RowOf(saved[j]) == j {
      if (j.tenant, j.connection) == k { ListedOnce(saved, k, ch.after, j, j); } else { SavedElsewhere(rows, k, list, ch, j); }
    }
    forall j, l | j in saved && l in saved ensures !Rivals(saved, j, l) {
      if (j.tenant, j.connection) != (l.tenant, l.connection) {
        NotRivals(saved, j, l);
      } else if (j.tenant, j.connection) == k {
        ListedOnce(saved, k, ch.after, j, l);
      } else {
        SavedElsewhere(rows, k, list, ch, j);
        SavedElsewhere(rows, k, list, ch, l);
        SameRivals(rows, saved, j, l);
      }
    }
  }

  lemma OrderlyAfter(k: Key, list: seq<Revision>, ch: Change)
    requires Orderly(k, list, ch)
    ensures Proper(k, ch.after)
  {
  }

  lemma NotRivals(rows: map<RowKey, Revision>, j: RowKey, l: RowKey)
    requires j in rows && l in rows && (j.tenant, j.connection) != (l.tenant, l.connection)
    ensures !Rivals(rows, j, l)
  {
  }

  lemma SameRivals(rows: map<RowKey, Revision>, saved: map<RowKey, Revision>, j: RowKey, l: RowKey)
    requires j in rows && l in rows && j in saved && l in saved && rows[j] == saved[j] && rows[l] == saved[l]
    ensures Rivals(saved, j, l) == Rivals(rows, j, l)
  {
  }

  lemma SavedElsewhereBacked(rows: map<RowKey, Revision>, k: Key, list: seq<Revision>, ch: Change, j: Key, others: seq<Revision>, exact: bool)
    requires Orderly(k, list, ch) && j != k && Proper(j, others) && ListBacked(rows, others, exact)
    ensures ListBacked(SaveRows(rows, ch.written), others, exact)
  {
    hide SaveRows, Orderly, Alike;
    forall i | 0 <= i < |others| ensures Backed(SaveRows(rows, ch.written), others[i], exact) {
      assert Backed(rows, others[i], exact);
      SavedElsewhere(rows, k, list, ch, RowOf(others[i]));
    }
  }

  /** A change that was written keeps the state valid. */
  lemma SavedKeeps(d: Desk, k: Key, ch: Change, event: AuditEvent, exact: bool)
    requires Valid(d, exact) && (d.store.Store? ==> k.0 in d.loaded) && Orderly(k, ListOf(d.lists, k), ch)
    ensures Valid(d.(lists := d.lists[k := ch.after], store := Save(d.store, event, ch.written)), exact)
  {
    hide SaveRows, Proper, Orderly, Backed;
    var list := ListOf(d.lists, k);
    var e := d.(lists := d.lists[k := ch.after], store := Save(d.store, event, ch.written));
    OrderlyAfter(k, list, ch);
    assert ListsOk(e.lists);
    if d.store.Store? {
      var rows := d.store.rows;
      InexactToo(d, exact);
      SavedRowsOk(d, k, ch);
      SavedBacks(rows, k, list, ch, exact);
      forall j | j in e.lists ensures j.0 in e.loaded && ListBacked(e.store.rows, e.lists[j], exact) {
        if j != k { SavedElsewhereBacked(rows, k, list, ch, j, d.lists[j], exact); }
      }
      forall j | j in e.store.rows && j.tenant in e.loaded ensures RowListed(e.lists, j) {
        if (j.tenant, j.connection) == k {
          assert j in rows ==> RowListed(d.lists, j);
          SavedHere(rows, k, list, ch, j);
        } else {
          SavedElsewhere(rows, k, list, ch, j);
          assert RowListed(d.lists, j);
        }
      }
    }
  }

  lemma InexactToo(d: Desk, exact: bool)
    requires Valid(d, exact)
    ensures Valid(d, false)
  {
    hide Alike, Proper;
    if d.store.Store? {
      forall k | k in d.lists ensures ListBacked(d.store.rows, d.lists[k], false) {
        forall i | 0 <= i < |d.lists[k]| ensures Backed(d.store.rows, d.lists[k][i], false) {
          assert Backed(d.store.rows, d.lists[k][i], exact);
        }
      }
    }
  }

  lemma AlikeBacked(rows: map<RowKey, Revision>, list: seq<Revision>, unsaved: seq<Revision>)
    requires ListBacked(rows, list, false) && AllAlike(unsaved, list)
    ensures ListBacked(rows, unsaved, false)
  {
    forall i | 0 <= i < |unsaved| ensures Backed(rows, unsaved[i], false) {
      assert Backed(rows, list[i], false) && Alike(unsaved[i], list[i]);
    }
  }

  lemma AlikeNumbers(a: seq<Revision>, b: seq<Revision>, n: nat)
    requires AllAlike(a, b) && HasNumber(b, n)
    ensures HasNumber(a, n)
  {
    var i :| 0 <= i < |b| && b[i].number == n;
    assert Alike(a[i], b[i]);
  }

  /** A write that failed keeps it too, up to the skills that were left behind. */
  lemma UnsavedKeeps(d: Desk, k: Key, ch: Change)
    requires Valid(d, false) && (d.store.Store? ==> k.0 in d.loaded) && Orderly(k, ListOf(d.lists, k), ch)
    ensures Valid(d.(lists := Put(d.lists, k, ch.unsaved)), false)
  {
    hide Proper, Backed, AllAlike, HasNumber, ListBacked;
    var list := ListOf(d.lists, k);
    var e := d.(lists := Put(d.lists, k, ch.unsaved));
    if k in d.lists { AlikeIsProper(k, ch.unsaved, list); } else { NothingAlike(ch.unsaved); }
    if d.store.Store? && k in d.lists {
      AlikeBacked(d.store.rows, list, ch.unsaved);
      forall j | j in d.store.rows && j.tenant in e.loaded ensures RowListed(e.lists, j) {
        assert RowListed(d.lists, j);
        if (j.tenant, j.connection) == k { AlikeNumbers(ch.unsaved, list, j.number); }
      }
    }
  }

  lemma NothingAlike(a: seq<Revision>)
    requires AllAlike(a, [])
    ensures a == []
  {
  }
}
