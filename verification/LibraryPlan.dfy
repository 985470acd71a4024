/** The three link passes of the library plan, one after another: drawing links, settling them, and the
    few links that are restricted on purpose. Random draws are arbitrary parameters. */
module LibraryPlan {
  import opened Ordering
  import opened LinkPlan

  /** What the planner draws: which documents get links, how many, and which of a pool. */
  datatype Draws = Draws(skip: nat -> bool, count: nat -> nat, pick: (nat, seq<nat>, nat) -> seq<nat>)
  {
    /** pickN: distinct members of the pool, as many as asked for or all of them. */
    ghost predicate Valid()
    {
      forall call, pool, n :: Picked(pool, n, pick(call, pool, n))
    }
  }

  ghost predicate Picked(pool: seq<nat>, n: nat, r: seq<nat>)
  {
    |r| == Least(n, |pool|) && (forall x: nat :: x in r ==> x in pool) && (Distinct(pool) ==> Distinct(r))
  }

  function Least(a: nat, b: nat): nat { if a < b then a else b }

  lemma AscendsAppend(s: seq<nat>, x: nat)
    requires Ascends(s) && forall y: nat :: y in s ==> y < x
    ensures Ascends(s + [x])
  {
    forall k | 0 <= k < |s| ensures s[k] < x { assert s[k] in s; }
  }

  lemma GrownTransitive(a: Doc, b: Doc, c: Doc, viewer: string)
    requires Grown(a, b, viewer) && Grown(b, c, viewer)
    ensures Grown(a, c, viewer)
  {
    assert c.shares[..|a.shares|] == c.shares[..|b.shares|][..|a.shares|];
    forall k | |a.shares| <= k < |c.shares| ensures c.shares[k].role == Viewer {
      if k < |b.shares| { assert c.shares[..|b.shares|][k] == b.shares[k]; }
    }
  }

  lemma AllGrownTransitive(a: seq<Doc>, b: seq<Doc>, c: seq<Doc>, viewer: string)
    requires AllGrown(a, b, viewer) && AllGrown(b, c, viewer)
    ensures AllGrown(a, c, viewer)
  {
    forall i | 0 <= i < |a| ensures Grown(a[i], c[i], viewer) { GrownTransitive(a[i], b[i], c[i], viewer); }
  }

  /** The earlier related documents whose audience already includes the whole audience of docs[i]. */
  method Candidates(docs: array<Doc>, i: nat, related: (string, string) -> bool) returns (pool: seq<nat>)
    requires i < docs.Length
    ensures Ascends(pool) && forall j: nat :: j in pool <==> j < i && related(docs[i].kind, docs[j].kind) && Covered(docs[i], docs[j])
  {
    pool := [];
    for j := 0 to i
      invariant Ascends(pool)
      invariant forall h: nat :: h in pool <==> h < j && related(docs[i].kind, docs[h].kind) && Covered(docs[i], docs[h])
    {
      if related(docs[i].kind, docs[j].kind) {
        var covered := AudienceCovered(docs[i], docs[j]);
        if covered {
          AscendsAppend(pool, j);
          pool := pool + [j];
        }
      }
    }
  }

  /** The owner's earlier related documents that are already shared and may be widened without the viewer. */
  method WidenPool(docs: array<Doc>, i: nat, viewer: string, related: (string, string) -> bool) returns (pool: seq<nat>)
    requires i < docs.Length
    ensures Ascends(pool)
    ensures forall j: nat :: j in pool <==> j < i && related(docs[i].kind, docs[j].kind) && !Covered(docs[i], docs[j]) && Widenable(docs[i], docs[j], viewer)
  {
    hide Readers;
    pool := [];
    for j := 0 to i
      invariant Ascends(pool)
      invariant forall h: nat :: h in pool <==>
        h < j && related(docs[i].kind, docs[h].kind) && !Covered(docs[i], docs[h]) && Widenable(docs[i], docs[h], viewer)
    {
      var covered := AudienceCovered(docs[i], docs[j]);
      var missing := MissingReaders(docs[i], docs[j]);
      if docs[j].owner == docs[i].owner && docs[j].shares != [] && !covered && related(docs[i].kind, docs[j].kind) && viewer !in missing {
        AscendsAppend(pool, j);
        pool := pool + [j];
      }
    }
  }

  /** The owner shares the chosen documents with everyone document i is linked for, and nobody else. */
  method WidenFor(docs: array<Doc>, i: nat, viewer: string, chosen: seq<nat>)
    requires i < docs.Length && forall j: nat :: j in chosen ==> j < i && Widenable(docs[i], docs[j], viewer)
    modifies docs
    ensures AllGrown(old(docs[..]), docs[..], viewer) && docs[i] == old(docs[i])
    ensures forall h: nat :: h < docs.Length && h !in chosen ==> docs[h] == old(docs[h])
    ensures forall h: nat :: h < docs.Length && h in chosen ==> JoinedBy(old(docs[..])[h], docs[h], docs[i])
  {
    hide Readers;
    for k := 0 to |chosen|
      invariant AllGrown(old(docs[..]), docs[..], viewer) && docs[i] == old(docs[i])
      invariant forall h: nat :: h < docs.Length && h !in chosen[..k] ==> docs[h] == old(docs[..])[h]
      invariant forall h: nat :: h < docs.Length && h in chosen[..k] ==> JoinedBy(old(docs[..])[h], docs[h], docs[i])
    {
      var j := chosen[k];
      assert j in chosen && chosen[..k + 1] == chosen[..k] + [j];
      var missing := MissingReaders(docs[i], docs[j]);
      ghost var before := docs[..];
      docs[j] := Widen(docs[j], missing);
      WidenKeepsAll(old(docs[..]), before, j, i, viewer, missing);
      WidenJoins(before[i], before[j], missing);
      assert docs[..] == before[j := Widen(before[j], missing)];
    }
    assert chosen[..|chosen|] == chosen;
  }

  /** The target took in the source's audience, and changed in nothing but its shares. */
  ghost predicate JoinedBy(before: Doc, after: Doc, source: Doc)
  {
    after == before.(shares := after.shares) && Readers(after) == Readers(before) + Readers(source)
  }

  lemma WidenJoins(source: Doc, target: Doc, missing: seq<string>)
    requires forall p :: p in missing <==> p in Readers(source) && p !in Readers(target)
    ensures JoinedBy(target, Widen(target, missing), source)
  {
    hide Recipients;
    WidenReaders(target, missing);
  }

  // ---- what drawing one document's links must do, whatever is picked -----------------------------------

  /** Earlier related documents that the whole audience of document i can read. */
  ghost function NearSet(d: seq<Doc>, i: nat, related: (string, string) -> bool): set<nat>
    requires i < |d|
  {
    set j: nat | j < i && related(d[i].kind, d[j].kind) && Covered(d[i], d[j])
  }

  /** Earlier related documents that it cannot, but that the same owner may share with it. */
  ghost function FarSet(d: seq<Doc>, i: nat, viewer: string, related: (string, string) -> bool): set<nat>
    requires i < |d|
  {
    set j: nat | j < i && related(d[i].kind, d[j].kind) && !Covered(d[i], d[j]) && Widenable(d[i], d[j], viewer)
  }

  /** The links of document i after its draw: as many as asked for or as there are targets; near ones first;
      the far ones linked are shared with its audience; nothing else changes. */
  ghost predicate Drawn(before: seq<Doc>, after: seq<Doc>, i: nat, viewer: string, related: (string, string) -> bool, n: nat)
    requires i < |before| == |after|
  {
    var near, far, links := NearSet(before, i, related), FarSet(before, i, viewer, related), after[i].links;
    && Ascends(links) && |links| == Least(n, |near| + |far|)
    && (forall j: nat :: j in links ==> j in near || j in far)
    && (forall j: nat, h: nat :: j in links && j in far && h in near ==> h in links)
    && (forall j: nat :: j in links ==> Covered(after[i], after[j]))
    && after[i] == before[i].(links := links)
    && (forall h: nat :: h < |before| && h != i ==> if h in links && h in far then JoinedBy(before[h], after[h], before[i]) else after[h] == before[h])
  }

  lemma SameSize(s: seq<nat>, t: set<nat>)
    requires Distinct(s) && forall x: nat :: x in s <==> x in t
    ensures |s| == |t|
    decreases |s|
  {
    if s == [] {
      assert t == {};
    } else {
      var n := |s| - 1;
      var init, last := s[..n], s[n];
      assert s == init + [last];
      assert last !in init;
      forall x: nat ensures x in init <==> x in t - {last} { assert x in s <==> x in init || x == last; }
      SameSize(init, t - {last});
    }
  }

  lemma AscendsDistinct(s: seq<nat>)
    requires Ascends(s)
    ensures Distinct(s)
  {
  }

  /** Picking as many as the pool has picks all of it. */
  lemma AllPicked(pool: seq<nat>, r: seq<nat>)
    requires Distinct(pool) && Distinct(r) && |r| == |pool| && forall x: nat :: x in r ==> x in pool
    ensures forall x: nat :: x in pool ==> x in r
  {
    var all, got := set x: nat | x in pool, set x: nat | x in r;
    SameSize(pool, all);
    SameSize(r, got);
    assert got <= all;
    if got != all { SmallerSet(got, all); }
  }

  /** Draws the links of one document. */
  method DrawLinks(docs: array<Doc>, i: nat, viewer: string, related: (string, string) -> bool, draws: Draws, n: nat)
    requires i < docs.Length && draws.Valid()
    modifies docs
    ensures AllGrown(old(docs[..]), docs[..], viewer)
    ensures Drawn(old(docs[..]), docs[..], i, viewer, related, n)
  {
    hide Readers, Draws.Valid, Ascends, Distinct, Widenable, Drawn, NearSet, FarSet, JoinedBy;
    ghost var d := docs[..];
    var candidates := Candidates(docs, i, related);
    var links := draws.pick(2 * i, candidates, n);
    UsePick(draws, 2 * i, candidates, n);
    ghost var near := links;
    ghost var chosen: seq<nat> := [];
    NearPool(d, i, related, candidates);
    if |links| < n {
      AllPicked(candidates, links);
      var wider := WidenPool(docs, i, viewer, related);
      var picked := draws.pick(2 * i + 1, wider, n - |links|);
      UsePick(draws, 2 * i + 1, wider, n - |links|);
      FarPool(d, i, viewer, related, wider);
      WidenFor(docs, i, viewer, picked);
      links := links + picked;
      chosen := picked;
    }
    NearIsNotFar(d, i, viewer, related);
    Disjoint(near, chosen);
    assert near + [] == near;
    SortAscends(links);
    ghost var before := docs[..];
    docs[i] := docs[i].(links := Sort<nat>(NatLe, links));
    LinksOnly(d, before, i, Sort<nat>(NatLe, links), viewer);
    assert docs[..] == before[i := before[i].(links := Sort<nat>(NatLe, links))];
    DrawnBy(d, before, docs[..], i, viewer, related, n, near, chosen);
  }

  lemma UsePick(draws: Draws, call: nat, pool: seq<nat>, n: nat)
    requires draws.Valid() && Ascends(pool)
    ensures var r := draws.pick(call, pool, n); |r| == Least(n, |pool|) && Distinct(r) && Distinct(pool) && forall x: nat :: x in r ==> x in pool
  {
    AscendsDistinct(pool);
    assert Picked(pool, n, draws.pick(call, pool, n));
  }

  lemma NearIsNotFar(d: seq<Doc>, i: nat, viewer: string, related: (string, string) -> bool)
    requires i < |d|
    ensures NearSet(d, i, related) !! FarSet(d, i, viewer, related)
    ensures forall j: nat :: j in NearSet(d, i, related) || j in FarSet(d, i, viewer, related) ==> j < i
  {
  }

  /** Near ones first, then far ones, as many as there are: that is a draw. */
  lemma DrawnBy(d: seq<Doc>, w: seq<Doc>, after: seq<Doc>, i: nat, viewer: string, related: (string, string) -> bool, n: nat, near: seq<nat>, chosen: seq<nat>)
    requires i < |d| == |w| == |after|
    requires |near| == Least(n, |NearSet(d, i, related)|) && forall j: nat :: j in near ==> j in NearSet(d, i, related)
    requires if |near| < n
             then |chosen| == Least(n - |near|, |FarSet(d, i, viewer, related)|) && forall j: nat :: j in NearSet(d, i, related) ==> j in near
             else chosen == []
    requires forall j: nat :: j in chosen ==> j in FarSet(d, i, viewer, related)
    requires w[i] == d[i] && forall h: nat :: h < |d| ==> if h in chosen then JoinedBy(d[h], w[h], d[i]) else w[h] == d[h]
    requires after == w[i := w[i].(links := after[i].links)] && Ascends(after[i].links)
    requires |after[i].links| == |near + chosen| && forall j: nat :: j in after[i].links <==> j in near + chosen
    ensures Drawn(d, after, i, viewer, related, n)
  {
    hide Ascends, Recipients;
    var links := after[i].links;
    NearIsNotFar(d, i, viewer, related);
    forall j: nat | j in links ensures Covered(after[i], after[j]) {
      if j in chosen { assert JoinedBy(d[j], w[j], d[i]); }
    }
  }

  lemma NearPool(d: seq<Doc>, i: nat, related: (string, string) -> bool, pool: seq<nat>)
    requires i < |d| && Ascends(pool)
    requires forall j: nat :: j in pool <==> j < i && related(d[i].kind, d[j].kind) && Covered(d[i], d[j])
    ensures |pool| == |NearSet(d, i, related)| && forall j: nat :: j in pool <==> j in NearSet(d, i, related)
  {
    hide Readers;
    AscendsDistinct(pool);
    SameSize(pool, NearSet(d, i, related));
  }

  lemma FarPool(d: seq<Doc>, i: nat, viewer: string, related: (string, string) -> bool, pool: seq<nat>)
    requires i < |d| && Ascends(pool)
    requires forall j: nat :: j in pool <==> j < i && related(d[i].kind, d[j].kind) && !Covered(d[i], d[j]) && Widenable(d[i], d[j], viewer)
    ensures |pool| == |FarSet(d, i, viewer, related)| && forall j: nat :: j in pool <==> j in FarSet(d, i, viewer, related)
  {
    hide Readers;
    AscendsDistinct(pool);
    SameSize(pool, FarSet(d, i, viewer, related));
  }

  lemma Disjoint(a: seq<nat>, b: seq<nat>)
    requires Distinct(a) && Distinct(b) && forall x: nat :: x in a ==> x !in b
    ensures Distinct(a + b)
  {
    forall i: nat, j: nat | i < j < |a + b| ensures (a + b)[i] != (a + b)[j] {
      if i < |a| <= j { assert a[i] in a && b[j - |a|] in b; }
    }
  }

  lemma WidenKeepsAll(d0: seq<Doc>, d: seq<Doc>, j: nat, i: nat, viewer: string, missing: seq<string>)
    requires AllGrown(d0, d, viewer) && j < |d| && i < |d| && d[i] == d0[i] && Widenable(d0[i], d0[j], viewer)
    requires forall p :: p in missing <==> p in Readers(d[i]) && p !in Readers(d[j])
    ensures var w := Widen(d[j], missing);
            AllGrown(d0, d[j := w], viewer) && Covered(d[i], w) && Readers(d[j]) <= Readers(w) && w.links == d[j].links && w.kind == d[j].kind
  {
    hide Recipients;
    WidenReaders(d[j], missing);
    GrownWidens(d0[j], d[j], missing, viewer);
  }

  lemma LinksOnly(d0: seq<Doc>, d: seq<Doc>, i: nat, links: seq<nat>, viewer: string)
    requires AllGrown(d0, d, viewer) && i < |d|
    ensures AllGrown(d0, d[i := d[i].(links := links)], viewer)
    ensures Readers(d[i].(links := links)) == Readers(d[i])
  {
  }

  // ---- links restricted on purpose ------------------------------------------------------------------

  predicate Below(links: seq<nat>, n: nat) { forall k :: 0 <= k < |links| ==> links[k] < n }

  /** How many of the links name a document that audience i cannot read in full. */
  ghost function UncoveredIn(readers: seq<set<string>>, i: nat, links: seq<nat>): nat
    requires i < |readers| && Below(links, |readers|)
  {
    if links == [] then 0
    else UncoveredIn(readers, i, links[..|links| - 1]) + (if readers[i] <= readers[links[|links| - 1]] then 0 else 1)
  }

  lemma BackwardBelow(d: seq<Doc>, i: nat)
    requires i < |d| && Backward(d)
    ensures Below(d[i].links, i)
  {
    forall k | 0 <= k < |d[i].links| ensures d[i].links[k] < i { assert d[i].links[k] in d[i].links; }
  }

  /** The links of the first n documents that not everyone who sees them can open. */
  ghost function UncoveredLinks(d: seq<Doc>, n: nat): nat
    requires n <= |d| && Backward(d)
  {
    if n == 0 then 0
    else
      BackwardBelow(d, n - 1);
      UncoveredLinks(d, n - 1) + UncoveredIn(Audiences(d), n - 1, d[n - 1].links)
  }

  ghost function CountRestricted(d: seq<Doc>, n: nat): nat
    requires n <= |d|
  {
    if n == 0 then 0 else CountRestricted(d, n - 1) + (if d[n - 1].restricted then 1 else 0)
  }

  lemma {:induction false} AllCovered(readers: seq<set<string>>, i: nat, links: seq<nat>)
    requires i < |readers| && Below(links, |readers|) && forall k :: 0 <= k < |links| ==> readers[i] <= readers[links[k]]
    ensures UncoveredIn(readers, i, links) == 0
  {
    if links != [] { AllCovered(readers, i, links[..|links| - 1]); }
  }

  /** Changing the links of a later document does not touch the count. */
  lemma {:induction false} CountBefore(d: seq<Doc>, e: seq<Doc>, n: nat)
    requires n <= |d| == |e| && Backward(d) && Backward(e) && Audiences(d) == Audiences(e)
    requires forall h :: 0 <= h < n ==> d[h] == e[h]
    ensures UncoveredLinks(d, n) == UncoveredLinks(e, n) && CountRestricted(d, n) == CountRestricted(e, n)
  {
    if n != 0 { CountBefore(d, e, n - 1); }
  }

  ghost predicate OnlyRestrictedAdded(d0: seq<Doc>, d: seq<Doc>, viewer: string)
  {
    && |d| == |d0|
    && forall i :: 0 <= i < |d| ==>
         || d[i] == d0[i]
         || (d[i].restricted && |d[i].links| == |d0[i].links| + 1 && d[i] == d0[i].(links := d[i].links, restricted := true)
             && d[i].links[..|d0[i].links|] == d0[i].links && viewer in Readers(d0[i]) && d0[i].owner != viewer
             && var j := d[i].links[|d0[i].links|]; j < i && d0[j].owner == d0[i].owner && d0[j].shares == [])
  }

  /** The link was restricted on purpose: the last one of a document marked so. */
  predicate Restricted(d: Doc, k: nat) { d.restricted && k + 1 == |d.links| }

  /** The link is open to the whole audience of its document, or it is restricted: then it leads to a private
      draft of the same owner, from a document the viewer reads and does not own. */
  ghost predicate LinkKind(d: seq<Doc>, i: nat, k: nat, viewer: string)
    requires i < |d| && k < |d[i].links|
  {
    && d[i].links[k] < i
    && var target := d[d[i].links[k]];
       && (Restricted(d[i], k) <==> !Covered(d[i], target))
       && (Restricted(d[i], k) ==> target.owner == d[i].owner && target.shares == [] && viewer in Readers(d[i]) && d[i].owner != viewer)
  }

  lemma LinksAreOfAKind(d0: seq<Doc>, d: seq<Doc>, i: nat, k: nat, viewer: string)
    requires Backward(d0) && Settled(d0) && OnlyRestrictedAdded(d0, d, viewer) && forall h :: 0 <= h < |d0| ==> !d0[h].restricted
    requires i < |d| && k < |d[i].links|
    ensures LinkKind(d, i, k, viewer)
  {
    hide Recipients;
    forall h | 0 <= h < |d| ensures Readers(d[h]) == Readers(d0[h]) && d[h].owner == d0[h].owner && d[h].shares == d0[h].shares { }
    if k < |d0[i].links| {
      assert d[i].links[k] == d0[i].links[k] && d0[i].links[k] in d0[i].links;
      assert Opens(d0, i, d0[i].links[k]);
    } else {
      PrivateIsUncovered(d, i, d[i].links[k], viewer);
    }
  }

  /** A private document of another owner is not open to the viewer, so a link to it is restricted for them. */
  lemma PrivateIsUncovered(d: seq<Doc>, i: nat, j: nat, viewer: string)
    requires i < |d| && j < |d| && viewer in Readers(d[i]) && d[i].owner != viewer && d[j].owner == d[i].owner && d[j].shares == []
    ensures !(Readers(d[i]) <= Readers(d[j]))
  {
  }

  lemma SettledCount(d0: seq<Doc>, d: seq<Doc>, i: nat)
    requires i < |d| == |d0| && Settled(d0) && Backward(d) && Audiences(d) == Audiences(d0) && d[i] == d0[i]
    ensures Below(d[i].links, |d|) && UncoveredIn(Audiences(d), i, d[i].links) == 0
  {
    BackwardBelow(d, i);
    var links := d[i].links;
    forall k | 0 <= k < |links| ensures Audiences(d)[i] <= Audiences(d)[links[k]] {
      assert links[k] in d0[i].links;
      assert Opens(d0, i, links[k]);
    }
    AllCovered(Audiences(d), i, links);
  }

  lemma RestrictOne(d0: seq<Doc>, d: seq<Doc>, i: nat, j: nat, viewer: string)
    requires Backward(d0) && Settled(d0) && Backward(d) && OnlyRestrictedAdded(d0, d, viewer)
    requires i < |d| && forall h :: i <= h < |d| ==> d[h] == d0[h] && !d0[h].restricted
    requires j < i && d[j].owner == d[i].owner && d[j].shares == [] && viewer in Readers(d[i]) && d[i].owner != viewer
    ensures var e := d[i := d[i].(links := d[i].links + [j], restricted := true)];
            && OnlyRestrictedAdded(d0, e, viewer) && Backward(e)
            && UncoveredLinks(e, i + 1) == UncoveredLinks(d, i) + 1 && CountRestricted(e, i + 1) == CountRestricted(d, i) + 1
  {
    hide Recipients;
    var e := d[i := d[i].(links := d[i].links + [j], restricted := true)];
    var links := d[i].links + [j];
    forall h | 0 <= h < |d| ensures Readers(e[h]) == Readers(d[h]) == Readers(d0[h]) { }
    assert Audiences(e) == Audiences(d) == Audiences(d0);
    assert Backward(e);
    CountBefore(d, e, i);
    assert links[..|links| - 1] == d[i].links;
    SettledCount(d0, d, i);
    PrivateIsUncovered(d, i, j, viewer);
  }

  lemma RestrictNone(d0: seq<Doc>, d: seq<Doc>, i: nat, viewer: string)
    requires Backward(d0) && Settled(d0) && Backward(d) && OnlyRestrictedAdded(d0, d, viewer)
    requires i < |d| && d[i] == d0[i] && !d0[i].restricted
    ensures UncoveredLinks(d, i + 1) == UncoveredLinks(d, i) && CountRestricted(d, i + 1) == CountRestricted(d, i)
  {
    forall h | 0 <= h < |d| ensures Readers(d[h]) == Readers(d0[h]) { }
    assert Audiences(d) == Audiences(d0);
    SettledCount(d0, d, i);
  }

  /** j is the last earlier private draft of document i's owner. */
  predicate LastDraft(d: seq<Doc>, i: nat, j: nat)
    requires i < |d|
  {
    && j < i && Private(d, i, j)
    && forall h :: j < h < i ==> !Private(d, i, h)
  }

  predicate Private(d: seq<Doc>, i: nat, j: nat)
    requires i < |d| && j < |d|
  {
    d[j].owner == d[i].owner && d[j].shares == []
  }

  /** A linking document of someone else that the viewer reads, whose owner has an earlier private draft. */
  ghost predicate Eligible(d: seq<Doc>, i: nat, viewer: string)
    requires i < |d|
  {
    d[i].owner != viewer && viewer in Readers(d[i]) && d[i].links != [] && exists j :: 0 <= j < i && Private(d, i, j)
  }

  ghost function EligibleBefore(d: seq<Doc>, n: nat, viewer: string): nat
    requires n <= |d|
  {
    if n == 0 then 0 else EligibleBefore(d, n - 1, viewer) + if Eligible(d, n - 1, viewer) then 1 else 0
  }

  /** The first two eligible documents get one more link each, to the last draft of their owner. */
  ghost predicate RestrictedAs(d0: seq<Doc>, d: seq<Doc>, i: nat, viewer: string)
    requires i < |d0| == |d|
  {
    if Eligible(d0, i, viewer) && EligibleBefore(d0, i, viewer) < RESTRICTED_LINKS
    then exists j: nat :: LastDraft(d0, i, j) && d[i] == d0[i].(links := d0[i].links + [j], restricted := true)
    else d[i] == d0[i]
  }

  /** The last earlier private draft of document i's owner, looked for from there backwards. */
  method FindDraft(docs: array<Doc>, i: nat) returns (found: bool, j: nat)
    requires i < docs.Length
    ensures if found then LastDraft(docs[..], i, j) else forall h :: 0 <= h < i ==> !Private(docs[..], i, h)
  {
    found, j := false, i;
    while 0 < j && !found
      invariant 0 <= j <= i
      invariant forall h :: j <= h < i ==> (found && h == j) || !Private(docs[..], i, h)
      invariant found ==> LastDraft(docs[..], i, j)
      decreases j, !found
    {
      j := j - 1;
      if docs[j].owner == docs[i].owner && docs[j].shares == [] { found := true; }
    }
  }

  /** The first documents shared with the viewer, up to two, also link to a private draft of their owner. */
  method Restrict(docs: array<Doc>, viewer: string) returns (restricted: nat)
    requires Backward(docs[..]) && Settled(docs[..]) && forall i :: 0 <= i < docs.Length ==> !docs[i].restricted
    modifies docs
    ensures OnlyRestrictedAdded(old(docs[..]), docs[..], viewer) && Backward(docs[..])
    ensures forall i: nat :: i < docs.Length ==> RestrictedAs(old(docs[..]), docs[..], i, viewer)
    ensures restricted == Least(RESTRICTED_LINKS, EligibleBefore(old(docs[..]), docs.Length, viewer))
    ensures UncoveredLinks(docs[..], docs.Length) == restricted == CountRestricted(docs[..], docs.Length)
  {
    hide Readers, OnlyRestrictedAdded, Settled, Backward, UncoveredLinks, CountRestricted, RestrictedAs, Eligible;
    ghost var d0 := docs[..];
    restricted := 0;
    NothingCounted(d0, viewer);
    for i := 0 to docs.Length
      invariant OnlyRestrictedAdded(d0, docs[..], viewer) && Backward(docs[..])
      invariant restricted == Least(RESTRICTED_LINKS, EligibleBefore(d0, i, viewer))
      invariant UncoveredLinks(docs[..], i) == restricted == CountRestricted(docs[..], i)
      invariant forall h: nat :: h < i ==> RestrictedAs(d0, docs[..], h, viewer)
      invariant forall h :: i <= h < docs.Length ==> docs[h] == d0[h] && !d0[h].restricted
    {
      ghost var d := docs[..];
      OwnersStay(d0, d, viewer);
      var readable := SharedWith(docs[i], viewer);
      var found := false;
      var target := 0;
      if restricted != RESTRICTED_LINKS && docs[i].owner != viewer && readable && docs[i].links != [] {
        found, target := FindDraft(docs, i);
        assert docs[..] == d;
        if !found { NoDraft(d0, d, i, viewer); }
      } else if restricted != RESTRICTED_LINKS {
        NotEligible(d0, i, viewer);
      }
      if found {
        docs[i] := docs[i].(links := docs[i].links + [target], restricted := true);
        RestrictOne(d0, d, i, target, viewer);
        restricted := restricted + 1;
        DraftsStay(d0, d, i, target, viewer);
        IsEligible(d0, i, target, viewer);
        assert docs[..] == d[i := d[i].(links := d[i].links + [target], restricted := true)];
        NowRestricted(d0, docs[..], i, target, viewer);
      } else {
        RestrictNone(d0, d, i, viewer);
        NotRestricted(d0, docs[..], i, viewer);
      }
      RestrictedStay(d0, d, docs[..], i, viewer);
    }
  }

  lemma OwnersStay(d0: seq<Doc>, d: seq<Doc>, viewer: string)
    requires OnlyRestrictedAdded(d0, d, viewer)
    ensures |d| == |d0| && forall h :: 0 <= h < |d| ==> d[h].owner == d0[h].owner && d[h].shares == d0[h].shares && Readers(d[h]) == Readers(d0[h])
  {
  }

  lemma NoDraft(d0: seq<Doc>, d: seq<Doc>, i: nat, viewer: string)
    requires |d| == |d0| && i < |d| && forall h :: 0 <= h < i ==> !Private(d, i, h)
    requires forall h :: 0 <= h < |d| ==> d[h].owner == d0[h].owner && d[h].shares == d0[h].shares
    ensures !Eligible(d0, i, viewer)
  {
    hide Readers;
    forall h | 0 <= h < i ensures !Private(d0, i, h) { assert !Private(d, i, h); }
  }

  lemma IsEligible(d: seq<Doc>, i: nat, j: nat, viewer: string)
    requires i < |d| && LastDraft(d, i, j) && d[i].owner != viewer && viewer in Readers(d[i]) && d[i].links != []
    ensures Eligible(d, i, viewer)
  {
    hide Readers;
  }

  lemma NotEligible(d: seq<Doc>, i: nat, viewer: string)
    requires i < |d| && !(d[i].owner != viewer && viewer in Readers(d[i]) && d[i].links != [])
    ensures !Eligible(d, i, viewer)
  {
    hide Readers;
  }

  lemma DraftsStay(d0: seq<Doc>, d: seq<Doc>, i: nat, j: nat, viewer: string)
    requires |d| == |d0| && i < |d| && LastDraft(d, i, j)
    requires forall h :: 0 <= h < |d| ==> d[h].owner == d0[h].owner && d[h].shares == d0[h].shares
    ensures LastDraft(d0, i, j)
  {
    forall h | j < h < i ensures !Private(d0, i, h) { assert !Private(d, i, h); }
  }

  lemma NowRestricted(d0: seq<Doc>, e: seq<Doc>, i: nat, j: nat, viewer: string)
    requires i < |d0| == |e| && LastDraft(d0, i, j) && Eligible(d0, i, viewer) && EligibleBefore(d0, i, viewer) < RESTRICTED_LINKS
    requires e[i] == d0[i].(links := d0[i].links + [j], restricted := true)
    ensures RestrictedAs(d0, e, i, viewer)
  {
    hide Readers;
  }

  lemma NotRestricted(d0: seq<Doc>, e: seq<Doc>, i: nat, viewer: string)
    requires i < |d0| == |e| && e[i] == d0[i] && !(Eligible(d0, i, viewer) && EligibleBefore(d0, i, viewer) < RESTRICTED_LINKS)
    ensures RestrictedAs(d0, e, i, viewer)
  {
  }

  lemma RestrictedStay(d0: seq<Doc>, d: seq<Doc>, e: seq<Doc>, i: nat, viewer: string)
    requires i < |d0| == |d| == |e| && (forall h: nat :: h < i ==> RestrictedAs(d0, d, h, viewer) && e[h] == d[h])
    ensures forall h: nat :: h < i ==> RestrictedAs(d0, e, h, viewer)
  {
    hide Eligible, LastDraft;
    forall h: nat | h < i ensures RestrictedAs(d0, e, h, viewer) { assert RestrictedAs(d0, d, h, viewer) && e[h] == d[h]; }
  }

  lemma NothingCounted(d: seq<Doc>, viewer: string)
    requires Backward(d)
    ensures OnlyRestrictedAdded(d, d, viewer) && UncoveredLinks(d, 0) == 0 == CountRestricted(d, 0)
  {
  }

  method SharedWith(d: Doc, person: string) returns (shared: bool)
    ensures shared <==> person in Recipients(d.shares)
    ensures person != d.owner ==> (shared <==> person in Readers(d))
  {
    for k := 0 to |d.shares|
      invariant forall h :: 0 <= h < k ==> d.shares[h].recipient != person
    {
      if d.shares[k].recipient == person {
        RecipientsMember(d.shares, person);
        return true;
      }
    }
    RecipientsMember(d.shares, person);
    return false;
  }

  function AllLinks(d: seq<Doc>, n: nat): nat
    requires n <= |d|
  {
    if n == 0 then 0 else AllLinks(d, n - 1) + |d[n - 1].links|
  }

  /** Counts, over the plan, the links and those the whole audience of their document can open. */
  method LinkCoverage(d: seq<Doc>) returns (total: nat, covered: nat)
    requires Backward(d)
    ensures covered <= total == AllLinks(d, |d|) && total - covered == UncoveredLinks(d, |d|)
  {
    total, covered := 0, 0;
    for i := 0 to |d|
      invariant covered <= total == AllLinks(d, i) && total - covered == UncoveredLinks(d, i)
    {
      ghost var before := total - covered;
      BackwardBelow(d, i);
      for k := 0 to |d[i].links|
        invariant covered <= total == AllLinks(d, i) + k
        invariant Below(d[i].links, |d|)
        invariant total - covered == before + UncoveredIn(Audiences(d), i, d[i].links[..k])
      {
        assert d[i].links[..k + 1][..k] == d[i].links[..k];
        total := total + 1;
        var open := AudienceCovered(d[i], d[d[i].links[k]]);
        if open { covered := covered + 1; }
      }
      assert d[i].links[..|d[i].links|] == d[i].links;
    }
  }

  // ---- the whole plan ---------------------------------------------------------------------------------

  /** Stage i + 1 comes from stage i by drawing the links of document i, unless it is skipped. */
  ghost predicate DrawnInTurn(stages: seq<seq<Doc>>, i: nat, viewer: string, related: (string, string) -> bool, draws: Draws)
    requires i + 1 < |stages| && i < |stages[i]| == |stages[i + 1]|
  {
    if draws.skip(i) then stages[i + 1] == stages[i] else Drawn(stages[i], stages[i + 1], i, viewer, related, draws.count(i))
  }

  ghost predicate DrawnAll(stages: seq<seq<Doc>>, n: nat, viewer: string, related: (string, string) -> bool, draws: Draws)
  {
    |stages| > 0 && (forall i :: 0 <= i < |stages| ==> |stages[i]| == n) && |stages| <= n + 1
    && forall i: nat :: i + 1 < |stages| ==> DrawnInTurn(stages, i, viewer, related, draws)
  }

  lemma DrawnMore(stages: seq<seq<Doc>>, next: seq<Doc>, n: nat, viewer: string, related: (string, string) -> bool, draws: Draws)
    requires DrawnAll(stages, n, viewer, related, draws) && |stages| <= n && |next| == n
    requires var i := |stages| - 1;
             if draws.skip(i) then next == stages[i] else Drawn(stages[i], next, i, viewer, related, draws.count(i))
    ensures DrawnAll(stages + [next], n, viewer, related, draws)
  {
    hide Drawn;
    var more := stages + [next];
    forall i: nat | i + 1 < |more| ensures DrawnInTurn(more, i, viewer, related, draws) {
      if i + 1 < |stages| { assert DrawnInTurn(stages, i, viewer, related, draws); }
    }
  }

  lemma DrawnIsBackward(before: seq<Doc>, after: seq<Doc>, i: nat, viewer: string, related: (string, string) -> bool, n: nat)
    requires i < |before| == |after| && Drawn(before, after, i, viewer, related, n)
    ensures forall h: nat :: h < |before| && h != i ==> after[h].links == before[h].links
    ensures forall j: nat :: j in after[i].links ==> j < i
  {
    hide Readers, Covered, Widenable, Ascends;
    NearIsNotFar(before, i, viewer, related);
    forall h: nat | h < |before| && h != i ensures after[h].links == before[h].links {
      if !(h in after[i].links && h in FarSet(before, i, viewer, related)) { assert after[h] == before[h]; } else { assert JoinedBy(before[h], after[h], before[i]); }
    }
  }

  /** After planning: stage by stage every document's links were drawn, as many as asked for or as there were
      targets; then widened or dropped to the settled plan; then the first eligible documents got their
      restricted link. So every link leads to an earlier document, the library's viewer reads no new
      document, no private document is shared, and the links that not everyone can open are exactly the
      ones restricted on purpose, at most two, each to a private draft of its document's own owner. */
  method PlanLinks(docs: array<Doc>, viewer: string, related: (string, string) -> bool, draws: Draws)
    returns (restricted: nat, ghost stages: seq<seq<Doc>>, ghost settled: seq<Doc>)
    requires draws.Valid() && forall i :: 0 <= i < docs.Length ==> docs[i].links == [] && !docs[i].restricted
    modifies docs
    ensures |stages| == docs.Length + 1 && stages[0] == old(docs[..]) && DrawnAll(stages, docs.Length, viewer, related, draws)
    ensures |settled| == docs.Length && Backward(stages[docs.Length]) && Progress(stages[docs.Length], settled, viewer) && Settled(settled)
    ensures forall i: nat :: i < docs.Length ==> RestrictedAs(settled, docs[..], i, viewer)
    ensures restricted == Least(RESTRICTED_LINKS, EligibleBefore(settled, docs.Length, viewer))
    ensures Backward(docs[..])
    ensures forall i :: 0 <= i < docs.Length ==>
              && docs[i].owner == old(docs[i].owner)
              && Readers(old(docs[i])) <= Readers(docs[i])
              && (viewer in Readers(docs[i]) <==> viewer in Readers(old(docs[i])))
              && (docs[i].shares == [] <==> old(docs[i]).shares == [])
    ensures forall i: nat, k: nat :: i < docs.Length && k < |docs[i].links| ==> LinkKind(docs[..], i, k, viewer)
    ensures UncoveredLinks(docs[..], docs.Length) == restricted == CountRestricted(docs[..], docs.Length) <= RESTRICTED_LINKS
  {
    hide Readers, UncoveredLinks, CountRestricted, Draws.Valid, Drawn, DrawnAll, Progress, RestrictedAs, EligibleBefore;
    ghost var d0 := docs[..];
    stages := [d0];
    StagesStart(d0, viewer, related, draws);
    for i := 0 to docs.Length
      invariant |stages| == i + 1 && stages[0] == d0 && stages[i] == docs[..] && DrawnAll(stages, docs.Length, viewer, related, draws)
      invariant AllGrown(d0, docs[..], viewer)
      invariant forall h: nat, j: nat :: h < docs.Length && j in docs[h].links ==> j < h
      invariant forall h :: i <= h < docs.Length ==> docs[h].links == []
    {
      ghost var before := docs[..];
      if !draws.skip(i) {
        DrawLinks(docs, i, viewer, related, draws, draws.count(i));
        AllGrownTransitive(d0, before, docs[..], viewer);
        DrawnIsBackward(before, docs[..], i, viewer, related, draws.count(i));
      }
      DrawnMore(stages, docs[..], docs.Length, viewer, related, draws);
      stages := stages + [docs[..]];
    }
    ghost var drawn := docs[..];
    WidenOrDrop(docs, viewer);
    settled := docs[..];
    SettledIsBackward(settled);
    ProgressGrows(drawn, settled, viewer);
    AllGrownTransitive(d0, drawn, settled, viewer);
    restricted := Restrict(docs, viewer);
    SameReaders(settled, docs[..], viewer);
    forall i: nat, k: nat | i < docs.Length && k < |docs[i].links| ensures LinkKind(docs[..], i, k, viewer) {
      LinksAreOfAKind(settled, docs[..], i, k, viewer);
    }
  }

  lemma StagesStart(d0: seq<Doc>, viewer: string, related: (string, string) -> bool, draws: Draws)
    ensures DrawnAll([d0], |d0|, viewer, related, draws)
  {
  }

  lemma ProgressGrows(d0: seq<Doc>, d: seq<Doc>, viewer: string)
    requires Backward(d0) && Progress(d0, d, viewer)
    ensures AllGrown(d0, d, viewer)
  {
  }

  /** What the final plan keeps of the drawn links: every one whose target its document's owner may widen, or
      that the final audience could read all along; and it adds none but the restricted ones. */
  lemma DrawnLinksStay(drawn: seq<Doc>, settled: seq<Doc>, d: seq<Doc>, viewer: string, i: nat, j: nat)
    requires Backward(drawn) && Progress(drawn, settled, viewer) && |d| == |settled| && i < |d| && RestrictedAs(settled, d, i, viewer)
    ensures j in drawn[i].links && (Widenable(drawn[i], drawn[j], viewer) || Readers(d[i]) <= Readers(drawn[j])) ==> j in d[i].links
    ensures j in d[i].links ==> j in drawn[i].links || (d[i].restricted && j == d[i].links[|d[i].links| - 1] && LastDraft(settled, i, j))
  {
    hide Eligible, EligibleBefore, Recipients;
    assert j in drawn[i].links && j !in settled[i].links ==> !Widenable(drawn[i], drawn[j], viewer) && !(Readers(settled[i]) <= Readers(drawn[j]));
    assert j in settled[i].links ==> j in drawn[i].links;
  }

  lemma SettledIsBackward(d: seq<Doc>)
    requires Settled(d)
    ensures Backward(d)
  {
    forall i: nat, j: nat | i < |d| && j in d[i].links ensures j < i { assert Opens(d, i, j); }
  }

  lemma SameReaders(d0: seq<Doc>, d: seq<Doc>, viewer: string)
    requires OnlyRestrictedAdded(d0, d, viewer)
    ensures forall i :: 0 <= i < |d| ==> d[i].owner == d0[i].owner && d[i].shares == d0[i].shares && Readers(d[i]) == Readers(d0[i])
  {
  }
}
