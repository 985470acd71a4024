/** Which documents of the seeded library link to which: links are drawn to documents the whole audience
    can read, audiences are widened for an owner's own documents, and widening is carried on until every
    link is readable by everyone who can read the document it stands in. */
module LinkPlan {
  import opened Ordering

  datatype Role = Viewer | Commenter
  datatype Share = Share(recipient: string, role: Role)
  datatype Doc = Doc(owner: string, kind: string, shares: seq<Share>, links: seq<nat>, restricted: bool)

  const RESTRICTED_LINKS := 2

  function Recipients(shares: seq<Share>): set<string>
  {
    if shares == [] then {} else Recipients(shares[..|shares| - 1]) + {shares[|shares| - 1].recipient}
  }

  /** Everyone who can read a document: its owner and its recipients. */
  function Readers(d: Doc): set<string> { {d.owner} + Recipients(d.shares) }

  predicate Covered(source: Doc, target: Doc) { Readers(source) <= Readers(target) }

  lemma {:induction false} RecipientsMember(shares: seq<Share>, p: string)
    ensures p in Recipients(shares) <==> exists k :: 0 <= k < |shares| && shares[k].recipient == p
  {
    if shares != [] {
      RecipientsMember(shares[..|shares| - 1], p);
      if p in Recipients(shares[..|shares| - 1]) {
        var k :| 0 <= k < |shares| - 1 && shares[..|shares| - 1][k].recipient == p;
        assert shares[k].recipient == p;
      }
    }
  }

  lemma {:induction false} RecipientsAppend(a: seq<Share>, b: seq<Share>)
    ensures Recipients(a + b) == Recipients(a) + Recipients(b)
  {
    if b == [] {
      assert a + b == a;
    } else {
      assert (a + b)[..|a + b| - 1] == a + b[..|b| - 1];
      RecipientsAppend(a, b[..|b| - 1]);
    }
  }

  method AudienceCovered(source: Doc, target: Doc) returns (covered: bool)
    ensures covered <==> Covered(source, target)
  {
    var readers := {target.owner};
    for k := 0 to |target.shares|
      invariant readers == {target.owner} + Recipients(target.shares[..k])
    {
      assert target.shares[..k + 1][..k] == target.shares[..k];
      readers := readers + {target.shares[k].recipient};
    }
    assert target.shares[..|target.shares|] == target.shares;
    if source.owner !in readers { return false; }
    for k := 0 to |source.shares|
      invariant Recipients(source.shares[..k]) <= readers
    {
      assert source.shares[..k + 1][..k] == source.shares[..k];
      if source.shares[k].recipient !in readers {
        RecipientsMember(source.shares, source.shares[k].recipient);
        return false;
      }
    }
    assert source.shares[..|source.shares|] == source.shares;
    return true;
  }

  /** The people who read source but cannot read target. */
  method MissingReaders(source: Doc, target: Doc) returns (out: seq<string>)
    ensures forall p :: p in out <==> p in Readers(source) && p !in Readers(target)
  {
    var readers := Readers(target);
    out := if source.owner in readers then [] else [source.owner];
    for k := 0 to |source.shares|
      invariant forall p :: p in out <==> (p == source.owner || p in Recipients(source.shares[..k])) && p !in readers
    {
      assert source.shares[..k + 1][..k] == source.shares[..k];
      if source.shares[k].recipient !in readers { out := out + [source.shares[k].recipient]; }
    }
    assert source.shares[..|source.shares|] == source.shares;
  }

  function AsViewers(people: seq<string>): (r: seq<Share>)
    ensures |r| == |people| && forall k :: 0 <= k < |r| ==> r[k] == Share(people[k], Viewer)
  {
    if people == [] then [] else AsViewers(people[..|people| - 1]) + [Share(people[|people| - 1], Viewer)]
  }

  lemma {:induction false} AsViewersRecipients(people: seq<string>)
    ensures Recipients(AsViewers(people)) == set p | p in people
  {
    if people != [] {
      var most := people[..|people| - 1];
      AsViewersRecipients(most);
      assert AsViewers(people)[..|people| - 1] == AsViewers(most);
      assert people == most + [people[|people| - 1]];
    }
  }

  function Widen(d: Doc, people: seq<string>): Doc { d.(shares := d.shares + AsViewers(people)) }

  lemma WidenReaders(d: Doc, people: seq<string>)
    ensures Readers(Widen(d, people)) == Readers(d) + set p | p in people
  {
    RecipientsAppend(d.shares, AsViewers(people));
    AsViewersRecipients(people);
  }

  // ---- what widening keeps ---------------------------------------------------------------------

  /** d is d0 with viewers added: nothing private was shared and the viewer of the library reads no
      document that was not already open to them. */
  ghost predicate Grown(d0: Doc, d: Doc, viewer: string)
  {
    && d == d0.(shares := d.shares, links := d.links)
    && |d0.shares| <= |d.shares| && d.shares[..|d0.shares|] == d0.shares
    && (forall k :: |d0.shares| <= k < |d.shares| ==> d.shares[k].role == Viewer)
    && (d0.shares == [] ==> d.shares == [])
    && Readers(d0) <= Readers(d)
    && (viewer in Readers(d) ==> viewer in Readers(d0))
  }

  ghost predicate AllGrown(d0: seq<Doc>, d: seq<Doc>, viewer: string)
  {
    |d| == |d0| && forall i :: 0 <= i < |d| ==> Grown(d0[i], d[i], viewer)
  }

  /** A link the planner may widen its target for. Widening never changes this. */
  predicate Widenable(source: Doc, target: Doc, viewer: string)
  {
    source.owner == target.owner && target.shares != [] && (viewer in Readers(source) ==> viewer in Readers(target))
  }

  lemma GrownWidens(d0: Doc, d: Doc, people: seq<string>, viewer: string)
    requires Grown(d0, d, viewer) && d.shares != [] && viewer !in people
    ensures Grown(d0, Widen(d, people), viewer)
  {
    WidenReaders(d, people);
    var w := Widen(d, people);
    assert w.shares[..|d0.shares|] == d.shares[..|d0.shares|];
  }

  lemma WidenableStays(s0: Doc, t0: Doc, s: Doc, t: Doc, viewer: string)
    requires Grown(s0, s, viewer) && Grown(t0, t, viewer)
    ensures Widenable(s, t, viewer) <==> Widenable(s0, t0, viewer)
  {
  }

  /** Links lead to earlier documents. */
  predicate Backward(d: seq<Doc>) { forall i: nat, j: nat :: i < |d| && j in d[i].links ==> j < i }

  /** A bound on who may read what: it contains the first audiences and is closed under the links
      to shared documents of the same owner that the viewer reads, or does not read where the link stands. */
  ghost predicate Closed(d0: seq<Doc>, viewer: string, bound: seq<set<string>>)
    requires Backward(d0)
  {
    && |bound| == |d0|
    && (forall i :: 0 <= i < |d0| ==> Readers(d0[i]) <= bound[i])
    && (forall i: nat, j: nat ::
          i < |d0| && j in d0[i].links && d0[i].owner == d0[j].owner && d0[j].shares != [] && (viewer in Readers(d0[i]) ==> viewer in Readers(d0[j]))
          ==> bound[i] <= bound[j])
  }

  ghost predicate Within(d: seq<Doc>, bound: seq<set<string>>)
  {
    |bound| == |d| && forall i :: 0 <= i < |d| ==> Readers(d[i]) <= bound[i]
  }

  /** What holds at every point of the widening loop. */
  ghost predicate Progress(d0: seq<Doc>, d: seq<Doc>, viewer: string)
    requires Backward(d0)
  {
    && AllGrown(d0, d, viewer)
    && (forall i: nat, j: nat :: i < |d| && j in d[i].links ==> j in d0[i].links)
    && (forall i :: 0 <= i < |d| && Ascends(d0[i].links) ==> Ascends(d[i].links))
    && (forall i: nat, j: nat :: i < |d| && j in d0[i].links && j !in d[i].links ==>
          !Widenable(d0[i], d0[j], viewer) && !(Readers(d[i]) <= Readers(d0[j])))
    && (forall bound :: Closed(d0, viewer, bound) ==> Within(d, bound))
  }

  lemma ProgressStarts(d: seq<Doc>, viewer: string)
    requires Backward(d)
    ensures Progress(d, d, viewer)
  {
  }

  /** Widening a target for a link keeps the progress. */
  lemma ProgressWidens(d0: seq<Doc>, d: seq<Doc>, viewer: string, i: nat, j: nat, missing: seq<string>)
    requires Backward(d0) && Progress(d0, d, viewer) && i < |d| && j in d[i].links && Widenable(d[i], d[j], viewer)
    requires forall p :: p in missing <==> p in Readers(d[i]) && p !in Readers(d[j])
    ensures Progress(d0, d[j := Widen(d[j], missing)], viewer)
  {
    var e := d[j := Widen(d[j], missing)];
    WidenReaders(d[j], missing);
    GrownWidens(d0[j], d[j], missing, viewer);
    WidenableStays(d0[i], d0[j], d[i], d[j], viewer);
    forall bound | Closed(d0, viewer, bound) ensures Within(e, bound) {
      assert Within(d, bound);
      assert bound[i] <= bound[j];
    }
  }

  /** Dropping a link that must not be widened keeps the progress. */
  lemma ProgressDrops(d0: seq<Doc>, d: seq<Doc>, viewer: string, i: nat, j: nat, links: seq<nat>)
    requires Backward(d0) && Progress(d0, d, viewer) && i < |d| && j in d[i].links
    requires !Covered(d[i], d[j]) && !Widenable(d[i], d[j], viewer)
    requires forall k: nat :: k in links ==> k in d[i].links
    requires forall k: nat :: k in d[i].links && k != j ==> k in links
    requires Ascends(d[i].links) ==> Ascends(links)
    ensures Progress(d0, d[i := d[i].(links := links)], viewer)
  {
    var e := d[i := d[i].(links := links)];
    WidenableStays(d0[i], d0[j], d[i], d[j], viewer);
    assert Readers(e[i]) == Readers(d[i]);
    forall bound | Closed(d0, viewer, bound) ensures Within(e, bound) {
      assert Within(d, bound);
    }
  }

  // ---- the termination measure --------------------------------------------------------------------

  ghost function Weight(d: Doc, people: set<string>): nat { |d.links| + |people - Readers(d)| }

  /** Remaining links plus the document and person pairs that are not yet readable. */
  ghost function Measure(d: seq<Doc>, people: set<string>): nat
  {
    if d == [] then 0 else Weight(d[0], people) + Measure(d[1..], people)
  }

  lemma {:induction false} MeasureUpdate(d: seq<Doc>, people: set<string>, i: nat, doc: Doc)
    requires i < |d|
    ensures Measure(d[i := doc], people) == Measure(d, people) - Weight(d[i], people) + Weight(doc, people)
  {
    if i == 0 {
      assert d[i := doc][1..] == d[1..];
    } else {
      assert d[i := doc][1..] == d[1..][i - 1 := doc];
      MeasureUpdate(d[1..], people, i - 1, doc);
    }
  }

  lemma WideningShrinks(d: seq<Doc>, people: set<string>, j: nat, missing: seq<string>)
    requires j < |d| && missing != []
    requires forall p :: p in missing ==> p in people && p !in Readers(d[j])
    ensures Measure(d[j := Widen(d[j], missing)], people) < Measure(d, people)
  {
    var w := Widen(d[j], missing);
    WidenReaders(d[j], missing);
    MeasureUpdate(d, people, j, w);
    assert missing[0] in people - Readers(d[j]) && missing[0] !in people - Readers(w);
    SmallerSet(people - Readers(w), people - Readers(d[j]));
  }

  lemma {:induction false} SmallerSet<T>(a: set<T>, b: set<T>)
    requires a < b
    ensures |a| < |b|
  {
    assert b == a + (b - a);
    assert |b| == |a| + |b - a|;
    assert b - a != {};
  }

  // ---- the loop ---------------------------------------------------------------------------------------

  ghost predicate AllAmong(d: seq<Doc>, people: set<string>) { forall i :: 0 <= i < |d| ==> Readers(d[i]) <= people }

  /** The documents as one pass over docs[i] sees them: the links decided so far, then the rest. */
  ghost function Midway(d: seq<Doc>, i: nat, kept: seq<nat>, rest: seq<nat>): seq<Doc>
    requires i < |d|
  {
    d[i := d[i].(links := kept + rest)]
  }

  ghost predicate MidwayOk(d0: seq<Doc>, d: seq<Doc>, i: nat, kept: seq<nat>, rest: seq<nat>, viewer: string, people: set<string>)
    requires Backward(d0)
  {
    i < |d| && Progress(d0, Midway(d, i, kept, rest), viewer) && AllAmong(d, people)
  }

  lemma MidwayStarts(d0: seq<Doc>, d: seq<Doc>, i: nat, viewer: string, people: set<string>)
    requires i < |d| && Backward(d0) && Progress(d0, d, viewer) && AllAmong(d, people)
    ensures Midway(d, i, [], d[i].links) == d && MidwayOk(d0, d, i, [], d[i].links, viewer, people)
    ensures forall j: nat :: j in d[i].links ==> j < i
  {
    assert [] + d[i].links == d[i].links;
    assert d[i := d[i]] == d;
  }

  lemma MidwayEnds(d0: seq<Doc>, d: seq<Doc>, i: nat, kept: seq<nat>, viewer: string, people: set<string>)
    requires Backward(d0) && MidwayOk(d0, d, i, kept, [], viewer, people)
    ensures var e := d[i := d[i].(links := kept)];
            e == Midway(d, i, kept, []) && Progress(d0, e, viewer) && AllAmong(e, people)
  {
    assert kept + [] == kept;
    assert Readers(d[i].(links := kept)) == Readers(d[i]);
  }

  lemma MidwayKeeps(d: seq<Doc>, i: nat, kept: seq<nat>, rest: seq<nat>)
    requires i < |d| && rest != []
    ensures Midway(d, i, kept + [rest[0]], rest[1..]) == Midway(d, i, kept, rest)
  {
    assert kept + [rest[0]] + rest[1..] == kept + rest;
  }

  lemma AscendsWithout(kept: seq<nat>, rest: seq<nat>)
    requires rest != []
    ensures Ascends(kept + rest) ==> Ascends(kept + rest[1..])
  {
    if Ascends(kept + rest) {
      var s, t := kept + rest, kept + rest[1..];
      forall a, b | 0 <= a < b < |t| ensures t[a] < t[b] {
        assert t[a] == s[if a < |kept| then a else a + 1] && t[b] == s[if b < |kept| then b else b + 1];
      }
    }
  }

  lemma MidwayWidens(d0: seq<Doc>, d: seq<Doc>, i: nat, kept: seq<nat>, rest: seq<nat>, viewer: string, people: set<string>, missing: seq<string>)
    requires Backward(d0) && MidwayOk(d0, d, i, kept, rest, viewer, people) && rest != [] && rest[0] < i && missing != []
    requires forall p :: p in missing <==> p in Readers(d[i]) && p !in Readers(d[rest[0]])
    requires d[rest[0]].owner == d[i].owner && d[rest[0]].shares != [] && viewer !in missing
    ensures var e := d[rest[0] := Widen(d[rest[0]], missing)];
            && MidwayOk(d0, e, i, kept + [rest[0]], rest[1..], viewer, people)
            && Measure(Midway(e, i, kept + [rest[0]], rest[1..]), people) < Measure(Midway(d, i, kept, rest), people)
  {
    hide Progress, Measure, Recipients, AsViewers;
    var j := rest[0];
    var mid := Midway(d, i, kept, rest);
    var e := d[j := Widen(d[j], missing)];
    MidwayKeeps(e, i, kept, rest);
    assert j in mid[i].links && mid[j] == d[j] && Readers(mid[i]) == Readers(d[i]);
    ProgressWidens(d0, mid, viewer, i, j, missing);
    WideningShrinks(mid, people, j, missing);
    WidenReaders(d[j], missing);
    assert Midway(e, i, kept, rest) == mid[j := Widen(mid[j], missing)];
  }

  lemma MidwayDrops(d0: seq<Doc>, d: seq<Doc>, i: nat, kept: seq<nat>, rest: seq<nat>, viewer: string, people: set<string>, missing: seq<string>)
    requires Backward(d0) && MidwayOk(d0, d, i, kept, rest, viewer, people) && rest != [] && rest[0] < i && missing != []
    requires forall p :: p in missing <==> p in Readers(d[i]) && p !in Readers(d[rest[0]])
    requires !(d[rest[0]].owner == d[i].owner && d[rest[0]].shares != [] && viewer !in missing)
    ensures MidwayOk(d0, d, i, kept, rest[1..], viewer, people)
    ensures Measure(Midway(d, i, kept, rest[1..]), people) < Measure(Midway(d, i, kept, rest), people)
  {
    hide Progress, Measure, Recipients, AsViewers, Ascends;
    var j := rest[0];
    var mid := Midway(d, i, kept, rest);
    var links := kept + rest[1..];
    assert kept + rest == kept + [j] + rest[1..];
    assert mid[j] == d[j] && Readers(mid[i]) == Readers(d[i]) && missing[0] in missing;
    AscendsWithout(kept, rest);
    ProgressDrops(d0, mid, viewer, i, j, links);
    MeasureUpdate(mid, people, i, mid[i].(links := links));
    assert Midway(d, i, kept, rest[1..]) == mid[i := mid[i].(links := links)];
  }

  /** Widens or drops the links of one document. */
  method SettleLinks(docs: array<Doc>, i: nat, viewer: string, ghost d0: seq<Doc>, ghost people: set<string>) returns (changed: bool)
    requires i < docs.Length && Backward(d0) && Progress(d0, docs[..], viewer) && AllAmong(docs[..], people)
    modifies docs
    ensures Progress(d0, docs[..], viewer) && AllAmong(docs[..], people)
    ensures changed ==> Measure(docs[..], people) < old(Measure(docs[..], people))
    ensures !changed ==> docs[..] == old(docs[..]) && forall j: nat :: j in docs[i].links ==> Opens(docs[..], i, j)
  {
    hide Progress, Measure, AllAmong, MidwayOk, Midway, Readers, AsViewers, Backward;
    var links := docs[i].links;
    var kept: seq<nat> := [];
    changed := false;
    MidwayStarts(d0, docs[..], i, viewer, people);
    for k := 0 to |links|
      invariant forall j: nat :: j in links ==> j < i
      invariant MidwayOk(d0, docs[..], i, kept, links[k..], viewer, people)
      invariant changed ==> Measure(Midway(docs[..], i, kept, links[k..]), people) < old(Measure(docs[..], people))
      invariant !changed ==> docs[..] == old(docs[..]) && Midway(docs[..], i, kept, links[k..]) == docs[..]
      invariant !changed ==> forall j: nat :: j in kept ==> Opens(old(docs[..]), i, j)
    {
      var j := links[k];
      ghost var d, rest := docs[..], links[k..];
      assert rest[0] == j && rest[1..] == links[k + 1..] && j in links;
      var missing := MissingReaders(docs[i], docs[j]);
      if missing == [] {
        MidwayKeeps(d, i, kept, rest);
        kept := kept + [j];
        assert MidwayOk(d0, d, i, kept, rest[1..], viewer, people) by { SameMidway(d0, d, i, kept[..|kept| - 1], kept, rest, rest[1..], viewer, people); }
        CoveredByNone(docs[i], docs[j], missing);
      } else if docs[j].owner == docs[i].owner && docs[j].shares != [] && viewer !in missing {
        MidwayWidens(d0, d, i, kept, rest, viewer, people, missing);
        docs[j] := Widen(docs[j], missing);
        kept := kept + [j];
        changed := true;
        assert docs[..] == d[j := Widen(d[j], missing)];
      } else {
        MidwayDrops(d0, d, i, kept, rest, viewer, people, missing);
        changed := true;
      }
    }
    assert links[|links|..] == [];
    MidwayEnds(d0, docs[..], i, kept, viewer, people);
    ghost var d := docs[..];
    docs[i] := docs[i].(links := kept);
    assert docs[..] == d[i := d[i].(links := kept)];
  }

  lemma SameMidway(d0: seq<Doc>, d: seq<Doc>, i: nat, kept: seq<nat>, kept': seq<nat>, rest: seq<nat>, rest': seq<nat>, viewer: string, people: set<string>)
    requires Backward(d0) && MidwayOk(d0, d, i, kept, rest, viewer, people)
    requires Midway(d, i, kept', rest') == Midway(d, i, kept, rest)
    ensures MidwayOk(d0, d, i, kept', rest', viewer, people)
  {
  }

  lemma CoveredByNone(source: Doc, target: Doc, missing: seq<string>)
    requires missing == [] && forall p :: p in missing <==> p in Readers(source) && p !in Readers(target)
    ensures Covered(source, target)
  {
  }

  /** Whoever reads document i can open the earlier document j. */
  predicate Opens(d: seq<Doc>, i: nat, j: nat) { j < i < |d| && Covered(d[i], d[j]) }

  /** The links of the first n documents are readable by their whole audience. */
  predicate SettledUpTo(d: seq<Doc>, n: nat)
    requires n <= |d|
  {
    forall i: nat, j: nat :: i < n && j in d[i].links ==> Opens(d, i, j)
  }

  lemma SettledNext(d: seq<Doc>, i: nat)
    requires i < |d| && SettledUpTo(d, i) && forall j: nat :: j in d[i].links ==> Opens(d, i, j)
    ensures SettledUpTo(d, i + 1)
  {
  }

  /** Everyone who can read a document can read every document it links to. */
  predicate Settled(d: seq<Doc>) { SettledUpTo(d, |d|) }

  /** The fixpoint loop. It ends; afterwards every link is readable by its whole audience, no widenable
      link was dropped, and the audiences are the least ones closed under the widenable links. */
  method WidenOrDrop(docs: array<Doc>, viewer: string)
    requires Backward(docs[..])
    modifies docs
    ensures Progress(old(docs[..]), docs[..], viewer) && Settled(docs[..])
  {
    hide Progress, Measure, AllAmong, Readers, Covered, Backward;
    ghost var d0 := docs[..];
    ghost var people := set i, p | 0 <= i < |d0| && p in Readers(d0[i]) :: p;
    ProgressStarts(d0, viewer);
    assert AllAmong(d0, people) by { AmongAll(d0, people); }
    var changed := true;
    while changed
      invariant Progress(d0, docs[..], viewer) && AllAmong(docs[..], people)
      invariant !changed ==> Settled(docs[..])
      decreases Measure(docs[..], people), changed
    {
      changed := false;
      ghost var start := docs[..];
      for i := 0 to docs.Length
        invariant Progress(d0, docs[..], viewer) && AllAmong(docs[..], people)
        invariant changed ==> Measure(docs[..], people) < Measure(start, people)
        invariant !changed ==> docs[..] == start && SettledUpTo(docs[..], i)
      {
        var here := SettleLinks(docs, i, viewer, d0, people);
        changed := changed || here;
        if !changed { SettledNext(docs[..], i); }
      }
    }
  }

  lemma AmongAll(d: seq<Doc>, people: set<string>)
    requires people == set i, p | 0 <= i < |d| && p in Readers(d[i]) :: p
    ensures AllAmong(d, people)
  {
  }

  ghost function Audiences(d: seq<Doc>): (r: seq<set<string>>)
    ensures |r| == |d| && forall i :: 0 <= i < |d| ==> r[i] == Readers(d[i])
  {
    seq(|d|, i requires 0 <= i < |d| => Readers(d[i]))
  }

  /** What the loop's contract says about the outcome: the audiences are the least family that contains
      the first audiences and is closed under the widenable links, and the only links lost are ones that
      must not be widened and were missing a reader. */
  lemma AudiencesAreLeast(d0: seq<Doc>, d: seq<Doc>, viewer: string)
    requires Backward(d0) && Progress(d0, d, viewer) && Settled(d)
    ensures Closed(d0, viewer, Audiences(d))
    ensures forall bound :: Closed(d0, viewer, bound) ==> forall i :: 0 <= i < |d| ==> Audiences(d)[i] <= bound[i]
    ensures forall i: nat, j: nat :: i < |d| && j in d0[i].links && (Widenable(d0[i], d0[j], viewer) || Audiences(d)[i] <= Readers(d0[j]))
              ==> j in d[i].links
  {
    hide Recipients, Readers;
    forall i: nat, j: nat | i < |d0| && j in d0[i].links && Widenable(d0[i], d0[j], viewer)
      ensures Audiences(d)[i] <= Audiences(d)[j]
    {
      assert j in d[i].links;
      assert Opens(d, i, j);
    }
    forall bound | Closed(d0, viewer, bound) ensures forall i :: 0 <= i < |d| ==> Audiences(d)[i] <= bound[i] {
      assert Within(d, bound);
    }
  }

  /** So the order in which links are visited does not matter for who ends up reading what. */
  lemma OutcomeIsUnique(d0: seq<Doc>, d: seq<Doc>, e: seq<Doc>, viewer: string)
    requires Backward(d0) && Progress(d0, d, viewer) && Settled(d) && Progress(d0, e, viewer) && Settled(e)
    ensures Audiences(d) == Audiences(e)
  {
    AudiencesAreLeast(d0, d, viewer);
    AudiencesAreLeast(d0, e, viewer);
    forall i | 0 <= i < |d| ensures Audiences(d)[i] == Audiences(e)[i] {
      assert Audiences(d)[i] <= Audiences(e)[i] && Audiences(e)[i] <= Audiences(d)[i];
    }
  }
}
