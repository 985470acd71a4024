/** Bringing an already seeded library up to the plan: missing shares are added, the related section of
    the newest version is rewritten, and so is the published one where anyone but the owner reads it. */
module Relink {
  import opened Wrappers
  import opened Ordering
  import opened RelatedSection

  datatype Version = Version(title: string, markdown: string)

  /** A stored document: its versions, oldest first, the published one, and who may read it. */
  datatype Doc = Doc(owner: string, versions: seq<Version>, live: Option<nat>, readers: set<string>)

  predicate DocOk(d: Doc)
  {
    && d.versions != [] && (d.live.Some? ==> d.live.value < |d.versions|) && d.owner in d.readers
    && forall i :: 0 <= i < |d.versions| ==> Plain(d.versions[i].markdown)
  }

  function Newest(d: Doc): Version
    requires d.versions != []
  {
    d.versions[|d.versions| - 1]
  }

  // ---- shares ----------------------------------------------------------------------------------------------

  /** SharePersonalDocumentRole: the first share publishes the newest version. */
  function Shared(d: Doc, recipient: string): Doc
    requires d.versions != []
  {
    d.(readers := d.readers + {recipient}, live := if d.live.None? then Some(|d.versions| - 1) else d.live)
  }

  datatype Shares = Shares(doc: Doc, added: nat)

  function ShareMissing(d: Doc, recipients: seq<string>, has: set<string>): (r: Shares)
    requires d.versions != []
    ensures r.doc.versions == d.versions && r.doc.owner == d.owner
  {
    if recipients == [] then Shares(d, 0)
    else
      var before := ShareMissing(d, recipients[..|recipients| - 1], has);
      var last := recipients[|recipients| - 1];
      if last in has then before else Shares(Shared(before.doc, last), before.added + 1)
  }

  function Converged(d: Doc, recipients: seq<string>): (r: Shares)
    requires d.versions != []
    ensures r.doc.versions == d.versions && r.doc.owner == d.owner
  {
    ShareMissing(d, recipients, d.readers)
  }

  lemma {:induction false} SharesReach(d: Doc, recipients: seq<string>, has: set<string>)
    requires DocOk(d) && has <= d.readers
    ensures var r := ShareMissing(d, recipients, has);
            && DocOk(r.doc) && d.readers <= r.doc.readers
            && (forall x :: x in recipients ==> x in r.doc.readers)
            && (forall x :: x in r.doc.readers ==> x in d.readers || x in recipients)
            && (r.added == 0 ==> r.doc == d) && (0 < r.added ==> r.doc.live.Some?)
            && (d.live.Some? ==> r.doc.live == d.live) && (r.doc.live == d.live || r.doc.live == Some(|d.versions| - 1))
  {
    hide Plain;
    if recipients != [] {
      SharesReach(d, recipients[..|recipients| - 1], has);
      assert recipients == recipients[..|recipients| - 1] + [recipients[|recipients| - 1]];
    }
  }

  lemma {:induction false} NothingToShare(d: Doc, recipients: seq<string>, has: set<string>)
    requires d.versions != [] && forall x :: x in recipients ==> x in has
    ensures ShareMissing(d, recipients, has) == Shares(d, 0)
  {
    if recipients != [] { NothingToShare(d, recipients[..|recipients| - 1], has); }
  }

  // ---- the section -----------------------------------------------------------------------------------------

  /** Published, and read by someone besides the owner. */
  predicate Deployed(d: Doc) { d.live.Some? && 2 <= |d.readers| }

  function Published(d: Doc): Version
    requires DocOk(d)
  {
    if Deployed(d) then d.versions[d.live.value] else Newest(d)
  }

  predicate FixesPublished(d: Doc, section: string)
    requires DocOk(d)
  {
    Deployed(d) && !Carries(Published(d).markdown, section)
  }

  /** The newest version is rewritten when it is not itself the published one, and either lacks the section
      or has just been overtaken by the published fix. */
  predicate FixesNewest(d: Doc, section: string)
    requires DocOk(d)
  {
    !(Deployed(d) && d.live.value == |d.versions| - 1) && (!Carries(Newest(d).markdown, section) || FixesPublished(d, section))
  }

  function Fixed(v: Version, section: string): Version { v.(markdown := WithRelated(v.markdown, section)) }

  function Rewritten(d: Doc, section: string): Doc
    requires DocOk(d)
  {
    var published := if FixesPublished(d, section) then [Fixed(Published(d), section)] else [];
    var newest := if FixesNewest(d, section) then [Fixed(Newest(d), section)] else [];
    d.(versions := d.versions + published + newest, live := if published != [] then Some(|d.versions|) else d.live)
  }

  function Count(b: bool): nat { if b then 1 else 0 }

  datatype Pass = Pass(doc: Doc, rewritten: nat, versions: nat, shares: nat)

  /** One document's part of a relink pass. */
  function RelinkPass(d: Doc, recipients: seq<string>, section: string): Pass
    requires DocOk(d)
  {
    SharesReach(d, recipients, d.readers);
    var c := Converged(d, recipients);
    var wrote := Count(FixesPublished(c.doc, section)) + Count(FixesNewest(c.doc, section));
    Pass(Rewritten(c.doc, section), Count(0 < wrote), wrote, c.added)
  }

  // ---- what one pass achieves ------------------------------------------------------------------------------

  /** No text that the pass rewrites ends in a bare heading. */
  predicate Clean(d: Doc, section: string)
    requires DocOk(d)
  {
    && (FixesPublished(d, section) ==> !EndsBare(Body(Published(d).markdown)))
    && (FixesNewest(d, section) ==> !EndsBare(Body(Newest(d).markdown)))
  }

  /** The newest version carries the section, and so does the published one where others read it. */
  predicate UpToDate(d: Doc, section: string)
    requires DocOk(d)
  {
    Carries(Newest(d).markdown, section) && (Deployed(d) ==> Carries(Published(d).markdown, section))
  }

  lemma OthersRead(d: Doc)
    requires DocOk(d)
    ensures Deployed(d) <==> d.live.Some? && exists x :: x in d.readers && x != d.owner
  {
    hide Plain;
    var others := d.readers - {d.owner};
    assert d.readers == others + {d.owner} && |d.readers| == |others| + 1;
    if others != {} {
      var x :| x in others;
    }
  }

  lemma RewrittenOk(d: Doc, links: seq<Link>)
    requires DocOk(d)
    ensures DocOk(Rewritten(d, Section(links))) && d.versions <= Rewritten(d, Section(links)).versions
    ensures Rewritten(d, Section(links)).readers == d.readers
  {
    hide Plain, WithRelated, Section, Carries;
    var s := Section(links);
    FixedIsPlain(Published(d), links);
    FixedIsPlain(Newest(d), links);
  }

  lemma FixedIsPlain(v: Version, links: seq<Link>)
    requires Plain(v.markdown)
    ensures Plain(Fixed(v, Section(links)).markdown)
  {
    hide WithRelated, Section;
    RewrittenText(v.markdown, links);
  }

  /** The newest and the published text after rewriting, by what was rewritten. */
  lemma RewrittenTexts(d: Doc, links: seq<Link>)
    requires DocOk(d)
    ensures var s := Section(links);
            var e := Rewritten(d, s);
            && DocOk(e)
            && Newest(e) == (if FixesNewest(d, s) then Fixed(Newest(d), s) else if FixesPublished(d, s) then Fixed(Published(d), s) else Newest(d))
            && (Deployed(e) <==> Deployed(d))
            && (Deployed(d) ==> Published(e) == if FixesPublished(d, s) then Fixed(Published(d), s) else Published(d))
  {
    hide Plain, WithRelated, Section, Carries;
    RewrittenOk(d, links);
  }

  /** After one pass the document is up to date exactly when nothing rewritten ended in a bare heading. */
  lemma UpToDateIffClean(d: Doc, links: seq<Link>)
    requires DocOk(d)
    ensures DocOk(Rewritten(d, Section(links)))
    ensures UpToDate(Rewritten(d, Section(links)), Section(links)) <==> Clean(d, Section(links))
  {
    hide Plain, WithRelated, Section, Carries, Rewritten, EndsBare, Body;
    var s := Section(links);
    RewrittenTexts(d, links);
    RewrittenCarries(Newest(d).markdown, links);
    RewrittenCarries(Published(d).markdown, links);
  }

  /** A document that is up to date and shared as planned is left alone, and only such a document is. */
  lemma QuietIffUpToDate(d: Doc, recipients: seq<string>, section: string)
    requires DocOk(d)
    ensures RelinkPass(d, recipients, section) == Pass(d, 0, 0, 0)
            <==> UpToDate(d, section) && forall x :: x in recipients ==> x in d.readers
  {
    hide Plain, Carries, Section, WithRelated;
    SharesReach(d, recipients, d.readers);
    var c := Converged(d, recipients);
    if forall x :: x in recipients ==> x in d.readers { NothingToShare(d, recipients, d.readers); }
    if c.added == 0 { assert c.doc == d; }
  }

  /** The relink pass converges: run again it writes no version and adds no share, exactly when nothing
      the first run rewrote ended in a bare heading. */
  lemma SecondPassIsQuiet(d: Doc, recipients: seq<string>, links: seq<Link>)
    requires DocOk(d)
    ensures var s := Section(links);
            var e := RelinkPass(d, recipients, s).doc;
            && DocOk(e) && DocOk(Converged(d, recipients).doc)
            && (RelinkPass(e, recipients, s) == Pass(e, 0, 0, 0) <==> Clean(Converged(d, recipients).doc, s))
            && (Clean(Converged(d, recipients).doc, s) ==>
                  && Carries(Newest(e).markdown, s)
                  && (e.live.Some? && (exists x :: x in e.readers && x != e.owner) ==> Carries(e.versions[e.live.value].markdown, s)))
  {
    hide Section, Rewritten, ShareMissing, RelinkPass, Clean, Plain, Carries;
    var s := Section(links);
    SharesReach(d, recipients, d.readers);
    var c := Converged(d, recipients).doc;
    UpToDateIffClean(c, links);
    RewrittenOk(c, links);
    PassRewrites(d, recipients, s);
    QuietIffUpToDate(Rewritten(c, s), recipients, s);
    OthersRead(Rewritten(c, s));
  }

  lemma PassRewrites(d: Doc, recipients: seq<string>, section: string)
    requires DocOk(d)
    ensures DocOk(Converged(d, recipients).doc) && RelinkPass(d, recipients, section).doc == Rewritten(Converged(d, recipients).doc, section)
  {
    hide Rewritten;
    SharesReach(d, recipients, d.readers);
  }

  /** An owner's document whose only version ends in the bare heading: the first pass writes a version, the
      second writes another, and only the third is quiet. */
  lemma BareDocumentIsWrittenTwice(title: string, owner: string, links: seq<Link>)
    requires links != []
    ensures var s := Section(links);
            var d := Doc(owner, [Version(title, BARE_TEXT)], None, {owner});
            && DocOk(d)
            && var first := RelinkPass(d, [], s);
               && first.versions == 1 && DocOk(first.doc)
               && var second := RelinkPass(first.doc, [], s);
                  && second.versions == 1 && DocOk(second.doc) && RelinkPass(second.doc, [], s) == Pass(second.doc, 0, 0, 0)
  {
    hide Section, WithRelated, Carries, Plain;
    var s := Section(links);
    BareExample(links);
    var once := WithRelated(BARE_TEXT, s);
    var twice := WithRelated(once, s);
    var d0, d1 := Doc(owner, [Version(title, BARE_TEXT)], None, {owner}), Doc(owner, [Version(title, BARE_TEXT), Version(title, once)], None, {owner});
    var d2 := Doc(owner, [Version(title, BARE_TEXT), Version(title, once), Version(title, twice)], None, {owner});
    OwnPass(d0, s);
    OwnPass(d1, s);
    OwnPass(d2, s);
    assert d0.versions + [Version(title, once)] == d1.versions && d1.versions + [Version(title, twice)] == d2.versions;
  }

  /** A pass over a document only its owner reads. */
  lemma OwnPass(d: Doc, section: string)
    requires DocOk(d) && d.live == None && d.readers == {d.owner}
    ensures RelinkPass(d, [], section) ==
            if Carries(Newest(d).markdown, section) then Pass(d, 0, 0, 0)
            else Pass(d.(versions := d.versions + [Fixed(Newest(d), section)]), 1, 1, 0)
  {
    hide Carries, WithRelated, Plain;
    assert d.versions + [] + [] == d.versions && d.versions + [] + [Fixed(Newest(d), section)] == d.versions + [Fixed(Newest(d), section)];
  }

  /** Whatever is rewritten keeps its title and its body: the newest version and the published one read as they
      did but for the section; no earlier version is touched; and only so many are added as are counted. */
  lemma TitlesAndBodiesStay(d: Doc, links: seq<Link>)
    requires DocOk(d) && Clean(d, Section(links))
    ensures var s := Section(links);
            var e := Rewritten(d, s);
            && DocOk(e) && d.versions <= e.versions && e.owner == d.owner && e.readers == d.readers
            && |e.versions| == |d.versions| + Count(FixesPublished(d, s)) + Count(FixesNewest(d, s))
            && Newest(e).title == Newest(d).title && Body(Newest(e).markdown) == Body(Newest(d).markdown)
            && Published(e).title == Published(d).title && Body(Published(e).markdown) == Body(Published(d).markdown)
            && (e.live == d.live || (Deployed(d) && e.live == Some(|d.versions|)))
  {
    hide Plain, WithRelated, Section, Carries, EndsBare, Body;
    RewrittenOk(d, links);
    RewrittenTexts(d, links);
    RewrittenCarries(Newest(d).markdown, links);
    RewrittenCarries(Published(d).markdown, links);
  }

  /** A draft on top of the published version stays on top, whatever is fixed below it. */
  lemma DraftStaysOnTop(d: Doc, links: seq<Link>)
    requires DocOk(d) && Deployed(d) && d.live.value < |d.versions| - 1 && Clean(d, Section(links))
    ensures var e := Rewritten(d, Section(links));
            && DocOk(e) && d.versions <= e.versions
            && e.live.Some? && e.live.value < |e.versions| - 1
            && Newest(e).title == Newest(d).title && Body(Newest(e).markdown) == Body(Newest(d).markdown)
            && Published(e).title == Published(d).title && Body(Published(e).markdown) == Body(Published(d).markdown)
  {
    hide Plain, WithRelated, Section, Carries, EndsBare, Body;
    RewrittenOk(d, links);
    TitlesAndBodiesStay(d, links);
  }

  /** The counters of a pass: the versions it adds, whether it adds any, and the readers it adds when every
      recipient is planned once. */
  lemma PassCounts(d: Doc, recipients: seq<string>, links: seq<Link>)
    requires DocOk(d)
    ensures var p := RelinkPass(d, recipients, Section(links));
            && |p.doc.versions| == |d.versions| + p.versions && p.versions <= 2 && p.rewritten == (if p.versions > 0 then 1 else 0)
            && (Distinct(recipients) ==> |p.doc.readers| == |d.readers| + p.shares)
            && p.doc.readers == d.readers + set x | x in recipients
  {
    hide Plain, WithRelated, Section, Carries, Distinct;
    SharesReach(d, recipients, d.readers);
    RewrittenOk(Converged(d, recipients).doc, links);
    if Distinct(recipients) { SharesCount(d, recipients, d.readers); }
  }

  lemma {:induction false} SharesCount(d: Doc, recipients: seq<string>, has: set<string>)
    requires DocOk(d) && has == d.readers && Distinct(recipients)
    ensures var r := ShareMissing(d, recipients, has); |r.doc.readers| == |d.readers| + r.added
  {
    hide Plain;
    if recipients != [] {
      var n := |recipients| - 1;
      var init, last := recipients[..n], recipients[n];
      SharesCount(d, init, has);
      SharesReach(d, init, has);
      assert forall i :: 0 <= i < n ==> init[i] == recipients[i] != last;
    }
  }

  // ---- the library -----------------------------------------------------------------------------------------

  datatype Planned = Planned(title: string, recipients: seq<string>, links: seq<nat>)

  predicate PlanOk(plan: seq<Planned>) { forall i, k :: 0 <= i < |plan| && 0 <= k < |plan[i].links| ==> plan[i].links[k] < |plan| }

  /** Each planned target under its own title and id, in order. */
  function LinksOf(plan: seq<Planned>, ids: seq<string>, targets: seq<nat>): (links: seq<Link>)
    requires |ids| == |plan| && forall k :: 0 <= k < |targets| ==> targets[k] < |plan|
    ensures |links| == |targets| && forall k :: 0 <= k < |links| ==> links[k].title == plan[targets[k]].title && links[k].id == ids[targets[k]]
  {
    if targets == [] then []
    else
      var j := targets[|targets| - 1];
      LinksOf(plan, ids, targets[..|targets| - 1]) + [Link(plan[j].title, ids[j])]
  }

  ghost predicate Matches(docs: seq<Doc>, plan: seq<Planned>, ids: seq<string>, reused: seq<bool>)
  {
    |docs| == |plan| == |ids| == |reused| && PlanOk(plan) && forall i :: 0 <= i < |docs| ==> DocOk(docs[i])
  }

  ghost function PassAt(docs: seq<Doc>, plan: seq<Planned>, ids: seq<string>, reused: seq<bool>, i: nat): Pass
    requires Matches(docs, plan, ids, reused) && i < |docs|
  {
    if reused[i] then RelinkPass(docs[i], plan[i].recipients, Section(LinksOf(plan, ids, plan[i].links))) else Pass(docs[i], 0, 0, 0)
  }

  datatype Tally = Tally(rewritten: nat, versions: nat, shares: nat)

  ghost function TallyOf(docs: seq<Doc>, plan: seq<Planned>, ids: seq<string>, reused: seq<bool>, n: nat): Tally
    requires Matches(docs, plan, ids, reused) && n <= |docs|
  {
    if n == 0 then Tally(0, 0, 0)
    else
      var t, p := TallyOf(docs, plan, ids, reused, n - 1), PassAt(docs, plan, ids, reused, n - 1);
      Tally(t.rewritten + p.rewritten, t.versions + p.versions, t.shares + p.shares)
  }

  /** The library after the pass. */
  ghost predicate Relinks(docs: seq<Doc>, plan: seq<Planned>, ids: seq<string>, reused: seq<bool>, after: seq<Doc>)
    requires Matches(docs, plan, ids, reused)
  {
    |after| == |docs| && forall i :: 0 <= i < |docs| ==> after[i] == PassAt(docs, plan, ids, reused, i).doc
  }

  ghost predicate AllClean(docs: seq<Doc>, plan: seq<Planned>, ids: seq<string>, reused: seq<bool>)
    requires Matches(docs, plan, ids, reused)
  {
    forall i :: 0 <= i < |docs| && reused[i] ==> CleanAt(docs, plan, ids, i)
  }

  ghost predicate CleanAt(docs: seq<Doc>, plan: seq<Planned>, ids: seq<string>, i: nat)
    requires i < |docs| == |plan| == |ids| && PlanOk(plan) && DocOk(docs[i])
  {
    SharesReach(docs[i], plan[i].recipients, docs[i].readers);
    Clean(Converged(docs[i], plan[i].recipients).doc, Section(LinksOf(plan, ids, plan[i].links)))
  }

  lemma PassAtTwice(docs: seq<Doc>, plan: seq<Planned>, ids: seq<string>, reused: seq<bool>, after: seq<Doc>, i: nat)
    requires Matches(docs, plan, ids, reused) && Relinks(docs, plan, ids, reused, after) && i < |docs|
    ensures DocOk(after[i])
    ensures reused[i] ==>
              (RelinkPass(after[i], plan[i].recipients, Section(LinksOf(plan, ids, plan[i].links))) == Pass(after[i], 0, 0, 0) <==> CleanAt(docs, plan, ids, i))
  {
    hide RelinkPass, DocOk, Clean, Section, LinksOf;
    if reused[i] { SecondPassIsQuiet(docs[i], plan[i].recipients, LinksOf(plan, ids, plan[i].links)); }
    assert after[i] == PassAt(docs, plan, ids, reused, i).doc;
  }

  /** A second pass over the whole library changes no document and counts nothing, exactly when nothing the
      first pass rewrote ended in a bare heading. */
  lemma LibraryConverges(docs: seq<Doc>, plan: seq<Planned>, ids: seq<string>, reused: seq<bool>, after: seq<Doc>)
    requires Matches(docs, plan, ids, reused) && Relinks(docs, plan, ids, reused, after)
    ensures Matches(after, plan, ids, reused)
    ensures (forall i :: 0 <= i < |after| ==> PassAt(after, plan, ids, reused, i) == Pass(after[i], 0, 0, 0)) <==> AllClean(docs, plan, ids, reused)
    ensures AllClean(docs, plan, ids, reused) ==> TallyOf(after, plan, ids, reused, |after|) == Tally(0, 0, 0)
  {
    hide RelinkPass, DocOk, CleanAt, Section, LinksOf;
    forall i | 0 <= i < |docs| ensures DocOk(after[i]) { PassAtTwice(docs, plan, ids, reused, after, i); }
    forall i | 0 <= i < |docs|
      ensures PassAt(after, plan, ids, reused, i) == Pass(after[i], 0, 0, 0) <==> (reused[i] ==> CleanAt(docs, plan, ids, i)) {
      PassAtTwice(docs, plan, ids, reused, after, i);
    }
    if AllClean(docs, plan, ids, reused) { QuietTally(after, plan, ids, reused, |after|); }
  }

  lemma {:induction false} QuietTally(docs: seq<Doc>, plan: seq<Planned>, ids: seq<string>, reused: seq<bool>, n: nat)
    requires Matches(docs, plan, ids, reused) && n <= |docs|
    requires forall i :: 0 <= i < |docs| ==> PassAt(docs, plan, ids, reused, i) == Pass(docs[i], 0, 0, 0)
    ensures TallyOf(docs, plan, ids, reused, n) == Tally(0, 0, 0)
  {
    hide RelinkPass, DocOk, PassAt;
    if n > 0 { QuietTally(docs, plan, ids, reused, n - 1); }
  }

  /** The document store, as far as relinking uses it. */
  class Hub {
    var docs: seq<Doc>

    method ConvergeShares(i: nat, recipients: seq<string>) returns (added: nat)
      requires i < |docs| && docs[i].versions != []
      modifies this
      ensures |docs| == |old(docs)| && docs == old(docs)[i := Converged(old(docs)[i], recipients).doc]
      ensures added == Converged(old(docs)[i], recipients).added
    {
      added := 0;
      if recipients == [] { return; }
      var has := docs[i].readers;
      for k := 0 to |recipients|
        invariant |docs| == |old(docs)| && Shares(docs[i], added) == ShareMissing(old(docs)[i], recipients[..k], has)
        invariant docs == old(docs)[i := docs[i]]
      {
        assert recipients[..k + 1][..k] == recipients[..k];
        if recipients[k] !in has {
          docs := docs[i := Shared(docs[i], recipients[k])];
          added := added + 1;
        }
      }
      assert recipients[..|recipients|] == recipients;
    }

    method CreateVersion(i: nat, title: string, markdown: string) returns (id: nat)
      requires i < |docs|
      modifies this
      ensures id == |old(docs)[i].versions| && docs == old(docs)[i := old(docs)[i].(versions := old(docs)[i].versions + [Version(title, markdown)])]
    {
      id := |docs[i].versions|;
      docs := docs[i := docs[i].(versions := docs[i].versions + [Version(title, markdown)])];
    }

    method Deploy(i: nat, version: nat)
      requires i < |docs|
      modifies this
      ensures docs == old(docs)[i := old(docs)[i].(live := Some(version))]
    {
      docs := docs[i := docs[i].(live := Some(version))];
    }

    method RelinkOne(i: nat, recipients: seq<string>, section: string) returns (rewritten: nat, versions: nat, shares: nat)
      requires i < |docs| && DocOk(docs[i])
      modifies this
      ensures var p := RelinkPass(old(docs)[i], recipients, section);
              docs == old(docs)[i := p.doc] && rewritten == p.rewritten && versions == p.versions && shares == p.shares
    {
      hide Carries, WithRelated, Plain;
      SharesReach(docs[i], recipients, docs[i].readers);
      shares := ConvergeShares(i, recipients);
      rewritten, versions := 0, 0;
      var d := docs[i];
      var last := |d.versions| - 1;
      var latest := d.versions[last];
      var deployed := d.live.Some? && 2 <= |d.readers|;
      var published := latest;
      if deployed && d.live.value != last { published := d.versions[d.live.value]; }
      var latestOk, publishedOk := Carries(latest.markdown, section), Carries(published.markdown, section);
      assert d.versions + [] + [] == d.versions;
      if latestOk && (!deployed || publishedOk) { return; }
      var tip := last;
      if deployed && !publishedOk {
        tip := CreateVersion(i, published.title, WithRelated(published.markdown, section));
        Deploy(i, tip);
        versions := versions + 1;
      }
      if !deployed || d.live.value != last {
        if !latestOk || tip != last {
          var draft := CreateVersion(i, latest.title, WithRelated(latest.markdown, section));
          versions := versions + 1;
        }
      }
      rewritten := 1;
      assert docs[i].versions == Rewritten(d, section).versions;
      assert docs == old(docs)[i := docs[i]];
    }

    method RelinkSeedDocuments(plan: seq<Planned>, ids: seq<string>, reused: seq<bool>) returns (rewritten: nat, versions: nat, shares: nat)
      requires Matches(docs, plan, ids, reused)
      modifies this
      ensures Relinks(old(docs), plan, ids, reused, docs)
      ensures Tally(rewritten, versions, shares) == TallyOf(old(docs), plan, ids, reused, |plan|)
    {
      hide RelinkPass, DocOk, Section;
      rewritten, versions, shares := 0, 0, 0;
      for i := 0 to |plan|
        invariant |docs| == |old(docs)|
        invariant forall k :: 0 <= k < |docs| ==> docs[k] == if k < i then PassAt(old(docs), plan, ids, reused, k).doc else old(docs)[k]
        invariant Tally(rewritten, versions, shares) == TallyOf(old(docs), plan, ids, reused, i)
      {
        if reused[i] {
          var links: seq<Link> := [];
          for k := 0 to |plan[i].links|
            invariant links == LinksOf(plan, ids, plan[i].links[..k])
          {
            assert plan[i].links[..k + 1][..k] == plan[i].links[..k];
            var j := plan[i].links[k];
            links := links + [Link(plan[j].title, ids[j])];
          }
          assert plan[i].links[..|plan[i].links|] == plan[i].links;
          var r, v, s := RelinkOne(i, plan[i].recipients, Section(links));
          rewritten, versions, shares := rewritten + r, versions + v, shares + s;
        }
      }
    }
  }
}
