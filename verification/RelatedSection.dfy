/** The trailing "Related documents" section of a seeded document: how it is replaced, when replacing it
    again changes nothing, and how documents are compared. */
module RelatedSection {
  import opened Wrappers
  import opened Text
  import opened Substrings

  /** The heading between its line breaks, and the same without the last one. */
  const BARE := "\n## Related documents"
  const HEADING := BARE + "\n"

  // ---- finding the section -------------------------------------------------------------------------------

  /** strings.Index, with the length of s for -1. */
  function FirstAt(s: string, p: string): (n: nat)
    ensures n <= |s| && (n < |s| ==> StartsWith(s[n..], p)) && forall i :: 0 <= i < n ==> !StartsWith(s[i..], p)
  {
    if s == [] then 0
    else if StartsWith(s, p) then assert s[0..] == s; 0
    else
      var n := FirstAt(s[1..], p);
      assert s[0..] == s;
      assert forall i :: 0 < i <= n ==> s[i..] == s[1..][i - 1..];
      n + 1
  }

  lemma FirstIs(s: string, p: string, n: nat)
    requires n <= |s| && (n < |s| ==> StartsWith(s[n..], p)) && forall i :: 0 <= i < n ==> !StartsWith(s[i..], p)
    ensures FirstAt(s, p) == n
  {
  }

  /** strings.TrimRight with "\n". */
  function Chomp(s: string): (r: string)
    ensures r <= s && (r == [] || r[|r| - 1] != '\n')
  {
    if s != [] && s[|s| - 1] == '\n' then Chomp(s[..|s| - 1]) else s
  }

  lemma {:induction false} ChompBreak(s: string)
    requires s == [] || s[|s| - 1] != '\n'
    ensures Chomp(s) == s && Chomp(s + "\n") == s
  {
    assert (s + "\n")[..|s|] == s;
  }

  /** The text before the section, without trailing line breaks. */
  function Body(markdown: string): (r: string)
    ensures r <= markdown && (r == [] || r[|r| - 1] != '\n')
  {
    Chomp(markdown[..FirstAt(markdown, HEADING)])
  }

  /** documenthubstore.NormalizeMarkdown */
  function Normalize(s: string): string { ReplaceAll(ReplaceAll(s, "\r\n", "\n"), "\r", "\n") }

  function WithRelated(markdown: string, section: string): string { Normalize(Body(markdown) + "\n" + section) }

  datatype Link = Link(title: string, id: string)

  function Items(links: seq<Link>): string
  {
    if links == [] then "" else Items(links[..|links| - 1]) + "- [" + links[|links| - 1].title + "](doc:" + links[|links| - 1].id + ")\n"
  }

  function Section(links: seq<Link>): string { if links == [] then "" else HEADING + "\n" + Items(links) }

  // ---- reading a section back --------------------------------------------------------------------------------

  const OPENING := "- ["
  const MIDDLE := "](doc:"
  const CLOSING := ")\n"

  /** One line of a section: the link it stands for and what follows it. */
  function ReadItem(s: string): Option<(Link, string)>
  {
    if !StartsWith(s, OPENING) then None
    else
      var t := s[|OPENING|..];
      var i := FirstAt(t, MIDDLE);
      if i == |t| then None
      else
        var u := t[i + |MIDDLE|..];
        var j := FirstAt(u, CLOSING);
        if j == |u| then None else Some((Link(t[..i], u[..j]), u[j + |CLOSING|..]))
  }

  function ReadItems(s: string): seq<Link>
    decreases |s|
  {
    match ReadItem(s)
    case None => []
    case Some(item) => [item.0] + ReadItems(item.1)
  }

  /** Titles and ids that do not hold the brackets around them. */
  predicate Bracketable(links: seq<Link>) { forall i :: 0 <= i < |links| ==> ']' !in links[i].title && ')' !in links[i].id }

  function Line(l: Link): string { OPENING + (l.title + (MIDDLE + (l.id + CLOSING))) }

  lemma FirstAfter(a: string, p: string, rest: string)
    requires p != [] && p[0] !in a
    ensures FirstAt(a + (p + rest), p) == |a|
  {
    var s := a + (p + rest);
    forall i | 0 <= i < |a| ensures !StartsWith(s[i..], p) {
      assert s[i] == a[i] && a[i] in a;
      Mismatch(s[i..], p, 0);
    }
    assert s[|a|..] == p + rest && (p + rest)[..|p|] == p;
    FirstIs(s, p, |a|);
  }

  lemma ReadLine(l: Link, rest: string)
    requires ']' !in l.title && ')' !in l.id
    ensures ReadItem(Line(l) + rest) == Some((l, rest))
  {
    hide FirstAt;
    var s, t, u := Line(l) + rest, l.title + (MIDDLE + (l.id + (CLOSING + rest))), l.id + (CLOSING + rest);
    assert s == OPENING + t;
    assert s[..|OPENING|] == OPENING && s[|OPENING|..] == t;
    FirstAfter(l.title, MIDDLE, u);
    assert t[..|l.title|] == l.title && t[|l.title| + |MIDDLE|..] == u;
    FirstAfter(l.id, CLOSING, rest);
    assert u[..|l.id|] == l.id && u[|l.id| + |CLOSING|..] == rest;
  }

  lemma LastLine(links: seq<Link>)
    requires links != []
    ensures Items(links) == Items(links[..|links| - 1]) + Line(links[|links| - 1])
  {
    var l, init := links[|links| - 1], Items(links[..|links| - 1]);
    RegroupFive(init, OPENING, l.title, MIDDLE, l.id, CLOSING);
  }

  lemma RegroupFive(s: string, a: string, b: string, c: string, d: string, e: string)
    ensures s + a + b + c + d + e == s + (a + (b + (c + (d + e))))
  {
    Regroup(c, d, e);
    Regroup(b, c, d + e);
    Regroup(a, b, c + (d + e));
    Regroup(s, a, b + (c + (d + e)));
  }

  lemma {:induction false} ReadMore(links: seq<Link>, rest: string)
    requires Bracketable(links)
    ensures ReadItems(Items(links) + rest) == links + ReadItems(rest)
  {
    hide ReadItem, Line, Items;
    if links == [] {
      NoItems();
      assert Items(links) + rest == rest && links + ReadItems(rest) == ReadItems(rest);
    } else {
      var init, l := links[..|links| - 1], links[|links| - 1];
      LastLine(links);
      assert Items(links) + rest == Items(init) + (Line(l) + rest);
      ReadMore(init, Line(l) + rest);
      ReadLine(l, rest);
      assert links == init + [l];
    }
  }

  lemma NoItems()
    ensures Items([]) == "" && ReadItems("") == []
  {
  }

  /** The section lists exactly the given links, each title with its own id, in order. */
  lemma SectionReadsBack(links: seq<Link>)
    requires Bracketable(links)
    ensures ReadItems(Items(links)) == links
    ensures links != [] ==> Section(links) == HEADING + "\n" + Items(links)
  {
    hide ReadItem, Items;
    ReadMore(links, "");
    NoItems();
    assert Items(links) + "" == Items(links) && links + [] == links;
  }

  // ---- normalisation ---------------------------------------------------------------------------------------

  predicate Plain(s: string) { '\r' !in s }

  lemma {:induction false} PlainFirst(a: string, b: string, word: string)
    requires Plain(a) && word != [] && word[0] == '\r'
    ensures ReplaceAll(a + b, word, "\n") == a + ReplaceAll(b, word, "\n")
  {
    hide ReplaceAll;
    if a == [] {
      assert a + b == b;
    } else {
      assert a[0] in a;
      Mismatch(a + b, word, 0);
      SkipOne(a + b, word);
      assert (a + b)[1..] == a[1..] + b;
      PlainFirst(a[1..], b, word);
      assert a == [a[0]] + a[1..];
    }
  }

  lemma SkipOne(s: string, word: string)
    requires s != [] && word != [] && !StartsWith(s, word)
    ensures ReplaceAll(s, word, "\n") == [s[0]] + ReplaceAll(s[1..], word, "\n")
  {
  }

  lemma NormalizeAfter(a: string, b: string)
    requires Plain(a)
    ensures Normalize(a + b) == a + Normalize(b)
  {
    hide ReplaceAll;
    PlainFirst(a, b, "\r\n");
    PlainFirst(a, ReplaceAll(b, "\r\n", "\n"), "\r");
  }

  lemma {:induction false} ReplacedIsPlain(s: string)
    ensures Plain(ReplaceAll(s, "\r", "\n"))
  {
    if s != [] {
      if StartsWith(s, "\r") {
        ReplacedIsPlain(s[1..]);
      } else {
        OneStarts(s, "\r");
        ReplacedIsPlain(s[1..]);
      }
    }
  }

  lemma NormalizedIsPlain(s: string)
    ensures Plain(Normalize(s))
  {
    ReplacedIsPlain(ReplaceAll(s, "\r\n", "\n"));
  }

  /** A normalised section still opens with its heading. */
  lemma SectionOpens(links: seq<Link>)
    ensures links == [] ==> Normalize(Section(links)) == ""
    ensures links != [] ==> Normalize(Section(links)) == HEADING + Normalize("\n" + Items(links))
  {
    hide Items, ReplaceAll;
    if links == [] {
      EmptyNormalizes();
    } else {
      assert Section(links) == HEADING + ("\n" + Items(links));
      HeadingIsPlain();
      NormalizeAfter(HEADING, "\n" + Items(links));
    }
  }

  predicate PlainLinks(links: seq<Link>) { forall i :: 0 <= i < |links| ==> Plain(links[i].title) && Plain(links[i].id) }

  lemma {:induction false} ItemsArePlain(links: seq<Link>)
    requires PlainLinks(links)
    ensures Plain(Items(links))
  {
    if links != [] { ItemsArePlain(links[..|links| - 1]); }
  }

  /** Links without carriage returns stand in the rewritten text as they are: the body, the heading, and the
      very lines that read back as the links. */
  lemma RewrittenReadsBack(m: string, links: seq<Link>)
    requires Plain(m) && links != [] && PlainLinks(links) && Bracketable(links)
    ensures WithRelated(m, Section(links)) == Body(m) + "\n" + HEADING + "\n" + Items(links) && ReadItems(Items(links)) == links
  {
    hide Items, Body, ReplaceAll, ReadItems, FirstAt;
    RewrittenText(m, links);
    SectionReadsBack(links);
    ItemsArePlain(links);
    HeadingIsPlain();
    var s := HEADING + "\n" + Items(links);
    assert Plain(s);
    assert s + "" == s;
    NormalizeAfter(s, "");
    EmptyNormalizes();
    assert Body(m) + "\n" + s == Body(m) + "\n" + HEADING + "\n" + Items(links);
  }

  lemma EmptyNormalizes()
    ensures Normalize("") == ""
  {
  }

  lemma HeadingIsPlain()
    ensures Plain(HEADING)
  {
  }

  // ---- replacing it again ------------------------------------------------------------------------------------

  /** The text ends in the heading without its line break, so that the break which is appended completes it. */
  predicate EndsBare(s: string) { |BARE| <= |s| && s[|s| - |BARE|..] == BARE }

  lemma BodyIsFree(m: string, i: nat)
    requires i < |Body(m)|
    ensures !StartsWith(Body(m)[i..], HEADING)
  {
    hide FirstAt, Chomp;
    var b := Body(m);
    assert i < FirstAt(m, HEADING);
    if |HEADING| <= |b| - i {
      assert b == m[..|b|];
      assert m[i..] == b[i..] + m[|b|..];
      StartsWithPrefix(b[i..], m[|b|..], HEADING);
    } else {
      ShorterCannot(b[i..], HEADING);
    }
  }

  /** Line breaks stand only at the two ends of the heading. */
  lemma HeadingBreaks(k: nat)
    requires 0 < k < |BARE|
    ensures HEADING[k] == BARE[k] != '\n'
  {
  }

  /** Where the heading can begin in a body followed by a line break and more. */
  lemma HeadingInBody(b: string, rest: string, i: nat)
    requires i < |b| && !StartsWith(b[i..], HEADING)
    ensures StartsWith((b + "\n" + rest)[i..], HEADING) <==> EndsBare(b) && i == |b| - |BARE|
  {
    var whole := (b + "\n" + rest)[i..];
    assert whole == b[i..] + ("\n" + rest);
    if |HEADING| <= |b| - i {
      StartsWithPrefix(b[i..], "\n" + rest, HEADING);
    } else if |b| - i < |BARE| {
      HeadingBreaks(|b| - i);
      Mismatch(whole, HEADING, |b| - i);
    } else {
      assert whole[..|HEADING|] == b[i..] + "\n";
      assert HEADING == BARE + "\n";
      if b[i..] != BARE {
        assert whole[..|HEADING|][..|BARE|] == b[i..];
        assert HEADING[..|BARE|] == BARE;
      }
    }
  }

  /** What follows the body: nothing, or a section that opens with the heading. */
  predicate Tail(rest: string) { rest == "" || StartsWith(rest, HEADING) }

  lemma NextLineIsNoHeading(b: string, rest: string)
    requires Tail(rest)
    ensures !StartsWith((b + "\n" + rest)[|b|..], HEADING)
  {
    var whole := (b + "\n" + rest)[|b|..];
    assert whole == "\n" + rest;
    assert HEADING[1] == '#' && (rest != "" ==> rest[0] == HEADING[0] == '\n');
    Mismatch(whole, HEADING, 1);
  }

  lemma SectionIsFound(m: string, rest: string)
    requires Tail(rest) && !EndsBare(Body(m))
    ensures FirstAt(Body(m) + "\n" + rest, HEADING) == |Body(m)| + 1
  {
    hide FirstAt, Body, EndsBare;
    var b := Body(m);
    var whole := b + "\n" + rest;
    forall i | 0 <= i < |b| + 1 ensures !StartsWith(whole[i..], HEADING) {
      if i < |b| {
        BodyIsFree(m, i);
        HeadingInBody(b, rest, i);
      } else {
        NextLineIsNoHeading(b, rest);
      }
    }
    assert whole[|b| + 1..] == rest;
    FirstIs(whole, HEADING, |b| + 1);
  }

  lemma BareIsFound(m: string, rest: string)
    requires EndsBare(Body(m))
    ensures FirstAt(Body(m) + "\n" + rest, HEADING) == |Body(m)| - |BARE|
  {
    hide FirstAt, Body, EndsBare;
    var b := Body(m);
    var whole := b + "\n" + rest;
    BareFits(b);
    forall i | 0 <= i <= |b| - |BARE| ensures StartsWith(whole[i..], HEADING) <==> i == |b| - |BARE| {
      BodyIsFree(m, i);
      HeadingInBody(b, rest, i);
    }
    FirstIs(whole, HEADING, |b| - |BARE|);
  }

  lemma BareFits(b: string)
    requires EndsBare(b)
    ensures |BARE| <= |b|
  {
  }

  /** The body of a rewritten text is the body it was written with, unless that ends in a bare heading. */
  lemma BodyOfRewritten(m: string, rest: string)
    requires Tail(rest)
    ensures !EndsBare(Body(m)) ==> Body(Body(m) + "\n" + rest) == Body(m)
    ensures EndsBare(Body(m)) ==> Body(Body(m) + "\n" + rest) == Chomp(Body(m)[..|Body(m)| - |BARE|])
  {
    hide FirstAt, EndsBare, Tail;
    var b := Body(m);
    var whole := b + "\n" + rest;
    if EndsBare(b) {
      BareIsFound(m, rest);
      BareFits(b);
      assert whole[..|b| - |BARE|] == b[..|b| - |BARE|];
    } else {
      SectionIsFound(m, rest);
      assert whole[..|b| + 1] == b + "\n";
      ChompBreak(b);
    }
  }

  lemma RewrittenText(m: string, links: seq<Link>)
    requires Plain(m)
    ensures Tail(Normalize(Section(links)))
    ensures WithRelated(m, Section(links)) == Body(m) + "\n" + Normalize(Section(links))
    ensures Plain(WithRelated(m, Section(links)))
  {
    hide Normalize, Section, Body, FirstAt;
    var s := Section(links);
    assert Plain(Body(m) + "\n") by { forall i | 0 <= i < |Body(m)| ensures Body(m)[i] == m[i] { } }
    assert Body(m) + "\n" + s == (Body(m) + "\n") + s;
    NormalizeAfter(Body(m) + "\n", s);
    NormalizedIsPlain(Body(m) + "\n" + s);
    SectionOpens(links);
    if links != [] {
      var rest := Normalize("\n" + Items(links));
      assert (HEADING + rest)[..|HEADING|] == HEADING;
    }
  }

  // ---- comparing ---------------------------------------------------------------------------------------------

  function SkipBreaks(s: string): (r: string)
    ensures |r| <= |s|
  {
    if s != [] && s[0] == '\n' then SkipBreaks(s[1..]) else s
  }

  /** Every run of two or more line breaks becomes two. */
  function Collapse(s: string): string
    decreases |s|
  {
    if s == [] then []
    else if |s| >= 2 && s[0] == '\n' && s[1] == '\n' then "\n\n" + Collapse(SkipBreaks(s[2..]))
    else [s[0]] + Collapse(s[1..])
  }

  function Squash(s: string): string { Collapse(TrimSpace(s)) }

  predicate SameMarkdown(a: string, b: string) { Squash(a) == Squash(b) }

  /** The characters that are not space. */
  function Ink(s: string): nat
  {
    if s == [] then 0 else Ink(s[1..]) + if IsSpace(s[0]) then 0 else 1
  }

  lemma {:induction false} InkAdds(a: string, b: string)
    ensures Ink(a + b) == Ink(a) + Ink(b)
  {
    hide IsSpace;
    if a == [] {
      assert a + b == b;
    } else {
      assert (a + b)[1..] == a[1..] + b;
      InkAdds(a[1..], b);
    }
  }

  lemma {:induction false} InkOfTrimLeft(s: string)
    ensures Ink(TrimLeft(s)) == Ink(s)
  {
    hide IsSpace;
    if s != [] && IsSpace(s[0]) { InkOfTrimLeft(s[1..]); }
  }

  lemma LastInk(s: string)
    requires s != []
    ensures Ink(s) == Ink(s[..|s| - 1]) + if IsSpace(s[|s| - 1]) then 0 else 1
  {
    hide IsSpace;
    assert s == s[..|s| - 1] + [s[|s| - 1]];
    InkAdds(s[..|s| - 1], [s[|s| - 1]]);
    assert Ink([]) == 0;
    assert [s[|s| - 1]][1..] == [];
  }

  lemma {:induction false} InkOfTrimRight(s: string)
    ensures Ink(TrimRight(s)) == Ink(s)
  {
    hide IsSpace, Ink;
    if s != [] && IsSpace(s[|s| - 1]) {
      LastInk(s);
      InkOfTrimRight(s[..|s| - 1]);
    }
  }

  lemma {:induction false} InkOfSkip(s: string)
    ensures Ink(SkipBreaks(s)) == Ink(s)
  {
    if s != [] && s[0] == '\n' { InkOfSkip(s[1..]); }
  }

  lemma {:induction false} InkOfCollapse(s: string)
    ensures Ink(Collapse(s)) == Ink(s)
    decreases |s|
  {
    if s != [] {
      if |s| >= 2 && s[0] == '\n' && s[1] == '\n' {
        InkOfSkip(s[2..]);
        InkOfCollapse(SkipBreaks(s[2..]));
        InkAdds("\n\n", Collapse(SkipBreaks(s[2..])));
        assert s == ["\n"[0], "\n"[0]] + s[2..];
        InkAdds("\n\n", s[2..]);
      } else {
        InkOfCollapse(s[1..]);
        InkAdds([s[0]], Collapse(s[1..]));
        InkAdds([s[0]], s[1..]);
        assert s == [s[0]] + s[1..];
      }
    }
  }

  lemma {:induction false} InkOfChomp(s: string)
    ensures Ink(Chomp(s)) == Ink(s)
  {
    hide Ink;
    if s != [] && s[|s| - 1] == '\n' {
      LastInk(s);
      InkOfChomp(s[..|s| - 1]);
    }
  }

  /** Squashing keeps the ink, so texts that compare equal have the same amount. */
  lemma SameInk(a: string, b: string)
    requires SameMarkdown(a, b)
    ensures Ink(a) == Ink(b)
  {
    hide Ink, Collapse, TrimLeft, TrimRight;
    InkOfSquash(a);
    InkOfSquash(b);
  }

  lemma InkOfSquash(s: string)
    ensures Ink(Squash(s)) == Ink(s)
  {
    hide Ink, Collapse, TrimLeft, TrimRight;
    InkOfTrimLeft(s);
    InkOfTrimRight(TrimLeft(s));
    InkOfCollapse(TrimSpace(s));
  }

  lemma BareHasInk()
    ensures 0 < Ink(BARE)
  {
    assert BARE[1] == '#' && !IsSpace('#');
    assert BARE == "\n" + BARE[1..];
    InkAdds("\n", BARE[1..]);
  }

  /** A document carries a section when replacing its section by it would change nothing worth writing. */
  predicate Carries(markdown: string, section: string) { SameMarkdown(WithRelated(markdown, section), markdown) }

  /** Losing the bare heading loses ink. */
  lemma LostHeading(b: string, rest: string)
    requires EndsBare(b)
    ensures |BARE| <= |b| && !SameMarkdown(Chomp(b[..|b| - |BARE|]) + "\n" + rest, b + "\n" + rest)
  {
    hide Squash, Ink, EndsBare, Chomp, SameMarkdown;
    BareSplits(b);
    var head, tail := b[..|b| - |BARE|], "\n" + rest;
    InkAdds(head, BARE);
    BareHasInk();
    InkOfChomp(head);
    var again, once := Chomp(head) + "\n" + rest, b + "\n" + rest;
    assert again == Chomp(head) + tail && once == b + tail;
    InkAdds(Chomp(head), tail);
    InkAdds(b, tail);
    if SameMarkdown(again, once) { SameInk(again, once); }
  }

  lemma SameAsItself(s: string)
    ensures SameMarkdown(s, s)
  {
  }

  /** Rewriting again changes nothing, not a character, exactly when the body does not end in a bare heading;
      otherwise the second rewriting loses that line and the comparison sees it. */
  lemma RewrittenCarries(m: string, links: seq<Link>)
    requires Plain(m)
    ensures var once := WithRelated(m, Section(links));
            && (Carries(once, Section(links)) <==> !EndsBare(Body(m)))
            && (!EndsBare(Body(m)) ==> WithRelated(once, Section(links)) == once && Body(once) == Body(m))
  {
    hide Normalize, Section, Body, FirstAt, SameMarkdown, EndsBare, Chomp, WithRelated, Tail, Plain;
    var once := WithRelated(m, Section(links));
    RewrittenText(m, links);
    RewrittenText(once, links);
    BodyOfRewritten(m, Normalize(Section(links)));
    if EndsBare(Body(m)) { LostHeading(Body(m), Normalize(Section(links))); } else { SameAsItself(once); }
  }

  lemma BareSplits(b: string)
    requires EndsBare(b)
    ensures |BARE| <= |b| && b == b[..|b| - |BARE|] + BARE
  {
  }

  /** The condition, on the text itself: it has no section and ends in the bare heading. */
  lemma {:induction false} BareBodies(m: string)
    ensures EndsBare(Body(m)) <==> FirstAt(m, HEADING) == |m| && EndsBare(m)
  {
    hide FirstAt;
    var b := Body(m);
    if FirstAt(m, HEADING) == |m| && EndsBare(m) {
      assert m[..|m|] == m && BARE[|BARE| - 1] == 's';
      assert m[|m| - 1] == BARE[|BARE| - 1];
      ChompBreak(m);
    }
    if EndsBare(b) && b != m {
      assert b == m[..|b|];
      BodyEndsAtBreak(m);
      HeadingHere(m, |b|);
    }
  }

  lemma HeadingHere(m: string, n: nat)
    requires n < |m| && m[n] == '\n' && EndsBare(m[..n])
    ensures |BARE| <= n && StartsWith(m[n - |BARE|..], HEADING)
  {
    var i := n - |BARE|;
    assert m[..n][i..] == BARE && m[i..] == m[..n][i..] + m[n..];
    assert m[i..][..|HEADING|] == BARE + "\n";
  }

  /** Whatever follows the body begins with a line break. */
  lemma BodyEndsAtBreak(m: string)
    requires |Body(m)| < |m|
    ensures m[|Body(m)|] == '\n'
  {
    hide FirstAt;
    var n := FirstAt(m, HEADING);
    ChompDrops(m[..n]);
    if |Body(m)| == n { assert m[n..][0] == HEADING[0]; } else { assert m[..n][|Body(m)|] == m[|Body(m)|]; }
  }

  lemma {:induction false} ChompDrops(s: string)
    ensures forall i :: |Chomp(s)| <= i < |s| ==> s[i] == '\n'
  {
    if s != [] && s[|s| - 1] == '\n' { ChompDrops(s[..|s| - 1]); }
  }

  /** A text that lacks the section lacks its ink. */
  lemma SectionAddsInk(m: string, links: seq<Link>)
    requires Plain(m) && links != [] && Body(m) == m
    ensures !Carries(m, Section(links))
  {
    hide Normalize, Section, Body, FirstAt, Squash, Ink, SameMarkdown, Items;
    RewrittenText(m, links);
    SectionOpens(links);
    var rest := Normalize("\n" + Items(links));
    var once := WithRelated(m, Section(links));
    assert once == m + ("\n" + (BARE + ("\n" + rest)));
    InkAdds(m, "\n" + (BARE + ("\n" + rest)));
    InkAdds("\n", BARE + ("\n" + rest));
    InkAdds(BARE, "\n" + rest);
    BareHasInk();
    if SameMarkdown(once, m) { SameInk(once, m); }
  }

  const BARE_TEXT := "a" + BARE

  lemma BareTextIsBare()
    ensures Plain(BARE_TEXT) && EndsBare(BARE_TEXT) && FirstAt(BARE_TEXT, HEADING) == |BARE_TEXT|
  {
    hide FirstAt;
    var m := BARE_TEXT;
    assert m[1..] == BARE;
    forall i | 0 <= i < |m| ensures !StartsWith(m[i..], HEADING) {
      if i == 0 { Mismatch(m[i..], HEADING, 0); } else { ShorterCannot(m[i..], HEADING); }
    }
    FirstIs(m, HEADING, |m|);
  }

  lemma BareTextIsItsBody()
    ensures Body(BARE_TEXT) == BARE_TEXT && EndsBare(Body(BARE_TEXT))
  {
    hide FirstAt, Chomp;
    BareTextIsBare();
    assert BARE_TEXT[..|BARE_TEXT|] == BARE_TEXT;
    assert BARE_TEXT[|BARE_TEXT| - 1] == BARE[|BARE| - 1] == 's';
    ChompBreak(BARE_TEXT);
  }

  /** It does happen: this text, given any links, is rewritten, and what is written is rewritten again; the
      third rewriting changes nothing. */
  lemma BareExample(links: seq<Link>)
    requires links != []
    ensures var s := Section(links);
            var once := WithRelated(BARE_TEXT, s);
            var twice := WithRelated(once, s);
            && Plain(BARE_TEXT) && Plain(once) && Plain(twice)
            && !Carries(BARE_TEXT, s) && !Carries(once, s) && Carries(twice, s)
  {
    hide Normalize, Section, FirstAt, SameMarkdown, Body, EndsBare;
    var s := Section(links);
    var once := WithRelated(BARE_TEXT, s);
    BareTextIsBare();
    BareTextIsItsBody();
    SectionAddsInk(BARE_TEXT, links);
    RewrittenText(BARE_TEXT, links);
    RewrittenCarries(BARE_TEXT, links);
    RewrittenText(once, links);
    BodyOfRewritten(BARE_TEXT, Normalize(s));
    OneLetterBody();
    RewrittenCarries(once, links);
  }

  lemma OneLetterBody()
    ensures Chomp(BARE_TEXT[..|BARE_TEXT| - |BARE|]) == "a" && !EndsBare("a")
  {
    assert BARE_TEXT[..|BARE_TEXT| - |BARE|] == "a";
    ChompBreak("a");
  }
}
