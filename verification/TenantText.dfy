/** What rewriting a text for another tenant keeps: its closed links, string for string and in order. */
module TenantText {
  import opened Text
  import opened Substrings
  import opened LinkText

  // ---- over whole texts ----------------------------------------------------------------------------------

  /** '(' at most at the front and ')' at most at the end. */
  predicate Shell(p: string) { p != [] && '(' !in p[1..] && ')' !in p[..|p| - 1] }

  predicate Bracketed(m: string) { 2 <= |m| && m[0] == '(' && m[|m| - 1] == ')' }

  function ReplaceEach(ss: seq<string>, word: string, other: string): (r: seq<string>)
    requires word != []
    ensures |r| == |ss| && forall i :: 0 <= i < |ss| ==> r[i] == ReplaceAll(ss[i], word, other)
  {
    if ss == [] then [] else [ReplaceAll(ss[0], word, other)] + ReplaceEach(ss[1..], word, other)
  }

  lemma {:induction false} ReplaceAssembled(segments: seq<string>, between: seq<string>, word: string, other: string)
    requires |segments| == |between| + 1 && Shell(word) && forall i :: 0 <= i < |between| ==> Bracketed(between[i])
    ensures ReplaceAll(Assemble(segments, between), word, other)
         == Assemble(ReplaceEach(segments, word, other), ReplaceEach(between, word, other))
  {
    hide ReplaceAll;
    if between != [] {
      var rest := Assemble(segments[1..], between[1..]);
      var mark := between[0];
      FreshStart(segments[0], mark + rest, word);
      ReplaceSplits(segments[0], mark + rest, word, other);
      ClosedEnd(mark, rest, word);
      ReplaceSplits(mark, rest, word, other);
      ReplaceAssembled(segments[1..], between[1..], word, other);
      assert segments[0] + mark + rest == segments[0] + (mark + rest);
      assert ReplaceEach(segments, word, other)[1..] == ReplaceEach(segments[1..], word, other);
      assert ReplaceEach(between, word, other)[1..] == ReplaceEach(between[1..], word, other);
    }
  }

  // ---- the replacements ------------------------------------------------------------------------------------

  datatype Replacement = Replacement(word: string, other: string)

  const REPLACEMENTS := [
    Replacement("HarborCare", "Ironridge Builders"),
    Replacement("Care coordination", "Field coordination"),
    Replacement("care coordination", "field coordination"),
    Replacement("Infection control", "Jobsite safety"),
    Replacement("infection control", "jobsite safety"),
    Replacement("Patients", "Crew members"),
    Replacement("patients", "crew members"),
    Replacement("Patient", "Crew member"),
    Replacement("patient", "crew member"),
    Replacement("Nurses", "Forepersons"),
    Replacement("nurses", "forepersons"),
    Replacement("Nurse", "Foreperson"),
    Replacement("nurse", "foreperson"),
    Replacement("ICU", "active jobsite"),
    Replacement("hospital", "jobsite"),
    Replacement("Hospital", "Jobsite"),
    Replacement("clinical", "field"),
    Replacement("Clinical", "Field"),
    Replacement("clinic", "jobsite"),
    Replacement("Clinic", "Jobsite"),
    Replacement("EHR", "project management system"),
    Replacement("charge nurse", "site supervisor"),
    Replacement("People Operations", "People team")]

  predicate Plain(s: string) { '(' !in s && ')' !in s }

  predicate Letter(c: char) { 'a' <= c <= 'z' || 'A' <= c <= 'Z' }

  /** A letter that no placeholder has. */
  predicate Telling(c: char) { 'a' <= c <= 'z' || c == 'U' || c == 'H' }

  /** The replaced words can be told from a placeholder, and what replaces them cannot stand in the
      middle of "(doc:" or of a placeholder. */
  predicate Safe(r: Replacement)
  {
    && Plain(r.word) && (exists i :: 0 <= i < |r.word| && Telling(r.word[i]))
    && Plain(r.other) && 2 <= |r.other| && ((Letter(r.other[0]) && r.other[1] == 'r') || r.other[0] in "FfJjapsP")
  }

  lemma SafeBy(word: string, other: string, k: nat)
    requires Plain(word) && Plain(other) && k < |word| && Telling(word[k])
    requires 2 <= |other| && ((Letter(other[0]) && other[1] == 'r') || other[0] in "FfJjapsP")
    ensures Safe(Replacement(word, other))
  {
  }

  lemma SafeWords1()
    ensures Safe(Replacement("HarborCare", "Ironridge Builders"))
    ensures Safe(Replacement("Care coordination", "Field coordination"))
  {
    hide Safe;
    SafeBy("HarborCare", "Ironridge Builders", 0);
    SafeBy("Care coordination", "Field coordination", 1);
  }

  lemma SafeWords2()
    ensures Safe(Replacement("care coordination", "field coordination"))
    ensures Safe(Replacement("Infection control", "Jobsite safety"))
  {
    hide Safe;
    SafeBy("care coordination", "field coordination", 0);
    SafeBy("Infection control", "Jobsite safety", 1);
  }

  lemma SafeWords3()
    ensures Safe(Replacement("infection control", "jobsite safety"))
    ensures Safe(Replacement("Patients", "Crew members"))
  {
    hide Safe;
    SafeBy("infection control", "jobsite safety", 0);
    SafeBy("Patients", "Crew members", 1);
  }

  lemma SafeWords4()
    ensures Safe(Replacement("patients", "crew members"))
    ensures Safe(Replacement("Patient", "Crew member"))
  {
    hide Safe;
    SafeBy("patients", "crew members", 0);
    SafeBy("Patient", "Crew member", 1);
  }

  lemma SafeWords5()
    ensures Safe(Replacement("patient", "crew member"))
    ensures Safe(Replacement("Nurses", "Forepersons"))
  {
    hide Safe;
    SafeBy("patient", "crew member", 0);
    SafeBy("Nurses", "Forepersons", 1);
  }

  lemma SafeWords6()
    ensures Safe(Replacement("nurses", "forepersons"))
    ensures Safe(Replacement("Nurse", "Foreperson"))
  {
    hide Safe;
    SafeBy("nurses", "forepersons", 0);
    SafeBy("Nurse", "Foreperson", 1);
  }

  lemma SafeWords7()
    ensures Safe(Replacement("nurse", "foreperson"))
    ensures Safe(Replacement("ICU", "active jobsite"))
  {
    hide Safe;
    SafeBy("nurse", "foreperson", 0);
    SafeBy("ICU", "active jobsite", 2);
  }

  lemma SafeWords8()
    ensures Safe(Replacement("hospital", "jobsite"))
    ensures Safe(Replacement("Hospital", "Jobsite"))
  {
    hide Safe;
    SafeBy("hospital", "jobsite", 0);
    SafeBy("Hospital", "Jobsite", 0);
  }

  lemma SafeWords9()
    ensures Safe(Replacement("clinical", "field"))
    ensures Safe(Replacement("Clinical", "Field"))
  {
    hide Safe;
    SafeBy("clinical", "field", 0);
    SafeBy("Clinical", "Field", 1);
  }

  lemma SafeWords10()
    ensures Safe(Replacement("clinic", "jobsite"))
    ensures Safe(Replacement("Clinic", "Jobsite"))
  {
    hide Safe;
    SafeBy("clinic", "jobsite", 0);
    SafeBy("Clinic", "Jobsite", 1);
  }

  lemma SafeWords11()
    ensures Safe(Replacement("EHR", "project management system"))
    ensures Safe(Replacement("charge nurse", "site supervisor"))
  {
    hide Safe;
    SafeBy("EHR", "project management system", 1);
    SafeBy("charge nurse", "site supervisor", 0);
  }

  lemma SafeWords12()
    ensures Safe(Replacement("People Operations", "People team"))
  {
    hide Safe;
    SafeBy("People Operations", "People team", 1);
  }

  /** Every one of the tenant's word replacements is safe. */
  lemma ReplacementsAreSafe()
    ensures forall r :: r in REPLACEMENTS ==> Safe(r)
  {
    hide Safe;
    SafeWords1();
    SafeWords2();
    SafeWords3();
    SafeWords4();
    SafeWords5();
    SafeWords6();
    SafeWords7();
    SafeWords8();
    SafeWords9();
    SafeWords10();
    SafeWords11();
    SafeWords12();
  }

  // ---- what a safe replacement keeps --------------------------------------------------------------------

  lemma PlaceholderShape(k: nat)
    ensures Shell(Placeholder(k)) && Bracketed(Placeholder(k))
    ensures forall c :: c in Placeholder(k) ==> !Telling(c)
  {
    InnerHasNoParen(k);
    var p := Placeholder(k);
    assert p[1..] == Inner(k) + ")" && p[..|p| - 1] == "(" + Inner(k);
  }

  lemma SafeIsShell(r: Replacement)
    requires Safe(r)
    ensures Shell(r.word)
  {
  }

  /** A safe word never occurs in a placeholder. */
  lemma PlaceholdersKept(r: Replacement, k: nat, n: nat)
    requires Safe(r)
    ensures ReplaceEach(Placeholders(k, n), r.word, r.other) == Placeholders(k, n)
  {
    var marks := Placeholders(k, n);
    var i :| 0 <= i < |r.word| && Telling(r.word[i]);
    forall j | 0 <= j < n ensures ReplaceAll(marks[j], r.word, r.other) == marks[j] {
      PlaceholderShape(k + j);
      MissingLetter(marks[j], r.word, r.word[i]);
      NothingToReplace(marks[j], r.word, r.other);
    }
  }

  /** other has, at its front, something that tail does not have there. */
  predicate Clashes(other: string, tail: string)
    requires tail != []
  {
    2 <= |other| && (other[0] !in tail || (other[1] !in tail && other[0] != tail[|tail| - 1]))
  }

  lemma NotInTails(c: char)
    requires c == 'r' || c in "FfJjapsP"
    ensures c !in "doc:" && c !in "__SEED_DOC_LINK_"
  {
  }

  lemma SafeClashes(r: Replacement)
    requires Safe(r)
    ensures Clashes(r.other, OPEN[1..]) && Clashes(r.other, MARKER[1..])
  {
    assert OPEN[1..] == "doc:" && MARKER[1..] == "__SEED_DOC_LINK_";
    if r.other[0] in "FfJjapsP" { NotInTails(r.other[0]); } else { NotInTails(r.other[1]); }
  }

  /** Replacing does not complete the tail of a pattern that was not there before. */
  lemma {:induction false} NoNewTail(s: string, tail: string, n: nat, word: string, other: string)
    requires word != [] && tail != [] && n < |tail| && Clashes(other, tail) && !StartsWith(s, tail[n..])
    ensures !StartsWith(ReplaceAll(s, word, other), tail[n..])
    decreases |tail| - n
  {
    var t := tail[n..];
    var r := ReplaceAll(s, word, other);
    if s == [] {
    } else if StartsWith(s, word) {
      if other[0] !in tail || |t| == 1 { Mismatch(r, t, 0); } else { Mismatch(r, t, 1); }
    } else if s[0] != t[0] || |t| == 1 {
      if |t| == 1 { OneStarts(s, t); }
      Mismatch(r, t, 0);
    } else {
      assert t == [t[0]] + tail[n + 1..];
      ConsStarts(s[0], s[1..], tail[n + 1..]);
      assert s == [s[0]] + s[1..];
      NoNewTail(s[1..], tail, n + 1, word, other);
      ConsStarts(s[0], ReplaceAll(s[1..], word, other), tail[n + 1..]);
    }
  }

  /** A replacement puts no "(doc:" and no placeholder marker into a text that had none. */
  lemma {:induction false} ReplaceKeepsFree(s: string, p: string, word: string, other: string)
    requires word != [] && 2 <= |p| && p[0] == '(' && '(' !in other && Clashes(other, p[1..]) && Free(s, p)
    ensures Free(ReplaceAll(s, word, other), p)
    decreases |s|
  {
    hide Free, Clashes, StartsWith;
    if s == [] {
      NothingIsFree(p);
    } else if StartsWith(s, word) {
      StartsLength(s, word);
      FreeTail(s, p, |word|);
      ReplaceKeepsFree(s[|word|..], p, word, other);
      PrependFree(other, ReplaceAll(s[|word|..], word, other), p);
    } else {
      FreeHead(s, p);
      FreeTail(s, p, 1);
      ReplaceKeepsFree(s[1..], p, word, other);
      var r := [s[0]] + ReplaceAll(s[1..], word, other);
      StillNoHead(s, p, word, other);
      assert r[1..] == ReplaceAll(s[1..], word, other);
      FreeCons(r, p);
    }
  }

  lemma StillNoHead(s: string, p: string, word: string, other: string)
    requires s != [] && word != [] && 2 <= |p| && p[0] == '(' && Clashes(other, p[1..]) && !StartsWith(s, p)
    ensures !StartsWith([s[0]] + ReplaceAll(s[1..], word, other), p)
  {
    hide Clashes, ReplaceAll;
    var r := ReplaceAll(s[1..], word, other);
    if s[0] != '(' {
      Mismatch([s[0]] + r, p, 0);
    } else {
      assert p == ['('] + p[1..] && s == ['('] + s[1..];
      ConsStarts('(', s[1..], p[1..]);
      assert p[1..][0..] == p[1..];
      NoNewTail(s[1..], p[1..], 0, word, other);
      ConsStarts('(', r, p[1..]);
    }
  }

  /** No p begins inside a text without '('. */
  lemma PrependFree(a: string, b: string, p: string)
    requires p != [] && p[0] == '(' && '(' !in a && Free(b, p)
    ensures Free(a + b, p)
  {
    forall i | 0 <= i < |a + b| ensures !StartsWith((a + b)[i..], p) {
      if i < |a| {
        assert a[i] in a;
        Mismatch((a + b)[i..], p, 0);
      } else {
        assert (a + b)[i..] == b[i - |a|..];
      }
    }
  }

  // ---- texts whose links are all open-ended -----------------------------------------------------------------

  /** No "(doc:" of s is followed by a ')'. */
  ghost predicate NoneClosed(s: string) { forall i :: 0 <= i < |s| && StartsWith(s[i..], OPEN) ==> ')' !in s[i..] }

  lemma NoneClosedTail(s: string, n: nat)
    requires n <= |s| && NoneClosed(s)
    ensures NoneClosed(s[n..])
  {
    forall i | 0 <= i < |s| - n && StartsWith(s[n..][i..], OPEN) ensures ')' !in s[n..][i..] { assert s[n..][i..] == s[n + i..]; }
  }

  lemma NoneClosedHead(s: string)
    requires s != [] && NoneClosed(s)
    ensures StartsWith(s, OPEN) ==> ')' !in s
  {
    assert s[0..] == s;
  }

  lemma NoneClosedCons(s: string)
    requires s != [] && NoneClosed(s[1..]) && (StartsWith(s, OPEN) ==> ')' !in s)
    ensures NoneClosed(s)
  {
    forall i | 0 <= i < |s| && StartsWith(s[i..], OPEN) ensures ')' !in s[i..] {
      if 0 < i { assert s[i..] == s[1..][i - 1..]; } else { assert s[0..] == s; }
    }
  }

  lemma {:induction false} NoClosedLinks(s: string)
    requires NoneClosed(s)
    ensures ClosedLinks(s) == []
    decreases |s|
  {
    hide NoneClosed, StartsWith;
    if s != [] {
      NoneClosedHead(s);
      if !StartsWith(s, OPEN) {
        NoneClosedTail(s, 1);
        NoClosedLinks(s[1..]);
      }
    }
  }

  lemma {:induction false} NoNewClose(s: string, word: string, other: string)
    requires word != [] && ')' !in s && ')' !in other
    ensures ')' !in ReplaceAll(s, word, other)
    decreases |s|
  {
    if s != [] {
      if StartsWith(s, word) { NoNewClose(s[|word|..], word, other); } else { NoNewClose(s[1..], word, other); }
    }
  }

  lemma {:induction false} ReplaceKeepsNoneClosed(s: string, word: string, other: string)
    requires word != [] && Plain(other) && Clashes(other, OPEN[1..]) && NoneClosed(s)
    ensures NoneClosed(ReplaceAll(s, word, other))
    decreases |s|
  {
    hide NoneClosed, Clashes, StartsWith;
    if s == [] {
      assert NoneClosed([]) by { NothingClosed(); }
    } else if StartsWith(s, word) {
      StartsLength(s, word);
      NoneClosedTail(s, |word|);
      ReplaceKeepsNoneClosed(s[|word|..], word, other);
      PrependNoneClosed(other, ReplaceAll(s[|word|..], word, other));
    } else {
      NoneClosedHead(s);
      NoneClosedTail(s, 1);
      ReplaceKeepsNoneClosed(s[1..], word, other);
      var r := [s[0]] + ReplaceAll(s[1..], word, other);
      assert r[1..] == ReplaceAll(s[1..], word, other);
      if StartsWith(s, OPEN) {
        NoNewClose(s, word, other);
      } else {
        StillNoHead(s, OPEN, word, other);
      }
      NoneClosedCons(r);
    }
  }

  lemma NothingClosed()
    ensures NoneClosed([])
  {
  }

  lemma PrependNoneClosed(a: string, b: string)
    requires '(' !in a && NoneClosed(b)
    ensures NoneClosed(a + b)
  {
    forall i | 0 <= i < |a + b| && StartsWith((a + b)[i..], OPEN) ensures ')' !in (a + b)[i..] {
      if i < |a| {
        assert a[i] in a;
        Mismatch((a + b)[i..], OPEN, 0);
      } else {
        assert (a + b)[i..] == b[i - |a|..];
      }
    }
  }

  // ---- whole texts ----------------------------------------------------------------------------------------

  /** A closed link: from "(doc:" to its first and only ')'. */
  predicate IsLink(l: string) { StartsWith(l, OPEN) && CloseOf(l) == |l| }

  /** Texts cut at their closed links: nothing in a segment is, or begins, a closed link. */
  ghost predicate Proper(segments: seq<string>, links: seq<string>)
  {
    && |segments| == |links| + 1
    && (forall i :: 0 <= i < |links| ==> IsLink(links[i]) && Free(segments[i], OPEN))
    && NoneClosed(segments[|links|])
  }

  lemma IsLinkShape(l: string)
    requires IsLink(l)
    ensures Bracketed(l) && 5 <= |l|
  {
    assert l[..5][0] == l[0] == OPEN[0];
  }

  lemma ProperCons(first: string, segments: seq<string>, l: string, links: seq<string>)
    requires Free(first, OPEN) && IsLink(l) && Proper(segments, links)
    ensures Proper([first] + segments, [l] + links)
  {
  }

  lemma ProperPrepend(c: char, segments: seq<string>, links: seq<string>)
    requires Proper(segments, links) && !StartsWith([c] + Assemble(segments, links), OPEN)
    ensures Proper([[c] + segments[0]] + segments[1..], links)
  {
    hide StartsWith;
    var s := [c] + segments[0];
    assert s[1..] == segments[0];
    if links == [] {
      NoneClosedCons(s);
    } else {
      var rest := links[0] + Assemble(segments[1..], links[1..]);
      assert [c] + Assemble(segments, links) == s + rest;
      if |OPEN| <= |s| { StartsWithPrefix(s, rest, OPEN); } else { ShorterCannot(s, OPEN); }
      FreeCons(s, OPEN);
    }
  }

  lemma LinkHere(s: string)
    requires StartsWith(s, OPEN) && CloseOf(s) != 0
    ensures IsLink(s[..CloseOf(s)])
  {
    var n := CloseOf(s);
    var l := s[..n];
    assert forall j :: 0 <= j < 5 ==> s[j] == s[..5][j] == OPEN[j];
    assert l[..5] == s[..5];
    assert l[n - 1] in l;
    assert CloseOf(l) == n;
  }

  lemma {:induction false} SegmentsAreProper(s: string)
    ensures Proper(Segments(s), ClosedLinks(s))
    decreases |s|
  {
    hide ClosedLinks, Segments, StartsWith, CloseOf, Proper, Assemble;
    if s == [] || (StartsWith(s, OPEN) && CloseOf(s) == 0) {
      UnfoldRest(s);
      ProperAlone(s);
    } else if StartsWith(s, OPEN) {
      UnfoldLink(s);
      SegmentsAreProper(s[CloseOf(s)..]);
      LinkHere(s);
      NothingIsFree(OPEN);
      ProperCons([], Segments(s[CloseOf(s)..]), s[..CloseOf(s)], ClosedLinks(s[CloseOf(s)..]));
    } else {
      UnfoldPlain(s);
      SegmentsAreProper(s[1..]);
      TextIsAssembled(s[1..]);
      assert s == [s[0]] + s[1..];
      ProperPrepend(s[0], Segments(s[1..]), ClosedLinks(s[1..]));
    }
  }

  lemma ProperAlone(s: string)
    requires s == [] || (StartsWith(s, OPEN) && CloseOf(s) == 0)
    ensures Proper([s], [])
  {
    forall i | 0 <= i < |s| && StartsWith(s[i..], OPEN) ensures ')' !in s[i..] { }
  }

  /** Text without an opening, then a closed link: the link comes first. */
  lemma LinkThenRest(first: string, l: string, rest: string)
    requires Free(first, OPEN) && IsLink(l) && 5 <= |l| && l[0] == '('
    ensures ClosedLinks(first + (l + rest)) == [l] + ClosedLinks(rest)
  {
    hide ClosedLinks, StartsWith, CloseOf, Free, IsLink;
    QuietFirst(first, l + rest);
    ProtectedSkips(first + (l + rest), |first|, 0);
    assert (first + (l + rest))[|first|..] == l + rest;
    FirstLink(l, rest);
    assert (l + rest)[|l|..] == rest && (l + rest)[..|l|] == l;
    UnfoldLink(l + rest);
  }

  /** The closed links of an assembled text are the ones it was assembled with. */
  lemma {:induction false} LinksOfAssembled(segments: seq<string>, links: seq<string>)
    requires Proper(segments, links)
    ensures ClosedLinks(Assemble(segments, links)) == links
    decreases |links|
  {
    hide ClosedLinks, StartsWith, CloseOf, NoneClosed, Free;
    if links == [] {
      NoClosedLinks(segments[0]);
    } else {
      var first, l := segments[0], links[0];
      var rest := Assemble(segments[1..], links[1..]);
      LinksOfAssembled(segments[1..], links[1..]);
      IsLinkShape(l);
      LinkThenRest(first, l, rest);
      assert Assemble(segments, links) == first + (l + rest);
      assert [l] + links[1..] == links;
    }
  }

  lemma QuietFirst(a: string, b: string)
    requires Free(a, OPEN) && b != [] && b[0] == '('
    ensures QuietUpTo(a + b, |a|)
  {
    FreshStart(a, b, OPEN);
    forall i | 0 <= i < |a| ensures !StartsWith((a + b)[i..], OPEN) {
      if i + 5 <= |a| {
        assert (a + b)[i..] == a[i..] + b;
        StartsWithPrefix(a[i..], b, OPEN);
      }
    }
  }

  lemma FirstLink(l: string, rest: string)
    requires IsLink(l) && 5 <= |l|
    ensures StartsWith(l + rest, OPEN) && CloseOf(l + rest) == |l|
  {
    StartsWithPrefix(l, rest, OPEN);
    var n := CloseOf(l + rest);
    assert (l + rest)[|l| - 1] == ')' && (l + rest)[|l| - 1] in l + rest;
    assert n <= |l|;
    assert l[n - 1] == ')';
  }

  // ---- restoring -------------------------------------------------------------------------------------------

  lemma PlaceholderInjective(i: nat, j: nat)
    requires Placeholder(i) == Placeholder(j)
    ensures i == j
  {
    assert Placeholder(i)[1..|Placeholder(i)| - 1] == Inner(i) && Placeholder(j)[1..|Placeholder(j)| - 1] == Inner(j);
    assert Inner(i)[16..|Inner(i)| - 2] == Itoa(i) && Inner(j)[16..|Inner(j)| - 2] == Itoa(j);
    ItoaInjective(i, j);
  }

  /** One placeholder never occurs in another. */
  lemma OtherPlaceholder(i: nat, j: nat)
    requires i != j
    ensures Free(Placeholder(j), Placeholder(i))
  {
    var p, q := Placeholder(i), Placeholder(j);
    InnerHasNoParen(i);
    InnerHasNoParen(j);
    forall t | 0 <= t < |q| ensures !StartsWith(q[t..], p) {
      if 0 < t {
        assert q[t] in Inner(j) || q[t] == ')';
        Mismatch(q[t..], p, 0);
      } else if |p| < |q| {
        assert q[|p| - 1] in Inner(j);
        Mismatch(q[t..], p, |p| - 1);
      } else if |p| == |q| {
        if p == q { PlaceholderInjective(i, j); }
        assert q[0..][..|p|] == q;
      }
    }
  }

  lemma MarkerFreeOfPlaceholder(s: string, k: nat)
    requires Free(s, MARKER)
    ensures Free(s, Placeholder(k))
  {
    var p := Placeholder(k);
    assert p[..|MARKER|] == MARKER;
    forall i | 0 <= i < |s| ensures !StartsWith(s[i..], p) {
      StartsWithPart(s[i..], p, MARKER);
    }
  }

  ghost predicate AllFree(ss: seq<string>) { forall i :: 0 <= i < |ss| ==> Free(ss[i], MARKER) }

  lemma {:induction false} PiecesFree(segments: seq<string>, between: seq<string>)
    requires |segments| == |between| + 1 && Free(Assemble(segments, between), MARKER)
    ensures AllFree(segments) && AllFree(between)
  {
    hide Free;
    if between != [] {
      var rest := Assemble(segments[1..], between[1..]);
      FreeParts(segments[0] + between[0], rest, MARKER);
      FreeParts(segments[0], between[0], MARKER);
      PiecesFree(segments[1..], between[1..]);
    }
  }

  /** The links put back so far, then the placeholders still to come. */
  function HalfRestored(links: seq<string>, i: nat): seq<string>
    requires i <= |links|
  {
    links[..i] + Placeholders(i, |links| - i)
  }

  lemma RestoreStep(segments: seq<string>, links: seq<string>, i: nat)
    requires |segments| == |links| + 1 && i < |links| && AllFree(segments) && AllFree(links) && forall j :: 0 <= j < |links| ==> Bracketed(links[j])
    ensures ReplaceAll(Assemble(segments, HalfRestored(links, i)), Placeholder(i), links[i]) == Assemble(segments, HalfRestored(links, i + 1))
  {
    hide Free, ReplaceAll, Bracketed, Placeholder, Assemble;
    var half, p := HalfRestored(links, i), Placeholder(i);
    PlaceholderShape(i);
    forall j | 0 <= j < |links| ensures Bracketed(half[j]) { PlaceholderShape(j); }
    ReplaceAssembled(segments, half, p, links[i]);
    forall j | 0 <= j < |segments| ensures ReplaceAll(segments[j], p, links[i]) == segments[j] {
      MarkerFreeOfPlaceholder(segments[j], i);
      NothingToReplace(segments[j], p, links[i]);
    }
    assert ReplaceEach(segments, p, links[i]) == segments;
    var next := HalfRestored(links, i + 1);
    forall j | 0 <= j < |links| ensures ReplaceAll(half[j], p, links[i]) == next[j] {
      if j < i {
        MarkerFreeOfPlaceholder(links[j], i);
        NothingToReplace(links[j], p, links[i]);
      } else if j == i {
        ReplaceItself(p, links[i]);
      } else {
        OtherPlaceholder(i, j);
        NothingToReplace(half[j], p, links[i]);
      }
    }
    assert ReplaceEach(half, p, links[i]) == next;
  }

  lemma ReplaceItself(word: string, other: string)
    requires word != []
    ensures ReplaceAll(word, word, other) == other
  {
    assert word[..|word|] == word && word[|word|..] == [];
    assert other + [] == other;
  }

  /** A protected text whose pieces do not contain the placeholder marker. */
  ghost predicate Restorable(text: string, links: seq<string>, segments: seq<string>)
  {
    && |segments| == |links| + 1 && text == Assemble(segments, Placeholders(0, |links|))
    && AllFree(segments) && AllFree(links) && forall j :: 0 <= j < |links| ==> Bracketed(links[j])
  }

  /** Puts the links back where their placeholders stand. */
  method RestoreLinks(text: string, links: seq<string>, ghost segments: seq<string>) returns (value: string)
    ensures Restorable(text, links, segments) ==> value == Assemble(segments, links)
  {
    hide ReplaceAll, Assemble, Placeholder, AllFree, Bracketed;
    value := text;
    assert HalfRestored(links, 0) == Placeholders(0, |links|);
    for i := 0 to |links|
      invariant Restorable(text, links, segments) ==> value == Assemble(segments, HalfRestored(links, i))
    {
      if Restorable(text, links, segments) { RestoreStep(segments, links, i); }
      PlaceholderShape(i);
      value := ReplaceAll(value, Placeholder(i), links[i]);
    }
    assert HalfRestored(links, |links|) == links;
  }

  // ---- the rewriter -----------------------------------------------------------------------------------------

  /** One word after another. */
  function Rewritten(s: string, rs: seq<Replacement>): string
    requires forall i :: 0 <= i < |rs| ==> rs[i].word != []
  {
    if rs == [] then s else ReplaceAll(Rewritten(s, rs[..|rs| - 1]), rs[|rs| - 1].word, rs[|rs| - 1].other)
  }

  lemma {:induction false} ReplaceStep(segments: seq<string>, links: seq<string>, r: Replacement)
    requires Proper(segments, links) && AllFree(segments) && Safe(r)
    ensures r.word != []
    ensures var after := ReplaceEach(segments, r.word, r.other);
            && Proper(after, links) && AllFree(after)
            && ReplaceAll(Assemble(segments, Placeholders(0, |links|)), r.word, r.other) == Assemble(after, Placeholders(0, |links|))
  {
    hide ReplaceAll, Assemble, Free, NoneClosed, Clashes, IsLink, Shell, Placeholder;
    SafeIsShell(r);
    SafeClashes(r);
    ShellIsWord(r.word);
    forall j | 0 <= j < |links| ensures Bracketed(Placeholders(0, |links|)[j]) { PlaceholderShape(j); }
    ReplaceAssembled(segments, Placeholders(0, |links|), r.word, r.other);
    PlaceholdersKept(r, 0, |links|);
    var after := ReplaceEach(segments, r.word, r.other);
    forall j | 0 <= j < |segments| ensures Free(after[j], MARKER) { ReplaceKeepsFree(segments[j], MARKER, r.word, r.other); }
    forall j | 0 <= j < |links| ensures Free(after[j], OPEN) { ReplaceKeepsFree(segments[j], OPEN, r.word, r.other); }
    ReplaceKeepsNoneClosed(segments[|links|], r.word, r.other);
  }

  lemma ShellIsWord(p: string)
    requires Shell(p)
    ensures p != []
  {
  }

  /** All the words were replaced, one after another. */
  ghost predicate WordsReplaced(before: string, after: string, rs: seq<Replacement>)
  {
    (forall i :: 0 <= i < |rs| ==> rs[i].word != []) && after == Rewritten(before, rs)
  }

  lemma WordReplaced(before: string, now: string, rs: seq<Replacement>, k: nat)
    requires k < |rs| && WordsReplaced(before, now, rs[..k]) && rs[k].word != []
    ensures WordsReplaced(before, ReplaceAll(now, rs[k].word, rs[k].other), rs[..k + 1])
  {
    assert rs[..k + 1][..k] == rs[..k];
  }

  /** A protected text, replaced word by word: its segments are rewritten and stay free of links. */
  ghost predicate Rewriting(value: string, links: seq<string>, before: seq<string>, segments: seq<string>, rs: seq<Replacement>)
  {
    && Proper(segments, links) && AllFree(segments) && value == Assemble(segments, Placeholders(0, |links|))
    && |before| == |segments| && forall j :: 0 <= j < |segments| ==> WordsReplaced(before[j], segments[j], rs)
  }

  lemma RewritingStep(value: string, links: seq<string>, before: seq<string>, segments: seq<string>, rs: seq<Replacement>, k: nat)
    requires k < |rs| && Safe(rs[k]) && rs[k].word != [] && Rewriting(value, links, before, segments, rs[..k])
    ensures Rewriting(ReplaceAll(value, rs[k].word, rs[k].other), links, before, ReplaceEach(segments, rs[k].word, rs[k].other), rs[..k + 1])
  {
    hide ReplaceAll, Assemble, Safe, Proper, AllFree, WordsReplaced;
    ReplaceStep(segments, links, rs[k]);
    forall j | 0 <= j < |segments| ensures WordsReplaced(before[j], ReplaceAll(segments[j], rs[k].word, rs[k].other), rs[..k + 1]) {
      WordReplaced(before[j], segments[j], rs, k);
    }
  }

  method ReplaceWords(text: string, rs: seq<Replacement>, ghost links: seq<string>, ghost before: seq<string>)
    returns (value: string, ghost segments: seq<string>)
    requires forall i :: 0 <= i < |rs| ==> Safe(rs[i]) && rs[i].word != []
    ensures Rewriting(text, links, before, before, []) ==> Rewriting(value, links, before, segments, rs)
  {
    hide ReplaceAll, Rewriting, Safe;
    value, segments := text, before;
    assert rs[..0] == [];
    for k := 0 to |rs|
      invariant Rewriting(text, links, before, before, []) ==> Rewriting(value, links, before, segments, rs[..k])
    {
      if Rewriting(text, links, before, before, []) { RewritingStep(value, links, before, segments, rs, k); }
      value := ReplaceAll(value, rs[k].word, rs[k].other);
      segments := ReplaceEach(segments, rs[k].word, rs[k].other);
    }
    assert rs[..|rs|] == rs;
  }

  lemma UseReplacements()
    ensures forall i :: 0 <= i < |REPLACEMENTS| ==> Safe(REPLACEMENTS[i]) && REPLACEMENTS[i].word != []
  {
    hide Safe, Shell;
    ReplacementsAreSafe();
    forall i | 0 <= i < |REPLACEMENTS| ensures Safe(REPLACEMENTS[i]) && REPLACEMENTS[i].word != [] {
      assert REPLACEMENTS[i] in REPLACEMENTS;
      SafeIsShell(REPLACEMENTS[i]);
      ShellIsWord(REPLACEMENTS[i].word);
    }
  }

  lemma RewritingStarts(text: string)
    requires Free(text, MARKER)
    ensures Rewriting(Protected(text, 0), ClosedLinks(text), Segments(text), Segments(text), [])
    ensures AllFree(ClosedLinks(text)) && forall j :: 0 <= j < |ClosedLinks(text)| ==> Bracketed(ClosedLinks(text)[j])
  {
    hide Assemble, ClosedLinks, Segments, Proper, AllFree, Free;
    TextIsAssembled(text);
    SegmentsAreProper(text);
    PiecesFree(Segments(text), ClosedLinks(text));
    LinksAreBracketed(Segments(text), ClosedLinks(text));
  }

  lemma RewritingEnds(value: string, links: seq<string>, before: seq<string>, segments: seq<string>, rs: seq<Replacement>)
    requires Rewriting(value, links, before, segments, rs) && AllFree(links) && forall j :: 0 <= j < |links| ==> Bracketed(links[j])
    ensures Restorable(value, links, segments) && ClosedLinks(Assemble(segments, links)) == links
  {
    hide Assemble, ClosedLinks;
    LinksOfAssembled(segments, links);
  }

  /** For any text without the placeholder marker the rewriter keeps every closed link, as the same strings
      in the same order, and rewrites exactly the text between them. */
  method TextForWorker(workerKey: string, text: string) returns (value: string, ghost segments: seq<string>)
    ensures !StartsWith(workerKey, "ir-") ==> value == text
    ensures Free(text, MARKER) ==> ClosedLinks(value) == ClosedLinks(text)
    ensures Free(text, MARKER) && StartsWith(workerKey, "ir-") ==>
              && |segments| == |Segments(text)| && value == Assemble(segments, ClosedLinks(text))
              && forall j :: 0 <= j < |segments| ==> WordsReplaced(Segments(text)[j], segments[j], REPLACEMENTS)
  {
    hide Assemble, Free, ClosedLinks, Segments, Proper, AllFree, Safe, StartsWith, Restorable, WordsReplaced, Protected;
    segments := [];
    if !StartsWith(workerKey, "ir-") { return text, []; }
    var links;
    value, links := ProtectLinks(text);
    if Free(text, MARKER) { RewritingStarts(text); }
    UseReplacements();
    value, segments := ReplaceWords(value, REPLACEMENTS, links, Segments(text));
    if Free(text, MARKER) { RewritingEnds(value, links, Segments(text), segments, REPLACEMENTS); }
    value := RestoreLinks(value, links, segments);
  }

  lemma LinksAreBracketed(segments: seq<string>, links: seq<string>)
    requires Proper(segments, links)
    ensures forall j :: 0 <= j < |links| ==> Bracketed(links[j])
  {
    forall j | 0 <= j < |links| ensures Bracketed(links[j]) { IsLinkShape(links[j]); }
  }

  /** Protecting and restoring, with nothing replaced in between, gives the text back. */
  method ProtectAndRestore(text: string) returns (value: string)
    ensures Free(text, MARKER) ==> value == text
  {
    hide Assemble, ClosedLinks, Segments, Proper, AllFree, Free;
    var links;
    value, links := ProtectLinks(text);
    TextIsAssembled(text);
    if Free(text, MARKER) { RewritingStarts(text); }
    value := RestoreLinks(value, links, Segments(text));
  }
}
