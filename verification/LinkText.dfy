/** Rewriting the corpus for another tenant: words are replaced everywhere except inside closed (doc:...)
    links, which are swapped for placeholders first and put back afterwards. */
module LinkText {
  import opened Text
  import opened Substrings

  const OPEN := "(doc:"
  const MARKER := "(__SEED_DOC_LINK_"

  function Inner(n: nat): string { "__SEED_DOC_LINK_" + Itoa(n) + "__" }
  function Placeholder(n: nat): string { "(" + Inner(n) + ")" }

  /** The position after the first ')' of s, or 0 when there is none. */
  function CloseOf(s: string): (n: nat)
    ensures n <= |s| && (n == 0 <==> ')' !in s)
    ensures 0 < n ==> s[n - 1] == ')' && forall i :: 0 <= i < n - 1 ==> s[i] != ')'
  {
    if s == [] then 0
    else if s[0] == ')' then 1
    else
      var n := CloseOf(s[1..]);
      assert s == [s[0]] + s[1..];
      if n == 0 then 0 else n + 1
  }

  /** The closed links of a text, in order: each from "(doc:" to the next ')'. */
  function ClosedLinks(s: string): seq<string>
    decreases |s|
  {
    if s == [] then []
    else if StartsWith(s, OPEN) then
      var n := CloseOf(s);
      if n == 0 then [] else [s[..n]] + ClosedLinks(s[n..])
    else ClosedLinks(s[1..])
  }

  /** The text between the closed links. */
  function Segments(s: string): (r: seq<string>)
    ensures |r| == |ClosedLinks(s)| + 1
    decreases |s|
  {
    if s == [] then [[]]
    else if StartsWith(s, OPEN) then
      var n := CloseOf(s);
      if n == 0 then [s] else [[]] + Segments(s[n..])
    else
      var r := Segments(s[1..]);
      [[s[0]] + r[0]] + r[1..]
  }

  /** Segments with something put between each two of them. */
  function Assemble(segments: seq<string>, between: seq<string>): string
    requires |segments| == |between| + 1
  {
    if between == [] then segments[0] else segments[0] + between[0] + Assemble(segments[1..], between[1..])
  }

  function Placeholders(k: nat, n: nat): (r: seq<string>)
    ensures |r| == n && forall i :: 0 <= i < n ==> r[i] == Placeholder(k + i)
    decreases n
  {
    if n == 0 then [] else [Placeholder(k)] + Placeholders(k + 1, n - 1)
  }

  lemma UnfoldPlain(s: string)
    requires s != [] && !StartsWith(s, OPEN)
    ensures ClosedLinks(s) == ClosedLinks(s[1..])
    ensures Segments(s) == [[s[0]] + Segments(s[1..])[0]] + Segments(s[1..])[1..]
  {
  }

  lemma UnfoldLink(s: string)
    requires StartsWith(s, OPEN) && CloseOf(s) != 0
    ensures ClosedLinks(s) == [s[..CloseOf(s)]] + ClosedLinks(s[CloseOf(s)..])
    ensures Segments(s) == [[]] + Segments(s[CloseOf(s)..])
  {
  }

  lemma UnfoldRest(s: string)
    requires s == [] || (StartsWith(s, OPEN) && CloseOf(s) == 0)
    ensures ClosedLinks(s) == [] && Segments(s) == [s]
  {
  }

  lemma PrependAssembled(a: string, segments: seq<string>, between: seq<string>)
    requires |segments| == |between| + 1
    ensures Assemble([a + segments[0]] + segments[1..], between) == a + Assemble(segments, between)
  {
    var more := [a + segments[0]] + segments[1..];
    if between != [] {
      assert more[1..] == segments[1..];
      assert a + segments[0] + between[0] + Assemble(segments[1..], between[1..])
          == a + (segments[0] + between[0] + Assemble(segments[1..], between[1..]));
    }
  }

  lemma ConsAssembled(first: string, segments: seq<string>, mark: string, between: seq<string>)
    requires |segments| == |between| + 1
    ensures Assemble([first] + segments, [mark] + between) == first + mark + Assemble(segments, between)
  {
    assert ([first] + segments)[1..] == segments && ([mark] + between)[1..] == between;
  }

  /** A text is its segments with its closed links between them. */
  lemma {:induction false} TextIsAssembled(s: string)
    ensures Assemble(Segments(s), ClosedLinks(s)) == s
    decreases |s|
  {
    hide ClosedLinks, Segments, StartsWith, CloseOf;
    if s == [] || (StartsWith(s, OPEN) && CloseOf(s) == 0) {
      UnfoldRest(s);
    } else if StartsWith(s, OPEN) {
      var n := CloseOf(s);
      UnfoldLink(s);
      TextIsAssembled(s[n..]);
      ConsAssembled([], Segments(s[n..]), s[..n], ClosedLinks(s[n..]));
      assert s == [] + s[..n] + s[n..];
    } else {
      UnfoldPlain(s);
      TextIsAssembled(s[1..]);
      PrependAssembled([s[0]], Segments(s[1..]), ClosedLinks(s[1..]));
      assert s == [s[0]] + s[1..];
    }
  }

  // ---- protecting ----------------------------------------------------------------------------------

  /** What protecting does to the text, from the k-th link on. */
  function Protected(s: string, k: nat): string { Assemble(Segments(s), Placeholders(k, |ClosedLinks(s)|)) }

  /** No "(doc:" begins before position n. */
  predicate QuietUpTo(s: string, n: nat)
    requires n <= |s|
  {
    forall i :: 0 <= i < n ==> !StartsWith(s[i..], OPEN)
  }

  lemma ProtectedPlain(s: string, k: nat)
    requires s != [] && !StartsWith(s, OPEN)
    ensures ClosedLinks(s) == ClosedLinks(s[1..]) && Protected(s, k) == [s[0]] + Protected(s[1..], k)
  {
    hide ClosedLinks, Segments, StartsWith, Assemble, Placeholders;
    UnfoldPlain(s);
    PrependAssembled([s[0]], Segments(s[1..]), Placeholders(k, |ClosedLinks(s)|));
  }

  lemma ShiftedQuiet(value: string, done: nat, start: nat)
    requires done <= start <= |value| && QuietUpTo(value, start)
    ensures QuietUpTo(value[done..], start - done)
  {
    forall i | 0 <= i < start - done ensures !StartsWith(value[done..][i..], OPEN) { assert value[done..][i..] == value[done + i..]; }
  }

  lemma QuietHead(s: string, m: nat)
    requires 0 < m <= |s| && QuietUpTo(s, m)
    ensures !StartsWith(s, OPEN)
  {
    assert s[0..] == s;
  }

  lemma {:induction false} ProtectedSkips(s: string, m: nat, k: nat)
    requires m <= |s| && QuietUpTo(s, m)
    ensures ClosedLinks(s) == ClosedLinks(s[m..]) && Protected(s, k) == s[..m] + Protected(s[m..], k)
    decreases m
  {
    hide ClosedLinks, Protected, StartsWith, QuietUpTo;
    if m == 0 {
      assert s[0..] == s && s[..0] + Protected(s, k) == Protected(s, k);
    } else {
      QuietHead(s, m);
      ProtectedPlain(s, k);
      ShiftedQuiet(s, 1, m);
      ProtectedSkips(s[1..], m - 1, k);
      assert s[1..][m - 1..] == s[m..];
      assert s[..m] == [s[0]] + s[1..][..m - 1];
      assert [s[0]] + (s[1..][..m - 1] + Protected(s[m..], k)) == [s[0]] + s[1..][..m - 1] + Protected(s[m..], k);
    }
  }

  lemma ProtectedLink(s: string, k: nat)
    requires StartsWith(s, OPEN) && CloseOf(s) != 0
    ensures var n := CloseOf(s);
            ClosedLinks(s) == [s[..n]] + ClosedLinks(s[n..]) && Protected(s, k) == Placeholder(k) + Protected(s[n..], k + 1)
  {
    hide ClosedLinks, Segments, StartsWith, CloseOf, Placeholder, Assemble;
    var n := CloseOf(s);
    UnfoldLink(s);
    var marks := Placeholders(k + 1, |ClosedLinks(s[n..])|);
    assert Placeholders(k, |ClosedLinks(s)|) == [Placeholder(k)] + marks;
    ConsAssembled([], Segments(s[n..]), Placeholder(k), marks);
    assert [] + Placeholder(k) == Placeholder(k);
  }

  /** strings.Index for "(doc:": the first occurrence, or the length when there is none. */
  method FindOpen(value: string) returns (start: nat)
    ensures start <= |value| && QuietUpTo(value, start)
    ensures start < |value| ==> StartsWith(value[start..], OPEN)
  {
    start := 0;
    while start < |value| && !StartsWith(value[start..], OPEN)
      invariant start <= |value| && QuietUpTo(value, start)
    {
      start := start + 1;
    }
  }

  lemma InnerHasNoParen(n: nat)
    ensures forall c :: c in Inner(n) ==> c != '(' && c != ')'
    ensures forall c :: c in Inner(n) ==> c in "_SEDOCLINK" || IsDigit(c)
  {
    forall c | c in Inner(n) ensures c in "_SEDOCLINK" || IsDigit(c) { }
  }

  /** No "(doc:" begins inside a placeholder or runs from the text before it into it. */
  lemma PlaceholderIsQuiet(a: string, k: nat, b: string, i: nat)
    requires i < |a| + |Placeholder(k)| && QuietUpTo(a, |a|)
    ensures !StartsWith((a + Placeholder(k) + b)[i..], OPEN)
  {
    var p := Placeholder(k);
    var t := (a + p + b)[i..];
    InnerHasNoParen(k);
    if |a| < i {
      assert t[0] == p[i - |a|] && (p[i - |a|] in Inner(k) || p[i - |a|] == ')');
      Mismatch(t, OPEN, 0);
    } else if i == |a| {
      assert t[1] == p[1] == '_';
      Mismatch(t, OPEN, 1);
    } else if i + 5 <= |a| {
      assert t[..5] == a[i..][..5];
    } else {
      assert t[|a| - i] == p[0] == '(';
      Mismatch(t, OPEN, |a| - i);
    }
  }

  lemma NoOpenBefore(s: string, start: nat)
    requires start <= |s| && QuietUpTo(s, start)
    ensures QuietUpTo(s[..start], start)
  {
    forall j | 0 <= j < start ensures !StartsWith(s[..start][j..], OPEN) {
      var t := s[..start][j..];
      if 5 <= |t| { assert s[j..][..5] == t[..5]; }
    }
  }

  lemma TurnQuiet(value: string, start: nat, n: nat, k: nat)
    requires start <= start + n <= |value| && QuietUpTo(value, start)
    ensures QuietUpTo(value[..start] + Placeholder(k) + value[start + n..], start + |Placeholder(k)|)
  {
    hide StartsWith, Placeholder;
    var a, b := value[..start], value[start + n..];
    NoOpenBefore(value, start);
    var after := a + Placeholder(k) + b;
    forall i | 0 <= i < start + |Placeholder(k)| ensures !StartsWith(after[i..], OPEN) { PlaceholderIsQuiet(a, k, b, i); }
  }

  lemma Rejoined(a: string, b: string, c: string, d: string)
    ensures a + (b + (c + d)) == (a + b) + c + d
  {
    assert a + (b + (c + d)) == (a + b) + (c + d) == ((a + b) + c) + d;
  }

  /** One turn of the protecting loop. */
  lemma ProtectTurn(value: string, done: nat, start: nat, k: nat)
    requires done <= start < |value| && QuietUpTo(value, start)
    requires StartsWith(value[start..], OPEN) && CloseOf(value[start..]) != 0
    ensures var n := CloseOf(value[start..]);
            var after := value[..start] + Placeholder(k) + value[start + n..];
            var next := start + |Placeholder(k)|;
            && ClosedLinks(value[done..]) == [value[start..start + n]] + ClosedLinks(after[next..])
            && value[..done] + Protected(value[done..], k) == after[..next] + Protected(after[next..], k + 1)
  {
    hide ClosedLinks, Protected, StartsWith, CloseOf, Placeholder, QuietUpTo;
    var rest := value[done..];
    var here := value[start..];
    var n := CloseOf(here);
    var mark := Placeholder(k);
    var a, b := value[..start], value[start + n..];
    var after := a + mark + b;
    ShiftedQuiet(value, done, start);
    ProtectedSkips(rest, start - done, k);
    TurnPieces(value, done, start, n, mark);
    ProtectedLink(here, k);
    Rejoined(value[..done], rest[..start - done], mark, Protected(b, k + 1));
  }

  lemma TurnPieces(value: string, done: nat, start: nat, n: nat, mark: string)
    requires done <= start <= start + n <= |value|
    ensures var rest, here, a, b := value[done..], value[start..], value[..start], value[start + n..];
            && rest[start - done..] == here && here[n..] == b && here[..n] == value[start..start + n]
            && (a + mark + b)[start + |mark|..] == b && (a + mark + b)[..start + |mark|] == a + mark
            && a == value[..done] + rest[..start - done]
  {
  }

  /** The loop stops where no closed link is left. */
  lemma ProtectEnds(value: string, done: nat, start: nat, k: nat)
    requires done <= start <= |value| && QuietUpTo(value, start)
    requires start < |value| ==> StartsWith(value[start..], OPEN) && CloseOf(value[start..]) == 0
    ensures ClosedLinks(value[done..]) == [] && value[..done] + Protected(value[done..], k) == value
  {
    var rest := value[done..];
    ShiftedQuiet(value, done, start);
    ProtectedSkips(rest, start - done, k);
    assert rest[start - done..] == value[start..];
    assert Protected(value[start..], k) == value[start..];
    assert value == value[..done] + (rest[..start - done] + value[start..]);
  }

  /** Swaps every closed link for a numbered placeholder, from the left. */
  method ProtectLinks(text: string) returns (value: string, links: seq<string>)
    ensures value == Protected(text, 0) && links == ClosedLinks(text)
  {
    hide ClosedLinks, Protected, StartsWith, CloseOf, Placeholder;
    value, links := text, [];
    ghost var done: nat := 0;
    assert text[0..] == text && text[..0] == [];
    while true
      invariant done <= |value| && QuietUpTo(value, done)
      invariant ClosedLinks(text) == links + ClosedLinks(value[done..])
      invariant Protected(text, 0) == value[..done] + Protected(value[done..], |links|)
      decreases |value| - done
    {
      var start := FindOpen(value);
      assert done <= start;
      if start == |value| || CloseOf(value[start..]) == 0 {
        ProtectEnds(value, done, start, |links|);
        return;
      }
      var n := CloseOf(value[start..]);
      ProtectTurn(value, done, start, |links|);
      TurnQuiet(value, start, n, |links|);
      done := start + |Placeholder(|links|)|;
      value, links := value[..start] + Placeholder(|links|) + value[start + n..], links + [value[start..start + n]];
    }
  }
}
