/** Occurrences of one string in another, and strings.ReplaceAll. */
module Substrings {

  predicate StartsWith(s: string, p: string) { |p| <= |s| && s[..|p|] == p }

  lemma Mismatch(s: string, p: string, m: nat)
    requires m < |p| && (m < |s| ==> s[m] != p[m])
    ensures !StartsWith(s, p)
  {
    if |p| <= |s| { assert s[..|p|][m] != p[m]; }
  }

  lemma ShorterCannot(s: string, p: string)
    requires |s| < |p|
    ensures !StartsWith(s, p)
  {
  }

  lemma StartsWithPrefix(a: string, b: string, p: string)
    requires |p| <= |a|
    ensures StartsWith(a + b, p) <==> StartsWith(a, p)
  {
    assert (a + b)[..|p|] == a[..|p|];
  }

  lemma StartsLength(s: string, p: string)
    requires StartsWith(s, p)
    ensures |p| <= |s|
  {
  }

  lemma StartsWithPart(s: string, p: string, q: string)
    requires StartsWith(p, q)
    ensures StartsWith(s, p) ==> StartsWith(s, q)
  {
    if |p| <= |s| { assert s[..|p|][..|q|] == s[..|q|]; }
  }

  lemma OneStarts(s: string, p: string)
    requires s != [] && |p| == 1
    ensures StartsWith(s, p) <==> s[0] == p[0]
  {
    assert s[..1] == [s[0]] && p == [p[0]];
  }

  lemma ConsStarts(c: char, s: string, p: string)
    ensures StartsWith([c] + s, [c] + p) <==> StartsWith(s, p)
  {
    if |p| <= |s| {
      var whole := ([c] + s)[..|p| + 1];
      assert whole == [c] + s[..|p|];
      assert whole[1..] == s[..|p|] && ([c] + p)[1..] == p;
    }
  }

  /** p does not occur in s. */
  ghost predicate Free(s: string, p: string) { forall i :: 0 <= i < |s| ==> !StartsWith(s[i..], p) }

  lemma FreeTail(s: string, p: string, n: nat)
    requires n <= |s| && Free(s, p)
    ensures Free(s[n..], p)
  {
    forall i | 0 <= i < |s| - n ensures !StartsWith(s[n..][i..], p) { assert s[n..][i..] == s[n + i..]; }
  }

  lemma FreeHead(s: string, p: string)
    requires s != [] && Free(s, p)
    ensures !StartsWith(s, p)
  {
    assert s[0..] == s;
  }

  lemma FreeParts(a: string, b: string, p: string)
    requires Free(a + b, p)
    ensures Free(a, p) && Free(b, p)
  {
    FreeTail(a + b, p, |a|);
    assert (a + b)[|a|..] == b;
    forall i | 0 <= i < |a| ensures !StartsWith(a[i..], p) {
      if |p| <= |a| - i {
        assert (a + b)[i..] == a[i..] + b;
        StartsWithPrefix(a[i..], b, p);
      }
    }
  }

  lemma FreeCons(s: string, p: string)
    requires s != [] && Free(s[1..], p) && !StartsWith(s, p)
    ensures Free(s, p)
  {
    forall i | 0 <= i < |s| ensures !StartsWith(s[i..], p) {
      if 0 < i { assert s[i..] == s[1..][i - 1..]; } else { assert s[0..] == s; }
    }
  }

  lemma NothingIsFree(p: string)
    ensures Free([], p)
  {
  }

  /** strings.ReplaceAll for a non-empty word: from the left, without overlaps. */
  function ReplaceAll(s: string, word: string, other: string): string
    requires word != []
    decreases |s|
  {
    if s == [] then []
    else if StartsWith(s, word) then other + ReplaceAll(s[|word|..], word, other)
    else [s[0]] + ReplaceAll(s[1..], word, other)
  }

  /** No occurrence of p begins in a and ends in b. */
  ghost predicate NoStraddle(a: string, b: string, p: string)
  {
    forall i :: 0 <= i < |a| && |a| < i + |p| ==> !StartsWith((a + b)[i..], p)
  }

  lemma NoStraddleTail(a: string, b: string, p: string, n: nat)
    requires n <= |a| && NoStraddle(a, b, p)
    ensures NoStraddle(a[n..], b, p)
  {
    forall i | 0 <= i < |a| - n && |a| - n < i + |p| ensures !StartsWith((a[n..] + b)[i..], p) {
      assert (a[n..] + b)[i..] == (a + b)[n + i..];
    }
  }

  lemma Straddle0(a: string, b: string, p: string)
    requires a != [] && NoStraddle(a, b, p)
    ensures StartsWith(a + b, p) ==> |p| <= |a|
  {
    assert (a + b)[0..] == a + b;
  }

  lemma ReplaceFound(s: string, word: string, other: string)
    requires word != [] && StartsWith(s, word)
    ensures |word| <= |s| && ReplaceAll(s, word, other) == other + ReplaceAll(s[|word|..], word, other)
  {
  }

  lemma ReplaceSkipped(s: string, word: string, other: string)
    requires word != [] && s != [] && !StartsWith(s, word)
    ensures ReplaceAll(s, word, other) == [s[0]] + ReplaceAll(s[1..], word, other)
  {
  }

  lemma Regroup(a: string, b: string, c: string)
    ensures a + (b + c) == (a + b) + c
  {
  }

  lemma DropFront(a: string, b: string, n: nat)
    requires n <= |a|
    ensures (a + b)[n..] == a[n..] + b
  {
  }

  lemma SplitFound(a: string, b: string, word: string, other: string)
    requires word != [] && |word| <= |a| && StartsWith(a, word)
    requires ReplaceAll(a[|word|..] + b, word, other) == ReplaceAll(a[|word|..], word, other) + ReplaceAll(b, word, other)
    ensures ReplaceAll(a + b, word, other) == ReplaceAll(a, word, other) + ReplaceAll(b, word, other)
  {
    hide ReplaceAll, StartsWith;
    StartsWithPrefix(a, b, word);
    ReplaceFound(a + b, word, other);
    ReplaceFound(a, word, other);
    DropFront(a, b, |word|);
    Regroup(other, ReplaceAll(a[|word|..], word, other), ReplaceAll(b, word, other));
  }

  lemma SplitSkipped(a: string, b: string, word: string, other: string)
    requires word != [] && a != [] && !StartsWith(a, word) && !StartsWith(a + b, word)
    requires ReplaceAll(a[1..] + b, word, other) == ReplaceAll(a[1..], word, other) + ReplaceAll(b, word, other)
    ensures ReplaceAll(a + b, word, other) == ReplaceAll(a, word, other) + ReplaceAll(b, word, other)
  {
    hide ReplaceAll, StartsWith;
    ReplaceSkipped(a + b, word, other);
    ReplaceSkipped(a, word, other);
    DropFront(a, b, 1);
    Regroup([a[0]], ReplaceAll(a[1..], word, other), ReplaceAll(b, word, other));
  }

  lemma ReplaceNothing(word: string, other: string)
    requires word != []
    ensures ReplaceAll([], word, other) == []
  {
  }

  /** Replacing in a concatenation is replacing in its parts when no occurrence spans them. */
  lemma {:induction false} ReplaceSplits(a: string, b: string, word: string, other: string)
    requires word != [] && NoStraddle(a, b, word)
    ensures ReplaceAll(a + b, word, other) == ReplaceAll(a, word, other) + ReplaceAll(b, word, other)
    decreases |a|
  {
    hide NoStraddle, StartsWith, ReplaceAll;
    if a == [] {
      assert a + b == b;
      ReplaceNothing(word, other);
    } else {
      Straddle0(a, b, word);
      if StartsWith(a + b, word) {
        StartsWithPrefix(a, b, word);
        NoStraddleTail(a, b, word, |word|);
        ReplaceSplits(a[|word|..], b, word, other);
        SplitFound(a, b, word, other);
      } else {
        if |word| <= |a| { StartsWithPrefix(a, b, word); } else { ShorterCannot(a, word); }
        NoStraddleTail(a, b, word, 1);
        ReplaceSplits(a[1..], b, word, other);
        SplitSkipped(a, b, word, other);
      }
    }
  }

  /** A character of b's front that p has only at its front keeps the two apart. */
  lemma FreshStart(a: string, b: string, p: string)
    requires b != [] && p != [] && b[0] !in p[1..]
    ensures NoStraddle(a, b, p)
  {
    forall i | 0 <= i < |a| && |a| < i + |p| ensures !StartsWith((a + b)[i..], p) {
      assert p[|a| - i] in p[1..];
      Mismatch((a + b)[i..], p, |a| - i);
    }
  }

  lemma ClosedEnd(a: string, b: string, p: string)
    requires a != [] && p != [] && a[|a| - 1] !in p[..|p| - 1]
    ensures NoStraddle(a, b, p)
  {
    forall i | 0 <= i < |a| && |a| < i + |p| ensures !StartsWith((a + b)[i..], p) {
      assert p[|a| - 1 - i] in p[..|p| - 1];
      Mismatch((a + b)[i..], p, |a| - 1 - i);
    }
  }

  lemma {:induction false} NothingToReplace(s: string, word: string, other: string)
    requires word != [] && Free(s, word)
    ensures ReplaceAll(s, word, other) == s
    decreases |s|
  {
    hide Free, StartsWith;
    if s != [] {
      FreeHead(s, word);
      FreeTail(s, word, 1);
      NothingToReplace(s[1..], word, other);
    }
  }

  lemma MissingLetter(s: string, word: string, c: char)
    requires c in word && c !in s
    ensures Free(s, word)
  {
    var k :| 0 <= k < |word| && word[k] == c;
    forall i | 0 <= i < |s| ensures !StartsWith(s[i..], word) { Mismatch(s[i..], word, k); }
  }
}
