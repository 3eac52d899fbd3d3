/** Address normalisation: lower case, then trim. */
module Emails {
  function LowerChar(c: char): char {
    if 'A' <= c <= 'Z' then ((c as int) + 32) as char else c
  }

  predicate IsSpace(c: char) {
    c == ' ' || '\t' <= c <= '\r'
  }

  function Lower(s: string): (t: string)
    ensures |t| == |s| && forall i :: 0 <= i < |s| ==> t[i] == LowerChar(s[i])
  {
    seq(|s|, i requires 0 <= i < |s| => LowerChar(s[i]))
  }

  function TrimStart(s: string): string {
    if s != [] && IsSpace(s[0]) then TrimStart(s[1..]) else s
  }

  function TrimEnd(s: string): string {
    if s != [] && IsSpace(s[|s| - 1]) then TrimEnd(s[..|s| - 1]) else s
  }

  function Trim(s: string): string {
    TrimEnd(TrimStart(s))
  }

  function Normalize(s: string): string {
    Trim(Lower(s))
  }

  lemma {:induction false} TrimStartFacts(s: string)
    ensures TrimStart(s) == [] || !IsSpace(TrimStart(s)[0])
    ensures forall c :: c in TrimStart(s) ==> c in s
  {
    if s != [] && IsSpace(s[0]) {
      TrimStartFacts(s[1..]);
    }
  }

  lemma {:induction false} TrimEndFacts(s: string)
    ensures TrimEnd(s) <= s
    ensures TrimEnd(s) == [] || !IsSpace(TrimEnd(s)[|TrimEnd(s)| - 1])
  {
    if s != [] && IsSpace(s[|s| - 1]) {
      TrimEndFacts(s[..|s| - 1]);
    }
  }

  /** Normalising twice is normalising once, so an address that has been stored, sent in a message
      and normalised again on the other side is still the same address. */
  lemma NormalizeIdempotent(s: string)
    ensures Normalize(Normalize(s)) == Normalize(s)
  {
    var low := Lower(s);
    var start := TrimStart(low);
    var t := TrimEnd(start);
    TrimStartFacts(low);
    TrimEndFacts(start);
    assert forall c :: c in low ==> LowerChar(c) == c;
    assert forall i :: 0 <= i < |t| ==> t[i] in start;
    assert Lower(t) == t;
    assert t == [] || t[0] == start[0];
  }

  predicate AllSpaces(s: string) {
    forall i :: 0 <= i < |s| ==> IsSpace(s[i])
  }

  lemma {:induction false} TrimStartCuts(s: string) returns (i: nat)
    ensures i <= |s| && TrimStart(s) == s[i..] && AllSpaces(s[..i])
  {
    i := 0;
    if s != [] && IsSpace(s[0]) {
      var j := TrimStartCuts(s[1..]);
      i := j + 1;
      assert s[..i] == [s[0]] + s[1..][..j];
    }
  }

  lemma {:induction false} TrimEndCuts(s: string) returns (j: nat)
    ensures j <= |s| && TrimEnd(s) == s[..j] && AllSpaces(s[j..])
  {
    j := |s|;
    if s != [] && IsSpace(s[|s| - 1]) {
      j := TrimEndCuts(s[..|s| - 1]);
      assert s[j..] == s[..|s| - 1][j..] + [s[|s| - 1]];
    }
  }

  /** Trimming cuts blanks off both ends and nothing else, and leaves none there. */
  lemma TrimExactly(s: string) returns (i: nat, j: nat)
    ensures i <= j <= |s| && Trim(s) == s[i..j]
    ensures AllSpaces(s[..i]) && AllSpaces(s[j..])
    ensures i == j || (!IsSpace(s[i]) && !IsSpace(s[j - 1]))
  {
    i := TrimStartCuts(s);
    var k := TrimEndCuts(s[i..]);
    j := i + k;
    TrimStartFacts(s);
    TrimEndFacts(s[i..]);
    assert s[i..][..k] == s[i..j] && s[i..][k..] == s[j..];
  }

  /** In ASCII: an upper-case letter becomes the lower-case letter 32 places on, every other character stays. */
  lemma LowerCaseExactly(c: char)
    ensures 'A' <= c <= 'Z' ==> 'a' <= LowerChar(c) <= 'z' && LowerChar(c) as int == c as int + 32
    ensures !('A' <= c <= 'Z') ==> LowerChar(c) == c
    ensures IsSpace(LowerChar(c)) <==> IsSpace(c)
    ensures IsSpace(c) <==> c in " \t\n\r" || c as int == 11 || c as int == 12
  {
  }

  /** A stored address is the given one, character by character in lower case, without the blanks around it: no upper-case
      letter is left in it, and no blank at either end. */
  lemma NormalizeExactly(s: string) returns (i: nat, j: nat)
    ensures i <= j <= |s| && AllSpaces(s[..i]) && AllSpaces(s[j..])
    ensures |Normalize(s)| == j - i && forall k | 0 <= k < j - i :: Normalize(s)[k] == LowerChar(s[i + k])
    ensures forall c | c in Normalize(s) :: !('A' <= c <= 'Z')
    ensures Normalize(s) == "" || (!IsSpace(Normalize(s)[0]) && !IsSpace(Normalize(s)[|Normalize(s)| - 1]))
  {
    i, j := TrimExactly(Lower(s));
    assert forall k | 0 <= k < |s| :: IsSpace(Lower(s)[k]) <==> IsSpace(s[k]);
  }

  /** From i to j is what is left of s without the blanks around it. */
  predicate Core(s: string, i: nat, j: nat) {
    && i <= j <= |s|
    && (forall k :: 0 <= k < i ==> IsSpace(s[k]))
    && (forall k :: j <= k < |s| ==> IsSpace(s[k]))
    && (i == j || (!IsSpace(s[i]) && !IsSpace(s[j - 1])))
  }

  lemma TrimFindsTheCore(s: string) returns (i: nat, j: nat)
    ensures Core(s, i, j) && Trim(s) == s[i..j]
  {
    i, j := TrimExactly(s);
    assert forall k :: 0 <= k < i ==> s[..i][k] == s[k];
    assert forall k :: j <= k < |s| ==> s[j..][k - j] == s[k];
  }

  lemma CoreIsUnique(s: string, i: nat, j: nat, i': nat, j': nat)
    requires Core(s, i, j) && Core(s, i', j')
    ensures s[i..j] == s[i'..j']
  {
    if i < j {
      assert i' <= i && j <= j';
    } else {
      assert i' == j';
    }
  }

  lemma CoreOfPadded(before: string, s: string, after: string, i: nat, j: nat)
    requires AllSpaces(before) && AllSpaces(after) && Core(s, i, j)
    ensures Core(before + s + after, |before| + i, |before| + j)
  {
  }

  /** Spellings that differ only in letter case and in blanks around the address are one address to the service. */
  lemma SpellingsNormalizeAlike(s: string, t: string, before: string, after: string)
    requires |s| == |t| && forall k | 0 <= k < |s| :: LowerChar(s[k]) == LowerChar(t[k])
    requires AllSpaces(before) && AllSpaces(after)
    ensures Normalize(before + s + after) == Normalize(t)
  {
    assert Lower(s) == Lower(t);
    assert Lower(before + s + after) == Lower(before) + Lower(s) + Lower(after);
    TrimIgnoresPadding(Lower(before), Lower(s), Lower(after));
  }

  lemma TrimIgnoresPadding(before: string, s: string, after: string)
    requires AllSpaces(before) && AllSpaces(after)
    ensures Trim(before + s + after) == Trim(s)
  {
    var padded, n := before + s + after, |before|;
    var a, b := TrimFindsTheCore(s);
    var i, j := TrimFindsTheCore(padded);
    CoreOfPadded(before, s, after, a, b);
    CoreIsUnique(padded, i, j, n + a, n + b);
    assert padded[n + a..n + b] == s[a..b];
  }
}
