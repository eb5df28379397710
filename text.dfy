/**
 * The string operations the records use: Foundation's
 * `trimmingCharacters(in: .whitespacesAndNewlines)`, and the `filter`
 * and `joined(separator:)` steps of a string pipeline.
 */
module Text {

  /**
   * Membership in `CharacterSet.whitespacesAndNewlines`: the Unicode general
   * categories Zs, Zl and Zp, the controls U+0009 through U+000D, and U+0085.
   */
  predicate IsWhitespace(c: char) {
    || ('\U{0009}' <= c <= '\U{000D}')
    || c == '\U{0085}'
    || c == ' ' || c == '\U{00A0}' || c == '\U{1680}'
    || ('\U{2000}' <= c <= '\U{200A}')
    || c == '\U{2028}' || c == '\U{2029}'
    || c == '\U{202F}' || c == '\U{205F}' || c == '\U{3000}'
  }

  /** Every character is whitespace; the empty string is blank. */
  predicate IsBlank(s: string) {
    forall i | 0 <= i < |s| :: IsWhitespace(s[i])
  }

  /** Neither the first nor the last character is whitespace. */
  predicate HasNoOuterWhitespace(s: string) {
    s == [] || (!IsWhitespace(s[0]) && !IsWhitespace(s[|s| - 1]))
  }

  /**
   * What trimming means, independently of how it is computed: `r` is the
   * part `s[i..j]` of `s`, everything cut off on either side is whitespace,
   * and `r` itself neither starts nor ends with whitespace.
   */
  predicate TrimsAt(r: string, s: string, i: nat, j: nat) {
    && i <= j <= |s|
    && r == s[i..j]
    && IsBlank(s[..i])
    && IsBlank(s[j..])
    && HasNoOuterWhitespace(r)
  }

  /** `r` is what remains of `s` once whitespace is cut from both ends. */
  ghost predicate IsTrimOf(r: string, s: string) {
    exists i: nat, j: nat :: TrimsAt(r, s, i, j)
  }

  /** Where the leading whitespace from `i` on ends: the first index at or after `i` that is not whitespace, or `|s|`. */
  function SkipLeading(s: string, i: nat): (k: nat)
    requires i <= |s|
    ensures i <= k <= |s|
    ensures forall m | i <= m < k :: IsWhitespace(s[m])
    ensures k == |s| || !IsWhitespace(s[k])
    decreases |s| - i
  {
    if i < |s| && IsWhitespace(s[i]) then SkipLeading(s, i + 1) else i
  }

  /** Where the trailing whitespace before `j` starts: just past the last non-whitespace index in `lo..j`, or `lo`. */
  function SkipTrailing(s: string, lo: nat, j: nat): (k: nat)
    requires lo <= j <= |s|
    ensures lo <= k <= j
    ensures forall m | k <= m < j :: IsWhitespace(s[m])
    ensures k == lo || !IsWhitespace(s[k - 1])
    decreases j
  {
    if lo < j && IsWhitespace(s[j - 1]) then SkipTrailing(s, lo, j - 1) else j
  }

  /** `trimmingCharacters(in: .whitespacesAndNewlines)`: what lies between the leading and the trailing whitespace. */
  function Trim(s: string): (r: string)
    ensures |r| <= |s|
    ensures HasNoOuterWhitespace(r)
  {
    var i := SkipLeading(s, 0);
    s[i..SkipTrailing(s, i, |s|)]
  }

  /** Trimming is exactly `IsTrimOf`: `Trim` meets it, and nothing else does. */
  lemma TrimCharacterization(s: string, r: string)
    ensures r == Trim(s) <==> IsTrimOf(r, s)
  {
    TrimCuts(s);
    if IsTrimOf(r, s) {
      TrimOfUnique(s, r, Trim(s));
    }
  }

  /** `Trim` cuts `s` where its leading whitespace ends and where its trailing whitespace starts. */
  lemma TrimCuts(s: string)
    ensures TrimsAt(Trim(s), s, SkipLeading(s, 0), SkipTrailing(s, SkipLeading(s, 0), |s|))
  {
    var i := SkipLeading(s, 0);
    var j := SkipTrailing(s, i, |s|);
    assert Trim(s) == s[i..j];
    BlankPrefix(s, i);
    BlankSuffix(s, j);
  }

  /** A prefix whose every character is whitespace is blank. */
  lemma BlankPrefix(s: string, i: nat)
    requires i <= |s| && forall m | 0 <= m < i :: IsWhitespace(s[m])
    ensures IsBlank(s[..i])
  {
    forall m | 0 <= m < i ensures IsWhitespace(s[..i][m]) {
      assert s[..i][m] == s[m];
    }
  }

  /** A suffix whose every character is whitespace is blank. */
  lemma BlankSuffix(s: string, j: nat)
    requires j <= |s| && forall m | j <= m < |s| :: IsWhitespace(s[m])
    ensures IsBlank(s[j..])
  {
    forall m | 0 <= m < |s| - j ensures IsWhitespace(s[j..][m]) {
      assert s[j..][m] == s[j + m];
    }
  }

  /** Two trims of one string agree. */
  lemma TrimOfUnique(s: string, r1: string, r2: string)
    requires IsTrimOf(r1, s) && IsTrimOf(r2, s)
    ensures r1 == r2
  {
    var i1: nat, j1: nat :| TrimsAt(r1, s, i1, j1);
    var i2: nat, j2: nat :| TrimsAt(r2, s, i2, j2);
    if r1 == [] {
      BlankWhenTrimEmpty(s, r1, i1, j1);
    } else if r2 == [] {
      BlankWhenTrimEmpty(s, r2, i2, j2);
    } else {
      SameCuts(s, r1, i1, j1, r2, i2, j2);
    }
  }

  /** Two non-empty trims of one string cut it in the same places. */
  lemma SameCuts(s: string, r1: string, i1: nat, j1: nat, r2: string, i2: nat, j2: nat)
    requires TrimsAt(r1, s, i1, j1) && TrimsAt(r2, s, i2, j2) && r1 != [] && r2 != []
    ensures i1 == i2 && j1 == j2
  {
    assert r1[0] == s[i1] && r1[|r1| - 1] == s[j1 - 1];
    assert r2[0] == s[i2] && r2[|r2| - 1] == s[j2 - 1];
    FirstKept(s, i1, i2);
    FirstKept(s, i2, i1);
    LastKept(s, j1, j2);
    LastKept(s, j2, j1);
  }

  /** An empty trim leaves nothing but whitespace behind. */
  lemma BlankWhenTrimEmpty(s: string, r: string, i: nat, j: nat)
    requires TrimsAt(r, s, i, j) && r == []
    ensures IsBlank(s)
  {
    assert s == s[..i] + s[j..];
  }

  /** The first kept character is the first non-whitespace one. */
  lemma FirstKept(s: string, i1: nat, i2: nat)
    requires i1 < |s| && i2 <= |s| && !IsWhitespace(s[i1]) && IsBlank(s[..i2])
    ensures i1 >= i2
  {
  }

  /** The last kept character is the last non-whitespace one. */
  lemma LastKept(s: string, j1: nat, j2: nat)
    requires 0 < j1 <= |s| && j2 <= |s| && !IsWhitespace(s[j1 - 1]) && IsBlank(s[j2..])
    ensures j1 <= j2
  {
  }

  /** `trimmed.isEmpty` holds exactly for the blank strings. */
  lemma TrimEmptyIffBlank(s: string)
    ensures Trim(s) == [] <==> IsBlank(s)
  {
    var i := SkipLeading(s, 0);
    TrimCuts(s);
    if Trim(s) == [] {
      BlankWhenTrimEmpty(s, Trim(s), i, i);
    } else {
      assert Trim(s)[0] == s[i];
    }
  }

  /** `filter { !$0.isEmpty }`. */
  function NonEmptyOnly(parts: seq<string>): (r: seq<string>)
    ensures |r| <= |parts|
    ensures forall i | 0 <= i < |r| :: r[i] != [] && r[i] in parts
    ensures forall p :: multiset(r)[p] == if p == [] then 0 else multiset(parts)[p]
    decreases |parts|
  {
    if parts == [] then []
    else if parts[0] == [] then
      assert parts == [parts[0]] + parts[1..];
      NonEmptyOnly(parts[1..])
    else
      assert parts == [parts[0]] + parts[1..];
      [parts[0]] + NonEmptyOnly(parts[1..])
  }

  /** The filter keeps order: filtering a concatenation filters each side. */
  lemma {:induction false} NonEmptyOnlyAppend(a: seq<string>, b: seq<string>)
    ensures NonEmptyOnly(a + b) == NonEmptyOnly(a) + NonEmptyOnly(b)
    decreases |a|
  {
    if a == [] {
      assert a + b == b;
    } else {
      assert (a + b)[0] == a[0];
      assert (a + b)[1..] == a[1..] + b;
      var rest := NonEmptyOnly(a[1..]);
      NonEmptyOnlyAppend(a[1..], b);
      assert NonEmptyOnly(a[1..] + b) == rest + NonEmptyOnly(b);
      if a[0] != [] {
        assert NonEmptyOnly(a) == [a[0]] + rest;
        assert NonEmptyOnly(a + b) == [a[0]] + (rest + NonEmptyOnly(b));
        assert [a[0]] + (rest + NonEmptyOnly(b)) == [a[0]] + rest + NonEmptyOnly(b);
      }
    }
  }

  /** A single part survives the filter exactly when it is non-empty. */
  lemma NonEmptyOnlySingle(part: string)
    ensures NonEmptyOnly([part]) == if part == [] then [] else [part]
  {
    assert [part][1..] == [];
  }

  /** `joined(separator:)`: the parts in order with `separator` between neighbours. */
  function Joined(parts: seq<string>, separator: string): (r: string)
    ensures parts == [] ==> r == []
    ensures parts != [] ==> parts[0] <= r && EndsWith(r, parts[|parts| - 1])
    ensures |parts| >= 2 ==> |r| >= |parts[0]| + |separator| + |parts[|parts| - 1]|
    decreases |parts|
  {
    if parts == [] then []
    else if |parts| == 1 then parts[0]
    else
      var rest := Joined(parts[1..], separator);
      assert parts[1..][|parts[1..]| - 1] == parts[|parts| - 1];
      JoinStep(parts[0], separator, rest, parts[|parts| - 1]);
      parts[0] + separator + rest
  }

  /** `s` ends with `suffix`. */
  predicate EndsWith(s: string, suffix: string) {
    |suffix| <= |s| && s[|s| - |suffix|..] == suffix
  }

  /** Putting a part and a separator before a joined rest keeps the part at the front and the rest's last part at the end. */
  lemma JoinStep(first: string, separator: string, rest: string, last: string)
    requires EndsWith(rest, last)
    ensures first <= first + separator + rest && EndsWith(first + separator + rest, last)
    ensures |first + separator + rest| >= |first| + |separator| + |last|
  {
    var r := first + separator + rest;
    assert r[|r| - |last|..] == rest[|rest| - |last|..];
  }

  /** The total length of the parts. */
  function TotalLength(parts: seq<string>): nat
    decreases |parts|
  {
    if parts == [] then 0 else |parts[0]| + TotalLength(parts[1..])
  }

  /** `n * k`, as `n` additions of `k`. */
  function Times(n: nat, k: nat): nat {
    if n == 0 then 0 else k + Times(n - 1, k)
  }

  /** `Times` is multiplication. */
  lemma {:induction false} TimesIsProduct(n: nat, k: nat)
    ensures Times(n, k) == n * k
  {
    if n > 0 {
      TimesIsProduct(n - 1, k);
    }
  }

  /** Joining `n` parts puts `n - 1` separators between them and adds nothing else. */
  lemma {:induction false} JoinedLength(parts: seq<string>, separator: string)
    requires parts != []
    ensures |Joined(parts, separator)| == TotalLength(parts) + Times(|parts| - 1, |separator|)
    decreases |parts|
  {
    if |parts| > 1 {
      var rest := parts[1..];
      JoinedLength(rest, separator);
      assert Joined(parts, separator) == parts[0] + separator + Joined(rest, separator);
      assert TotalLength(parts) == |parts[0]| + TotalLength(rest);
      assert Times(|parts| - 1, |separator|) == |separator| + Times(|rest| - 1, |separator|);
    }
  }

  /** Keeping the non-empty ones of two parts and joining them. */
  lemma JoinNonEmptyPair(a: string, b: string, separator: string)
    ensures Joined(NonEmptyOnly([a, b]), separator) ==
              if a == [] then b else if b == [] then a else a + separator + b
  {
    assert [a, b][1..] == [b];
    assert [b][1..] == [];
  }

  /** Joining two trimmed, non-empty parts leaves no outer whitespace. */
  lemma JoinKeepsNoOuterWhitespace(a: string, separator: string, b: string)
    requires HasNoOuterWhitespace(a) && HasNoOuterWhitespace(b)
    ensures a != [] && b != [] ==> HasNoOuterWhitespace(a + separator + b)
  {
    if a != [] && b != [] {
      var r := a + separator + b;
      assert r[0] == a[0];
      assert r[|r| - 1] == b[|b| - 1];
    }
  }
}
