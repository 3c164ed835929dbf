/**
  The pieces of System.String that the core relies on: `char.IsWhiteSpace`,
  `string.IsNullOrWhiteSpace`, `IsNullOrEmpty`, `Trim`, `StartsWith`/`EndsWith`,
  ordinal `Replace`, ASCII case mapping and `Environment.NewLine`.
*/
module Text {
  import opened Wrappers
  import opened Selection

  /** `Environment.NewLine`: "\n" on Unix-like hosts, "\r\n" on Windows. */
  datatype NewLine = Lf | CrLf {
    function Chars(): (s: string)
      ensures s == "\n" || s == "\r\n"
    {
      if Lf? then "\n" else "\r\n"
    }
  }

  /** `char.IsWhiteSpace`: the Unicode space separators, line and paragraph
      separators, U+0009..U+000D, U+0085 and U+00A0. */
  predicate IsWhiteSpace(c: char) {
    || ('\t' <= c <= '\r')
    || c == ' '
    || c == '\U{0085}'
    || c == '\U{00A0}'
    || c == '\U{1680}'
    || ('\U{2000}' <= c <= '\U{200A}')
    || c == '\U{2028}'
    || c == '\U{2029}'
    || c == '\U{202F}'
    || c == '\U{205F}'
    || c == '\U{3000}'
  }

  predicate AllWhiteSpace(s: string) {
    forall i :: 0 <= i < |s| ==> IsWhiteSpace(s[i])
  }

  /** `string.IsNullOrWhiteSpace`. */
  predicate IsNullOrWhiteSpace(s: Option<string>) {
    s.None? || AllWhiteSpace(s.value)
  }

  /** `string.IsNullOrEmpty`. */
  predicate IsNullOrEmpty(s: Option<string>) {
    s.None? || s.value == ""
  }

  /** No whitespace at either end. */
  predicate IsTrimmed(s: string) {
    s != [] ==> !IsWhiteSpace(s[0]) && !IsWhiteSpace(s[|s| - 1])
  }

  /** Where the run of whitespace starting at index `i` ends. */
  function WhiteSpaceRunFrom(s: string, i: nat): (k: nat)
    requires i <= |s|
    ensures i <= k <= |s|
    ensures forall j :: i <= j < k ==> IsWhiteSpace(s[j])
    ensures k < |s| ==> !IsWhiteSpace(s[k])
    decreases |s| - i
  {
    if i < |s| && IsWhiteSpace(s[i]) then WhiteSpaceRunFrom(s, i + 1) else i
  }

  /** How many whitespace characters `s` starts with. */
  function LeadingWhiteSpace(s: string): (k: nat)
    ensures k <= |s|
    ensures forall i :: 0 <= i < k ==> IsWhiteSpace(s[i])
    ensures k < |s| ==> !IsWhiteSpace(s[k])
  {
    WhiteSpaceRunFrom(s, 0)
  }

  /** `Trim()` of the piece `s[i..j]`: drops whitespace at the front, then at
      the back. */
  function TrimRange(s: string, i: nat, j: nat): string
    requires i <= j <= |s|
    decreases j - i
  {
    if i < j && IsWhiteSpace(s[i]) then TrimRange(s, i + 1, j)
    else if i < j && IsWhiteSpace(s[j - 1]) then TrimRange(s, i, j - 1)
    else s[i..j]
  }

  /** `Trim()`. */
  function Trim(s: string): string {
    TrimRange(s, 0, |s|)
  }

  /** What `TrimRange` keeps is the piece between two runs of whitespace,
      with no whitespace at either of its ends. */
  lemma {:induction false} TrimRangeBounds(s: string, i: nat, j: nat) returns (a: nat, b: nat)
    requires i <= j <= |s|
    ensures i <= a <= b <= j && TrimRange(s, i, j) == s[a..b]
    ensures forall k :: i <= k < a ==> IsWhiteSpace(s[k])
    ensures forall k :: b <= k < j ==> IsWhiteSpace(s[k])
    ensures a < b ==> !IsWhiteSpace(s[a]) && !IsWhiteSpace(s[b - 1])
    decreases j - i
  {
    if i < j && IsWhiteSpace(s[i]) {
      a, b := TrimRangeBounds(s, i + 1, j);
    } else if i < j && IsWhiteSpace(s[j - 1]) {
      a, b := TrimRangeBounds(s, i, j - 1);
    } else {
      a, b := i, j;
    }
  }

  /** How many characters `Trim` drops at the start. */
  function TrimOffset(s: string): (k: nat)
    ensures k <= |s|
  {
    LeadingWhiteSpace(s)
  }

  /** `Trim(s)` is the piece of `s` after its leading whitespace with no
      whitespace at either end, and it is empty exactly when `s` is all
      whitespace. */
  lemma TrimIsTrimmedPiece(s: string)
    ensures var r := Trim(s);
      && IsTrimmed(r) && |r| <= |s|
      && TrimOffset(s) + |r| <= |s| && r == s[TrimOffset(s)..TrimOffset(s) + |r|]
      && (r == [] <==> AllWhiteSpace(s))
  {
    var a, b := TrimRangeBounds(s, 0, |s|);
    var k := TrimOffset(s);
    if a < b {
      assert !IsWhiteSpace(s[a]);
    } else {
      assert AllWhiteSpace(s) by {
        forall m | 0 <= m < |s| ensures IsWhiteSpace(s[m]) {
          assert m < a || b <= m;
        }
      }
    }
  }

  /** A trimmed string is its own trim. */
  lemma TrimOfTrimmed(s: string)
    requires IsTrimmed(s)
    ensures Trim(s) == s
  {
    assert s[0..|s|] == s;
  }

  /** Trimming a trimmed piece between two runs of whitespace gives the piece. */
  lemma TrimOfPadded(front: string, r: string, back: string)
    requires AllWhiteSpace(front) && AllWhiteSpace(back)
    requires r != [] && IsTrimmed(r)
    ensures Trim(front + r + back) == r
  {
    var s := front + r + back;
    var a, b := TrimRangeBounds(s, 0, |s|);
    var m, n := |front|, |front| + |r|;
    assert s[m] == r[0] && s[n - 1] == r[|r| - 1];
    assert !IsWhiteSpace(s[m]) && !IsWhiteSpace(s[n - 1]);
    assert forall k :: 0 <= k < m ==> s[k] == front[k];
    assert forall k :: n <= k < |s| ==> s[k] == back[k - n];
    assert a <= m < n <= b;
    assert a == m && b == n;
    assert s[m..n] == r;
  }

  /** Every character of `Trim(s)` is a character of `s`. */
  lemma TrimKeepsChars(s: string, x: char)
    requires x in Trim(s)
    ensures x in s
  {
    TrimIsTrimmedPiece(s);
    var k, r := TrimOffset(s), Trim(s);
    var j :| 0 <= j < |r| && r[j] == x;
    assert s[k + j] == x;
  }

  predicate StartsWith(s: string, prefix: string) {
    |prefix| <= |s| && s[..|prefix|] == prefix
  }

  predicate EndsWith(s: string, suffix: string) {
    |suffix| <= |s| && s[|s| - |suffix|..] == suffix
  }

  /** `pat` occurs in `s` starting at index `i`. */
  predicate OccursAt(s: string, pat: string, i: int) {
    0 <= i && i + |pat| <= |s| && s[i..i + |pat|] == pat
  }

  predicate Occurs(s: string, pat: string) {
    exists i :: 0 <= i <= |s| && OccursAt(s, pat, i)
  }

  /** `s.Replace(pat, rep)`: an ordinal scan from the left that replaces each
      non-overlapping occurrence of `pat` by `rep`. */
  function Replace(s: string, pat: string, rep: string): string
    requires pat != []
    decreases |s|
  {
    if |s| < |pat| then s
    else if s[..|pat|] == pat then rep + Replace(s[|pat|..], pat, rep)
    else [s[0]] + Replace(s[1..], pat, rep)
  }

  /** A character of the result comes from `rep` or from `s`; a one-character
      pattern leaves none of its own character behind. */
  lemma {:induction false} ReplaceCharOrigin(s: string, pat: string, rep: string, x: char)
    requires pat != []
    requires x in Replace(s, pat, rep)
    ensures x in rep || (x in s && (|pat| == 1 ==> x != pat[0]))
    decreases |s|
  {
    if |s| < |pat| {
      assert |pat| == 1 ==> s == [];
    } else if s[..|pat|] == pat {
      if x !in rep {
        ReplaceCharOrigin(s[|pat|..], pat, rep, x);
      }
    } else {
      if x == s[0] {
        assert |pat| == 1 ==> s[..1] == [s[0]];
      } else {
        ReplaceCharOrigin(s[1..], pat, rep, x);
      }
    }
  }

  /** Replacing by something no longer than the pattern never lengthens. */
  lemma {:induction false} ReplaceNotLonger(s: string, pat: string, rep: string)
    requires pat != [] && |rep| <= |pat|
    ensures |Replace(s, pat, rep)| <= |s|
    decreases |s|
  {
    if |s| < |pat| {
    } else if s[..|pat|] == pat {
      ReplaceNotLonger(s[|pat|..], pat, rep);
    } else {
      ReplaceNotLonger(s[1..], pat, rep);
    }
  }

  /** Replacing a pattern by itself is the identity. */
  lemma {:induction false} ReplaceBySelf(s: string, pat: string)
    requires pat != []
    ensures Replace(s, pat, pat) == s
    decreases |s|
  {
    if |s| < |pat| {
    } else if s[..|pat|] == pat {
      ReplaceBySelf(s[|pat|..], pat);
      assert s == pat + s[|pat|..];
    } else {
      ReplaceBySelf(s[1..], pat);
      assert s == [s[0]] + s[1..];
    }
  }

  /** Without an occurrence of the pattern, nothing is replaced. */
  lemma {:induction false} ReplaceWithoutOccurrence(s: string, pat: string, rep: string)
    requires pat != [] && !Occurs(s, pat)
    ensures Replace(s, pat, rep) == s
    decreases |s|
  {
    if |s| < |pat| {
    } else {
      assert !OccursAt(s, pat, 0);
      assert s[..|pat|] != pat;
      forall i ensures !OccursAt(s[1..], pat, i) {
        if OccursAt(s[1..], pat, i) {
          assert s[1..][i..i + |pat|] == s[i + 1..i + 1 + |pat|];
          assert OccursAt(s, pat, i + 1);
        }
      }
      ReplaceWithoutOccurrence(s[1..], pat, rep);
      assert s == [s[0]] + s[1..];
    }
  }

  /** If the first character of the pattern never appears, nothing is replaced. */
  lemma {:induction false} ReplaceWithoutPatternHead(s: string, pat: string, rep: string)
    requires pat != [] && pat[0] !in s
    ensures Replace(s, pat, rep) == s
    decreases |s|
  {
    if |s| >= |pat| {
      assert s[..|pat|][0] == s[0];
      ReplaceWithoutPatternHead(s[1..], pat, rep);
      assert s == [s[0]] + s[1..];
    }
  }

  /** A two-character pattern occurs only where its two characters stand side by side. */
  lemma PairOccurrence(s: string, x: char, y: char)
    requires forall i :: 0 <= i < |s| - 1 ==> !(s[i] == x && s[i + 1] == y)
    ensures !Occurs(s, [x, y])
  {
    forall i | 0 <= i <= |s| ensures !OccursAt(s, [x, y], i) {
      if i + 2 <= |s| {
        assert s[i..i + 2][0] == s[i] && s[i..i + 2][1] == s[i + 1];
      }
    }
  }

  /** The leftmost occurrence is replaced, and the scan resumes after it. */
  lemma {:induction false} ReplaceFirstOccurrence(a: string, pat: string, b: string, rep: string)
    requires pat != []
    requires forall i :: 0 <= i < |a| ==> !OccursAt(a + pat + b, pat, i)
    ensures Replace(a + pat + b, pat, rep) == a + rep + Replace(b, pat, rep)
    decreases |a|
  {
    var s := a + pat + b;
    if a == [] {
      assert s[..|pat|] == pat && s[|pat|..] == b;
    } else {
      var a' := a[1..];
      assert !OccursAt(s, pat, 0);
      assert s[..|pat|] != pat;
      assert Replace(s, pat, rep) == [s[0]] + Replace(s[1..], pat, rep);
      assert s[1..] == a' + pat + b;
      forall i | 0 <= i < |a'| ensures !OccursAt(a' + pat + b, pat, i) {
        OccursAtAfterHead(s, pat, i);
      }
      ReplaceFirstOccurrence(a', pat, b, rep);
      assert a == [a[0]] + a';
      AppendAssociates([a[0]], a' + rep, Replace(b, pat, rep));
      AppendAssociates([a[0]], a', rep);
    }
  }

  /** An occurrence in `s[1..]` is one in `s`, one place later. */
  lemma OccursAtAfterHead(s: string, pat: string, i: nat)
    requires s != []
    ensures OccursAt(s[1..], pat, i) <==> OccursAt(s, pat, i + 1)
  {
    if i + |pat| <= |s| - 1 {
      assert s[1..][i..i + |pat|] == s[i + 1..i + 1 + |pat|];
    }
  }

  /** The same, when the pattern's first character does not appear in `a`. */
  lemma ReplaceAtFirstHead(a: string, pat: string, b: string, rep: string)
    requires pat != [] && pat[0] !in a
    ensures Replace(a + pat + b, pat, rep) == a + rep + Replace(b, pat, rep)
  {
    var s := a + pat + b;
    forall i | 0 <= i < |a| ensures !OccursAt(s, pat, i) {
      if i + |pat| <= |s| {
        assert s[i..i + |pat|][0] == a[i];
      }
    }
    ReplaceFirstOccurrence(a, pat, b, rep);
  }

  /** The result starts with the first character of `s` or of `rep`. */
  lemma ReplaceFirstChar(s: string, pat: string, rep: string)
    requires pat != [] && rep != [] && s != []
    ensures Replace(s, pat, rep) != []
    ensures Replace(s, pat, rep)[0] == s[0] || Replace(s, pat, rep)[0] == rep[0]
  {
  }

  /** The UTF-16 code units of one character: two for a character beyond
      the Basic Multilingual Plane (a surrogate pair), one otherwise. */
  function Utf16Units(c: char): nat {
    if c as int >= 0x1_0000 then 2 else 1
  }

  /** `string.Length`, which counts UTF-16 code units. */
  function Utf16Length(s: string): nat {
    if s == [] then 0 else Utf16Units(s[0]) + Utf16Length(s[1..])
  }

  /** The UTF-16 length is at least the character count and at most twice
      it, and equals it exactly when no character needs a surrogate pair. */
  lemma {:induction false} Utf16LengthBounds(s: string)
    ensures |s| <= Utf16Length(s) <= 2 * |s|
    ensures Utf16Length(s) == |s| <==> forall i :: 0 <= i < |s| ==> s[i] as int < 0x1_0000
  {
    if s != [] {
      Utf16LengthBounds(s[1..]);
      assert forall i :: 1 <= i < |s| ==> s[i] == s[1..][i - 1];
    }
  }

  /** ASCII `ToUpperInvariant` / `ToLowerInvariant` on one character. */
  function UpperAscii(c: char): char {
    if 'a' <= c <= 'z' then (c as int - 32) as char else c
  }

  function LowerAscii(c: char): char {
    if 'A' <= c <= 'Z' then (c as int + 32) as char else c
  }

  /** `ToLowerInvariant()` (ASCII letters only). */
  function ToLower(s: string): (r: string)
    ensures |r| == |s|
    ensures forall i :: 0 <= i < |s| ==> r[i] == LowerAscii(s[i])
  {
    seq(|s|, i requires 0 <= i < |s| => LowerAscii(s[i]))
  }

  /** `ToLowerInvariant` leaves no ASCII capital, changes nothing else, and a
      second application changes nothing more. */
  lemma ToLowerIsLowerCase(s: string)
    ensures forall i :: 0 <= i < |s| ==> !('A' <= ToLower(s)[i] <= 'Z')
    ensures forall i :: 0 <= i < |s| && !('A' <= s[i] <= 'Z') ==> ToLower(s)[i] == s[i]
    ensures ToLower(ToLower(s)) == ToLower(s)
    ensures EqualsIgnoreCase(s, ToLower(s))
  {
    var t := ToLower(s);
    forall i | 0 <= i < |s| ensures UpperAscii(s[i]) == UpperAscii(t[i]) {
      UpperLowerAgree(s[i], t[i]);
    }
  }

  /** `StringComparison.OrdinalIgnoreCase` equality: equal after upper-casing. */
  predicate EqualsIgnoreCase(a: string, b: string) {
    |a| == |b| && forall i :: 0 <= i < |a| ==> UpperAscii(a[i]) == UpperAscii(b[i])
  }

  /** `s.EndsWith(suffix, StringComparison.OrdinalIgnoreCase)`. */
  predicate EndsWithIgnoreCase(s: string, suffix: string) {
    |suffix| <= |s| && EqualsIgnoreCase(s[|s| - |suffix|..], suffix)
  }

  /** Comparing upper-cased and comparing lower-cased agree. */
  lemma UpperLowerAgree(x: char, y: char)
    ensures UpperAscii(x) == UpperAscii(y) <==> LowerAscii(x) == LowerAscii(y)
  {
  }

  /** Case-insensitive suffix test against a lower-case suffix is a plain
      suffix test on the lower-cased string. */
  lemma EndsWithIgnoreCaseIsLowerSuffix(s: string, suffix: string)
    requires ToLower(suffix) == suffix
    ensures EndsWithIgnoreCase(s, suffix) <==> EndsWith(ToLower(s), suffix)
  {
    if |suffix| <= |s| {
      var k := |s| - |suffix|;
      var t := ToLower(s);
      if EndsWithIgnoreCase(s, suffix) {
        forall i | 0 <= i < |suffix| ensures t[k..][i] == suffix[i] {
          UpperLowerAgree(s[k + i], suffix[i]);
          assert LowerAscii(suffix[i]) == ToLower(suffix)[i];
        }
        assert t[k..] == suffix;
      }
      if EndsWith(t, suffix) {
        forall i | 0 <= i < |suffix|
          ensures UpperAscii(s[k..][i]) == UpperAscii(suffix[i])
        {
          assert t[k..][i] == suffix[i];
          UpperLowerAgree(s[k + i], suffix[i]);
          assert LowerAscii(suffix[i]) == ToLower(suffix)[i];
        }
      }
    }
  }
}
