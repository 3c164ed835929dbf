/**
  ContentSanitizer.CleanContent: the tidy-up applied to the model's caption
  text before it is stored next to the raw text.
*/
module ContentSanitizer {
  import opened Wrappers
  import opened Text

  /** A backslash immediately followed by the letter n: the two-character
      escape that JSON-ish model output leaves behind. */
  predicate HasNoEscapedNewline(s: string) {
    forall i :: 0 <= i < |s| - 1 ==> !(s[i] == '\\' && s[i + 1] == 'n')
  }

  /** The four replacement steps, before the final trim. */
  function StripQuotes(s: string): string {
    Replace(s, "\"", "")
  }

  function UnescapeNewlines(s: string): string {
    Replace(s, "\\n", "\n")
  }

  function NormalizeCrLf(s: string, newLine: NewLine): string {
    Replace(s, "\r\n", newLine.Chars())
  }

  function NormalizeDoubleBreaks(s: string, newLine: NewLine): string {
    Replace(s, "\n\n", newLine.Chars() + newLine.Chars())
  }

  /** `CleanContent(content)`, with `Environment.NewLine` given as `newLine`. */
  function CleanContent(content: Option<string>, newLine: NewLine): (r: string)
    ensures IsNullOrWhiteSpace(content) ==> r == ""
    ensures '"' !in r
    ensures HasNoEscapedNewline(r)
    ensures IsTrimmed(r)
  {
    if IsNullOrWhiteSpace(content) then ""
    else
      var s1 := StripQuotes(content.value);
      var s2 := UnescapeNewlines(s1);
      var s3 := NormalizeCrLf(s2, newLine);
      var s4 := NormalizeDoubleBreaks(s3, newLine);
      var r := Trim(s4);
      QuoteNeverReturns(content.value, newLine);
      NoEscapedNewlineAfterSteps(s1, newLine);
      TrimKeepsNoEscapedNewline(s4);
      TrimIsTrimmedPiece(s4);
      r
  }

  /** The first step removes every quote and no later step brings one back. */
  lemma QuoteNeverReturns(s: string, newLine: NewLine)
    ensures '"' !in Trim(NormalizeDoubleBreaks(NormalizeCrLf(UnescapeNewlines(StripQuotes(s)), newLine), newLine))
  {
    var s1 := StripQuotes(s);
    var s2 := UnescapeNewlines(s1);
    var s3 := NormalizeCrLf(s2, newLine);
    var s4 := NormalizeDoubleBreaks(s3, newLine);
    if '"' in s1 { ReplaceCharOrigin(s, "\"", "", '"'); }
    if '"' in s2 { ReplaceCharOrigin(s1, "\\n", "\n", '"'); }
    if '"' in s3 { ReplaceCharOrigin(s2, "\r\n", newLine.Chars(), '"'); }
    if '"' in s4 { ReplaceCharOrigin(s3, "\n\n", newLine.Chars() + newLine.Chars(), '"'); }
    if '"' in Trim(s4) { TrimKeepsChars(s4, '"'); }
  }

  /** Escape translation leaves no backslash-n pair behind, and the line-break
      steps (whose replacements are made of CR and LF only) do not create one. */
  lemma NoEscapedNewlineAfterSteps(s1: string, newLine: NewLine)
    ensures HasNoEscapedNewline(NormalizeDoubleBreaks(NormalizeCrLf(UnescapeNewlines(s1), newLine), newLine))
  {
    UnescapeLeavesNoEscapedNewline(s1);
    var s2 := UnescapeNewlines(s1);
    ReplaceKeepsNoEscapedNewline(s2, "\r\n", newLine.Chars());
    var s3 := NormalizeCrLf(s2, newLine);
    ReplaceKeepsNoEscapedNewline(s3, "\n\n", newLine.Chars() + newLine.Chars());
  }

  lemma {:induction false} UnescapeLeavesNoEscapedNewline(s: string)
    ensures HasNoEscapedNewline(Replace(s, "\\n", "\n"))
    decreases |s|
  {
    var r := Replace(s, "\\n", "\n");
    if |s| < 2 {
      assert r == s;
    } else if s[..2] == "\\n" {
      var t := Replace(s[2..], "\\n", "\n");
      UnescapeLeavesNoEscapedNewline(s[2..]);
      assert r == "\n" + t;
      forall i | 0 <= i < |r| - 1 ensures !(r[i] == '\\' && r[i + 1] == 'n') {
        if i > 0 {
          assert r[i] == t[i - 1] && r[i + 1] == t[i];
        }
      }
    } else {
      var t := Replace(s[1..], "\\n", "\n");
      UnescapeLeavesNoEscapedNewline(s[1..]);
      assert r == [s[0]] + t;
      ReplaceFirstChar(s[1..], "\\n", "\n");
      forall i | 0 <= i < |r| - 1 ensures !(r[i] == '\\' && r[i + 1] == 'n') {
        if i > 0 {
          assert r[i] == t[i - 1] && r[i + 1] == t[i];
        } else if s[0] == '\\' {
          assert s[..2] == [s[0], s[1]];
          assert s[1] != 'n';
        }
      }
    }
  }

  /** A replacement made only of characters other than backslash and `n`
      cannot create a backslash-n pair. */
  lemma {:induction false} ReplaceKeepsNoEscapedNewline(s: string, pat: string, rep: string)
    requires pat != [] && rep != []
    requires forall k :: 0 <= k < |rep| ==> rep[k] != '\\' && rep[k] != 'n'
    requires HasNoEscapedNewline(s)
    ensures HasNoEscapedNewline(Replace(s, pat, rep))
    decreases |s|
  {
    var r := Replace(s, pat, rep);
    if |s| < |pat| {
    } else if s[..|pat|] == pat {
      var t := Replace(s[|pat|..], pat, rep);
      ReplaceKeepsNoEscapedNewline(s[|pat|..], pat, rep);
      assert r == rep + t;
      forall i | 0 <= i < |r| - 1 ensures !(r[i] == '\\' && r[i + 1] == 'n') {
        if i >= |rep| {
          assert r[i] == t[i - |rep|] && r[i + 1] == t[i + 1 - |rep|];
        } else {
          assert r[i] == rep[i];
        }
      }
    } else {
      var t := Replace(s[1..], pat, rep);
      ReplaceKeepsNoEscapedNewline(s[1..], pat, rep);
      assert r == [s[0]] + t;
      forall i | 0 <= i < |r| - 1 ensures !(r[i] == '\\' && r[i + 1] == 'n') {
        if i > 0 {
          assert r[i] == t[i - 1] && r[i + 1] == t[i];
        } else {
          ReplaceFirstChar(s[1..], pat, rep);
        }
      }
    }
  }

  lemma TrimKeepsNoEscapedNewline(s: string)
    requires HasNoEscapedNewline(s)
    ensures HasNoEscapedNewline(Trim(s))
  {
    TrimIsTrimmedPiece(s);
    var k, r := TrimOffset(s), Trim(s);
    forall i | 0 <= i < |r| - 1 ensures !(r[i] == '\\' && r[i + 1] == 'n') {
      assert r[i] == s[k + i] && r[i + 1] == s[k + i + 1];
    }
  }

  /** With NewLine = "\n" the result is never longer than the input: every
      step replaces a pattern by something no longer, and trimming shortens. */
  lemma CleanContentNotLongerOnLf(content: string)
    ensures |CleanContent(Some(content), Lf)| <= |content|
  {
    if !IsNullOrWhiteSpace(Some(content)) {
      var s1 := StripQuotes(content);
      ReplaceNotLonger(content, "\"", "");
      var s2 := UnescapeNewlines(s1);
      ReplaceNotLonger(s1, "\\n", "\n");
      var s3 := NormalizeCrLf(s2, Lf);
      ReplaceNotLonger(s2, "\r\n", "\n");
      var s4 := NormalizeDoubleBreaks(s3, Lf);
      DoubleBreakStepIsIdentityOnLf(s3);
      TrimIsTrimmedPiece(s4);
      assert CleanContent(Some(content), Lf) == Trim(s4);
    }
  }

  /** With NewLine = "\n" the double-break step is the identity. */
  lemma DoubleBreakStepIsIdentityOnLf(s: string)
    ensures NormalizeDoubleBreaks(s, Lf) == s
  {
    assert Lf.Chars() + Lf.Chars() == "\n\n";
    ReplaceBySelf(s, "\n\n");
  }

  /** With NewLine = "\n" the CRLF step turns the leftmost CR LF pair into a
      single LF and carries on after it; text without a pair is left alone. */
  lemma CrLfStepOnLf(a: string, b: string)
    requires !Occurs(a, "\r\n")
    ensures NormalizeCrLf(a + "\r\n" + b, Lf) == a + "\n" + NormalizeCrLf(b, Lf)
    ensures NormalizeCrLf(a, Lf) == a
  {
    var s := a + "\r\n" + b;
    forall i | 0 <= i < |a| ensures !OccursAt(s, "\r\n", i) {
      if i + 1 < |a| {
        assert s[i..i + 2] == a[i..i + 2];
        assert !OccursAt(a, "\r\n", i);
      } else {
        assert s[i + 1] == '\r';
      }
    }
    ReplaceFirstOccurrence(a, "\r\n", b, "\n");
    ReplaceWithoutOccurrence(a, "\r\n", "\n");
  }

  /** Plain text: no character that any step of CleanContent looks at. */
  predicate IsPlain(s: string) {
    '"' !in s && '\\' !in s && '\r' !in s && '\n' !in s
  }

  /** `a` and `b` are plain and the whole line has no whitespace at its ends. */
  predicate PlainAround(a: string, b: string) {
    IsPlain(a) && IsPlain(b) && a != [] && b != []
    && !IsWhiteSpace(a[0]) && !IsWhiteSpace(b[|b| - 1])
  }

  lemma CleanContentSteps(s: string, newLine: NewLine)
    requires !AllWhiteSpace(s)
    ensures CleanContent(Some(s), newLine)
         == Trim(NormalizeDoubleBreaks(NormalizeCrLf(UnescapeNewlines(StripQuotes(s)), newLine), newLine))
  {
  }

  /** A single LF between plain text survives the line-break steps and the trim. */
  lemma LineBreakBetweenPlainIsFinal(a: string, b: string, newLine: NewLine)
    requires PlainAround(a, b)
    ensures Trim(NormalizeDoubleBreaks(NormalizeCrLf(a + "\n" + b, newLine), newLine)) == a + "\n" + b
  {
    var s := a + "\n" + b;
    ReplaceWithoutPatternHead(s, "\r\n", newLine.Chars());
    forall i | 0 <= i < |s| - 1 ensures !(s[i] == '\n' && s[i + 1] == '\n') {
      if i < |a| {
        assert s[i] == a[i];
      } else if i == |a| {
        assert s[i + 1] == b[0];
      } else {
        assert s[i] == b[i - |a| - 1];
      }
    }
    PairOccurrence(s, '\n', '\n');
    ReplaceWithoutOccurrence(s, "\n\n", newLine.Chars() + newLine.Chars());
    TrimOfTrimmed(s);
  }

  /** Quotes go before escapes are translated: removing the quote from a
      backslash, a quote and an `n` leaves an escaped line break. */
  lemma StripQuotesJoinsEscape(a: string, b: string)
    requires IsPlain(a) && IsPlain(b)
    ensures StripQuotes(a + "\\\"n" + b) == a + "\\n" + b
  {
    assert a + "\\\"n" + b == (a + "\\") + "\"" + ("n" + b);
    ReplaceAtFirstHead(a + "\\", "\"", "n" + b, "");
    ReplaceWithoutPatternHead("n" + b, "\"", "");
    assert (a + "\\") + "" + ("n" + b) == a + "\\n" + b;
  }

  lemma UnescapeBetweenPlain(a: string, b: string)
    requires IsPlain(a) && IsPlain(b)
    ensures UnescapeNewlines(a + "\\n" + b) == a + "\n" + b
  {
    ReplaceAtFirstHead(a, "\\n", b, "\n");
    ReplaceWithoutPatternHead(b, "\\n", "\n");
  }

  /** A backslash, a quote and an `n` between plain text become a real line break. */
  lemma QuoteInsideEscapeBecomesLineBreak(a: string, b: string, newLine: NewLine)
    requires PlainAround(a, b)
    ensures CleanContent(Some(a + "\\\"n" + b), newLine) == a + "\n" + b
  {
    var s := a + "\\\"n" + b;
    assert s[0] == a[0];
    CleanContentSteps(s, newLine);
    StripQuotesJoinsEscape(a, b);
    UnescapeBetweenPlain(a, b);
    LineBreakBetweenPlainIsFinal(a, b, newLine);
  }

  /** With NewLine = "\n", a CR in front of a CR LF pair survives the CRLF step. */
  lemma CrLfStepLeavesLoneCr(a: string, b: string)
    requires IsPlain(a) && IsPlain(b)
    ensures NormalizeCrLf(a + "\r\r\n" + b, Lf) == a + "\r\n" + b
  {
    var c := a + "\r";
    forall i | 0 <= i < |c| - 1 ensures !(c[i] == '\r' && c[i + 1] == '\n') {
      assert c[i] == a[i];
    }
    PairOccurrence(c, '\r', '\n');
    CrLfStepOnLf(c, b);
    ReplaceWithoutPatternHead(b, "\r\n", "\n");
    assert a + "\r\r\n" + b == c + "\r\n" + b;
    assert c + "\n" + b == a + "\r\n" + b;
  }

  /** With NewLine = "\n", a CR LF pair between plain text becomes LF. */
  lemma CrLfStepBetweenPlain(a: string, b: string)
    requires IsPlain(a) && IsPlain(b)
    ensures NormalizeCrLf(a + "\r\n" + b, Lf) == a + "\n" + b
  {
    PairOccurrence(a, '\r', '\n');
    CrLfStepOnLf(a, b);
    ReplaceWithoutPatternHead(b, "\r\n", "\n");
  }

  /** Quote and escape steps leave text with no quote and no backslash alone. */
  lemma EscapeStepsIgnoreLineBreaks(s: string)
    requires '"' !in s && '\\' !in s
    ensures UnescapeNewlines(StripQuotes(s)) == s
  {
    ReplaceWithoutPatternHead(s, "\"", "");
    ReplaceWithoutPatternHead(s, "\\n", "\n");
  }

  /** A CR LF pair between plain text cleans to a single LF. */
  lemma CleanContentCrLfBetweenPlain(a: string, b: string)
    requires PlainAround(a, b)
    ensures CleanContent(Some(a + "\r\n" + b), Lf) == a + "\n" + b
  {
    var s := a + "\r\n" + b;
    assert s[0] == a[0];
    CleanContentSteps(s, Lf);
    EscapeStepsIgnoreLineBreaks(s);
    CrLfStepBetweenPlain(a, b);
    var s3 := a + "\n" + b;
    DoubleBreakStepIsIdentityOnLf(s3);
    assert s3[0] == a[0] && s3[|s3| - 1] == b[|b| - 1];
    TrimOfTrimmed(s3);
  }

  /** A CR in front of a CR LF pair, between plain text, cleans to a CR LF pair. */
  lemma CleanContentLoneCrBetweenPlain(a: string, b: string)
    requires PlainAround(a, b)
    ensures CleanContent(Some(a + "\r\r\n" + b), Lf) == a + "\r\n" + b
  {
    var s := a + "\r\r\n" + b;
    assert s[0] == a[0];
    CleanContentSteps(s, Lf);
    EscapeStepsIgnoreLineBreaks(s);
    CrLfStepLeavesLoneCr(a, b);
    var s3 := a + "\r\n" + b;
    DoubleBreakStepIsIdentityOnLf(s3);
    assert s3[0] == a[0] && s3[|s3| - 1] == b[|b| - 1];
    TrimOfTrimmed(s3);
  }

  /** CleanContent is not idempotent: a CR left in front of a CR LF pair forms a
      new pair once that pair has become LF, and a second pass turns it into LF. */
  lemma CleanContentIsNotIdempotent(a: string, b: string)
    requires PlainAround(a, b)
    ensures var once := CleanContent(Some(a + "\r\r\n" + b), Lf);
            CleanContent(Some(once), Lf) != once
  {
    CleanContentLoneCrBetweenPlain(a, b);
    CleanContentCrLfBetweenPlain(a, b);
    var x, y := a + "\r\n" + b, a + "\n" + b;
    assert x[|a|] != y[|a|];
  }
}
