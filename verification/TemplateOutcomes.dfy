/** Rendering token by token, the grammar of variable names, and where the mention guard writes. */
module TemplateOutcomes {
  import opened Common
  import opened Template

  // ----- one token -----

  /** What stands in the output for one token: its value, itself, or nothing. */
  predicate StandsFor(out: string, t: Token, lookup: Lookup, policy: Policy) {
    match t
    case Text(c) => out == [c]
    case Variable(name) =>
      match lookup(name)
      case Some(value) => out == value
      case None => if policy == Preserve then out == "{" + name + "}" else out == ""
  }

  lemma RenderedStands(t: Token, lookup: Lookup, policy: Policy)
    ensures StandsFor(Rendered(t, lookup, policy), t, lookup, policy)
  {
  }

  /** Every token of a template is replaced in its place, independently of all others. */
  lemma EachTokenInPlace(tokens: seq<Token>, lookup: Lookup, policy: Policy, k: nat) returns (out: string)
    requires k < |tokens|
    ensures StandsFor(out, tokens[k], lookup, policy)
    ensures RenderTokens(tokens, lookup, policy)
            == RenderTokens(tokens[..k], lookup, policy) + out + RenderTokens(tokens[k + 1..], lookup, policy)
  {
    out := Rendered(tokens[k], lookup, policy);
    hide RenderTokens, UnknownNames;
    assert tokens == (tokens[..k] + [tokens[k]]) + tokens[k + 1..];
    hide *;
    RenderedStands(tokens[k], lookup, policy);
    RenderConcat(tokens[..k] + [tokens[k]], tokens[k + 1..], lookup, policy);
    RenderConcat(tokens[..k], [tokens[k]], lookup, policy);
    RenderOne(tokens[k], lookup, policy);
  }

  // ----- the grammar of names -----

  /** By code: the small letters of ASCII. */
  predicate IsSmallLetter(c: char) {
    97 <= c as int <= 122
  }

  predicate IsLetterOrDigit(c: char) {
    IsSmallLetter(c) || 65 <= c as int <= 90 || 48 <= c as int <= 57
  }

  /** A non-empty run of letters and digits. */
  predicate IsSegment(segment: string) {
    segment != "" && forall i :: 0 <= i < |segment| ==> IsLetterOrDigit(segment[i])
  }

  function JoinedByDots(segments: seq<string>): string {
    if segments == [] then ""
    else if |segments| == 1 then segments[0]
    else segments[0] + "." + JoinedByDots(segments[1..])
  }

  /** Segments joined by dots, the first of which starts with a lower-case letter. */
  ghost predicate NameOf(name: string, segments: seq<string>) {
    && segments != [] && name == JoinedByDots(segments) && (forall x :: x in segments ==> IsSegment(x))
    && segments[0] != "" && IsSmallLetter(segments[0][0])
  }

  lemma LettersMean(c: char)
    ensures IsLetterOrDigit(c) <==> Alphanumeric(c)
    ensures IsSmallLetter(c) <==> Lower(c)
  {
  }

  /** Letters, digits and single dots, with a letter or digit at both ends. */
  predicate Dotted(text: string) {
    && text != "" && text[0] != '.' && text[|text| - 1] != '.'
    && (forall i :: 0 <= i < |text| ==> IsLetterOrDigit(text[i]) || text[i] == '.')
    && (forall i :: 0 <= i < |text| - 1 ==> text[i] != '.' || text[i + 1] != '.')
  }

  lemma NamesAreDotted(name: string)
    ensures IsName(name) <==> Dotted(name) && IsSmallLetter(name[0])
  {
    forall i | 0 <= i < |name|
      ensures IsLetterOrDigit(name[i]) <==> Alphanumeric(name[i])
    {
      LettersMean(name[i]);
    }
    if name != "" {
      LettersMean(name[0]);
    }
    hide IsLetterOrDigit, IsSmallLetter, Alphanumeric, Lower;
  }

  lemma DotIsNoLetter()
    ensures !IsLetterOrDigit('.')
  {
    LettersMean('.');
  }

  lemma {:induction false} JoinedAreDotted(segments: seq<string>)
    requires segments != [] && forall x :: x in segments ==> IsSegment(x)
    ensures Dotted(JoinedByDots(segments)) && JoinedByDots(segments)[0] == segments[0][0]
  {
    DotIsNoLetter();
    hide IsLetterOrDigit;
    var first := segments[0];
    assert first in segments;
    if |segments| > 1 {
      JoinedAreDotted(segments[1..]);
      var rest := JoinedByDots(segments[1..]);
      hide JoinedByDots;
      assert JoinedByDots(segments) == first + "." + rest by { JoinStep(segments); }
      PrependIsDotted(first, rest);
    }
  }

  lemma JoinStep(segments: seq<string>)
    requires |segments| > 1
    ensures JoinedByDots(segments) == segments[0] + "." + JoinedByDots(segments[1..])
  {
  }

  lemma PrependIsDotted(first: string, rest: string)
    requires IsSegment(first) && Dotted(rest)
    ensures Dotted(first + "." + rest) && (first + "." + rest)[0] == first[0]
  {
    DotIsNoLetter();
    hide IsLetterOrDigit;
    var text := first + "." + rest;
    forall i | 0 <= i < |text|
      ensures i < |first| ==> text[i] == first[i]
      ensures i == |first| ==> text[i] == '.'
      ensures i > |first| ==> text[i] == rest[i - |first| - 1]
    {
    }
  }

  lemma {:induction false} DottedSplits(text: string) returns (segments: seq<string>)
    requires Dotted(text)
    ensures segments != [] && text == JoinedByDots(segments) && forall x :: x in segments ==> IsSegment(x)
    ensures segments[0] != "" && segments[0][0] == text[0]
    decreases |text|
  {
    hide IsLetterOrDigit, JoinedByDots;
    if '.' !in text {
      segments := [text];
      assert JoinedByDots([text]) == text by { JoinOne(text); }
    } else {
      var k := FirstDot(text);
      var rest := text[k + 1..];
      assert Dotted(rest);
      var tail := DottedSplits(rest);
      segments := [text[..k]] + tail;
      assert segments[1..] == tail;
      JoinStep(segments);
      assert text == text[..k] + "." + rest;
    }
  }

  lemma JoinOne(text: string)
    ensures JoinedByDots([text]) == text
  {
  }

  lemma {:induction false} FirstDot(text: string) returns (k: nat)
    requires '.' in text
    ensures k < |text| && text[k] == '.' && '.' !in text[..k]
  {
    if text[0] == '.' {
      k := 0;
    } else {
      k := FirstDot(text[1..]);
      k := k + 1;
      assert text[..k] == [text[0]] + text[1..][..k - 1];
    }
  }

  /** A name is a lower-case letter, letters and digits, and then any number of non-empty segments after dots. */
  lemma NamesAreSegments(name: string)
    ensures IsName(name) <==> exists segments: seq<string> :: NameOf(name, segments)
  {
    NamesAreDotted(name);
    hide IsName, Dotted, JoinedByDots, IsSegment, IsSmallLetter;
    if IsName(name) {
      var segments := DottedSplits(name);
      assert NameOf(name, segments);
    }
    if segments: seq<string> :| NameOf(name, segments) {
      JoinedAreDotted(segments);
    }
  }

  // ----- mass mentions -----

  /** The character is this small letter or its capital. */
  predicate ReadsAs(c: char, letter: char) {
    c == letter || c as int + 32 == letter as int
  }

  predicate Spells(s: string, from: nat, word: string) {
    from + |word| <= |s| && forall i :: 0 <= i < |word| ==> ReadsAs(s[from + i], word[i])
  }

  /** At this place the text mentions everyone, in any letter case. */
  predicate MentionsAt(s: string, i: nat) {
    i < |s| && s[i] == '@' && (Spells(s, i + 1, "everyone") || Spells(s, i + 1, "here"))
  }

  lemma WordsSpell(s: string, word: string)
    requires PlainWord(word)
    ensures s != "" ==> (StartsWith(s[1..], word) <==> Spells(s, 1, word))
  {
    if s != "" {
      forall i | 0 <= i < |word| && |word| <= |s| - 1
        ensures LowerCase(s[1..][i]) == word[i] <==> ReadsAs(s[1 + i], word[i])
      {
        CapitalsMean(s[1 + i], word[i]);
      }
      hide LowerCase, ReadsAs;
    }
  }

  lemma CapitalsMean(c: char, letter: char)
    requires 'a' <= letter <= 'z'
    ensures LowerCase(c) == letter <==> ReadsAs(c, letter)
  {
  }

  lemma MentionsMean(s: string)
    ensures MentionLength(s) > 0 <==> MentionsAt(s, 0)
    ensures MentionsAt(s, 0) ==> MentionLength(s) == if Spells(s, 1, "everyone") then 9 else 5
  {
    MentionWordsArePlain();
    WordsSpell(s, EVERYONE);
    WordsSpell(s, HERE);
    hide Spells, StartsWith;
  }

  lemma MentionsMeanAt(s: string, i: nat)
    requires i < |s|
    ensures MentionLength(s[i..]) > 0 <==> MentionsAt(s, i)
  {
    MentionsMean(s[i..]);
    SpellsFrom(s, i, "everyone");
    SpellsFrom(s, i, "here");
    hide Spells, MentionLength;
  }

  lemma SpellsFrom(s: string, i: nat, word: string)
    requires i < |s|
    ensures Spells(s[i..], 1, word) <==> Spells(s, i + 1, word)
  {
    forall k | 0 <= k < |word| && i + 1 + |word| <= |s|
      ensures ReadsAs(s[i..][1 + k], word[k]) <==> ReadsAs(s[i + 1 + k], word[k])
    {
      assert s[i..][1 + k] == s[i + 1 + k];
    }
    hide ReadsAs;
  }

  /** No place of the guarded text mentions everyone. */
  lemma NoMentionIsLeft(s: string, i: nat)
    ensures !MentionsAt(NeutralizeMassMentions(s), i)
  {
    NeutralizedHasNoMention(s);
    if i < |NeutralizeMassMentions(s)| {
      MentionsMeanAt(NeutralizeMassMentions(s), i);
    }
    hide NeutralizeMassMentions, MentionLength;
  }

  /** How many places of the text mention everyone. */
  function Mentions(s: string): nat {
    if s == "" then 0 else (if MentionsAt(s, 0) then 1 else 0) + Mentions(s[1..])
  }

  lemma {:induction false} NoSignNoMention(a: string, b: string)
    requires '@' !in a
    ensures Mentions(a + b) == Mentions(b)
  {
    if a != "" {
      NoSignNoMention(a[1..], b);
      assert (a + b)[1..] == a[1..] + b && (a + b)[0] == a[0];
    } else {
      assert a + b == b;
    }
    hide Spells;
  }

  lemma GuardedMention(s: string)
    requires MentionLength(s) > 0
    ensures var n, out := MentionLength(s), NeutralizeMassMentions(s);
            && n <= |s| && |out| == 2 + (n - 1) + |NeutralizeMassMentions(s[n..])|
            && out[..2] == ['@', ZERO_WIDTH_SPACE] && out[2..] == s[1..n] + NeutralizeMassMentions(s[n..])
  {
    MentionIsLetters(s);
    var n := MentionLength(s);
    var rest := s[1..n] + NeutralizeMassMentions(s[n..]);
    assert NeutralizeMassMentions(s) == ['@'] + ([ZERO_WIDTH_SPACE] + rest);
    hide *;
  }

  lemma MentionsStep(s: string)
    requires s != ""
    ensures Mentions(s) == (if MentionLength(s) > 0 then 1 else 0) + Mentions(s[1..])
  {
    MentionsMean(s);
    hide MentionsAt, MentionLength;
  }

  /** The guard writes one character for each mention, right after its sign, and nothing anywhere else. */
  lemma {:induction false} GuardsEachMention(s: string)
    ensures |NeutralizeMassMentions(s)| == |s| + Mentions(s)
    ensures Mentions(s) == 0 ==> NeutralizeMassMentions(s) == s
    ensures MentionsAt(s, 0) ==>
              NeutralizeMassMentions(s)[..2] == ['@', ZERO_WIDTH_SPACE]
              && NeutralizeMassMentions(s)[2..]
                 == s[1..MentionLength(s)] + NeutralizeMassMentions(s[MentionLength(s)..])
  {
    if s != "" {
      var n := MentionLength(s);
      MentionsMean(s);
      MentionsStep(s);
      if n > 0 {
        MentionIsLetters(s);
        GuardedMention(s);
        GuardsEachMention(s[n..]);
        hide *;
        NoSignNoMention(s[1..n], s[n..]);
        assert s[1..] == s[1..n] + s[n..];
      } else {
        GuardsEachMention(s[1..]);
        assert NeutralizeMassMentions(s) == [s[0]] + NeutralizeMassMentions(s[1..]);
        hide *;
        assert s == [s[0]] + s[1..];
      }
    }
  }
}
