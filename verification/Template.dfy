/** The template renderer of onboarding messages: a tokenizer, a printer and the mention guard. */
module Template {
  import opened Common

  // ----- the variable pattern -----

  predicate Lower(c: char) {
    'a' <= c <= 'z'
  }

  predicate Alphanumeric(c: char) {
    Lower(c) || 'A' <= c <= 'Z' || '0' <= c <= '9'
  }

  /** A name: a lower-case letter, letters and digits, and dot-separated non-empty segments. */
  predicate IsName(name: string) {
    && name != [] && Lower(name[0]) && name[|name| - 1] != '.'
    && (forall i :: 0 <= i < |name| ==> Alphanumeric(name[i]) || name[i] == '.')
    && (forall i :: 0 <= i < |name| - 1 ==> name[i] != '.' || name[i + 1] != '.')
  }

  /** The pattern matches the text from `i` up to and including the closing brace at `j`. */
  predicate IsMatch(s: string, i: nat, j: nat) {
    i < j < |s| && s[i] == '{' && s[j] == '}' && IsName(s[i + 1..j])
  }

  /** The length of the longest run of name characters at the start of the text. */
  function RunLength(s: string): (n: nat)
    ensures n <= |s| && (n < |s| ==> !Alphanumeric(s[n]) && s[n] != '.')
    ensures forall i :: 0 <= i < n ==> Alphanumeric(s[i]) || s[i] == '.'
  {
    if s != [] && (Alphanumeric(s[0]) || s[0] == '.') then 1 + RunLength(s[1..]) else 0
  }

  /** The variable that starts the text, if one does. */
  function VariableAtStart(s: string): (v: Option<string>)
    ensures v.Some? ==> |v.value| + 2 <= |s| && s[0] == '{' && s[|v.value| + 1] == '}' && s[1..|v.value| + 1] == v.value
  {
    if s == [] || s[0] != '{' then None
    else
      var n := RunLength(s[1..]);
      if n + 1 < |s| && s[n + 1] == '}' && IsName(s[1..n + 1]) then Some(s[1..n + 1]) else None
  }

  /** The scan for the closing brace finds a match exactly when there is one, and there is at most one. */
  lemma VariableAtStartIsTheMatch(s: string)
    ensures forall j: nat | IsMatch(s, 0, j) :: VariableAtStart(s) == Some(s[1..j])
    ensures VariableAtStart(s).Some? ==> IsMatch(s, 0, |VariableAtStart(s).value| + 1)
  {
    forall j: nat | IsMatch(s, 0, j)
      ensures VariableAtStart(s) == Some(s[1..j])
    {
      assert forall i | 0 <= i < j - 1 :: s[1..j][i] == s[1..][i];
      assert s[1..][j - 1] == '}';
    }
  }

  // ----- tokens -----

  datatype Token = Text(c: char) | Variable(name: string)

  function Source(t: Token): string {
    if t.Text? then [t.c] else "{" + t.name + "}"
  }

  function Print(tokens: seq<Token>): string {
    if tokens == [] then "" else Source(tokens[0]) + Print(tokens[1..])
  }

  function Tokens(s: string): seq<Token> {
    if s == [] then []
    else
      var v := VariableAtStart(s);
      if v.Some? then [Variable(v.value)] + Tokens(s[|v.value| + 2..]) else [Text(s[0])] + Tokens(s[1..])
  }

  /** The text after the token that starts a non-empty text. */
  function AfterToken(s: string): (rest: string)
    requires s != []
    ensures |rest| < |s|
  {
    var v := VariableAtStart(s);
    if v.Some? then s[|v.value| + 2..] else s[1..]
  }

  function TokenAtStart(s: string): Token
    requires s != []
  {
    var v := VariableAtStart(s);
    if v.Some? then Variable(v.value) else Text(s[0])
  }

  lemma TokensUnfold(s: string)
    requires s != []
    ensures Tokens(s) == [TokenAtStart(s)] + Tokens(AfterToken(s))
    ensures s == Source(TokenAtStart(s)) + AfterToken(s)
  {
    var t := TokenAtStart(s);
    if t.Variable? {
      assert s == "{" + s[1..|t.name| + 1] + "}" + s[|t.name| + 2..];
    }
    hide VariableAtStart;
  }

  /** Splitting a template and printing it back is the identity. */
  lemma {:induction false} PrintAfterTokens(s: string)
    ensures Print(Tokens(s)) == s
  {
    if s != [] {
      TokensUnfold(s);
      PrintAfterTokens(AfterToken(s));
      assert Tokens(s)[1..] == Tokens(AfterToken(s));
    }
  }

  /** Where token `k` starts in the text. */
  function Offset(tokens: seq<Token>, k: nat): nat
    requires k <= |tokens|
  {
    |Print(tokens[..k])|
  }

  lemma OffsetStep(first: Token, rest: seq<Token>, k: nat)
    requires k <= |rest|
    ensures Offset([first] + rest, k + 1) == |Source(first)| + Offset(rest, k)
  {
    assert ([first] + rest)[..k + 1] == [first] + rest[..k];
    assert ([first] + rest[..k])[1..] == rest[..k];
  }

  /** The token is what the pattern makes of the start of the text: its match, or else the first character. */
  ghost predicate TokenIsMatch(t: Token, s: string) {
    && s != []
    && (t.Variable? ==> IsMatch(s, 0, |t.name| + 1) && s[1..|t.name| + 1] == t.name)
    && (t.Text? ==> s[0] == t.c && forall j: nat :: !IsMatch(s, 0, j))
  }

  lemma TokenAtStartIsMatch(s: string)
    requires s != []
    ensures TokenIsMatch(TokenAtStart(s), s)
  {
    VariableAtStartIsTheMatch(s);
    hide IsMatch;
  }

  /** The tokens are the leftmost, non-overlapping matches of the pattern and the characters between them. */
  lemma {:induction false} TokensAreTheMatches(s: string, k: nat)
    requires k < |Tokens(s)|
    ensures Offset(Tokens(s), k) < |s| && TokenIsMatch(Tokens(s)[k], s[Offset(Tokens(s), k)..])
  {
    assert s != [];
    TokensUnfold(s);
    var rest := AfterToken(s);
    if k == 0 {
      TokenAtStartIsMatch(s);
      EmptyOffset(Tokens(s));
      hide *;
      assert s[0..] == s;
    } else {
      TokensAreTheMatches(rest, k - 1);
      hide *;
      TokenFurtherOn(s, Tokens(s), TokenAtStart(s), rest, Tokens(rest), k);
    }
  }

  lemma TokenFurtherOn(s: string, all: seq<Token>, first: Token, rest: string, tokens: seq<Token>, k: nat)
    requires 0 < k <= |tokens| && Offset(tokens, k - 1) < |rest|
             && TokenIsMatch(tokens[k - 1], rest[Offset(tokens, k - 1)..])
    requires s == Source(first) + rest && all == [first] + tokens
    ensures Offset(all, k) < |s| && TokenIsMatch(all[k], s[Offset(all, k)..])
  {
    OffsetStep(first, tokens, k - 1);
    var n := Offset(tokens, k - 1);
    hide *;
    assert all[k] == tokens[k - 1] by { SecondHalfAt(first, tokens, k); }
    DropBoth(Source(first), rest, n);
  }

  lemma SecondHalfAt<T>(first: T, tokens: seq<T>, k: nat)
    requires 0 < k <= |tokens|
    ensures ([first] + tokens)[k] == tokens[k - 1]
  {
  }

  lemma DropBoth<T>(a: seq<T>, b: seq<T>, n: nat)
    requires n <= |b|
    ensures |a + b| == |a| + |b| && (a + b)[|a| + n..] == b[n..]
  {
  }

  lemma EmptyOffset(tokens: seq<Token>)
    ensures Offset(tokens, 0) == 0
  {
    assert tokens[..0] == [];
  }

  // ----- rendering -----

  datatype Policy = Preserve | Empty

  /** The serialized value of a name, None when the lookup gives nothing; any lookup at all. */
  type Lookup = string -> Option<string>

  function Rendered(t: Token, lookup: Lookup, policy: Policy): string {
    if t.Text? then [t.c]
    else if lookup(t.name).Some? then lookup(t.name).value
    else if policy.Empty? then ""
    else Source(t)
  }

  function RenderTokens(tokens: seq<Token>, lookup: Lookup, policy: Policy): string {
    if tokens == [] then ""
       else RenderTokens(tokens[..|tokens| - 1], lookup, policy) + Rendered(tokens[|tokens| - 1], lookup, policy)
  }

  function UnknownNames(tokens: seq<Token>, lookup: Lookup): seq<string> {
    if tokens == [] then []
    else
      var last := tokens[|tokens| - 1];
      UnknownNames(tokens[..|tokens| - 1], lookup) + if last.Variable? && lookup(last.name).None? then [last.name]
        else []
  }

  lemma RenderStep(done: seq<Token>, t: Token, lookup: Lookup, policy: Policy)
    ensures RenderTokens(done + [t], lookup, policy) == RenderTokens(done, lookup, policy) + Rendered(t, lookup, policy)
    ensures UnknownNames(done + [t], lookup) == UnknownNames(done, lookup) + if t.Variable? && lookup(t.name).None?
            then [t.name] else []
  {
    assert (done + [t])[..|done|] == done;
  }

  lemma {:induction false} RenderConcat(a: seq<Token>, b: seq<Token>, lookup: Lookup, policy: Policy)
    ensures RenderTokens(a + b, lookup, policy) == RenderTokens(a, lookup, policy) + RenderTokens(b, lookup, policy)
    ensures UnknownNames(a + b, lookup) == UnknownNames(a, lookup) + UnknownNames(b, lookup)
    decreases |b|
  {
    assert RenderTokens([], lookup, policy) == "" && UnknownNames([], lookup) == [];
    hide *;
    if b == [] {
      PlusNothing(a);
      PlusNothing(RenderTokens(a, lookup, policy));
      PlusNothing(UnknownNames(a, lookup));
    } else {
      var front, last := b[..|b| - 1], b[|b| - 1];
      RenderConcat(a, front, lookup, policy);
      assert b == front + [last];
      RenderOneMore(a, front, b, last, lookup, policy);
    }
  }

  lemma PlusNothing<T>(a: seq<T>)
    ensures a + [] == a
  {
  }

  lemma RenderOneMore(a: seq<Token>, front: seq<Token>, b: seq<Token>, last: Token, lookup: Lookup, policy: Policy)
    requires RenderTokens(a + front, lookup, policy)
             == RenderTokens(a, lookup, policy) + RenderTokens(front, lookup, policy)
    requires UnknownNames(a + front, lookup) == UnknownNames(a, lookup) + UnknownNames(front, lookup)
    requires b == front + [last]
    ensures RenderTokens(a + b, lookup, policy) == RenderTokens(a, lookup, policy) + RenderTokens(b, lookup, policy)
    ensures UnknownNames(a + b, lookup) == UnknownNames(a, lookup) + UnknownNames(b, lookup)
  {
    hide *;
    RenderStep(a + front, last, lookup, policy);
    RenderStep(front, last, lookup, policy);
    Associative(a, front, [last]);
    Associative(RenderTokens(a, lookup, policy), RenderTokens(front, lookup, policy), Rendered(last, lookup, policy));
    Associative(UnknownNames(a, lookup), UnknownNames(front, lookup), if last.Variable? && lookup(last.name).None?
                then [last.name] else []);
  }

  lemma RenderOne(t: Token, lookup: Lookup, policy: Policy)
    ensures RenderTokens([t], lookup, policy) == Rendered(t, lookup, policy)
    ensures UnknownNames([t], lookup) == if t.Variable? && lookup(t.name).None? then [t.name] else []
  {
    assert [t][..0] == [];
  }

  /** An inserted value stands in the output as it is, whatever braces it contains. */
  lemma InsertedVerbatim(s: string, lookup: Lookup, policy: Policy, k: nat)
    requires k < |Tokens(s)| && Tokens(s)[k].Variable? && lookup(Tokens(s)[k].name).Some?
    ensures var tokens := Tokens(s);
            RenderTokens(tokens, lookup, policy)
            == RenderTokens(tokens[..k], lookup, policy) + lookup(tokens[k].name).value
              + RenderTokens(tokens[k + 1..], lookup, policy)
  {
    var tokens := Tokens(s);
    assert tokens == (tokens[..k] + [tokens[k]]) + tokens[k + 1..];
    RenderConcat(tokens[..k] + [tokens[k]], tokens[k + 1..], lookup, policy);
    RenderConcat(tokens[..k], [tokens[k]], lookup, policy);
    RenderOne(tokens[k], lookup, policy);
  }

  lemma {:induction false} PreserveUnknown(tokens: seq<Token>, lookup: Lookup)
    requires forall t :: t in tokens && t.Variable? ==> lookup(t.name).None?
    ensures RenderTokens(tokens, lookup, Preserve) == Print(tokens)
  {
    if tokens != [] {
      PreserveUnknown(tokens[1..], lookup);
      RenderConcat([tokens[0]], tokens[1..], lookup, Preserve);
      RenderOne(tokens[0], lookup, Preserve);
      assert tokens == [tokens[0]] + tokens[1..];
    }
  }

  /** With nothing known and PRESERVE, rendering is the identity. */
  lemma PreserveIsIdentity(s: string, lookup: Lookup)
    requires forall t :: t in Tokens(s) && t.Variable? ==> lookup(t.name).None?
    ensures RenderTokens(Tokens(s), lookup, Preserve) == s
  {
    PreserveUnknown(Tokens(s), lookup);
    PrintAfterTokens(s);
  }

  lemma {:induction false} UnknownExactly(tokens: seq<Token>, lookup: Lookup, name: string)
    ensures name in UnknownNames(tokens, lookup) <==> Variable(name) in tokens && lookup(name).None?
  {
    if tokens != [] {
      UnknownExactly(tokens[..|tokens| - 1], lookup, name);
      assert tokens == tokens[..|tokens| - 1] + [tokens[|tokens| - 1]];
    }
  }

  /** The warnings are the unknown names of the template, each once. */
  lemma WarningsExactly(s: string, lookup: Lookup, name: string)
    ensures name in Distinct(UnknownNames(Tokens(s), lookup)) <==> Variable(name) in Tokens(s) && lookup(name).None?
    ensures NoDuplicates(Distinct(UnknownNames(Tokens(s), lookup)))
  {
    DistinctKeepsExactly(UnknownNames(Tokens(s), lookup));
    UnknownExactly(Tokens(s), lookup, name);
  }

  function Members(names: seq<string>): set<string> {
    set w | w in names
  }

  /** The callback of the replacement: the text for one match, and its warning when the name is new. */
  method ReplaceVariable(name: string, lookup: Lookup, policy: Policy, seen: set<string>, warnings: seq<string>)
    returns (text: string, seen': set<string>, warnings': seq<string>)
    requires seen == Members(warnings)
    ensures text == Rendered(Variable(name), lookup, policy)
    ensures warnings' == if lookup(name).None? && name !in warnings then warnings + [name] else warnings
    ensures seen' == Members(warnings')
  {
    seen', warnings' := seen, warnings;
    var replacement := lookup(name);
    if replacement.Some? {
      return replacement.value, seen, warnings;
    }
    if name !in seen {
      seen' := seen + {name};
      warnings' := warnings + [name];
    }
    text := if policy.Empty? then "" else "{" + name + "}";
  }

  /** One step of the scan, seen from the tokens. */
  lemma ScanStep(done: seq<Token>, rest: string, lookup: Lookup, policy: Policy)
    requires rest != []
    ensures var t := TokenAtStart(rest);
            && done + Tokens(rest) == (done + [t]) + Tokens(AfterToken(rest))
            && RenderTokens(done + [t], lookup, policy)
               == RenderTokens(done, lookup, policy) + Rendered(t, lookup, policy)
            && Distinct(UnknownNames(done + [t], lookup))
               == (var before := Distinct(UnknownNames(done, lookup));
                   if t.Variable? && lookup(t.name).None? && t.name !in before then before + [t.name] else before)
  {
    var t := TokenAtStart(rest);
    var unknown := UnknownNames(done, lookup);
    TokensUnfold(rest);
    RenderStep(done, t, lookup, policy);
    hide Tokens, TokenAtStart, AfterToken, RenderTokens, UnknownNames, Distinct, Rendered;
    Associative(done, [t], Tokens(AfterToken(rest)));
    assert unknown + [] == unknown;
    if t.Variable? {
      DistinctStep(unknown, t.name);
    }
  }

  /** Replace every match from left to right, in one pass. */
  method RenderOnboardingTemplate(template: string, lookup: Lookup, policy: Policy) returns (value: string,
      warnings: seq<string>)
    ensures value == RenderTokens(Tokens(template), lookup, policy)
    ensures warnings == Distinct(UnknownNames(Tokens(template), lookup))
  {
    value, warnings := "", [];
    var seen: set<string> := {};
    var rest := template;
    ghost var done: seq<Token> := [];
    assert Members([]) == {} && Tokens("") == [];
    hide Tokens, VariableAtStart, Distinct, Members;
    while rest != ""
      invariant Tokens(template) == done + Tokens(rest)
      invariant value == RenderTokens(done, lookup, policy)
      invariant warnings == Distinct(UnknownNames(done, lookup)) && seen == Members(warnings)
      decreases |rest|
    {
      hide RenderTokens, UnknownNames;
      ScanStep(done, rest, lookup, policy);
      done := done + [TokenAtStart(rest)];
      var v := VariableAtStart(rest);
      if v.Some? {
        var text;
        text, seen, warnings := ReplaceVariable(v.value, lookup, policy, seen, warnings);
        value := value + text;
        rest := rest[|v.value| + 2..];
      } else {
        value := value + [rest[0]];
        rest := rest[1..];
      }
    }
    assert done + [] == done;
  }

  // ----- mass mentions -----

  const EVERYONE: string := "everyone"
  const HERE: string := "here"
  const ZERO_WIDTH_SPACE: char := '\U{200B}'

  function LowerCase(c: char): char {
    if 'A' <= c <= 'Z' then c - 'A' + 'a' else c
  }

  /** The text starts with the word, in any letter case. */
  predicate StartsWith(s: string, word: string) {
    |word| <= |s| && forall i :: 0 <= i < |word| ==> LowerCase(s[i]) == word[i]
  }

  /** The length of the mass mention that starts the text; 0 when none does. */
  function MentionLength(s: string): nat {
    if s == [] || s[0] != '@' then 0
    else if StartsWith(s[1..], EVERYONE) then 9
    else if StartsWith(s[1..], HERE) then 5
    else 0
  }

  function NeutralizeMassMentions(s: string): string {
    if s == [] then ""
    else
      var n := MentionLength(s);
      if n > 0 then ['@'] + ([ZERO_WIDTH_SPACE] + (s[1..n] + NeutralizeMassMentions(s[n..])))
      else [s[0]] + NeutralizeMassMentions(s[1..])
  }

  ghost predicate NoMention(s: string) {
    forall i :: 0 <= i <= |s| ==> MentionLength(s[i..]) == 0
  }

  predicate PlainWord(word: string) {
    forall i :: 0 <= i < |word| ==> 'a' <= word[i] <= 'z'
  }

  /** A plain word at the start of the neutralized text was there before. */
  lemma {:induction false} WordsComeFromTheText(s: string, word: string)
    requires StartsWith(NeutralizeMassMentions(s), word)
    requires PlainWord(word)
    ensures StartsWith(s, word)
    decreases |word|
  {
    if word != [] {
      var out := NeutralizeMassMentions(s);
      assert LowerCase(out[0]) == word[0] && s != [] && MentionLength(s) == 0;
      assert out[1..] == NeutralizeMassMentions(s[1..]);
      forall i | 0 <= i < |word[1..]|
        ensures LowerCase(out[1..][i]) == word[1..][i]
      {
        assert LowerCase(out[i + 1]) == word[i + 1];
      }
      WordsComeFromTheText(s[1..], word[1..]);
      forall i | 0 <= i < |word|
        ensures LowerCase(s[i]) == word[i]
      {
        if i > 0 {
          assert LowerCase(s[1..][i - 1]) == word[1..][i - 1];
        }
      }
    }
  }

  /** Prepending text without '@' to a text without mentions leaves no mention. */
  lemma {:induction false} PlainPrefix(prefix: string, s: string)
    requires '@' !in prefix && NoMention(s)
    ensures NoMention(prefix + s)
  {
    var t := prefix + s;
    forall i | 0 <= i <= |t|
      ensures MentionLength(t[i..]) == 0
    {
      if i >= |prefix| {
        assert t[i..] == s[i - |prefix|..];
      } else {
        assert t[i..][0] == prefix[i];
      }
    }
  }

  lemma MentionIsLetters(s: string)
    requires MentionLength(s) > 0
    ensures MentionLength(s) <= |s| && '@' !in s[1..MentionLength(s)]
  {
    var n := MentionLength(s);
    forall i | 1 <= i < n
      ensures s[i] != '@'
    {
      assert s[i] == s[1..][i - 1];
    }
  }

  lemma MentionWordsArePlain()
    ensures PlainWord(EVERYONE) && PlainWord(HERE)
  {
    forall i | 0 <= i < |HERE|
      ensures 'a' <= HERE[i] <= 'z'
    {
      assert HERE[i] in ['h', 'e', 'r', 'e'];
    }
    forall i | 0 <= i < |EVERYONE|
      ensures 'a' <= EVERYONE[i] <= 'z'
    {
      assert EVERYONE[i] in ['e', 'v', 'e', 'r', 'y', 'o', 'n', 'e'];
    }
  }

  /** Where the text does not start with a mention, neither does the neutralized text. */
  lemma NoNewMention(s: string)
    requires s != [] && MentionLength(s) == 0
    ensures MentionLength(NeutralizeMassMentions(s)) == 0
  {
    var out := NeutralizeMassMentions(s);
    assert out[0] == s[0] && out[1..] == NeutralizeMassMentions(s[1..]);
    MentionWordsArePlain();
    assert out != [];
    hide NeutralizeMassMentions, StartsWith, PlainWord;
    if s[0] == '@' && StartsWith(out[1..], EVERYONE) {
      WordsComeFromTheText(s[1..], EVERYONE);
    }
    if s[0] == '@' && StartsWith(out[1..], HERE) {
      WordsComeFromTheText(s[1..], HERE);
    }
  }

  /** No mass mention is left, in any letter case. */
  lemma {:induction false} NeutralizedHasNoMention(s: string)
    ensures NoMention(NeutralizeMassMentions(s))
  {
    if s == [] {
      assert NeutralizeMassMentions(s) == "";
    } else if MentionLength(s) > 0 {
      var n := MentionLength(s);
      MentionIsLetters(s);
      NeutralizedHasNoMention(s[n..]);
      var rest := s[1..n] + NeutralizeMassMentions(s[n..]);
      assert NeutralizeMassMentions(s) == ['@'] + ([ZERO_WIDTH_SPACE] + rest);
      hide NoMention, NeutralizeMassMentions, MentionLength;
      PlainPrefix(s[1..n], NeutralizeMassMentions(s[n..]));
      GuardedAt(rest);
    } else {
      NoNewMention(s);
      NeutralizedHasNoMention(s[1..]);
      assert NeutralizeMassMentions(s) == [s[0]] + NeutralizeMassMentions(s[1..]);
      hide *;
      FrontMention(NeutralizeMassMentions(s), NeutralizeMassMentions(s[1..]));
    }
  }

  lemma GuardedAt(rest: string)
    requires NoMention(rest)
    ensures NoMention(['@'] + ([ZERO_WIDTH_SPACE] + rest))
  {
    var guarded := [ZERO_WIDTH_SPACE] + rest;
    assert guarded[0] == ZERO_WIDTH_SPACE && guarded[1..] == rest;
    assert MentionLength(guarded) == 0;
    var out := ['@'] + guarded;
    assert out[1..] == guarded;
    assert !StartsWith(guarded, EVERYONE) && !StartsWith(guarded, HERE) by {
      assert LowerCase(guarded[0]) != EVERYONE[0] && LowerCase(guarded[0]) != HERE[0];
    }
    assert MentionLength(out) == 0;
    hide MentionLength, StartsWith, NoMention;
    FrontMention(guarded, rest);
    FrontMention(out, guarded);
  }

  lemma FrontMention(s: string, tail: string)
    requires s != [] && s[1..] == tail && NoMention(tail) && MentionLength(s) == 0
    ensures NoMention(s)
  {
    forall i | 0 <= i <= |s|
      ensures MentionLength(s[i..]) == 0
    {
      if i == 0 {
        assert s[0..] == s;
      } else {
        assert s[i..] == tail[i - 1..];
      }
    }
  }

  lemma {:induction false} NothingToNeutralize(s: string)
    requires NoMention(s)
    ensures NeutralizeMassMentions(s) == s
  {
    if s != [] {
      assert s[0..] == s;
      forall i | 0 <= i <= |s[1..]|
        ensures MentionLength(s[1..][i..]) == 0
      {
        assert s[1..][i..] == s[i + 1..];
      }
      NothingToNeutralize(s[1..]);
    }
  }

  /** Neutralizing twice is neutralizing once. */
  lemma NeutralizeIsIdempotent(s: string)
    ensures NeutralizeMassMentions(NeutralizeMassMentions(s)) == NeutralizeMassMentions(s)
  {
    NeutralizedHasNoMention(s);
    NothingToNeutralize(NeutralizeMassMentions(s));
  }

  function WithoutZeroWidth(s: string): string {
    if s == [] then "" else (if s[0] == ZERO_WIDTH_SPACE then "" else [s[0]]) + WithoutZeroWidth(s[1..])
  }

  lemma {:induction false} WithoutZeroWidthConcat(a: string, b: string)
    ensures WithoutZeroWidth(a + b) == WithoutZeroWidth(a) + WithoutZeroWidth(b)
  {
    if a == [] {
      assert a + b == b;
    } else {
      WithoutZeroWidthConcat(a[1..], b);
      assert (a + b)[1..] == a[1..] + b;
      var first := if a[0] == ZERO_WIDTH_SPACE then "" else [a[0]];
      Associative(first, WithoutZeroWidth(a[1..]), WithoutZeroWidth(b));
    }
  }

  /** A guarded mention shows the same characters. */
  lemma GuardShowsNothing(word: string, tail: string, neutral: string)
    requires WithoutZeroWidth(neutral) == WithoutZeroWidth(tail)
    ensures WithoutZeroWidth(['@'] + ([ZERO_WIDTH_SPACE] + (word + neutral))) == WithoutZeroWidth(['@'] + (word + tail))
  {
    WithoutZeroWidthConcat(word, neutral);
    WithoutZeroWidthConcat(word, tail);
    WithoutZeroWidthConcat(['@'], [ZERO_WIDTH_SPACE] + (word + neutral));
    WithoutZeroWidthConcat([ZERO_WIDTH_SPACE], word + neutral);
    WithoutZeroWidthConcat(['@'], word + tail);
    assert WithoutZeroWidth([ZERO_WIDTH_SPACE]) == "";
    hide *;
    PlusNothing(WithoutZeroWidth(word + neutral));
    assert "" + WithoutZeroWidth(word + neutral) == WithoutZeroWidth(word + neutral);
  }

  lemma MentionParts(s: string, n: nat)
    requires 0 < n <= |s| && s[0] == '@'
    ensures s == ['@'] + (s[1..n] + s[n..])
  {
  }

  /** Only zero-width spaces are added: what a reader sees is unchanged. */
  lemma {:induction false} NeutralizeAddsOnlyZeroWidth(s: string)
    ensures WithoutZeroWidth(NeutralizeMassMentions(s)) == WithoutZeroWidth(s)
  {
    if s != [] {
      var n := MentionLength(s);
      if n > 0 {
        MentionIsLetters(s);
        NeutralizeAddsOnlyZeroWidth(s[n..]);
        assert NeutralizeMassMentions(s) == ['@'] + ([ZERO_WIDTH_SPACE] + (s[1..n] + NeutralizeMassMentions(s[n..])));
        MentionParts(s, n);
        hide *;
        GuardShowsNothing(s[1..n], s[n..], NeutralizeMassMentions(s[n..]));
      } else {
        NeutralizeAddsOnlyZeroWidth(s[1..]);
        assert NeutralizeMassMentions(s) == [s[0]] + NeutralizeMassMentions(s[1..]);
        assert s == [s[0]] + s[1..];
        hide *;
        WithoutZeroWidthConcat([s[0]], NeutralizeMassMentions(s[1..]));
        WithoutZeroWidthConcat([s[0]], s[1..]);
      }
    }
  }
}
