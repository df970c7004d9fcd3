/** Rendering a whole onboarding message: which of its texts are rendered, and the warnings of all of them. */
module OnboardingMessage {
  import opened Common
  import opened Template

  datatype Mode = TextOnly | EmbedOnly | TextAndEmbed

  datatype Field = Field(name: string, value: string)

  /** The texts of an embed; an empty one stands for an absent one, except in fields. */
  datatype Embed = Embed(author: string, title: string, description: string, footer: string, fields: seq<Field>)

  datatype Message = Message(mode: Mode, content: string, embed: Embed, policy: Policy)

  datatype RenderedEmbed = RenderedEmbed(
    author: Option<string>, title: Option<string>, description: Option<string>, footer: Option<string>,
      fields: seq<Field>)

  datatype RenderedMessage = RenderedMessage(
    content: Option<string>, embed: Option<RenderedEmbed>, warnings: seq<string>)

  predicate IncludesText(mode: Mode) {
    mode.TextOnly? || mode.TextAndEmbed?
  }

  predicate IncludesEmbed(mode: Mode) {
    mode.EmbedOnly? || mode.TextAndEmbed?
  }

  /** A text rendered on its own. */
  function Alone(text: string, lookup: Lookup, policy: Policy): string {
    RenderTokens(Tokens(text), lookup, policy)
  }

  function AloneUnlessEmpty(text: string, lookup: Lookup, policy: Policy): Option<string> {
    if text == "" then None else Some(Alone(text, lookup, policy))
  }

  // ----- the texts that are rendered, in their order -----

  function UnlessEmpty(text: string): seq<string> {
    if text == "" then [] else [text]
  }

  function FieldTexts(fields: seq<Field>): seq<string> {
    if fields == [] then []
    else
      var last := fields[|fields| - 1];
      FieldTexts(fields[..|fields| - 1]) + [last.name] + [last.value]
  }

  function EmbedTexts(e: Embed): seq<string> {
    UnlessEmpty(e.author) + UnlessEmpty(e.title) + UnlessEmpty(e.description) + UnlessEmpty(e.footer)
      + FieldTexts(e.fields)
  }

  function TextsOf(m: Message): seq<string> {
    (if IncludesText(m.mode) then [m.content] else []) + if IncludesEmbed(m.mode) then EmbedTexts(m.embed) else []
  }

  /** The texts that are rendered: those the mode includes, of the embed all but absent ones, of its fields all. */
  ghost predicate IsRendered(m: Message, text: string) {
    || (m.mode != EmbedOnly && text == m.content)
    || (&& m.mode != TextOnly
        && (|| (text != "" && text in [m.embed.author, m.embed.title, m.embed.description, m.embed.footer])
            || exists f :: f in m.embed.fields && (text == f.name || text == f.value)))
  }

  lemma {:induction false} FieldTextsExactly(fields: seq<Field>, text: string)
    ensures text in FieldTexts(fields) <==> exists f :: f in fields && (text == f.name || text == f.value)
  {
    if fields != [] {
      var front, last := fields[..|fields| - 1], fields[|fields| - 1];
      FieldTextsExactly(front, text);
      assert fields == front + [last];
      assert last in fields && forall f :: f in fields <==> f in front || f == last;
      assert FieldTexts(fields) == FieldTexts(front) + [last.name] + [last.value];
    }
  }

  lemma TextsExactly(m: Message, text: string)
    ensures text in TextsOf(m) <==> IsRendered(m, text)
  {
    FieldTextsExactly(m.embed.fields, text);
    hide FieldTexts;
  }

  function JoinedTokens(texts: seq<string>): seq<Token> {
    if texts == [] then [] else JoinedTokens(texts[..|texts| - 1]) + Tokens(texts[|texts| - 1])
  }

  /** The unknown names of the texts, each once. */
  function Warnings(texts: seq<string>, lookup: Lookup): seq<string> {
    Distinct(UnknownNames(JoinedTokens(texts), lookup))
  }

  lemma WarningsJoin(collected: seq<string>, texts: seq<string>, text: string, lookup: Lookup, policy: Policy)
    requires Distinct(collected) == Warnings(texts, lookup)
    ensures Distinct(collected + Distinct(UnknownNames(Tokens(text), lookup))) == Warnings(texts + [text], lookup)
  {
    assert (texts + [text])[..|texts|] == texts;
    hide UnknownNames, Distinct, Tokens;
    var joined := JoinedTokens(texts);
    var found := UnknownNames(Tokens(text), lookup);
    RenderConcat(joined, Tokens(text), lookup, policy);
    DistinctAbsorbs(collected, Distinct(found));
    DistinctAbsorbs(UnknownNames(joined, lookup), found);
    DistinctIdempotent(found);
  }

  /** The warnings of a message are exactly the unknown names that occur in a text it includes. */
  lemma {:induction false} MessageWarningsExactly(texts: seq<string>, lookup: Lookup, name: string)
    ensures name in Warnings(texts, lookup) <==>
            lookup(name).None? && exists t :: t in texts && Variable(name) in Tokens(t)
  {
    DistinctKeepsExactly(UnknownNames(JoinedTokens(texts), lookup));
    UnknownExactly(JoinedTokens(texts), lookup, name);
    TokensOfTexts(texts, Variable(name));
    hide UnknownNames, Distinct, Tokens, JoinedTokens;
  }

  /** A message warns of a name if and only if it is unknown and a text that is rendered uses it as a variable. */
  lemma MessageWarnsExactly(m: Message, lookup: Lookup, name: string)
    ensures name in Warnings(TextsOf(m), lookup) <==>
            lookup(name).None? && exists text: string :: IsRendered(m, text) && Variable(name) in Tokens(text)
  {
    MessageWarningsExactly(TextsOf(m), lookup, name);
    forall text: string
      ensures text in TextsOf(m) <==> IsRendered(m, text)
    {
      TextsExactly(m, text);
    }
    hide Warnings, TextsOf, IsRendered, Tokens;
  }

  lemma {:induction false} TokensOfTexts(texts: seq<string>, token: Token)
    ensures token in JoinedTokens(texts) <==> exists t :: t in texts && token in Tokens(t)
  {
    if texts != [] {
      var front, last := texts[..|texts| - 1], texts[|texts| - 1];
      assert texts == front + [last];
      TokensOfTexts(front, token);
      hide Tokens;
      assert last in texts && forall t :: t in texts <==> t in front || t == last;
      assert token in JoinedTokens(texts) <==> token in JoinedTokens(front) || token in Tokens(last);
      if t :| t in texts && token in Tokens(t) {
        assert t in front || t == last;
      }
    }
  }

  /** Leaving the empty texts out changes no warning. */
  lemma EmptyTextsWarnOfNothing(texts: seq<string>, text: string, lookup: Lookup)
    ensures Warnings(texts + UnlessEmpty(text), lookup) == Warnings(texts + [text], lookup)
  {
    if text == "" {
      assert (texts + [text])[..|texts|] == texts && texts + [] == texts;
      assert JoinedTokens(texts) + [] == JoinedTokens(texts);
      hide Distinct, UnknownNames;
    }
  }

  // ----- rendering -----

  /** Render one text and add its warnings to those collected so far. */
  method Render(text: string, lookup: Lookup, policy: Policy, collected: seq<string>, ghost texts: seq<string>)
    returns (value: string, collected': seq<string>)
    requires Distinct(collected) == Warnings(texts, lookup)
    ensures value == Alone(text, lookup, policy)
    ensures Distinct(collected') == Warnings(texts + [text], lookup)
  {
    var found;
    value, found := RenderOnboardingTemplate(text, lookup, policy);
    WarningsJoin(collected, texts, text, lookup, policy);
    hide *;
    collected' := collected + found;
  }

  method RenderUnlessEmpty(text: string, lookup: Lookup, policy: Policy, collected: seq<string>,
      ghost texts: seq<string>)
    returns (value: Option<string>, collected': seq<string>)
    requires Distinct(collected) == Warnings(texts, lookup)
    ensures value == AloneUnlessEmpty(text, lookup, policy)
    ensures Distinct(collected') == Warnings(texts + UnlessEmpty(text), lookup)
  {
    hide Alone, Warnings, Distinct;
    if text == "" {
      assert texts + [] == texts;
      return None, collected;
    }
    var rendered;
    rendered, collected' := Render(text, lookup, policy, collected, texts);
    value := Some(rendered);
  }

  method RenderFields(fields: seq<Field>, lookup: Lookup, policy: Policy, collected: seq<string>,
      ghost texts: seq<string>)
    returns (values: seq<Field>, collected': seq<string>)
    requires Distinct(collected) == Warnings(texts, lookup)
    ensures |values| == |fields|
    ensures forall i :: 0 <= i < |fields| ==>
              values[i] == Field(Alone(fields[i].name, lookup, policy), Alone(fields[i].value, lookup, policy))
    ensures Distinct(collected') == Warnings(texts + FieldTexts(fields), lookup)
  {
    hide Alone, Warnings, Distinct;
    values, collected' := [], collected;
    assert fields[..0] == [] && texts + FieldTexts([]) == texts;
    for k := 0 to |fields|
      invariant |values| == k
      invariant forall i :: 0 <= i < k ==>
                  values[i] == Field(Alone(fields[i].name, lookup, policy), Alone(fields[i].value, lookup, policy))
      invariant Distinct(collected') == Warnings(texts + FieldTexts(fields[..k]), lookup)
    {
      ghost var before := texts + FieldTexts(fields[..k]);
      var name, value;
      name, collected' := Render(fields[k].name, lookup, policy, collected', before);
      value, collected' := Render(fields[k].value, lookup, policy, collected', before + [fields[k].name]);
      values := values + [Field(name, value)];
      assert fields[..k + 1][..k] == fields[..k];
      assert before + [fields[k].name] + [fields[k].value] == texts + FieldTexts(fields[..k + 1]);
    }
    assert fields[..|fields|] == fields;
  }

  /** What an embed comes out as: every text on its own, the empty ones left out, the fields in their order. */
  ghost predicate EmbedRendered(e: Embed, r: RenderedEmbed, lookup: Lookup, policy: Policy) {
    && r.author == (if e.author == "" then None else Some(Alone(e.author, lookup, policy)))
    && r.title == (if e.title == "" then None else Some(Alone(e.title, lookup, policy)))
    && r.description == (if e.description == "" then None else Some(Alone(e.description, lookup, policy)))
    && r.footer == (if e.footer == "" then None else Some(Alone(e.footer, lookup, policy)))
    && |r.fields| == |e.fields|
    && forall i :: 0 <= i < |e.fields| ==>
         r.fields[i] == Field(Alone(e.fields[i].name, lookup, policy), Alone(e.fields[i].value, lookup, policy))
  }

  method RenderEmbed(e: Embed, lookup: Lookup, policy: Policy, collected: seq<string>, ghost texts: seq<string>)
    returns (rendered: RenderedEmbed, collected': seq<string>)
    requires Distinct(collected) == Warnings(texts, lookup)
    ensures EmbedRendered(e, rendered, lookup, policy)
    ensures Distinct(collected') == Warnings(texts + EmbedTexts(e), lookup)
  {
    hide Alone, Warnings, Distinct, UnlessEmpty, FieldTexts;
    var author, title, description, footer, fields;
    ghost var done := texts;
    author, collected' := RenderUnlessEmpty(e.author, lookup, policy, collected, done);
    done := done + UnlessEmpty(e.author);
    title, collected' := RenderUnlessEmpty(e.title, lookup, policy, collected', done);
    done := done + UnlessEmpty(e.title);
    description, collected' := RenderUnlessEmpty(e.description, lookup, policy, collected', done);
    done := done + UnlessEmpty(e.description);
    footer, collected' := RenderUnlessEmpty(e.footer, lookup, policy, collected', done);
    done := done + UnlessEmpty(e.footer);
    fields, collected' := RenderFields(e.fields, lookup, policy, collected', done);
    assert done + FieldTexts(e.fields) == texts + EmbedTexts(e);
    rendered := RenderedEmbed(author, title, description, footer, fields);
  }

  /**
   Render a message: its mode decides whether the content and the embed are included, each text is rendered
   on its own, and the warnings are the unknown names of all rendered texts, each once in order of occurrence.
   */
  method RenderOnboardingMessage(m: Message, lookup: Lookup) returns (rendered: RenderedMessage)
    ensures rendered.content == if m.mode != EmbedOnly then Some(Alone(m.content, lookup, m.policy)) else None
    ensures rendered.embed.Some? <==> m.mode != TextOnly
    ensures rendered.embed.Some? ==> EmbedRendered(m.embed, rendered.embed.value, lookup, m.policy)
    ensures rendered.warnings == Warnings(TextsOf(m), lookup)
  {
    var collected: seq<string> := [];
    ghost var done: seq<string> := [];
    assert Distinct(collected) == Warnings(done, lookup);
    hide Alone, Warnings, Distinct, EmbedTexts, EmbedRendered;
    var content, embed := None, None;
    if IncludesText(m.mode) {
      var value;
      value, collected := Render(m.content, lookup, m.policy, collected, done);
      content, done := Some(value), done + [m.content];
    }
    if IncludesEmbed(m.mode) {
      var value;
      value, collected := RenderEmbed(m.embed, lookup, m.policy, collected, done);
      embed, done := Some(value), done + EmbedTexts(m.embed);
    }
    assert done == TextsOf(m);
    rendered := RenderedMessage(content, embed, Distinct(collected));
  }
}
