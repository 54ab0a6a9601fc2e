/** What str.format does to a template with two fields, stated token by token. */
module Templates {
  import opened Prelude
  import opened Schema
  import opened ContextSanitizer

  /** A template is plain characters, doubled braces and the two fields. */
  datatype Token = Plain(c: char) | OpenBrace | CloseBrace | Readme | Tree

  /** Plain characters are not braces. */
  predicate IsToken(token: Token) {
    token.Plain? ==> token.c != '{' && token.c != '}'
  }

  function Written(token: Token): string {
    match token
    case Plain(c) => [c]
    case OpenBrace => "{{"
    case CloseBrace => "}}"
    case Readme => "{readme}"
    case Tree => "{tree}"
  }

  function Printed(token: Token, readme: string, tree: string): string {
    match token
    case Plain(c) => [c]
    case OpenBrace => "{"
    case CloseBrace => "}"
    case Readme => readme
    case Tree => tree
  }

  function AllWritten(tokens: seq<Token>): string {
    if tokens == [] then "" else Written(tokens[0]) + AllWritten(tokens[1..])
  }

  function AllPrinted(tokens: seq<Token>, readme: string, tree: string): string {
    if tokens == [] then "" else Printed(tokens[0], readme, tree) + AllPrinted(tokens[1..], readme, tree)
  }

  ghost predicate AllTokens(tokens: seq<Token>) {
    forall token :: token in tokens ==> IsToken(token)
  }

  lemma FormatToken(token: Token, rest: string, readme: string, tree: string)
    requires IsToken(token)
    ensures Format(Written(token) + rest, readme, tree)
         == Prepend(Printed(token, readme, tree), Format(rest, readme, tree))
  {
    var t := Written(token) + rest;
    match token
    case Plain(c) => assert t[1..] == rest;
    case OpenBrace => assert t[2..] == rest;
    case CloseBrace => assert t[2..] == rest;
    case Readme => assert t[..8] == README_FIELD && t[8..] == rest && t[1] == 'r';
    case Tree => assert t[..6] == TREE_FIELD && t[6..] == rest && t[1] == 't';
  }

  lemma {:induction false} TokensPrint(tokens: seq<Token>, readme: string, tree: string)
    requires AllTokens(tokens)
    ensures Format(AllWritten(tokens), readme, tree) == Text(AllPrinted(tokens, readme, tree))
  {
    if tokens != [] {
      assert tokens[0] in tokens && forall token :: token in tokens[1..] ==> token in tokens;
      TokensPrint(tokens[1..], readme, tree);
      FormatToken(tokens[0], AllWritten(tokens[1..]), readme, tree);
    }
  }

  lemma FirstToken(t: string, readme: string, tree: string) returns (token: Token, rest: string)
    requires t != "" && Format(t, readme, tree).Text?
    ensures IsToken(token) && t == Written(token) + rest && Format(rest, readme, tree).Text?
  {
    if t[0] == '{' {
      if |t| > 1 && t[1] == '{' {
        token, rest := OpenBrace, t[2..];
      } else if StartsWith(t, README_FIELD) {
        token, rest := Readme, t[8..];
        assert t == t[..8] + t[8..];
      } else {
        token, rest := Tree, t[6..];
        assert t == t[..6] + t[6..];
      }
    } else if t[0] == '}' {
      token, rest := CloseBrace, t[2..];
    } else {
      token, rest := Plain(t[0]), t[1..];
    }
  }

  lemma {:induction false} FormatReadsTokens(t: string, readme: string, tree: string) returns (tokens: seq<Token>)
    requires Format(t, readme, tree).Text?
    ensures AllTokens(tokens) && AllWritten(tokens) == t
    decreases |t|
  {
    if t == "" {
      tokens := [];
    } else {
      var token, rest := FirstToken(t, readme, tree);
      var more := FormatReadsTokens(rest, readme, tree);
      tokens := [token] + more;
      assert tokens[1..] == more;
    }
  }

  /**
   A template is formatted, and comes to this text, exactly if it is written in tokens that print the text.
   Anything else in it, such as a single brace or another field, makes formatting raise.
   */
  lemma FormatIff(t: string, readme: string, tree: string, out: string)
    ensures Format(t, readme, tree) == Text(out) <==>
              exists tokens :: AllTokens(tokens) && AllWritten(tokens) == t && AllPrinted(tokens, readme, tree) == out
  {
    if Format(t, readme, tree).Text? {
      var tokens := FormatReadsTokens(t, readme, tree);
      TokensPrint(tokens, readme, tree);
    }
    if tokens :| AllTokens(tokens) && AllWritten(tokens) == t && AllPrinted(tokens, readme, tree) == out {
      TokensPrint(tokens, readme, tree);
    }
  }

  /** The template is made of tokens. */
  ghost predicate IsTemplate(t: string) {
    exists tokens :: AllTokens(tokens) && AllWritten(tokens) == t
  }

  lemma FormatsIff(t: string, readme: string, tree: string)
    ensures Format(t, readme, tree).Text? <==> IsTemplate(t)
  {
    if Format(t, readme, tree).Text? {
      var tokens := FormatReadsTokens(t, readme, tree);
    }
    if tokens :| AllTokens(tokens) && AllWritten(tokens) == t {
      TokensPrint(tokens, readme, tree);
    }
  }

  lemma DraftExistsIff(t: string, readme: string, tree: string, maxChars: int)
    ensures FinalDraft(t, readme, tree, maxChars).Ok? <==> IsTemplate(t)
  {
    FormatsIff(t, readme, tree);
    if IsTemplate(t) {
      var first := Fill(t, readme, tree, []).value;
      FormatsIff(t, CutText(readme, |first.text| - maxChars, README_SLACK, README_FLOOR), tree);
      var second := CutReadme(t, first, maxChars).value;
      FormatsIff(t, second.readme, CutText(tree, |second.text| - maxChars, TREE_SLACK, TREE_FLOOR));
    }
  }

  /**
   Building the prompt raises exactly if the template with the header in it is not made of tokens: the header
   holds a brace that is neither doubled nor part of one of the two fields. README and file list do not matter.
   */
  lemma PromptRaisesIff(ctx: RawContext, maxContextTokens: int)
    ensures PromptFor(ctx, maxContextTokens).Err? <==> !IsTemplate(Template(Header(ctx)))
  {
    DraftExistsIff(Template(Header(ctx)), ReadmeOf(ctx), TreeOf(ctx), maxContextTokens * CHARS_PER_TOKEN);
  }
}
