/** Reading a query back: tokens joined by single spaces are read as the same tokens. */
module BrowseTokens {
  import opened Text
  import opened Wrappers
  import opened BrowseSearch

  // Braces

  /** Scanning the text for a closing brace finds none. */
  predicate NeverCloses(s: string) {
    ReadBraced(s).None?
  }

  lemma {:induction false} BracedPrefix(a: string, b: string)
    requires ReadBraced(a).Some?
    ensures ReadBraced(a + b) == ReadBraced(a)
    decreases |a|
  {
    if a[0] == '\\' {
      assert (a + b)[2..] == a[2..] + b;
      BracedPrefix(a[2..], b);
    } else if a[0] != '}' {
      assert (a + b)[1..] == a[1..] + b;
      BracedPrefix(a[1..], b);
    }
  }

  lemma {:induction false} BracedAlone(s: string)
    requires ReadBraced(s).Some?
    ensures ReadBraced(s[..ReadBraced(s).value.length]) == ReadBraced(s)
    decreases |s|
  {
    var n := ReadBraced(s).value.length;
    if s[0] == '\\' {
      assert s[..n][2..] == s[2..][..n - 2];
      BracedAlone(s[2..]);
    } else if s[0] != '}' {
      assert s[..n][1..] == s[1..][..n - 1];
      BracedAlone(s[1..]);
    }
  }

  /** An ordinary character, escaped or not, ends no brace and starts no escape. */
  lemma {:induction false} ClosingSplits(a: string, c: char, b: string)
    requires c != '\\' && c != '}'
    ensures NeverCloses(a + [c] + b) <==> NeverCloses(a) && NeverCloses(b)
    decreases |a|
  {
    var s := a + [c] + b;
    if a == "" {
      assert s == [c] + b && s[1..] == b;
    } else if a[0] == '\\' {
      if |a| == 1 {
        assert s[2..] == b;
      } else {
        assert s[2..] == a[2..] + [c] + b;
        ClosingSplits(a[2..], c, b);
      }
    } else if a[0] != '}' {
      assert s[1..] == a[1..] + [c] + b;
      ClosingSplits(a[1..], c, b);
    }
  }

  // Runs, separators and trimming

  lemma {:induction false} RunLengthIs(s: string, n: nat)
    requires n <= |s| && NoSpace(s[..n]) && (n < |s| ==> IsSpace(s[n]))
    ensures RunLength(s) == n
  {
    if n > 0 {
      assert !IsSpace(s[..n][0]);
      assert s[..n][1..] == s[1..][..n - 1];
      RunLengthIs(s[1..], n - 1);
    }
  }

  lemma {:induction false} SeparatorKept(a: string, b: string)
    requires Separator(a).Some? || b == "" || IsSpace(b[0])
    ensures Separator(a + b) == Separator(a)
  {
    if a == "" {
      assert a + b == b;
    } else if !IsSpace(a[0]) && a[0] != ':' && a[0] != '=' {
      assert (a + b)[1..] == a[1..] + b;
      SeparatorKept(a[1..], b);
    }
  }

  lemma {:induction false} SeparatorOfPrefix(s: string, n: nat)
    requires Separator(s).Some? && Separator(s).value < n <= |s|
    ensures Separator(s[..n]) == Separator(s)
  {
    if s[0] != ':' && s[0] != '=' {
      assert s[..n][1..] == s[1..][..n - 1];
      SeparatorOfPrefix(s[1..], n - 1);
    }
  }

  lemma {:induction false} SeparatorOfRun(s: string)
    ensures Separator(s[..RunLength(s)]) == Separator(s)
  {
    var n := RunLength(s);
    if n > 0 && s[0] != ':' && s[0] != '=' {
      assert s[..n][1..] == s[1..][..n - 1];
      SeparatorOfRun(s[1..]);
    }
  }

  lemma {:induction false} TrimNoSpace(s: string)
    requires NoSpace(s)
    ensures Trim(s) == s
  {
  }

  // One token

  /** The token is what is read from its own text. */
  ghost predicate Standalone(language: Language, token: Token) {
    token.text != "" && !IsSpace(token.text[0]) && language.First(token.text) == token
  }

  /** An unbraced field token whose value starts with a brace that nothing closed. */
  predicate IsOpen(token: Token) {
    token.FieldToken? && !token.braced && token.value != "" && token.value[0] == '{'
  }

  lemma FieldKept(language: Language, a: string, b: string)
    requires Separator(a).Some? || b == "" || IsSpace(b[0])
    ensures language.ReadField(a + b) == language.ReadField(a)
  {
    SeparatorKept(a, b);
    if Separator(a).Some? {
      assert (a + b)[..Separator(a).value] == a[..Separator(a).value];
    }
  }

  lemma FieldOfPrefix(language: Language, s: string, n: nat)
    requires n <= |s| && Separator(s[..n]) == Separator(s)
    ensures language.ReadField(s[..n]) == language.ReadField(s)
  {
    if Separator(s).Some? {
      assert s[..n][..Separator(s).value] == s[..Separator(s).value];
    }
  }

  /** A braced value is read from any text that reaches its closing brace. */
  lemma BracedValueOfPrefix(s: string, start: nat, n: nat)
    requires Language.ReadBracedValue(s, start).Some?
    requires start + 1 + Language.ReadBracedValue(s, start).value.length <= n <= |s|
    ensures Language.ReadBracedValue(s[..n], start) == Language.ReadBracedValue(s, start)
  {
    var tail := s[start + 1..];
    var length := ReadBraced(tail).value.length;
    BracedAlone(tail);
    BracedPrefix(tail[..length], s[start + 1 + length..n]);
    assert s[..n][start + 1..] == tail[..length] + s[start + 1 + length..n];
  }

  lemma NoBracedValueOfPrefix(s: string, start: nat, n: nat)
    requires Language.ReadBracedValue(s, start).None? && n <= |s|
    ensures Language.ReadBracedValue(s[..n], start).None?
  {
    if start < n && s[start] == '{' {
      assert s[start + 1..] == s[..n][start + 1..] + s[n..];
      if ReadBraced(s[..n][start + 1..]).Some? {
        BracedPrefix(s[..n][start + 1..], s[n..]);
      }
    }
  }

  /** What a text must hold for a braced field token of this length to be read from it. */
  ghost predicate StartsBraced(language: Language, s: string, named: NamedField, braced: Braced) {
    && s != "" && !IsSpace(s[0])
    && language.ReadField(s) == Some(named)
    && Language.ReadBracedValue(s, named.end + 1) == Some(braced)
  }

  lemma BracedFirstIs(language: Language, s: string, named: NamedField, braced: Braced)
    requires StartsBraced(language, s, named, braced)
    ensures named.end + 2 + braced.length <= |s|
    ensures language.First(s) == FieldToken(named.field, true, Trim(braced.value), s[..named.end + 2 + braced.length])
  {
  }

  lemma BracedFirstParts(language: Language, s: string) returns (named: NamedField, braced: Braced)
    requires s != "" && !IsSpace(s[0]) && language.First(s).FieldToken? && language.First(s).braced
    ensures StartsBraced(language, s, named, braced)
  {
    named := language.ReadField(s).value;
    braced := Language.ReadBracedValue(s, named.end + 1).value;
  }

  /** A text that starts with a braced token can be cut anywhere after it. */
  lemma StartsBracedCut(language: Language, s: string, named: NamedField, braced: Braced, n: nat)
    requires StartsBraced(language, s, named, braced)
    requires named.end + 2 + braced.length <= n <= |s|
    ensures StartsBraced(language, s[..n], named, braced)
  {
    SeparatorOfPrefix(s, n);
    FieldOfPrefix(language, s, n);
    BracedValueOfPrefix(s, named.end + 1, n);
  }

  /** A text that starts with a braced token can be continued in any way. */
  lemma StartsBracedExtended(language: Language, s: string, named: NamedField, braced: Braced, rest: string)
    requires StartsBraced(language, s, named, braced)
    ensures StartsBraced(language, s + rest, named, braced)
  {
    var start := named.end + 1;
    FieldKept(language, s, rest);
    BracedPrefix(s[start + 1..], rest);
    assert (s + rest)[start + 1..] == s[start + 1..] + rest;
    assert (s + rest)[start] == s[start];
  }

  lemma BracedFirstStandsAlone(language: Language, s: string)
    requires s != "" && !IsSpace(s[0]) && language.First(s).FieldToken? && language.First(s).braced
    ensures Standalone(language, language.First(s))
  {
    hide Language.First, Language.ReadField, Language.ReadBracedValue, Trim;
    var named, braced := BracedFirstParts(language, s);
    BracedFirstIs(language, s, named, braced);
    var n := named.end + 2 + braced.length;
    StartsBracedCut(language, s, named, braced, n);
    BracedFirstIs(language, s[..n], named, braced);
    assert s[..n][..n] == s[..n];
  }

  lemma UnbracedFirstStandsAlone(language: Language, s: string)
    requires s != "" && !IsSpace(s[0]) && !(language.First(s).FieldToken? && language.First(s).braced)
    ensures Standalone(language, language.First(s))
  {
    var run := RunLength(s);
    SeparatorOfRun(s);
    FieldOfPrefix(language, s, run);
    RunLengthIs(s[..run], run);
    assert s[..run][..run] == s[..run];
    if language.ReadField(s).Some? {
      var start := Separator(s).value + 1;
      Language.SeparatorInRun(s);
      NoBracedValueOfPrefix(s, start, run);
      assert s[..run][start..run] == s[start..run];
    }
  }

  lemma FirstStandsAlone(language: Language, s: string)
    requires s != "" && !IsSpace(s[0])
    ensures Standalone(language, language.First(s))
  {
    if language.First(s).FieldToken? && language.First(s).braced {
      BracedFirstStandsAlone(language, s);
    } else {
      UnbracedFirstStandsAlone(language, s);
    }
  }

  /** What is left of an open token's text after its brace. */
  function Unclosed(token: Token): string
    requires IsOpen(token)
  {
    token.value[1..]
  }

  lemma UnbracedText(language: Language, token: Token)
    requires Standalone(language, token) && !(token.FieldToken? && token.braced)
    ensures NoSpace(token.text) && RunLength(token.text) == |token.text|
    ensures token.FieldToken? ==>
              && Separator(token.text).Some?
              && token.value == token.text[Separator(token.text).value + 1..]
              && (token.value != "" && token.value[0] == '{' ==> NeverCloses(token.value[1..]))
  {
    var text := token.text;
    assert text[..RunLength(text)] == text;
    if token.FieldToken? {
      Language.SeparatorInRun(text);
      var start := Separator(text).value + 1;
      assert NoSpace(text[start..]) by {
        assert forall i :: start <= i < |text| ==> text[i] == text[..|text|][i];
      }
      TrimNoSpace(text[start..]);
      assert text[start..|text|] == text[start..];
      assert token.value != "" ==> token.value[1..] == text[start + 1..];
    }
  }

  lemma BracedFirstExtends(language: Language, token: Token, rest: string)
    requires Standalone(language, token) && token.FieldToken? && token.braced
    ensures language.First(token.text + rest) == token
  {
    hide Language.First, Language.ReadField, Language.ReadBracedValue, Trim;
    var named, braced := BracedFirstParts(language, token.text);
    BracedFirstIs(language, token.text, named, braced);
    StartsBracedExtended(language, token.text, named, braced, rest);
    BracedFirstIs(language, token.text + rest, named, braced);
    assert (token.text + rest)[..|token.text|] == token.text;
  }

  lemma TermFirstIs(language: Language, s: string)
    requires s != "" && !IsSpace(s[0]) && language.ReadField(s).None?
    ensures language.First(s) == TermToken(s[..RunLength(s)])
  {
  }

  lemma UnbracedFirstIs(language: Language, s: string, named: NamedField)
    requires s != "" && !IsSpace(s[0]) && language.ReadField(s) == Some(named)
    requires Language.ReadBracedValue(s, named.end + 1).None?
    ensures named.end < RunLength(s)
    ensures language.First(s) == FieldToken(named.field, false, Trim(s[named.end + 1..RunLength(s)]), s[..RunLength(s)])
  {
    Language.SeparatorInRun(s);
  }

  lemma UnbracedFirstParts(language: Language, s: string) returns (named: NamedField)
    requires s != "" && !IsSpace(s[0]) && language.First(s).FieldToken? && !language.First(s).braced
    ensures language.ReadField(s) == Some(named)
    ensures Language.ReadBracedValue(s, named.end + 1).None?
  {
    named := language.ReadField(s).value;
  }

  /** White space ends an unbraced field token, unless its brace finds a closing one after it. */
  lemma NoBracedValueExtended(text: string, start: nat, rest: string)
    requires start <= |text| && (rest == "" || IsSpace(rest[0]))
    requires start < |text| && text[start] == '{' ==> NeverCloses(text[start + 1..] + rest)
    ensures Language.ReadBracedValue(text + rest, start).None?
  {
    if start < |text| {
      assert (text + rest)[start + 1..] == text[start + 1..] + rest;
    }
  }

  lemma UnbracedFirstExtends(language: Language, token: Token, rest: string)
    requires Standalone(language, token) && !(token.FieldToken? && token.braced) && (rest == "" || IsSpace(rest[0]))
    requires IsOpen(token) ==> NeverCloses(Unclosed(token) + rest)
    ensures language.First(token.text + rest) == token
  {
    hide Language.First, Language.ReadField, Language.ReadBracedValue, Trim, RunLength;
    var text := token.text;
    var s := text + rest;
    FieldKept(language, text, rest);
    UnbracedText(language, token);
    assert s[..|text|] == text;
    RunLengthIs(s, |text|);
    if token.TermToken? {
      UnbracedTermParts(language, text);
      TermFirstIs(language, s);
    } else {
      var named := UnbracedFirstParts(language, text);
      UnbracedFirstIs(language, text, named);
      var start := named.end + 1;
      assert text[start..|text|] == text[start..] == s[start..|text|];
      assert start < |text| ==> token.value[1..] == text[start + 1..];
      NoBracedValueExtended(text, start, rest);
      UnbracedFirstIs(language, s, named);
    }
  }

  lemma UnbracedTermParts(language: Language, s: string)
    requires s != "" && !IsSpace(s[0]) && language.First(s).TermToken?
    ensures language.ReadField(s).None?
  {
  }

  /** A token is read the same way before white space, unless its open brace finds a closing one there. */
  lemma FirstExtends(language: Language, token: Token, rest: string)
    requires Standalone(language, token) && (rest == "" || IsSpace(rest[0]))
    requires IsOpen(token) ==> NeverCloses(Unclosed(token) + rest)
    ensures language.First(token.text + rest) == token
  {
    if token.FieldToken? && token.braced {
      BracedFirstExtends(language, token, rest);
    } else {
      UnbracedFirstExtends(language, token, rest);
    }
  }

  // Token lists

  ghost predicate AllStandalone(language: Language, tokens: seq<Token>) {
    forall i :: 0 <= i < |tokens| ==> Standalone(language, tokens[i])
  }

  predicate NoneCloses(tokens: seq<Token>) {
    forall i :: 0 <= i < |tokens| ==> NeverCloses(tokens[i].text)
  }

  /** No open token has a closing brace somewhere after it. */
  predicate OpenSafe(tokens: seq<Token>) {
    tokens == [] || ((IsOpen(tokens[0]) ==> NoneCloses(tokens[1..])) && OpenSafe(tokens[1..]))
  }

  lemma {:induction false} NoneClosesJoined(tokens: seq<Token>)
    requires NoneCloses(tokens)
    ensures NeverCloses(Join(Texts(tokens), " "))
  {
    if |tokens| == 1 {
      assert Texts(tokens) == [tokens[0].text];
    } else if tokens != [] {
      NoneClosesJoined(tokens[1..]);
      assert Texts(tokens)[1..] == Texts(tokens[1..]);
      ClosingSplits(tokens[0].text, ' ', Join(Texts(tokens[1..]), " "));
    }
  }

  lemma SpaceSkipped(language: Language, s: string)
    ensures language.Tokenize(" " + s) == language.Tokenize(s)
  {
    assert (" " + s)[1..] == s;
  }

  /** Reading a token that stands alone, and then the rest. */
  lemma TokenizeFirst(language: Language, token: Token, rest: string)
    requires Standalone(language, token) && (rest == "" || IsSpace(rest[0]))
    requires IsOpen(token) ==> NeverCloses(Unclosed(token) + rest)
    ensures language.Tokenize(token.text + rest) == [token] + language.Tokenize(rest)
  {
    var s := token.text + rest;
    FirstExtends(language, token, rest);
    assert s[0] == token.text[0];
    assert s[|token.text|..] == rest;
  }

  lemma OpenBeforeOthers(language: Language, token: Token, others: seq<Token>)
    requires Standalone(language, token) && IsOpen(token) && NoneCloses(others)
    ensures NeverCloses(Unclosed(token))
    ensures NeverCloses(Unclosed(token) + (" " + Join(Texts(others), " ")))
  {
    UnbracedText(language, token);
    NoneClosesJoined(others);
    ClosingSplits(Unclosed(token), ' ', Join(Texts(others), " "));
    assert Unclosed(token) + " " + Join(Texts(others), " ") == Unclosed(token) + (" " + Join(Texts(others), " "));
  }

  lemma LastTokenReadBack(language: Language, token: Token)
    requires Standalone(language, token) && (IsOpen(token) ==> NeverCloses(Unclosed(token)))
    ensures language.Tokenize(token.text) == [token]
  {
    hide Language.First, ReadBraced;
    assert token.text + "" == token.text;
    assert IsOpen(token) ==> Unclosed(token) + "" == Unclosed(token);
    TokenizeFirst(language, token, "");
    assert language.Tokenize("") == [];
  }

  lemma NextTokenReadBack(language: Language, token: Token, joined: string)
    requires Standalone(language, token)
    requires IsOpen(token) ==> NeverCloses(Unclosed(token) + (" " + joined))
    ensures language.Tokenize(token.text + " " + joined) == [token] + language.Tokenize(joined)
  {
    hide Language.First, ReadBraced, Language.Tokenize;
    var rest := " " + joined;
    assert token.text + " " + joined == token.text + rest;
    TokenizeFirst(language, token, rest);
    SpaceSkipped(language, joined);
  }

  /** Joining tokens that stand alone and reading the result back gives the tokens again. */
  lemma {:induction false} JoinedTokensReadBack(language: Language, tokens: seq<Token>)
    requires AllStandalone(language, tokens) && OpenSafe(tokens)
    ensures language.Tokenize(Join(Texts(tokens), " ")) == tokens
  {
    hide Standalone, NoneCloses, NeverCloses, IsOpen, Language.Tokenize;
    if tokens == [] {
      NothingToRead(language);
    } else {
      var token, others := tokens[0], tokens[1..];
      assert Standalone(language, token);
      assert tokens == [token] + others;
      assert Texts(tokens)[1..] == Texts(others);
      if IsOpen(token) {
        OpenBeforeOthers(language, token, others);
      }
      if others == [] {
        LastTokenReadBack(language, token);
      } else {
        NextTokenReadBack(language, token, Join(Texts(others), " "));
        JoinedTokensReadBack(language, others);
      }
    }
  }

  lemma NothingToRead(language: Language)
    ensures language.Tokenize("") == []
  {
  }

  // Tokens of a query

  lemma {:induction false} TokensStandAlone(language: Language, s: string)
    ensures AllStandalone(language, language.Tokenize(s))
    decreases |s|
  {
    var rest := TrimStart(s);
    TrimStartTrims(s);
    if rest != "" {
      var token := language.First(rest);
      FirstStandsAlone(language, rest);
      TokensStandAlone(language, rest[|token.text|..]);
    }
  }

  /** What follows an unbraced token is nothing or white space. */
  lemma AfterUnbraced(language: Language, s: string)
    requires s != "" && !IsSpace(s[0])
    ensures var token := language.First(s);
            !(token.FieldToken? && token.braced) ==> |token.text| == RunLength(s)
  {
  }

  lemma BracedTokenCloses(language: Language, token: Token)
    requires Standalone(language, token) && token.FieldToken? && token.braced
    ensures !NeverCloses(token.text)
  {
    var text := token.text;
    var start := Separator(text).value + 1;
    ClosingSplits(text[..start], '{', text[start + 1..]);
    assert text == text[..start] + ['{'] + text[start + 1..];
  }

  lemma {:induction false} TrimStartNeverCloses(s: string)
    requires NeverCloses(s)
    ensures NeverCloses(TrimStart(s))
  {
    if s != "" && IsSpace(s[0]) {
      ClosingSplits("", s[0], s[1..]);
      assert "" + [s[0]] + s[1..] == s;
      TrimStartNeverCloses(s[1..]);
    }
  }

  /** A text cut before an ordinary character closes no brace on either side if the whole does not. */
  lemma UnclosedCut(text: string, after: string)
    requires NeverCloses(text + after) && (after == "" || IsSpace(after[0]))
    ensures NeverCloses(text) && NeverCloses(after)
  {
    if after == "" {
      assert text + after == text;
    } else {
      hide ReadBraced;
      assert text + [after[0]] + after[1..] == text + after;
      ClosingSplits(text, after[0], after[1..]);
      ClosingSplits("", after[0], after[1..]);
      assert "" + [after[0]] + after[1..] == after;
    }
  }

  /** The first token of a text that closes no brace is unbraced, and neither part closes one. */
  lemma UnclosedTextSplits(language: Language, s: string)
    requires s != "" && !IsSpace(s[0]) && NeverCloses(s)
    ensures var text := language.First(s).text;
            NeverCloses(text) && NeverCloses(s[|text|..])
  {
    hide Language.First, ReadBraced, NeverCloses;
    var token := language.First(s);
    var text := token.text;
    var after := s[|text|..];
    assert s == text + after;
    FirstStandsAlone(language, s);
    if token.FieldToken? && token.braced {
      BracedTokenCloses(language, token);
      ClosedStaysClosed(text, after);
    } else {
      AfterUnbraced(language, s);
      assert after != "" ==> after[0] == s[|text|];
      UnclosedCut(text, after);
    }
  }

  lemma ClosedStaysClosed(text: string, after: string)
    requires !NeverCloses(text)
    ensures !NeverCloses(text + after)
  {
    BracedPrefix(text, after);
  }

  lemma {:induction false} TokensOfUnclosedText(language: Language, s: string)
    requires NeverCloses(s)
    ensures NoneCloses(language.Tokenize(s))
    decreases |s|
  {
    var rest := TrimStart(s);
    TrimStartTrims(s);
    TrimStartNeverCloses(s);
    if rest != "" {
      UnclosedTextSplits(language, rest);
      TokensOfUnclosedText(language, rest[|language.First(rest).text|..]);
    }
  }

  /** Nothing that is read after an open token closes it. */
  lemma AfterOpenToken(language: Language, s: string)
    requires s != "" && !IsSpace(s[0]) && IsOpen(language.First(s))
    ensures NoneCloses(language.Tokenize(s[|language.First(s).text|..]))
  {
    hide Language.First, Language.Tokenize, ReadBraced, NeverCloses, NoneCloses;
    var token := language.First(s);
    var after := s[|token.text|..];
    OpenTokenNotClosed(language, s);
    AfterUnbraced(language, s);
    assert after != "" ==> after[0] == s[|token.text|];
    UnclosedCut(Unclosed(token), after);
    TokensOfUnclosedText(language, after);
  }

  /** In a query as it stands, nothing after an open token closes it. */
  lemma {:induction false} TokensOpenSafe(language: Language, s: string)
    ensures OpenSafe(language.Tokenize(s))
    decreases |s|
  {
    hide Language.First, NoneCloses, IsOpen;
    var rest := TrimStart(s);
    TrimStartTrims(s);
    if rest != "" {
      var token := language.First(rest);
      var after := rest[|token.text|..];
      TokensOpenSafe(language, after);
      if IsOpen(token) {
        AfterOpenToken(language, rest);
      }
      assert language.Tokenize(s)[1..] == language.Tokenize(after);
    }
  }

  lemma OpenTokenNotClosed(language: Language, s: string)
    requires s != "" && !IsSpace(s[0]) && IsOpen(language.First(s))
    ensures var token := language.First(s);
            NeverCloses(Unclosed(token) + s[|token.text|..])
  {
    var token := language.First(s);
    var run := RunLength(s);
    Language.SeparatorInRun(s);
    var start := Separator(s).value + 1;
    assert NoSpace(s[start..run]) by {
      assert forall i :: start <= i < run ==> s[i] == s[..run][i];
    }
    TrimNoSpace(s[start..run]);
    assert s[start + 1..] == s[start..run][1..] + s[run..];
  }
}
