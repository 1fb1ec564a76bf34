/** When the guard fails, toggling one filter changes what another one asks for. */
module BrowseToggleMisread {
  import opened Text
  import opened Wrappers
  import opened BrowseSearch
  import opened BrowseTokens
  import opened BrowseReadState
  import opened BrowsePrinting
  import opened BrowseToggle
  import opened BrowseToggleMeaning

  // What an open brace swallows

  ghost predicate HasSpace(s: string) {
    !NoSpace(s)
  }

  /** A value that no open token can have had: it has white space inside or starts like a field name. */
  ghost predicate Foreign(value: string) {
    Trim(value) != "" && (HasSpace(Trim(value)) || 'a' <= Trim(value)[0] <= 'z')
  }

  lemma {:induction false} TrimEndAfter(a: string, b: string)
    requires TrimEnd(b) != ""
    ensures TrimEnd(a + b) == a + TrimEnd(b)
    decreases |b|
  {
    if IsSpace(b[|b| - 1]) {
      assert (a + b)[..|a + b| - 1] == a + b[..|b| - 1];
      TrimEndAfter(a, b[..|b| - 1]);
    }
  }

  lemma TrimmedEnd(s: string)
    requires Trim(s) != ""
    ensures TrimEnd(s) != ""
  {
    TrimStartTrims(s);
    var t := TrimStart(s);
    TrimEndAfter(s[..|s| - |t|], t);
    assert s == s[..|s| - |t|] + t;
  }

  /** Text without white space in front does not make a value any less foreign. */
  lemma ForeignAfterSpace(x: string, y: string)
    requires NoSpace(x) && Foreign(y)
    ensures Foreign(x + " " + y)
  {
    var s := x + " " + y;
    if x == "" {
      assert s[1..] == y;
    } else {
      TrimmedEnd(y);
      assert s == (x + " ") + y;
      TrimEndAfter(x + " ", y);
      assert TrimStart(s) == s by { assert s[0] == x[0]; }
      assert Trim(s)[|x|] == ' ';
    }
  }

  /** Reading on from an open brace keeps the space and what is read after it. */
  lemma {:induction false} ReadBracedAcross(x: string, rest: string) returns (read: string)
    requires NoSpace(x) && NeverCloses(x) && ReadBraced(rest).Some?
    ensures NoSpace(read) && ReadBraced(x + " " + rest).Some?
    ensures ReadBraced(x + " " + rest).value.value == read + " " + ReadBraced(rest).value.value
    decreases |x|
  {
    var s := x + " " + rest;
    if x == "" {
      read := "";
      assert s[1..] == rest;
    } else if x[0] == '\\' && |x| == 1 {
      read := "";
      assert s[2..] == rest;
    } else if x[0] == '\\' {
      assert s[2..] == x[2..] + " " + rest;
      var tail := ReadBracedAcross(x[2..], rest);
      read := [x[1]] + tail;
    } else {
      assert s[1..] == x[1..] + " " + rest;
      var tail := ReadBracedAcross(x[1..], rest);
      read := [x[0]] + tail;
    }
  }

  lemma {:induction false} ReadBracedPlain(plain: string, rest: string)
    requires forall i :: 0 <= i < |plain| ==> plain[i] != '\\' && plain[i] != '}'
    requires ReadBraced(rest).Some?
    ensures ReadBraced(plain + rest).Some? && ReadBraced(plain + rest).value.value == plain + ReadBraced(rest).value.value
  {
    if plain == "" {
      assert plain + rest == rest;
    } else {
      assert (plain + rest)[1..] == plain[1..] + rest;
      ReadBracedPlain(plain[1..], rest);
    }
  }

  predicate IsBracedToken(token: Token) {
    token.FieldToken? && token == BracedToken(token.field, token.value)
  }

  lemma TrimKeepsFirst(s: string)
    requires s != "" && !IsSpace(s[0])
    ensures Trim(s) != "" && Trim(s)[0] == s[0]
  {
    var last := s[|s| - 1];
    TrimEndTrims(s);
    TrimEndKeepsFirst(s);
  }

  lemma {:induction false} TrimEndKeepsFirst(s: string)
    requires s != "" && !IsSpace(s[0])
    ensures TrimEnd(s) != "" && TrimEnd(s)[0] == s[0]
  {
    if IsSpace(s[|s| - 1]) {
      TrimEndKeepsFirst(s[..|s| - 1]);
    }
  }

  /** A printed braced filter, read from inside an open brace, starts with its field name. */
  lemma BracedTokenIsForeign(token: Token, rest: string)
    requires IsBracedToken(token)
    ensures ReadBraced(token.text + rest).Some? && Foreign(ReadBraced(token.text + rest).value.value)
  {
    var name := FieldName(token.field);
    var body := Escape(token.value) + "}" + rest;
    NamesAreLowerCase(token.field);
    EscapeReadsBack(token.value, rest);
    assert token.text + rest == (name + "={") + body;
    ReadBracedPlain(name + "={", body);
    var read := name + "={" + token.value;
    assert read[0] == name[0];
    TrimKeepsFirst(read);
  }

  /** The tokens that may stand after an open one: printed braced ones, or ones that close nothing. */
  predicate Writable(tokens: seq<Token>) {
    forall i :: 0 <= i < |tokens| ==> NeverCloses(tokens[i].text) || IsBracedToken(tokens[i])
  }

  lemma UnclosedHasNoSpace(language: Language, token: Token)
    requires Standalone(language, token) && NeverCloses(token.text)
    ensures NoSpace(token.text)
  {
    if token.FieldToken? && token.braced {
      BracedTokenCloses(language, token);
    } else {
      UnbracedText(language, token);
    }
  }

  /** Reading through a token without a closing brace, and a space, makes a foreign value no less foreign. */
  lemma SwallowedThrough(language: Language, token: Token, joined: string)
    requires Standalone(language, token) && NeverCloses(token.text)
    requires ReadBraced(joined).Some? && Foreign(ReadBraced(joined).value.value)
    ensures var text := token.text + " " + joined;
            ReadBraced(text).Some? && Foreign(ReadBraced(text).value.value)
  {
    UnclosedHasNoSpace(language, token);
    var read := ReadBracedAcross(token.text, joined);
    ForeignAfterSpace(read, ReadBraced(joined).value.value);
  }

  lemma JoinedFirst(tokens: seq<Token>)
    requires tokens != []
    ensures var joined := Join(Texts(tokens[1..]), " ");
            Join(Texts(tokens), " ") == if tokens[1..] == [] then tokens[0].text + "" else tokens[0].text + " " + joined
  {
    assert Texts(tokens)[1..] == Texts(tokens[1..]);
  }

  /** An open brace that is closed further on swallows a foreign value. */
  lemma {:induction false} SwallowedIsForeign(language: Language, tokens: seq<Token>)
    requires AllStandalone(language, tokens) && Writable(tokens) && !NoneCloses(tokens)
    ensures var text := Join(Texts(tokens), " ");
            ReadBraced(text).Some? && Foreign(ReadBraced(text).value.value)
  {
    hide Standalone, Foreign, ReadBraced, NeverCloses, Join, Texts, IsBracedToken;
    assert tokens != [];
    var token, others := tokens[0], tokens[1..];
    var joined := Join(Texts(others), " ");
    JoinedFirst(tokens);
    if IsBracedToken(token) {
      BracedTokenIsForeign(token, if others == [] then "" else " " + joined);
      assert token.text + " " + joined == token.text + (" " + joined);
    } else {
      SwallowedIsForeign(language, others);
      SwallowedThrough(language, token, joined);
    }
  }

  // The misread token

  /** What is read from an open brace that a later token closes. */
  lemma SwallowedValue(language: Language, token: Token, others: seq<Token>) returns (braced: Braced)
    requires Standalone(language, token) && IsOpen(token)
    requires AllStandalone(language, others) && Writable(others) && !NoneCloses(others)
    ensures ReadBraced(Unclosed(token) + (" " + Join(Texts(others), " "))) == Some(braced) && Foreign(braced.value)
  {
    hide Foreign, ReadBraced, Join, Texts, Standalone;
    var joined := Join(Texts(others), " ");
    SwallowedIsForeign(language, others);
    UnclosedNoSpace(language, token);
    var read := ReadBracedAcross(Unclosed(token), joined);
    ForeignAfterSpace(read, ReadBraced(joined).value.value);
    assert Unclosed(token) + " " + joined == Unclosed(token) + (" " + joined);
    braced := ReadBraced(Unclosed(token) + (" " + joined)).value;
  }

  lemma MisreadFirst(language: Language, token: Token, others: seq<Token>) returns (value: string, more: string)
    requires Standalone(language, token) && IsOpen(token)
    requires AllStandalone(language, others) && Writable(others) && !NoneCloses(others)
    ensures Foreign(value)
    ensures var text := Join(Texts([token] + others), " ");
            var misread := FieldToken(token.field, true, Trim(value), more);
            && 0 < |more| <= |text| && language.Tokenize(text) == [misread] + language.Tokenize(text[|more|..])
  {
    hide Language.First, Language.ReadField, Trim, RunLength, Foreign, ReadBraced, Join, Texts, Separator, IsSpace;
    var rest := " " + Join(Texts(others), " ");
    var text := token.text + rest;
    JoinFirst(token, others);
    var braced := SwallowedValue(language, token, others);
    value := braced.value;
    UnbracedText(language, token);
    var named := UnbracedFirstParts(language, token.text);
    UnbracedFirstIs(language, token.text, named);
    FieldKept(language, token.text, rest);
    var start := named.end + 1;
    assert token.text[start] == '{' && token.text[start + 1..] == Unclosed(token);
    assert text[start] == token.text[start] && text[start + 1..] == Unclosed(token) + rest;
    BracedFirstIs(language, text, named, braced);
    more := language.First(text).text;
  }

  lemma JoinFirst(token: Token, others: seq<Token>)
    requires others != []
    ensures Join(Texts([token] + others), " ") == token.text + (" " + Join(Texts(others), " "))
  {
    assert ([token] + others)[1..] == others;
    assert Texts([token] + others)[1..] == Texts(others);
  }

  lemma UnclosedNoSpace(language: Language, token: Token)
    requires Standalone(language, token) && IsOpen(token)
    ensures NoSpace(Unclosed(token)) && NeverCloses(Unclosed(token))
  {
    hide Language.First, ReadBraced, Separator;
    UnbracedText(language, token);
    var start := Separator(token.text).value + 1;
    assert forall i :: 0 <= i < |Unclosed(token)| ==> Unclosed(token)[i] == token.text[start + 1 + i];
  }

  /** Every open token is followed by writable ones alone. */
  predicate Tame(tokens: seq<Token>) {
    tokens == [] || ((IsOpen(tokens[0]) ==> Writable(tokens[1..])) && Tame(tokens[1..]))
  }

  /** If some open token is closed further on, the first such token is read as a braced one with a foreign value. */
  lemma {:induction false} Misread(language: Language, tokens: seq<Token>)
    returns (k: nat, value: string, more: seq<Token>, text: string)
    requires AllStandalone(language, tokens) && Tame(tokens) && !OpenSafe(tokens)
    ensures k < |tokens| && IsOpen(tokens[k]) && Foreign(value)
    ensures language.Tokenize(Join(Texts(tokens), " "))
         == tokens[..k] + [FieldToken(tokens[k].field, true, Trim(value), text)] + more
  {
    hide Standalone, Language.Tokenize, NeverCloses, Foreign, Join, Trim;
    var token, others := tokens[0], tokens[1..];
    assert tokens == [token] + others;
    if IsOpen(token) && !NoneCloses(others) {
      k := 0;
      value, text := MisreadFirst(language, token, others);
      more := language.Tokenize(Join(Texts(tokens), " ")[|text|..]);
    } else {
      assert others != [] by { assert OpenSafe([]); }
      var k', value', more', text' := Misread(language, others);
      k, value, more, text := k' + 1, value', more', text';
      JoinFirst(token, others);
      var rest := " " + Join(Texts(others), " ");
      if IsOpen(token) {
        OpenBeforeOthers(language, token, others);
      }
      TokenizeFirst(language, token, rest);
      SpaceSkipped(language, Join(Texts(others), " "));
      assert tokens[..k] == [token] + others[..k'];
      assert [token] + (others[..k'] + [FieldToken(tokens[k].field, true, Trim(value), text)] + more)
          == tokens[..k] + [FieldToken(tokens[k].field, true, Trim(value), text)] + more;
    }
  }

  // The token list of a toggled query is tame

  lemma BareIsWritable(field: Field, value: string)
    requires IsBare(value)
    ensures Writable([BareToken(field, value)])
  {
    BareNeverCloses(field, value);
  }

  lemma WritableAppend(a: seq<Token>, b: seq<Token>)
    ensures Writable(a + b) <==> Writable(a) && Writable(b)
  {
    hide NeverCloses, IsBracedToken;
    var both := a + b;
    assert forall i :: 0 <= i < |a| ==> both[i] == a[i];
    assert forall i :: 0 <= i < |b| ==> both[|a| + i] == b[i];
  }

  lemma {:induction false} PrintedEachWritable(field: Field, values: seq<string>)
    ensures Writable(PrintedEach(field, values))
  {
    hide NeverCloses;
    if values != [] {
      PrintedEachWritable(field, values[1..]);
      if IsSimple(values[0]) {
        BareIsWritable(field, values[0]);
      }
      WritableAppend([if IsSimple(values[0]) then BareToken(field, values[0]) else BracedToken(field, values[0])],
                     PrintedEach(field, values[1..]));
    }
  }

  lemma PrintedWritable(field: Field, values: seq<string>)
    ensures Writable(Printed(field, values))
  {
    PrintedEachWritable(field, values);
    if values != [] && AllSimple(values) {
      JoinedIsBare(values);
      BareIsWritable(field, Join(values, "&"));
    }
  }

  lemma {:induction false} ReplacedWritable(tokens: seq<Token>, field: Field, printed: seq<Token>)
    requires NoneCloses(tokens) && Writable(printed)
    ensures Writable(ReplacedTokens(tokens, field, printed))
  {
    hide NeverCloses, IsBracedToken;
    if tokens != [] {
      if OwnToken(tokens[0], field) {
        ReplacedWritable(tokens[1..], field, []);
        WritableAppend(printed, ReplacedTokens(tokens[1..], field, []));
      } else {
        ReplacedWritable(tokens[1..], field, printed);
        WritableAppend([tokens[0]], ReplacedTokens(tokens[1..], field, printed));
      }
    }
  }

  lemma {:induction false} TameAppend(a: seq<Token>, b: seq<Token>)
    requires Tame(a) && Writable(b) && forall i :: 0 <= i < |b| ==> !IsOpen(b[i])
    ensures Tame(a + b)
  {
    hide Writable;
    if a == [] {
      assert a + b == b;
      NoOpenIsTame(b);
    } else {
      assert (a + b)[1..] == a[1..] + b;
      TameAppend(a[1..], b);
      WritableAppend(a[1..], b);
    }
  }

  lemma {:induction false} NoOpenIsTame(tokens: seq<Token>)
    requires forall i :: 0 <= i < |tokens| ==> !IsOpen(tokens[i])
    ensures Tame(tokens)
  {
    if tokens != [] {
      NoOpenIsTame(tokens[1..]);
    }
  }

  lemma {:induction false} TameAfter(a: seq<Token>, b: seq<Token>)
    requires Tame(b) && forall i :: 0 <= i < |a| ==> !IsOpen(a[i])
    ensures Tame(a + b)
  {
    if a == [] {
      assert a + b == b;
    } else {
      assert (a + b)[1..] == a[1..] + b;
      TameAfter(a[1..], b);
    }
  }

  lemma {:induction false} ReplacedTame(tokens: seq<Token>, field: Field, printed: seq<Token>)
    requires OpenSafe(tokens) && OwnTokens(printed, field) && Writable(printed)
    ensures Tame(ReplacedTokens(tokens, field, printed))
  {
    hide NeverCloses, Writable;
    if tokens != [] {
      if OwnToken(tokens[0], field) {
        NothingWritable();
        ReplacedTame(tokens[1..], field, []);
        TameAfter(printed, ReplacedTokens(tokens[1..], field, []));
      } else {
        ReplacedTame(tokens[1..], field, printed);
        var rest := ReplacedTokens(tokens[1..], field, printed);
        assert ([tokens[0]] + rest)[1..] == rest;
        if IsOpen(tokens[0]) {
          ReplacedWritable(tokens[1..], field, printed);
        }
      }
    }
  }

  lemma NothingWritable()
    ensures Writable([])
  {
  }

  lemma NextTokensTame(language: Language, query: string, field: Field, targetValue: string)
    ensures Tame(NextTokens(language, language.Tokenize(query), field, targetValue))
  {
    hide Language.Tokenize, Language.NextValues, Printed, ReplacedTokens, FieldValues, Writable, Tame, OpenSafe;
    var tokens := language.Tokenize(query);
    var next := language.NextValues(FieldValues(tokens, field), targetValue);
    TokensOpenSafe(language, query);
    PrintedAreOwn(field, next);
    PrintedWritable(field, next);
    ReplacedTame(tokens, field, Printed(field, next));
    PrintedAreOwn(field, [targetValue]);
    PrintedWritable(field, [targetValue]);
    var replaced := ReplacedTokens(tokens, field, Printed(field, next));
    TameAppend(replaced, Printed(field, [targetValue]));
    assert replaced + [] == replaced;
  }

  // A misread token means something else

  lemma {:induction false} FoldNoSpace(language: Language, s: string)
    requires language.Valid() && NoSpace(s)
    ensures NoSpace(language.Fold(s))
  {
    if s != "" {
      FoldNoSpace(language, s[1..]);
      assert NoSpace(language.lower(s[0]));
    }
  }

  lemma {:induction false} FoldHasSpace(language: Language, s: string)
    requires language.Valid() && HasSpace(s)
    ensures HasSpace(language.Fold(s))
  {
    var folded := language.Fold(s);
    var rest := language.Fold(s[1..]);
    if IsSpace(s[0]) {
      assert folded[0] == s[0];
    } else {
      var i :| 0 <= i < |s| && IsSpace(s[i]);
      assert s[1..][i - 1] == s[i];
      FoldHasSpace(language, s[1..]);
      var j :| 0 <= j < |rest| && IsSpace(rest[j]);
      assert folded[|language.lower(s[0])| + j] == rest[j];
    }
  }

  lemma FoldKeepsFirst(language: Language, s: string)
    requires language.Valid() && s != "" && Caseless(s[0])
    ensures language.Fold(s) != "" && language.Fold(s)[0] == s[0]
  {
  }

  lemma ForeignNormalizes(language: Language, value: string)
    requires language.Valid() && Foreign(value)
    ensures var n := language.Normalize(value); n != "" && (HasSpace(n) || n[0] != '{')
  {
    hide Language.Fold, Trim;
    var t := Trim(value);
    if HasSpace(t) {
      FoldHasSpace(language, t);
    } else {
      FoldKeepsFirst(language, t);
    }
  }

  lemma ForeignFilter(language: Language, field: Field, value: string, text: string)
    requires language.Valid() && Foreign(value)
    ensures language.Filters([FieldToken(field, true, Trim(value), text)]) == [Filter(field, language.Normalize(value))]
  {
    hide Trim, Language.Fold;
    var token := FieldToken(field, true, Trim(value), text);
    TrimTrims(value);
    ForeignNormalizes(language, value);
    OneTokenFilters(language, token);
    assert TrimmedNonEmpty([Trim(value)]) == [Trim(value)];
  }

  lemma {:induction false} SplitFirstPart(s: string)
    requires s != "" && s[0] != '&'
    ensures Split(s)[0] != "" && Split(s)[0] <= s
  {
    if |s| > 1 && s[1] != '&' {
      SplitFirstPart(s[1..]);
    }
  }

  lemma OpenFilter(language: Language, token: Token)
    requires language.Valid() && IsOpen(token) && NoSpace(token.value)
    ensures var filters := language.Filters([token]);
            && filters != [] && filters[0].field == token.field
            && filters[0].value != "" && NoSpace(filters[0].value) && filters[0].value[0] == '{'
  {
    hide Language.Fold, Trim;
    OneTokenFilters(language, token);
    SplitFirstPart(token.value);
    var part := Split(token.value)[0];
    assert part[0] == '{' && NoSpace(part);
    TrimNoSpace(part);
    FoldNoSpace(language, part);
    FoldKeepsFirst(language, part);
  }

  /** Reading the k-th token differently changes the other filters. */
  lemma MisreadChangesFilters(language: Language, tokens: seq<Token>, field: Field,
                              k: nat, value: string, more: seq<Token>, text: string)
    requires language.Valid() && k < |tokens| && IsOpen(tokens[k]) && !OwnToken(tokens[k], field)
    requires NoSpace(tokens[k].value) && Foreign(value)
    ensures var misread := FieldToken(tokens[k].field, true, Trim(value), text);
            OtherFilters(language.Filters(tokens[..k] + [misread] + more), field)
            != OtherFilters(language.Filters(tokens), field)
  {
    hide Language.Filters, Foreign, Trim, Language.Normalize, OtherFilters;
    var misread := FieldToken(tokens[k].field, true, Trim(value), text);
    var before := OtherFilters(language.Filters(tokens[..k]), field);
    FiltersInMiddle(language, tokens[..k], misread, more, field);
    FiltersInMiddle(language, tokens[..k], tokens[k], tokens[k + 1..], field);
    assert tokens == tokens[..k] + [tokens[k]] + tokens[k + 1..];
    ForeignFilter(language, tokens[k].field, value, text);
    ForeignNormalizes(language, value);
    OpenFilter(language, tokens[k]);
    var read := OtherFilters(language.Filters(tokens[..k] + [misread] + more), field);
    var meant := OtherFilters(language.Filters(tokens), field);
    assert read[|before|] == Filter(tokens[k].field, language.Normalize(value));
    assert meant[|before|] == language.Filters([tokens[k]])[0];
  }

  lemma FiltersInMiddle(language: Language, a: seq<Token>, token: Token, b: seq<Token>, field: Field)
    requires token.FieldToken? && token.field != field
    ensures OtherFilters(language.Filters(a + [token] + b), field)
         == OtherFilters(language.Filters(a), field) + language.Filters([token]) + OtherFilters(language.Filters(b), field)
  {
    hide Language.Filters, OtherFilters;
    MeaningConcat(language, a + [token], b);
    MeaningConcat(language, a, [token]);
    OtherFiltersAppend(language.Filters(a) + language.Filters([token]), language.Filters(b), field);
    OtherFiltersAppend(language.Filters(a), language.Filters([token]), field);
    OneTokenDecides(language, token, field);
  }

  lemma OpenValueNoSpace(language: Language, token: Token)
    requires Standalone(language, token) && IsOpen(token)
    ensures NoSpace(token.value)
  {
    UnclosedNoSpace(language, token);
    assert forall i :: 1 <= i < |token.value| ==> token.value[i] == Unclosed(token)[i - 1];
  }

  lemma OwnAreNotOpen(language: Language, tokens: seq<Token>, field: Field, targetValue: string, k: nat)
    requires k < |NextTokens(language, tokens, field, targetValue)|
    requires IsOpen(NextTokens(language, tokens, field, targetValue)[k])
    ensures !OwnToken(NextTokens(language, tokens, field, targetValue)[k], field)
  {
    hide Printed, FieldValues, Language.NextValues;
    var next := language.NextValues(FieldValues(tokens, field), targetValue);
    PrintedAreOwn(field, next);
    PrintedAreOwn(field, [targetValue]);
    ReplacedOwn(tokens, field, Printed(field, next));
  }

  lemma {:induction false} ReplacedOwn(tokens: seq<Token>, field: Field, printed: seq<Token>)
    requires OwnTokens(printed, field)
    ensures forall token <- ReplacedTokens(tokens, field, printed) :: IsOpen(token) ==> !OwnToken(token, field)
  {
    if tokens != [] {
      ReplacedOwn(tokens[1..], field, if OwnToken(tokens[0], field) then [] else printed);
    }
  }

  /** Without the guard, the toggle changes what another field is filtered by. */
  lemma ToggleMisreads(language: Language, query: string, field: Field, value: string)
    requires language.Valid() && Trim(value) != "" && !CanToggle(language, query, field, value)
    ensures OtherFilters(language.Parse(language.Toggle(query, field, value)).fields, field)
         != OtherFilters(language.Parse(query).fields, field)
  {
    hide Language.Tokenize, Language.Toggle, NextTokens, CanPrint, Trim, Language.NextValues, FieldValues, Standalone, OpenSafe,
      Tame, Language.Filters, OtherFilters, Foreign, Join, Texts, OtherTokens, NoSpace, Language.FreeTerms, Language.ReadStateOf;
    var tokens := language.Tokenize(query);
    var next := NextTokens(language, tokens, field, Trim(value));
    TargetIsClean(language, value);
    ToggledText(language, query, field, value);
    NextTokensStandAlone(language, query, field, Trim(value));
    CanPrintMeans(language, query, field, Trim(value));
    NextTokensTame(language, query, field, Trim(value));
    var k, swallowed, more, text := Misread(language, next);
    OwnAreNotOpen(language, tokens, field, Trim(value), k);
    OpenValueNoSpace(language, next[k]);
    MisreadChangesFilters(language, next, field, k, swallowed, more, text);
    NextTokensOthers(language, tokens, field, Trim(value));
    SameOthersMeanSame(language, next, tokens, field);
  }

  /** Toggling leaves the other fields' filters alone exactly when the guard holds. */
  lemma ToggleKeepsOthersIff(language: Language, query: string, field: Field, value: string)
    requires language.Valid() && Trim(value) != ""
    ensures OtherFilters(language.Parse(language.Toggle(query, field, value)).fields, field)
         == OtherFilters(language.Parse(query).fields, field)
       <==> CanToggle(language, query, field, value)
  {
    hide Language.Parse, Language.Toggle, CanToggle, Trim, OtherFilters, ValueSet, Language.Normalize;
    if CanToggle(language, query, field, value) {
      ToggleChangesOneValue(language, query, field, value);
    } else {
      ToggleMisreads(language, query, field, value);
    }
  }

  /** The guard can fail: `url={a` stays open, so the braces of a printed tag close it. */
  lemma OpenBraceExample(language: Language)
    requires language.Valid()
    ensures !CanToggle(language, "url={a", Tag, "b c")
    ensures OtherFilters(language.Parse(language.Toggle("url={a", Tag, "b c")).fields, Tag)
         != OtherFilters(language.Parse("url={a").fields, Tag)
  {
    hide Language.Parse, Language.Toggle, CanToggle, OtherFilters;
    OpenBraceGuard(language);
    assert Trim("b c") == "b c";
    ToggleMisreads(language, "url={a", Tag, "b c");
  }

  lemma OpenBraceGuard(language: Language)
    requires language.Valid()
    ensures !CanToggle(language, "url={a", Tag, "b c")
  {
    hide Language.Tokenize, Language.Normalize, Language.First;
    var query := "url={a";
    OpenBraceTokens(language);
    var tokens := language.Tokenize(query);
    assert FieldValues(tokens, Tag) == [];
    assert Trim("b c") == "b c";
    NextOfNone(language, "b c");
    assert IsSpace("b c"[1]);
    assert !IsSimple("b c");
    assert ["b c"][0] == "b c";
    assert IsOpen(tokens[0]) && !OwnToken(tokens[0], Tag);
  }

  lemma OpenStandsAlone(language: Language, field: Field, value: string)
    requires language.Valid() && value != "" && value[0] == '{' && NoSpace(value) && NeverCloses(value[1..])
    ensures Standalone(language, BareToken(field, value))
  {
    hide Language.First, Language.ReadField, Language.Fold, Trim, Separator, RunLength, ReadBraced;
    var name := FieldName(field);
    var s := name + "=" + value;
    NamesAreLowerCase(field);
    NameStarts(field, value);
    FieldIsRead(language, field, value);
    assert s[|name| + 2..] == value[1..];
    assert s[..|s|] == s;
    UnbracedFirstIs(language, s, NamedField(field, |name|));
    assert s[|name| + 1..|s|] == value;
    TrimNoSpace(value);
  }

  lemma OpenBraceTokens(language: Language)
    requires language.Valid()
    ensures language.Tokenize("url={a") == [BareToken(Url, "{a")]
  {
    hide Language.First, Language.ReadField, Trim, RunLength, Separator, Standalone;
    var token := BareToken(Url, "{a");
    assert "{a"[1..] == "a";
    NoBraceNeverCloses("a");
    OpenStandsAlone(language, Url, "{a");
    assert Unclosed(token) + "" == "a";
    TokenizeFirst(language, token, "");
    assert token.text + "" == "url={a";
    assert language.Tokenize("") == [];
  }
}
