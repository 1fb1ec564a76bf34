/** The tokenizer, the parser and the toggle as they run: loops over an index and growing lists. */
module BrowseSearchLoops {
  import opened Text
  import opened Wrappers
  import opened BrowseSearch
  import opened BrowseTokens
  import opened BrowsePrinting

  datatype SearchToken =
    | FieldAt(start: nat, end: nat, field: Field, braced: bool, value: string)
    | TermAt(start: nat, end: nat, value: string)

  datatype BracedValue = BracedValue(end: nat, value: string)

  predicate Within(token: SearchToken, query: string) {
    token.start <= token.end <= |query|
  }

  predicate AllWithin(tokens: seq<SearchToken>, query: string) {
    forall i :: 0 <= i < |tokens| ==> Within(tokens[i], query)
  }

  /** A token with the text that its positions stand for. */
  function TokenOf(token: SearchToken, query: string): Token
    requires Within(token, query)
  {
    match token
    case FieldAt(start, end, field, braced, value) => FieldToken(field, braced, value, query[start..end])
    case TermAt(start, end, _) => TermToken(query[start..end])
  }

  function TokensOf(tokens: seq<SearchToken>, query: string): (r: seq<Token>)
    requires AllWithin(tokens, query)
    ensures |r| == |tokens|
  {
    if tokens == [] then [] else [TokenOf(tokens[0], query)] + TokensOf(tokens[1..], query)
  }

  lemma {:induction false} TokensOfAppend(tokens: seq<SearchToken>, token: SearchToken, query: string)
    requires AllWithin(tokens, query) && Within(token, query)
    ensures AllWithin(tokens + [token], query)
    ensures TokensOf(tokens + [token], query) == TokensOf(tokens, query) + [TokenOf(token, query)]
  {
    if tokens != [] {
      assert (tokens + [token])[1..] == tokens[1..] + [token];
      TokensOfAppend(tokens[1..], token, query);
    }
  }

  lemma {:induction false} TokenAt(tokens: seq<SearchToken>, query: string, i: nat)
    requires AllWithin(tokens, query) && i < |tokens|
    ensures TokensOf(tokens, query)[i] == TokenOf(tokens[i], query)
  {
    if i > 0 {
      TokenAt(tokens[1..], query, i - 1);
    }
  }

  // Scanning

  method ReadUntilWhitespace(value: string, start: nat) returns (end: nat)
    requires start <= |value|
    ensures end == start + RunLength(value[start..])
  {
    end := start;
    while end < |value| && !IsSpace(value[end])
      invariant start <= end <= |value|
      invariant end + RunLength(value[end..]) == start + RunLength(value[start..])
    {
      assert value[end..][1..] == value[end + 1..];
      end := end + 1;
    }
  }

  function Shifted(steps: nat, separator: Option<nat>): Option<nat> {
    if separator.None? then None else Some(steps + separator.value)
  }

  lemma SeparatorStep(query: string, i: nat)
    requires i < |query| && !IsSpace(query[i])
    ensures Separator(query[i..])
         == if query[i] == ':' || query[i] == '=' then Some(0) else Shifted(1, Separator(query[i + 1..]))
  {
    assert query[i..][1..] == query[i + 1..];
  }

  lemma SeparatorStops(query: string, i: nat)
    requires i <= |query| && (i < |query| ==> IsSpace(query[i]))
    ensures Separator(query[i..]) == None
  {
  }

  method FindSearchFieldSeparator(query: string, start: nat) returns (separator: int)
    requires start <= |query|
    ensures separator == -1 || start <= separator < |query|
    ensures Separator(query[start..]) == if separator == -1 then None else Some(separator - start)
  {
    hide Separator, IsSpace;
    var index := start;
    while index < |query| && !IsSpace(query[index])
      invariant start <= index <= |query|
      invariant Separator(query[start..]) == Shifted(index - start, Separator(query[index..]))
    {
      SeparatorStep(query, index);
      var c := query[index];
      if c == ':' || c == '=' {
        return index;
      }
      index := index + 1;
    }
    SeparatorStops(query, index);
    return -1;
  }

  method ReadSearchField(language: Language, query: string, start: nat) returns (field: Option<NamedField>)
    requires start <= |query|
    ensures field.Some? ==> start <= field.value.end < |query|
    ensures language.ReadField(query[start..])
         == if field.None? then None else Some(NamedField(field.value.field, field.value.end - start))
  {
    var separator := FindSearchFieldSeparator(query, start);
    if separator == -1 {
      return None;
    }
    assert query[start..][..separator - start] == query[start..separator];
    var name := FieldNamed(language.Fold(query[start..separator]));
    field := if name.None? then None else Some(NamedField(name.value, separator));
  }

  /** What has been read so far, continued by what reading on gives. */
  function Continued(value: string, read: nat, rest: Option<Braced>): Option<Braced> {
    if rest.None? then None else Some(Braced(value + rest.value.value, read + rest.value.length))
  }

  lemma ContinuedFromStart(rest: Option<Braced>)
    ensures Continued("", 0, rest) == rest
  {
    if rest.Some? {
      assert "" + rest.value.value == rest.value.value;
    }
  }

  lemma ReadBracedStep(query: string, i: nat, value: string, read: nat)
    requires i < |query|
    ensures Continued(value, read, ReadBraced(query[i..]))
         == if query[i] == '\\' then
              (if i + 1 == |query| then None
               else Continued(value + [query[i + 1]], read + 2, ReadBraced(query[i + 2..])))
            else if query[i] == '}' then Some(Braced(value, read + 1))
            else Continued(value + [query[i]], read + 1, ReadBraced(query[i + 1..]))
  {
    var tail := query[i..];
    assert tail[1..] == query[i + 1..];
    if query[i] == '\\' {
      if i + 1 < |query| {
        assert tail[2..] == query[i + 2..];
        ContinuedAppend(value, query[i + 1], read, 2, ReadBraced(query[i + 2..]));
      }
    } else if query[i] == '}' {
      assert value + "" == value;
    } else {
      ContinuedAppend(value, query[i], read, 1, ReadBraced(query[i + 1..]));
    }
  }

  lemma ContinuedAppend(value: string, c: char, read: nat, more: nat, rest: Option<Braced>)
    ensures Continued(value + [c], read + more, rest) == Continued(value, read, Continued([c], more, rest))
  {
    if rest.Some? {
      assert value + [c] + rest.value.value == value + ([c] + rest.value.value);
    }
  }

  method ReadBracedSearchFieldValue(query: string, start: nat) returns (braced: Option<BracedValue>)
    requires start <= |query|
    ensures braced.Some? ==> start < braced.value.end <= |query|
    ensures ReadBraced(query[start..])
         == if braced.None? then None else Some(Braced(braced.value.value, braced.value.end - start))
  {
    hide ReadBraced, Continued;
    var index := start;
    var value := "";
    ContinuedFromStart(ReadBraced(query[start..]));
    while index < |query|
      invariant start <= index <= |query|
      invariant ReadBraced(query[start..]) == Continued(value, index - start, ReadBraced(query[index..]))
    {
      ReadBracedStep(query, index, value, index - start);
      var c := query[index];
      if c == '\\' {
        if index + 1 == |query| {
          value := value + [c];
          index := index + 1;
          NothingToRead(query, value, index - start);
        } else {
          value := value + [query[index + 1]];
          index := index + 2;
        }
      } else if c == '}' {
        return Some(BracedValue(index + 1, value));
      } else {
        value := value + [c];
        index := index + 1;
      }
    }
    NothingToRead(query, value, index - start);
    return None;
  }

  lemma NothingToRead(query: string, value: string, read: nat)
    ensures Continued(value, read, ReadBraced(query[|query|..])) == None
  {
  }

  lemma SliceOfTail(query: string, index: nat, from: nat, to: nat)
    requires index <= from <= to <= |query|
    ensures query[index..][from - index..to - index] == query[from..to]
    ensures query[index..][from - index..] == query[from..]
  {
  }

  /** The token at a position that is not white space, and where it ends. */
  method ReadToken(language: Language, query: string, index: nat) returns (token: SearchToken)
    requires index < |query| && !IsSpace(query[index])
    ensures Within(token, query) && token.start == index && token.end > index
    ensures TokenOf(token, query) == language.First(query[index..])
    ensures token.TermAt? ==> token.value == query[index..token.end]
  {
    hide Language.Fold, FieldNamed, Trim, ReadBraced, RunLength, Separator, Language.ReadField, Language.First, IsSpace;
    ghost var tail := query[index..];
    var field := ReadSearchField(language, query, index);
    if field.Some? {
      token := ReadFieldToken(language, query, index, field.value);
    } else {
      var end := ReadUntilWhitespace(query, index);
      token := TermAt(index, end, query[index..end]);
      RunNotEmpty(tail);
      SliceOfTail(query, index, index, end);
      TermFirstIs(language, tail);
    }
  }

  method ReadFieldToken(language: Language, query: string, index: nat, field: NamedField) returns (token: SearchToken)
    requires index < |query| && !IsSpace(query[index])
    requires index <= field.end && language.ReadField(query[index..]) == Some(NamedField(field.field, field.end - index))
    ensures token.FieldAt? && Within(token, query) && token.start == index && token.end > index
    ensures TokenOf(token, query) == language.First(query[index..])
  {
    hide Language.Fold, FieldNamed, Trim, ReadBraced, RunLength, Language.First, IsSpace;
    ghost var tail := query[index..];
    ghost var named := NamedField(field.field, field.end - index);
    var valueStart := field.end + 1;
    assert valueStart <= |query|;
    var bracedValue: Option<BracedValue> := None;
    if valueStart < |query| && query[valueStart] == '{' {
      bracedValue := ReadBracedSearchFieldValue(query, valueStart + 1);
      SliceOfTail(query, index, valueStart + 1, |query|);
    }
    if bracedValue.Some? {
      token := FieldAt(index, bracedValue.value.end, field.field, true, Trim(bracedValue.value.value));
      BracedFirstIs(language, tail, named, Braced(bracedValue.value.value, bracedValue.value.end - valueStart - 1));
      SliceOfTail(query, index, index, token.end);
    } else {
      var valueEnd := ReadUntilWhitespace(query, valueStart);
      Language.SeparatorInRun(tail);
      RunFrom(query, index, valueStart);
      token := FieldAt(index, valueEnd, field.field, false, Trim(query[valueStart..valueEnd]));
      UnbracedFirstIs(language, tail, named);
      SliceOfTail(query, index, index, valueEnd);
      SliceOfTail(query, index, valueStart, valueEnd);
    }
  }

  lemma RunNotEmpty(s: string)
    requires s != "" && !IsSpace(s[0])
    ensures RunLength(s) > 0
  {
  }

  /** A run read from a position inside it ends where the whole run ends. */
  lemma RunFrom(query: string, index: nat, from: nat)
    requires index <= from <= |query| && from <= index + RunLength(query[index..])
    ensures from + RunLength(query[from..]) == index + RunLength(query[index..])
  {
    var run := RunLength(query[index..]);
    var rest := query[from..];
    var n := index + run - from;
    assert forall i :: 0 <= i < n ==> rest[i] == query[index..][..run][from - index + i];
    RunLengthIs(rest, n);
  }

  method TokenizeBrowseSearch(language: Language, query: string) returns (tokens: seq<SearchToken>)
    ensures AllWithin(tokens, query)
    ensures TokensOf(tokens, query) == language.Tokenize(query)
    ensures forall token <- tokens :: token.TermAt? ==> token.value == query[token.start..token.end]
  {
    hide Language.First, Language.Tokenize, TokensOf, IsSpace;
    tokens := [];
    NoTokens(language, query);
    assert query[0..] == query;
    var index := 0;
    while index < |query|
      invariant index <= |query| && AllWithin(tokens, query)
      invariant TokensOf(tokens, query) + language.Tokenize(query[index..]) == language.Tokenize(query)
      invariant forall token <- tokens :: token.TermAt? ==> token.value == query[token.start..token.end]
    {
      index := SkipWhitespace(language, query, index);
      if index >= |query| {
        break;
      }
      var token := ReadToken(language, query, index);
      FirstRead(language, query, index);
      TokensOfAppend(tokens, token, query);
      tokens := tokens + [token];
      index := token.end;
    }
    assert query[index..] == "";
  }

  lemma NoTokens(language: Language, query: string)
    ensures TokensOf([], query) == [] == language.Tokenize("")
  {
  }

  lemma FirstRead(language: Language, query: string, index: nat)
    requires index < |query| && !IsSpace(query[index])
    ensures var token := language.First(query[index..]);
            && index + |token.text| <= |query|
            && language.Tokenize(query[index..]) == [token] + language.Tokenize(query[index + |token.text|..])
  {
    hide Language.First;
    var token := language.First(query[index..]);
    assert query[index..][|token.text|..] == query[index + |token.text|..];
    assert TrimStart(query[index..]) == query[index..];
  }

  lemma SpaceAt(language: Language, query: string, index: nat)
    requires index < |query| && IsSpace(query[index])
    ensures language.Tokenize(query[index..]) == language.Tokenize(query[index + 1..])
  {
    hide Language.First, IsSpace;
    assert query[index..][1..] == query[index + 1..];
    assert TrimStart(query[index..]) == TrimStart(query[index + 1..]);
  }

  method SkipWhitespace(language: Language, query: string, start: nat) returns (index: nat)
    requires start <= |query|
    ensures start <= index <= |query| && (index < |query| ==> !IsSpace(query[index]))
    ensures language.Tokenize(query[index..]) == language.Tokenize(query[start..])
  {
    hide Language.Tokenize, IsSpace;
    index := start;
    while index < |query| && IsSpace(query[index])
      invariant start <= index <= |query|
      invariant language.Tokenize(query[index..]) == language.Tokenize(query[start..])
    {
      SpaceAt(language, query, index);
      index := index + 1;
    }
  }

  // Parsing

  /** Normalised values of one field, empty ones included. */
  function NormalizedValues(language: Language, field: Field, values: seq<string>): seq<Filter> {
    if values == [] then []
    else [Filter(field, language.Normalize(values[0]))] + NormalizedValues(language, field, values[1..])
  }

  function NonEmptyFilters(filters: seq<Filter>): seq<Filter> {
    if filters == [] then [] else (if filters[0].value == "" then [] else [filters[0]]) + NonEmptyFilters(filters[1..])
  }

  lemma {:induction false} NonEmptyAppend(a: seq<Filter>, b: seq<Filter>)
    ensures NonEmptyFilters(a + b) == NonEmptyFilters(a) + NonEmptyFilters(b)
  {
    if a == [] {
      assert a + b == b;
    } else {
      assert (a + b)[1..] == a[1..] + b;
      NonEmptyAppend(a[1..], b);
    }
  }

  lemma {:induction false} NonEmptyNormalized(language: Language, field: Field, values: seq<string>)
    ensures NonEmptyFilters(NormalizedValues(language, field, values)) == language.NormalizedFilters(field, values)
  {
    hide Language.Normalize;
    if values != [] {
      NonEmptyNormalized(language, field, values[1..]);
      var first := Filter(field, language.Normalize(values[0]));
      NonEmptyAppend([first], NormalizedValues(language, field, values[1..]));
    }
  }

  lemma NextMeaning(language: Language, tokens: seq<Token>, i: nat)
    requires i < |tokens|
    ensures language.Filters(tokens[i..])
         == (if tokens[i].FieldToken? then language.NormalizedFilters(tokens[i].field, TokenValues(tokens[i])) else [])
            + language.Filters(tokens[i + 1..])
    ensures language.FreeTerms(tokens[i..])
         == (var term := if tokens[i].TermToken? then language.Normalize(tokens[i].text) else "";
             if term == "" || language.IsReadStateTerm(tokens[i]) then [] else [term])
            + language.FreeTerms(tokens[i + 1..])
  {
    hide TokenValues, Language.Normalize, Language.IsReadStateTerm, Language.NormalizedFilters;
    assert tokens[i..][1..] == tokens[i + 1..];
  }

  ghost predicate ReadSoFar(language: Language, tokens: seq<Token>, i: nat, read: bool, unread: bool)
    requires i <= |tokens|
  {
    && (read <==> exists j :: 0 <= j < i && language.IsReadTerm(tokens[j]))
    && (unread <==> exists j :: 0 <= j < i && language.IsUnreadTerm(tokens[j]))
  }

  lemma ReadOn(language: Language, tokens: seq<Token>, i: nat, read: bool, unread: bool)
    requires i < |tokens| && ReadSoFar(language, tokens, i, read, unread)
    ensures ReadSoFar(language, tokens, i + 1,
                      read || language.IsReadTerm(tokens[i]), unread || language.IsUnreadTerm(tokens[i]))
  {
    hide Language.IsReadTerm, Language.IsUnreadTerm;
  }

  lemma ReadStateRead(language: Language, tokens: seq<Token>, read: bool, unread: bool)
    requires ReadSoFar(language, tokens, |tokens|, read, unread)
    ensures language.ReadStateOf(tokens) == if read && unread then Both else if read then Read else if unread then Unread else All
  {
    hide Language.IsReadTerm, Language.IsUnreadTerm;
  }

  lemma NothingRead(language: Language, tokens: seq<Token>)
    ensures ReadSoFar(language, tokens, 0, false, false)
  {
  }

  method ParseBrowseSearch(language: Language, query: string) returns (search: Search)
    ensures search == language.Parse(query)
  {
    hide TokenValues, Language.Normalize, Language.NormalizedFilters, TokensOf, Language.Tokenize, Language.Filters,
      Language.FreeTerms, Language.IsReadTerm, Language.IsUnreadTerm, Language.ReadStateOf, ReadSoFar, NonEmptyFilters;
    var fields: seq<Filter>, freeTerms: seq<string>, read, unread := [], [], false, false;
    var tokens := TokenizeBrowseSearch(language, query);
    ghost var meant := language.Tokenize(query);
    var i := 0;
    assert meant[0..] == meant;
    NothingRead(language, meant);
    NothingMeant(language);
    while i < |tokens|
      invariant i <= |tokens| && |meant| == |tokens|
      invariant NonEmptyFilters(fields) + language.Filters(meant[i..]) == language.Filters(meant)
      invariant freeTerms + language.FreeTerms(meant[i..]) == language.FreeTerms(meant)
      invariant ReadSoFar(language, meant, i, read, unread)
    {
      var token := tokens[i];
      TokenAt(tokens, query, i);
      NextMeaning(language, meant, i);
      NextReadState(language, meant[i]);
      ReadOn(language, meant, i, read, unread);
      if token.FieldAt? {
        var values := TokenValues(TokenOf(token, query));
        NonEmptyAppend(fields, NormalizedValues(language, token.field, values));
        NonEmptyNormalized(language, token.field, values);
        fields := fields + NormalizedValues(language, token.field, values);
      } else {
        var normalized := language.Normalize(token.value);
        if normalized == "" {
        } else if normalized == "read" {
          read := true;
        } else if normalized == "unread" {
          unread := true;
        } else {
          freeTerms := freeTerms + [normalized];
        }
      }
      i := i + 1;
    }
    assert meant[i..] == [];
    ReadStateRead(language, meant, read, unread);
    search := Search(NonEmptyFilters(fields), freeTerms,
                     if read && unread then Both else if read then Read else if unread then Unread else All);
  }

  lemma NothingMeant(language: Language)
    ensures language.Filters([]) == [] && language.FreeTerms([]) == [] && NonEmptyFilters([]) == []
  {
  }

  lemma NextReadState(language: Language, token: Token)
    ensures language.IsReadTerm(token) <==> token.TermToken? && language.Normalize(token.text) == "read"
    ensures language.IsUnreadTerm(token) <==> token.TermToken? && language.Normalize(token.text) == "unread"
  {
  }

  // Toggling

  lemma {:induction false} JoinedParts(parts: seq<string>)
    requires forall i :: 0 <= i < |parts| ==> Trim(parts[i]) != ""
    ensures NonBlank(parts) == parts
  {
    if parts != [] {
      JoinedParts(parts[1..]);
    }
  }

  /** The parts that are not blank. */
  function NonBlank(parts: seq<string>): seq<string> {
    if parts == [] then [] else (if Trim(parts[0]) == "" then [] else [parts[0]]) + NonBlank(parts[1..])
  }

  lemma NextReplaced(language: Language, tokens: seq<Token>, i: nat, field: Field, printed: seq<string>)
    requires i < |tokens|
    ensures language.Replaced(tokens[i..], field, printed)
         == if OwnToken(tokens[i], field) then printed + language.Replaced(tokens[i + 1..], field, [])
            else [tokens[i].text] + language.Replaced(tokens[i + 1..], field, printed)
  {
    assert tokens[i..][1..] == tokens[i + 1..];
  }

  lemma NextFieldValues(tokens: seq<Token>, i: nat, field: Field)
    requires i < |tokens|
    ensures FieldValues(tokens[i..], field)
         == (if OwnToken(tokens[i], field) then TokenValues(tokens[i]) else []) + FieldValues(tokens[i + 1..], field)
  {
    hide TokenValues;
    assert tokens[i..][1..] == tokens[i + 1..];
  }

  method ExistingValues(query: string, tokens: seq<SearchToken>, field: Field) returns (values: seq<string>)
    requires AllWithin(tokens, query)
    ensures values == FieldValues(TokensOf(tokens, query), field)
  {
    hide TokenValues, TokensOf, FieldValues;
    values := [];
    ghost var meant := TokensOf(tokens, query);
    assert meant[0..] == meant;
    for i := 0 to |tokens|
      invariant values + FieldValues(meant[i..], field) == FieldValues(meant, field)
    {
      TokenAt(tokens, query, i);
      NextFieldValues(meant, i, field);
      if tokens[i].FieldAt? && tokens[i].field == field {
        values := values + TokenValues(TokenOf(tokens[i], query));
      }
    }
    NoFieldValues(field);
    assert meant[|tokens|..] == [];
  }

  lemma NoFieldValues(field: Field)
    ensures FieldValues([], field) == []
  {
  }

  method ReplaceTokens(language: Language, query: string, tokens: seq<SearchToken>, field: Field, printed: seq<string>)
    returns (parts: seq<string>)
    requires AllWithin(tokens, query) && AllStandalone(language, TokensOf(tokens, query))
    ensures parts == language.Replaced(TokensOf(tokens, query), field, printed)
  {
    hide TokensOf, Standalone, Trim, Language.Replaced;
    var inserted := false;
    parts := [];
    ghost var meant := TokensOf(tokens, query);
    assert meant[0..] == meant;
    for i := 0 to |tokens|
      invariant parts + language.Replaced(meant[i..], field, if inserted then [] else printed)
             == language.Replaced(meant, field, printed)
    {
      var token := tokens[i];
      TokenAt(tokens, query, i);
      NextReplaced(language, meant, i, field, if inserted then [] else printed);
      if token.TermAt? || token.field != field {
        TextIsTrimmed(language, meant[i]);
        parts := parts + [Trim(query[token.start..token.end])];
      } else if !inserted {
        parts := parts + printed;
        inserted := true;
      }
    }
    assert meant[|tokens|..] == [];
    NothingReplaced(language, field, if inserted then [] else printed);
  }

  lemma NothingReplaced(language: Language, field: Field, printed: seq<string>)
    ensures language.Replaced([], field, printed) == []
  {
  }

  /** A token's text has no white space at either end. */
  lemma TextIsTrimmed(language: Language, token: Token)
    requires Standalone(language, token)
    ensures Trim(token.text) == token.text
  {
    hide ReadBraced;
    var text := token.text;
    assert TrimStart(text) == text;
    if token.FieldToken? && token.braced {
      BracedTextEnd(language, token);
    } else {
      UnbracedText(language, token);
      assert !IsSpace(text[..RunLength(text)][|text| - 1]);
    }
  }

  lemma BracedTextEnd(language: Language, token: Token)
    requires Standalone(language, token) && token.FieldToken? && token.braced
    ensures token.text[|token.text| - 1] == '}'
  {
    hide Language.First, Language.ReadField, Trim;
    var named, braced := BracedFirstParts(language, token.text);
    BracedFirstIs(language, token.text, named, braced);
    var start := named.end + 1;
    ReadBracedEnd(token.text[start + 1..]);
  }

  lemma {:induction false} ReadBracedEnd(s: string)
    requires ReadBraced(s).Some?
    ensures s[ReadBraced(s).value.length - 1] == '}'
    decreases |s|
  {
    if s[0] == '\\' {
      ReadBracedEnd(s[2..]);
    } else if s[0] != '}' {
      ReadBracedEnd(s[1..]);
    }
  }

  method ToggleBrowseSearchFieldFilter(language: Language, query: string, field: Field, value: string)
    returns (toggled: string)
    ensures toggled == language.Toggle(query, field, value)
  {
    hide Trim, FieldValues, TokensOf, Language.Tokenize, Language.Normalize, FormatTokens, Join, Language.Replaced, Standalone,
      NonBlank;
    var targetValue := Trim(value);
    if targetValue == "" {
      return query;
    }
    var tokens := TokenizeBrowseSearch(language, query);
    TokensStandAlone(language, query);
    var existing := ExistingValues(query, tokens, field);
    var printed := FormatTokens(field, language.NextValues(existing, targetValue));
    var parts := ReplaceTokens(language, query, tokens, field, printed);
    assert parts + [] == parts;
    if existing == [] {
      parts := parts + FormatTokens(field, [targetValue]);
    }
    PartsNotBlank(language, query, field, value);
    assert NonBlank(parts) == parts;
    toggled := Join(NonBlank(parts), " ");
  }

  /** No part of the new query is blank, so the final filter drops nothing. */
  lemma PartsNotBlank(language: Language, query: string, field: Field, value: string)
    requires Trim(value) != ""
    ensures var tokens := language.Tokenize(query);
            var values := FieldValues(tokens, field);
            var printed := FormatTokens(field, language.NextValues(values, Trim(value)));
            var parts := language.Replaced(tokens, field, printed)
                         + (if values == [] then FormatTokens(field, [Trim(value)]) else []);
            NonBlank(parts) == parts
  {
    hide Trim, FieldValues, Language.Tokenize, Language.NextValues, FormatTokens, Language.Replaced, Standalone, NonBlank;
    var tokens := language.Tokenize(query);
    var values := FieldValues(tokens, field);
    var next := language.NextValues(values, Trim(value));
    TokensStandAlone(language, query);
    FormattedNotBlank(field, next);
    FormattedNotBlank(field, [Trim(value)]);
    ReplacedNotBlank(language, tokens, field, FormatTokens(field, next));
    JoinedParts(language.Replaced(tokens, field, FormatTokens(field, next))
                + (if values == [] then FormatTokens(field, [Trim(value)]) else []));
  }

  predicate NoneBlank(parts: seq<string>) {
    forall i :: 0 <= i < |parts| ==> Trim(parts[i]) != ""
  }

  lemma NameNotBlank(field: Field, rest: string)
    ensures Trim(FieldName(field) + rest) != ""
  {
    var s := FieldName(field) + rest;
    NamesAreLowerCase(field);
    assert s[0] == FieldName(field)[0];
    TrimEndNotBlank(s);
  }

  lemma {:induction false} TrimEndNotBlank(s: string)
    requires s != "" && !IsSpace(s[0])
    ensures TrimEnd(s) != ""
  {
    if IsSpace(s[|s| - 1]) {
      TrimEndNotBlank(s[..|s| - 1]);
    }
  }

  lemma {:induction false} FormattedEachNotBlank(field: Field, values: seq<string>)
    ensures NoneBlank(FormatEach(field, values))
  {
    hide Trim;
    if values != [] {
      FormattedEachNotBlank(field, values[1..]);
      NameNotBlank(field, "=" + values[0]);
      NameNotBlank(field, "={" + Escape(values[0]) + "}");
      assert FieldName(field) + "=" + values[0] == FieldName(field) + ("=" + values[0]);
      assert FieldName(field) + "={" + Escape(values[0]) + "}" == FieldName(field) + ("={" + Escape(values[0]) + "}");
    }
  }

  lemma FormattedNotBlank(field: Field, values: seq<string>)
    ensures NoneBlank(FormatTokens(field, values))
  {
    hide Trim;
    var cleaned := TrimmedNonEmpty(values);
    FormattedEachNotBlank(field, cleaned);
    NameNotBlank(field, "=" + Join(cleaned, "&"));
    assert FieldName(field) + "=" + Join(cleaned, "&") == FieldName(field) + ("=" + Join(cleaned, "&"));
  }

  lemma {:induction false} ReplacedNotBlank(language: Language, tokens: seq<Token>, field: Field, printed: seq<string>)
    requires AllStandalone(language, tokens) && NoneBlank(printed)
    ensures NoneBlank(language.Replaced(tokens, field, printed))
  {
    hide Trim, Standalone;
    if tokens != [] {
      assert Standalone(language, tokens[0]);
      if OwnToken(tokens[0], field) {
        ReplacedNotBlank(language, tokens[1..], field, []);
      } else {
        ReplacedNotBlank(language, tokens[1..], field, printed);
        TextIsTrimmed(language, tokens[0]);
        TextNotEmpty(language, tokens[0]);
      }
    }
  }

  lemma TextNotEmpty(language: Language, token: Token)
    requires Standalone(language, token)
    ensures token.text != ""
  {
  }
}
