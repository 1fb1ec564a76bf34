/** Choosing read or unread memories edits the query without changing what else it asks for. */
module BrowseReadState {
  import opened Text
  import opened Wrappers
  import opened BrowseSearch
  import opened BrowseTokens

  // Filtering memories

  datatype Item = Item(id: string, name: string)

  datatype Flashback = Flashback(id: string, text: string, prefix: string, suffix: string)

  datatype Memory = Memory(title: string, url: string, description: string, read: bool,
                           categories: seq<Item>, tags: seq<Item>, flashbacks: seq<Flashback>)

  datatype Query = Query(q: string, category: string, tag: string, flashback: string)

  predicate Includes(text: string, part: string) {
    exists i :: 0 <= i <= |text| && part <= text[i..]
  }

  predicate FlashbackMentions(language: Language, flashback: Flashback, value: string) {
    || Includes(language.Normalize(flashback.text), value)
    || Includes(language.Normalize(flashback.prefix), value)
    || Includes(language.Normalize(flashback.suffix), value)
  }

  predicate MatchesField(language: Language, memory: Memory, filter: Filter) {
    filter.value == "" ||
    match filter.field
    case Title => Includes(language.Normalize(memory.title), filter.value)
    case Url => Includes(language.Normalize(memory.url), filter.value)
    case Tag => exists tag <- memory.tags :: language.Normalize(tag.name) == filter.value
    case Category => exists category <- memory.categories :: language.Normalize(category.name) == filter.value
    case Flashback => exists flashback <- memory.flashbacks :: FlashbackMentions(language, flashback, filter.value)
  }

  predicate MatchesTerm(language: Language, memory: Memory, term: string) {
    || Includes(language.Normalize(memory.title), term)
    || Includes(language.Normalize(memory.url), term)
    || Includes(language.Normalize(memory.description), term)
    || (exists category <- memory.categories :: Includes(language.Normalize(category.name), term))
    || (exists tag <- memory.tags :: Includes(language.Normalize(tag.name), term))
    || (exists flashback <- memory.flashbacks :: FlashbackMentions(language, flashback, term))
  }

  predicate HasIds(memory: Memory, query: Query) {
    && (query.category != "" ==> exists category <- memory.categories :: category.id == query.category)
    && (query.tag != "" ==> exists tag <- memory.tags :: tag.id == query.tag)
    && (query.flashback != "" ==> exists flashback <- memory.flashbacks :: flashback.id == query.flashback)
  }

  predicate HasReadState(memory: Memory, state: ReadState) {
    match state
    case All => true
    case Both => false
    case Read => memory.read
    case Unread => !memory.read
  }

  predicate MatchesSearch(language: Language, memory: Memory, search: Search) {
    && HasReadState(memory, search.readState)
    && (forall filter <- search.fields :: MatchesField(language, memory, filter))
    && (forall term <- search.freeTerms :: MatchesTerm(language, memory, term))
  }

  function FilterMemories(language: Language, memories: seq<Memory>, query: Query): seq<Memory> {
    if memories == [] then []
    else
      (if HasIds(memories[0], query) && MatchesSearch(language, memories[0], language.Parse(query.q)) then [memories[0]]
       else [])
      + FilterMemories(language, memories[1..], query)
  }

  function WithReadState(memories: seq<Memory>, state: ReadState): seq<Memory> {
    if memories == [] then []
    else
      (if HasReadState(memories[0], state) then [memories[0]] else []) + WithReadState(memories[1..], state)
  }

  // The edited query is read back

  function ChoiceTokens(choice: ReadState): seq<Token>
    requires choice != Both
  {
    match choice
    case Read => [TermToken("read")]
    case Unread => [TermToken("unread")]
    case All => []
  }

  lemma {:induction false} TextsConcat(a: seq<Token>, b: seq<Token>)
    ensures Texts(a + b) == Texts(a) + Texts(b)
  {
    if a == [] {
      assert a + b == b;
    } else {
      assert (a + b)[1..] == a[1..] + b;
      TextsConcat(a[1..], b);
    }
  }

  lemma {:induction false} NoBraceNeverCloses(s: string)
    requires forall i :: 0 <= i < |s| ==> s[i] != '}'
    ensures NeverCloses(s)
    decreases |s|
  {
    if s != "" {
      if s[0] != '\\' {
        NoBraceNeverCloses(s[1..]);
      } else if |s| > 1 {
        NoBraceNeverCloses(s[2..]);
      }
    }
  }

  lemma ChoiceReadsBack(language: Language, choice: ReadState)
    requires choice != Both
    ensures AllStandalone(language, ChoiceTokens(choice)) && NoneCloses(ChoiceTokens(choice))
  {
    assert NoSpace("read") && NoSpace("unread");
    assert Separator("read").None? && Separator("unread").None?;
    NoBraceNeverCloses("read");
    NoBraceNeverCloses("unread");
  }

  lemma ChoiceTexts(choice: ReadState)
    requires choice != Both
    ensures OpenSafe(ChoiceTokens(choice))
    ensures Texts(ChoiceTokens(choice))
         == (match choice case Read => ["read"] case Unread => ["unread"] case _ => [])
  {
  }

  lemma {:induction false} WithoutKeepsMembers(language: Language, tokens: seq<Token>)
    ensures AllStandalone(language, tokens) ==> AllStandalone(language, language.WithoutReadState(tokens))
    ensures NoneCloses(tokens) ==> NoneCloses(language.WithoutReadState(tokens))
  {
    if tokens != [] {
      WithoutKeepsMembers(language, tokens[1..]);
    }
  }

  /** Dropping read-state words and adding one at the end leaves nothing to close an open token. */
  lemma {:induction false} EditedOpenSafe(language: Language, tokens: seq<Token>, added: seq<Token>)
    requires OpenSafe(tokens) && NoneCloses(added) && OpenSafe(added)
    ensures OpenSafe(language.WithoutReadState(tokens) + added)
  {
    var kept := language.WithoutReadState(tokens);
    if tokens == [] {
      assert kept + added == added;
    } else {
      var rest := language.WithoutReadState(tokens[1..]);
      EditedOpenSafe(language, tokens[1..], added);
      WithoutKeepsMembers(language, tokens[1..]);
      if language.IsReadStateTerm(tokens[0]) {
        assert kept == rest;
      } else {
        assert kept + added == [tokens[0]] + (rest + added);
      }
    }
  }

  lemma EditedQueryReadsBack(language: Language, query: string, choice: ReadState)
    requires choice != Both
    ensures language.Tokenize(language.SetReadState(query, choice))
         == language.WithoutReadState(language.Tokenize(query)) + ChoiceTokens(choice)
  {
    hide Language.Tokenize, Language.WithoutReadState, Standalone, OpenSafe, Join, Texts, NeverCloses, ChoiceTokens;
    var tokens := language.Tokenize(query);
    var kept := language.WithoutReadState(tokens);
    TokensStandAlone(language, query);
    TokensOpenSafe(language, query);
    ChoiceReadsBack(language, choice);
    ChoiceTexts(choice);
    WithoutKeepsMembers(language, tokens);
    EditedOpenSafe(language, tokens, ChoiceTokens(choice));
    TextsConcat(kept, ChoiceTokens(choice));
    JoinedTokensReadBack(language, kept + ChoiceTokens(choice));
  }

  // What the edited query means

  lemma {:induction false} MeaningConcat(language: Language, a: seq<Token>, b: seq<Token>)
    ensures language.Filters(a + b) == language.Filters(a) + language.Filters(b)
    ensures language.FreeTerms(a + b) == language.FreeTerms(a) + language.FreeTerms(b)
  {
    hide TokenValues, Language.Normalize, Language.NormalizedFilters, Language.IsReadStateTerm;
    if a == [] {
      assert a + b == b;
    } else {
      assert (a + b)[1..] == a[1..] + b;
      MeaningConcat(language, a[1..], b);
    }
  }

  lemma {:induction false} WithoutKeepsMeaning(language: Language, tokens: seq<Token>)
    ensures var kept := language.WithoutReadState(tokens);
            && language.Filters(kept) == language.Filters(tokens)
            && language.FreeTerms(kept) == language.FreeTerms(tokens)
            && forall token <- kept :: !language.IsReadStateTerm(token)
  {
    if tokens != [] {
      var kept := language.WithoutReadState(tokens);
      var rest := language.WithoutReadState(tokens[1..]);
      WithoutKeepsMeaning(language, tokens[1..]);
      if language.IsReadStateTerm(tokens[0]) {
        assert kept == rest;
      } else {
        assert kept == [tokens[0]] + rest && kept[1..] == rest;
      }
    }
  }

  lemma {:induction false} FoldCaseless(language: Language, s: string)
    requires language.Valid() && forall i :: 0 <= i < |s| ==> Caseless(s[i])
    ensures language.Fold(s) == s
  {
    if s != "" {
      FoldCaseless(language, s[1..]);
      assert s == [s[0]] + s[1..];
    }
  }

  lemma ReadStateWords(language: Language)
    requires language.Valid()
    ensures language.Normalize("read") == "read" && language.Normalize("unread") == "unread"
  {
    assert NoSpace("read") && NoSpace("unread");
    TrimNoSpace("read");
    TrimNoSpace("unread");
    FoldCaseless(language, "read");
    FoldCaseless(language, "unread");
  }

  /** Setting the read state replaces it and leaves every filter and free term as it was, in order. */
  lemma SetReadStateChangesOnlyReadState(language: Language, query: string, choice: ReadState)
    requires language.Valid() && choice != Both
    ensures language.Parse(language.SetReadState(query, choice)) == language.Parse(query).(readState := choice)
    ensures language.ReadStateFilter(language.SetReadState(query, choice)) == choice
  {
    var tokens := language.Tokenize(query);
    var kept := language.WithoutReadState(tokens);
    var added := ChoiceTokens(choice);
    EditedQueryReadsBack(language, query, choice);
    WithoutKeepsMeaning(language, tokens);
    MeaningConcat(language, kept, added);
    ReadStateWords(language);
    assert language.Filters(added) == [] && language.FreeTerms(added) == [];
    EditedReadState(language, kept, choice);
  }

  lemma EditedReadState(language: Language, kept: seq<Token>, choice: ReadState)
    requires choice != Both && forall token <- kept :: !language.IsReadStateTerm(token)
    requires language.Normalize("read") == "read" && language.Normalize("unread") == "unread"
    ensures language.ReadStateOf(kept + ChoiceTokens(choice)) == choice
  {
    hide Language.Normalize;
    var edited := kept + ChoiceTokens(choice);
    forall i | 0 <= i < |kept|
      ensures edited[i] == kept[i] && !language.IsReadTerm(kept[i]) && !language.IsUnreadTerm(kept[i])
    {
      assert kept[i] in kept;
    }
    if choice != All {
      assert edited[|kept|] == ChoiceTokens(choice)[0];
    }
  }

  lemma MatchesWithReadState(language: Language, memory: Memory, edited: Query, plain: Query, choice: ReadState)
    requires plain.(q := "") == edited.(q := "")
    requires language.Parse(plain.q).readState == All
    requires language.Parse(edited.q) == language.Parse(plain.q).(readState := choice)
    ensures HasIds(memory, edited) == HasIds(memory, plain)
    ensures MatchesSearch(language, memory, language.Parse(edited.q))
       <==> MatchesSearch(language, memory, language.Parse(plain.q)) && HasReadState(memory, choice)
  {
    hide Language.Parse, MatchesField, MatchesTerm;
  }

  lemma {:induction false} FilterWithReadState(
      language: Language, memories: seq<Memory>, edited: Query, plain: Query, choice: ReadState)
    requires plain.(q := "") == edited.(q := "")
    requires language.Parse(plain.q).readState == All
    requires language.Parse(edited.q) == language.Parse(plain.q).(readState := choice)
    ensures FilterMemories(language, memories, edited)
         == WithReadState(FilterMemories(language, memories, plain), choice)
  {
    hide Language.Parse, HasIds, MatchesSearch, HasReadState;
    if memories != [] {
      FilterWithReadState(language, memories[1..], edited, plain, choice);
      MatchesWithReadState(language, memories[0], edited, plain, choice);
      var rest := FilterMemories(language, memories[1..], plain);
      assert ([memories[0]] + rest)[1..] == rest;
      assert [] + rest == rest;
    }
  }

  /** Filtering with the edited query is filtering without any read state, and then by the read flag. */
  lemma SetReadStateFilters(language: Language, memories: seq<Memory>, query: Query, choice: ReadState)
    requires language.Valid() && choice != Both
    ensures FilterMemories(language, memories, query.(q := language.SetReadState(query.q, choice)))
         == WithReadState(
              FilterMemories(language, memories, query.(q := language.SetReadState(query.q, All))), choice)
  {
    SetReadStateChangesOnlyReadState(language, query.q, choice);
    SetReadStateChangesOnlyReadState(language, query.q, All);
    FilterWithReadState(language, memories,
                        query.(q := language.SetReadState(query.q, choice)),
                        query.(q := language.SetReadState(query.q, All)), choice);
  }
}
