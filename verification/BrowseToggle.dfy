/** Toggling a filter value changes that one value and nothing else the query asks for. */
module BrowseToggle {
  import opened Text
  import opened Wrappers
  import opened BrowseSearch
  import opened BrowseTokens
  import opened BrowseReadState
  import opened BrowsePrinting

  // The tokens a toggled query is written from

  function ReplacedTokens(tokens: seq<Token>, field: Field, printed: seq<Token>): seq<Token> {
    if tokens == [] then []
    else if OwnToken(tokens[0], field) then printed + ReplacedTokens(tokens[1..], field, [])
    else [tokens[0]] + ReplacedTokens(tokens[1..], field, printed)
  }

  function NextTokens(language: Language, tokens: seq<Token>, field: Field, targetValue: string): seq<Token> {
    var values := FieldValues(tokens, field);
    ReplacedTokens(tokens, field, Printed(field, language.NextValues(values, targetValue)))
    + (if values == [] then Printed(field, [targetValue]) else [])
  }

  function OtherTokens(tokens: seq<Token>, field: Field): seq<Token> {
    if tokens == [] then []
    else (if OwnToken(tokens[0], field) then [] else [tokens[0]]) + OtherTokens(tokens[1..], field)
  }

  function OtherFilters(filters: seq<Filter>, field: Field): seq<Filter> {
    if filters == [] then []
    else (if filters[0].field == field then [] else [filters[0]]) + OtherFilters(filters[1..], field)
  }

  /** The normalised values that a parsed query holds for a field. */
  ghost function ValueSet(filters: seq<Filter>, field: Field): set<string> {
    set filter | filter in filters && filter.field == field :: filter.value
  }

  ghost function NormalizedSet(language: Language, values: seq<string>): set<string> {
    set value | value in values :: language.Normalize(value)
  }

  // Toggling writes these tokens

  lemma {:induction false} ReplacedTexts(language: Language, tokens: seq<Token>, field: Field, printed: seq<Token>)
    ensures Texts(ReplacedTokens(tokens, field, printed)) == language.Replaced(tokens, field, Texts(printed))
  {
    if tokens != [] {
      if OwnToken(tokens[0], field) {
        ReplacedTexts(language, tokens[1..], field, []);
        TextsConcat(printed, ReplacedTokens(tokens[1..], field, []));
      } else {
        ReplacedTexts(language, tokens[1..], field, printed);
        TextsConcat([tokens[0]], ReplacedTokens(tokens[1..], field, printed));
      }
    }
  }

  lemma {:induction false} WithoutStaysClean(language: Language, values: seq<string>, target: string)
    requires AllClean(values)
    ensures AllClean(language.Without(values, target))
  {
    if values != [] {
      WithoutStaysClean(language, values[1..], target);
      assert IsClean(values[0]);
    }
  }

  lemma NextValuesAreClean(language: Language, values: seq<string>, targetValue: string)
    requires AllClean(values) && IsClean(targetValue)
    ensures AllClean(language.NextValues(values, targetValue))
  {
    WithoutStaysClean(language, values, language.Normalize(targetValue));
  }

  lemma ToggledText(language: Language, query: string, field: Field, value: string)
    requires Trim(value) != ""
    ensures language.Toggle(query, field, value)
         == Join(Texts(NextTokens(language, language.Tokenize(query), field, Trim(value))), " ")
  {
    hide Trim, Language.Tokenize, Language.NextValues, Printed, FormatTokens, Join, Texts, Language.Replaced, ReplacedTokens,
      FieldValues;
    var targetValue := Trim(value);
    var tokens := language.Tokenize(query);
    var values := FieldValues(tokens, field);
    var next := language.NextValues(values, targetValue);
    TrimTrims(value);
    FieldValuesAreClean(tokens, field);
    NextValuesAreClean(language, values, targetValue);
    PrintedTexts(field, next);
    PrintedTexts(field, [targetValue]);
    ReplacedTexts(language, tokens, field, Printed(field, next));
    TextsConcat(ReplacedTokens(tokens, field, Printed(field, next)), Printed(field, [targetValue]));
    assert ReplacedTokens(tokens, field, Printed(field, next)) + [] == ReplacedTokens(tokens, field, Printed(field, next));
  }

  lemma {:induction false} ReplacedStandAlone(language: Language, tokens: seq<Token>, field: Field, printed: seq<Token>)
    requires AllStandalone(language, tokens) && AllStandalone(language, printed)
    ensures AllStandalone(language, ReplacedTokens(tokens, field, printed))
  {
    hide Standalone;
    if tokens != [] {
      if OwnToken(tokens[0], field) {
        ReplacedStandAlone(language, tokens[1..], field, []);
      } else {
        ReplacedStandAlone(language, tokens[1..], field, printed);
      }
    }
  }

  lemma NextTokensStandAlone(language: Language, query: string, field: Field, targetValue: string)
    requires language.Valid() && IsClean(targetValue)
    ensures AllStandalone(language, NextTokens(language, language.Tokenize(query), field, targetValue))
  {
    hide Standalone, Trim, Language.Tokenize, Language.NextValues, Printed, ReplacedTokens, FieldValues;
    var tokens := language.Tokenize(query);
    var values := FieldValues(tokens, field);
    var next := language.NextValues(values, targetValue);
    TokensStandAlone(language, query);
    FieldValuesAreClean(tokens, field);
    NextValuesAreClean(language, values, targetValue);
    PrintedStandAlone(language, field, next);
    PrintedStandAlone(language, field, [targetValue]);
    ReplacedStandAlone(language, tokens, field, Printed(field, next));
  }

  // When the printed braces close nothing else

  /** Nothing is printed after this token of another field. */
  predicate PrintsBefore(tokens: seq<Token>, field: Field, i: nat)
    requires i < |tokens|
  {
    FieldValues(tokens, field) != [] && HasOwn(tokens[..i], field)
  }

  /** Every new value can do without braces, or no brace of another field is still open where they are printed. */
  predicate CanPrint(tokens: seq<Token>, field: Field, next: seq<string>) {
    || AllSimple(next)
    || forall i :: 0 <= i < |tokens| && IsOpen(tokens[i]) && !OwnToken(tokens[i], field) ==> PrintsBefore(tokens, field, i)
  }

  lemma {:induction false} OpenSafeAppend(a: seq<Token>, b: seq<Token>)
    ensures OpenSafe(a + b)
       <==> OpenSafe(a) && OpenSafe(b) && (NoneCloses(b) || forall i :: 0 <= i < |a| ==> !IsOpen(a[i]))
  {
    hide NeverCloses;
    if a == [] {
      assert a + b == b;
    } else {
      assert (a + b)[1..] == a[1..] + b;
      OpenSafeAppend(a[1..], b);
      assert NoneCloses(a[1..] + b) <==> NoneCloses(a[1..]) && NoneCloses(b) by {
        NoneClosesAppend(a[1..], b);
      }
      assert a == [a[0]] + a[1..];
    }
  }

  lemma NoneClosesAppend(a: seq<Token>, b: seq<Token>)
    ensures NoneCloses(a + b) <==> NoneCloses(a) && NoneCloses(b)
  {
    hide NeverCloses;
    var both := a + b;
    assert forall i :: 0 <= i < |a| ==> both[i] == a[i];
    assert forall i :: 0 <= i < |b| ==> both[|a| + i] == b[i];
  }

  lemma {:induction false} DroppedClosesLess(tokens: seq<Token>, field: Field, printed: seq<Token>)
    requires NoneCloses(tokens) && NoneCloses(printed)
    ensures NoneCloses(ReplacedTokens(tokens, field, printed))
  {
    hide NeverCloses;
    if tokens != [] {
      if OwnToken(tokens[0], field) {
        DroppedClosesLess(tokens[1..], field, []);
        NoneClosesAppend(printed, ReplacedTokens(tokens[1..], field, []));
      } else {
        DroppedClosesLess(tokens[1..], field, printed);
      }
    }
  }

  /** An open token of another field stands before the first own token, or there is no own token. */
  predicate OpensBefore(tokens: seq<Token>, field: Field) {
    tokens != [] && !OwnToken(tokens[0], field) && (IsOpen(tokens[0]) || OpensBefore(tokens[1..], field))
  }

  predicate HasOwn(tokens: seq<Token>, field: Field) {
    exists token <- tokens :: OwnToken(token, field)
  }

  lemma {:induction false} ReplacedOpenSafe(tokens: seq<Token>, field: Field, printed: seq<Token>)
    requires OpenSafe(tokens) && OwnTokens(printed, field)
    ensures OpenSafe(ReplacedTokens(tokens, field, printed))
       <==> NoneCloses(printed) || !HasOwn(tokens, field) || !OpensBefore(tokens, field)
  {
    hide NeverCloses;
    if tokens != [] {
      var replaced := ReplacedTokens(tokens, field, printed);
      HasOwnFirst(tokens, field);
      if OwnToken(tokens[0], field) {
        var rest := ReplacedTokens(tokens[1..], field, []);
        ReplacedOpenSafe(tokens[1..], field, []);
        NoOpenIsSafe(printed);
        OpenSafeAppend(printed, rest);
      } else {
        var rest := ReplacedTokens(tokens[1..], field, printed);
        ReplacedOpenSafe(tokens[1..], field, printed);
        assert replaced == [tokens[0]] + rest && replaced[1..] == rest;
        if IsOpen(tokens[0]) {
          ReplacedClosesAsPrinted(tokens[1..], field, printed);
        }
      }
    }
  }

  lemma HasOwnFirst(tokens: seq<Token>, field: Field)
    requires tokens != []
    ensures HasOwn(tokens, field) <==> OwnToken(tokens[0], field) || HasOwn(tokens[1..], field)
  {
    assert tokens == [tokens[0]] + tokens[1..];
  }

  lemma {:induction false} ReplacedClosesAsPrinted(tokens: seq<Token>, field: Field, printed: seq<Token>)
    requires NoneCloses(tokens)
    ensures NoneCloses(ReplacedTokens(tokens, field, printed)) <==> NoneCloses(printed) || !HasOwn(tokens, field)
  {
    hide NeverCloses;
    if tokens != [] {
      HasOwnFirst(tokens, field);
      if OwnToken(tokens[0], field) {
        DroppedClosesLess(tokens[1..], field, []);
        NoneClosesAppend(printed, ReplacedTokens(tokens[1..], field, []));
      } else {
        ReplacedClosesAsPrinted(tokens[1..], field, printed);
        NoneClosesAppend([tokens[0]], ReplacedTokens(tokens[1..], field, printed));
        assert NoneCloses([tokens[0]]);
      }
    }
  }

  // What the tokens mean

  lemma {:induction false} OthersAppend(a: seq<Token>, b: seq<Token>, field: Field)
    ensures OtherTokens(a + b, field) == OtherTokens(a, field) + OtherTokens(b, field)
  {
    if a == [] {
      assert a + b == b;
    } else {
      assert (a + b)[1..] == a[1..] + b;
      OthersAppend(a[1..], b, field);
    }
  }

  lemma {:induction false} OwnHaveNoOthers(tokens: seq<Token>, field: Field)
    requires OwnTokens(tokens, field)
    ensures OtherTokens(tokens, field) == []
  {
    if tokens != [] {
      assert OwnToken(tokens[0], field);
      assert OwnTokens(tokens[1..], field);
      OwnHaveNoOthers(tokens[1..], field);
    }
  }

  lemma {:induction false} ReplacedKeepsOthers(tokens: seq<Token>, field: Field, printed: seq<Token>)
    requires OwnTokens(printed, field)
    ensures OtherTokens(ReplacedTokens(tokens, field, printed), field) == OtherTokens(tokens, field)
  {
    if tokens != [] {
      if OwnToken(tokens[0], field) {
        ReplacedKeepsOthers(tokens[1..], field, []);
        OthersAppend(printed, ReplacedTokens(tokens[1..], field, []), field);
        OwnHaveNoOthers(printed, field);
      } else {
        ReplacedKeepsOthers(tokens[1..], field, printed);
        OthersAppend([tokens[0]], ReplacedTokens(tokens[1..], field, printed), field);
      }
    }
  }

  lemma {:induction false} ValuesAppend(a: seq<Token>, b: seq<Token>, field: Field)
    ensures FieldValues(a + b, field) == FieldValues(a, field) + FieldValues(b, field)
  {
    hide TokenValues;
    if a == [] {
      assert a + b == b;
    } else {
      assert (a + b)[1..] == a[1..] + b;
      ValuesAppend(a[1..], b, field);
    }
  }

  lemma {:induction false} ReplacedValues(tokens: seq<Token>, field: Field, printed: seq<Token>)
    ensures FieldValues(ReplacedTokens(tokens, field, printed), field)
         == if HasOwn(tokens, field) then FieldValues(printed, field) else []
  {
    hide TokenValues;
    if tokens != [] {
      HasOwnFirst(tokens, field);
      if OwnToken(tokens[0], field) {
        ReplacedValues(tokens[1..], field, []);
        ValuesAppend(printed, ReplacedTokens(tokens[1..], field, []), field);
      } else {
        ReplacedValues(tokens[1..], field, printed);
        ValuesAppend([tokens[0]], ReplacedTokens(tokens[1..], field, printed), field);
      }
    }
  }

  lemma {:induction false} NoOwnNoValues(tokens: seq<Token>, field: Field)
    requires !HasOwn(tokens, field)
    ensures FieldValues(tokens, field) == []
  {
    if tokens != [] {
      HasOwnFirst(tokens, field);
      NoOwnNoValues(tokens[1..], field);
    }
  }

  /** The values written are the next ones; without any values before, the new one may be written twice. */
  lemma NextTokensValues(language: Language, query: string, field: Field, targetValue: string)
    requires IsClean(targetValue)
    ensures var tokens := language.Tokenize(query);
            var values := FieldValues(tokens, field);
            FieldValues(NextTokens(language, tokens, field, targetValue), field)
            == if values != [] then language.NextValues(values, targetValue)
               else if HasOwn(tokens, field) then [targetValue, targetValue]
               else [targetValue]
  {
    hide Trim, Language.Tokenize, Printed, ReplacedTokens, TokenValues, FieldValues, Language.Normalize;
    var tokens := language.Tokenize(query);
    var values := FieldValues(tokens, field);
    var next := language.NextValues(values, targetValue);
    var printed := Printed(field, next);
    FieldValuesAreClean(tokens, field);
    NextValuesAreClean(language, values, targetValue);
    PrintedValues(field, next);
    ReplacedValues(tokens, field, printed);
    if values == [] {
      assert next == [targetValue];
      ValuesAppend(ReplacedTokens(tokens, field, printed), Printed(field, [targetValue]), field);
    } else {
      assert ReplacedTokens(tokens, field, printed) + [] == ReplacedTokens(tokens, field, printed);
      if !HasOwn(tokens, field) {
        NoOwnNoValues(tokens, field);
      }
    }
  }

  lemma NextTokensOthers(language: Language, tokens: seq<Token>, field: Field, targetValue: string)
    ensures OtherTokens(NextTokens(language, tokens, field, targetValue), field) == OtherTokens(tokens, field)
  {
    hide Printed, ReplacedTokens, FieldValues, Language.NextValues;
    var next := language.NextValues(FieldValues(tokens, field), targetValue);
    PrintedAreOwn(field, next);
    PrintedAreOwn(field, [targetValue]);
    ReplacedKeepsOthers(tokens, field, Printed(field, next));
    OthersAppend(ReplacedTokens(tokens, field, Printed(field, next)), Printed(field, [targetValue]), field);
    OwnHaveNoOthers(Printed(field, [targetValue]), field);
    OthersAppend(ReplacedTokens(tokens, field, Printed(field, next)), [], field);
  }

  // Meaning of tokens

  lemma {:induction false} OtherFiltersAppend(a: seq<Filter>, b: seq<Filter>, field: Field)
    ensures OtherFilters(a + b, field) == OtherFilters(a, field) + OtherFilters(b, field)
  {
    if a == [] {
      assert a + b == b;
    } else {
      assert (a + b)[1..] == a[1..] + b;
      OtherFiltersAppend(a[1..], b, field);
    }
  }

  lemma {:induction false} OwnFilters(language: Language, filtered: Field, values: seq<string>, field: Field)
    ensures OtherFilters(language.NormalizedFilters(filtered, values), field)
         == if filtered == field then [] else language.NormalizedFilters(filtered, values)
  {
    hide Language.Normalize;
    if values != [] {
      OwnFilters(language, filtered, values[1..], field);
      var rest := language.NormalizedFilters(filtered, values[1..]);
      var first := Filter(filtered, language.Normalize(values[0]));
      OtherFiltersAppend([first], rest, field);
      assert [] + rest == rest;
      assert OtherFilters([first], field) == if filtered == field then [] else [first];
    }
  }

  /** The other filters, the free terms and the read state depend on the other tokens alone. */
  lemma {:induction false} OthersDecide(language: Language, tokens: seq<Token>, field: Field)
    ensures OtherFilters(language.Filters(tokens), field) == language.Filters(OtherTokens(tokens, field))
    ensures language.FreeTerms(tokens) == language.FreeTerms(OtherTokens(tokens, field))
  {
    hide TokenValues, Language.Normalize, Language.NormalizedFilters, Language.IsReadStateTerm;
    if tokens != [] {
      var others := OtherTokens(tokens[1..], field);
      OthersDecide(language, tokens[1..], field);
      OneTokenDecides(language, tokens[0], field);
      MeaningConcat(language, [tokens[0]], others);
      MeaningConcat(language, [tokens[0]], tokens[1..]);
      assert tokens == [tokens[0]] + tokens[1..];
      OtherFiltersAppend(language.Filters([tokens[0]]), language.Filters(tokens[1..]), field);
      assert [] + others == others;
    }
  }

  lemma OneTokenDecides(language: Language, token: Token, field: Field)
    ensures OtherFilters(language.Filters([token]), field) == if OwnToken(token, field) then [] else language.Filters([token])
    ensures OwnToken(token, field) ==> language.FreeTerms([token]) == []
  {
    hide TokenValues, Language.Normalize, Language.IsReadStateTerm;
    if token.FieldToken? {
      OneTokenFilters(language, token);
      OwnFilters(language, token.field, TokenValues(token), field);
    } else {
      assert [token][1..] == [];
    }
  }

  lemma OneTokenFilters(language: Language, token: Token)
    requires token.FieldToken?
    ensures language.Filters([token]) == language.NormalizedFilters(token.field, TokenValues(token))
    ensures language.FreeTerms([token]) == []
  {
    assert [token][1..] == [];
  }

  lemma {:induction false} TermsKept(tokens: seq<Token>, field: Field, token: Token)
    requires token.TermToken?
    ensures token in tokens <==> token in OtherTokens(tokens, field)
  {
    if tokens != [] {
      TermsKept(tokens[1..], field, token);
      assert tokens == [tokens[0]] + tokens[1..];
    }
  }

  lemma ReadStateKept(language: Language, a: seq<Token>, b: seq<Token>, field: Field)
    requires OtherTokens(a, field) == OtherTokens(b, field)
    ensures language.ReadStateOf(a) == language.ReadStateOf(b)
  {
    hide Language.Normalize, OtherTokens;
    forall token: Token | token.TermToken?
      ensures token in a <==> token in b
    {
      TermsKept(a, field, token);
      TermsKept(b, field, token);
    }
    ReadStateOfMembers(language, a, b);
  }

  lemma ReadStateOfMembers(language: Language, a: seq<Token>, b: seq<Token>)
    requires forall token: Token :: token.TermToken? ==> (token in a <==> token in b)
    ensures language.ReadStateOf(a) == language.ReadStateOf(b)
  {
    hide Language.Normalize;
    HasReadTerm(language, a, b);
    HasReadTerm(language, b, a);
  }

  lemma HasReadTerm(language: Language, a: seq<Token>, b: seq<Token>)
    requires forall token: Token :: token.TermToken? ==> (token in a <==> token in b)
    ensures (exists i :: 0 <= i < |a| && language.IsReadTerm(a[i])) ==> exists i :: 0 <= i < |b| && language.IsReadTerm(b[i])
    ensures (exists i :: 0 <= i < |a| && language.IsUnreadTerm(a[i])) ==> exists i :: 0 <= i < |b| && language.IsUnreadTerm(b[i])
  {
    hide Language.Normalize;
    if i :| 0 <= i < |a| && language.IsReadTerm(a[i]) {
      assert a[i] in b;
    }
    if i :| 0 <= i < |a| && language.IsUnreadTerm(a[i]) {
      assert a[i] in b;
    }
  }

  // Values of a field

  lemma CleanNormalizes(language: Language, value: string)
    requires language.Valid() && IsClean(value)
    ensures language.Normalize(value) != ""
  {
    assert language.lower(value[0]) != "";
  }

  lemma {:induction false} FiltersOfValues(language: Language, filtered: Field, values: seq<string>, field: Field)
    requires language.Valid() && AllClean(values)
    ensures ValueSet(language.NormalizedFilters(filtered, values), field)
         == if filtered == field then NormalizedSet(language, values) else {}
  {
    hide Language.Normalize;
    if values != [] {
      FiltersOfValues(language, filtered, values[1..], field);
      CleanNormalizes(language, values[0]);
      var rest := language.NormalizedFilters(filtered, values[1..]);
      var first := Filter(filtered, language.Normalize(values[0]));
      assert language.NormalizedFilters(filtered, values) == [first] + rest;
      ValueSetAppend([first], rest, field);
      NormalizedSetAppend(language, [values[0]], values[1..]);
      assert values == [values[0]] + values[1..];
    }
  }

  lemma ValueSetAppend(a: seq<Filter>, b: seq<Filter>, field: Field)
    ensures ValueSet(a + b, field) == ValueSet(a, field) + ValueSet(b, field)
  {
  }

  lemma NormalizedSetAppend(language: Language, a: seq<string>, b: seq<string>)
    ensures NormalizedSet(language, a + b) == NormalizedSet(language, a) + NormalizedSet(language, b)
  {
    hide Language.Normalize;
  }

  /** The parsed values of a field are its tokens' values, normalised. */
  lemma {:induction false} ParsedValues(language: Language, tokens: seq<Token>, field: Field)
    requires language.Valid()
    ensures ValueSet(language.Filters(tokens), field) == NormalizedSet(language, FieldValues(tokens, field))
  {
    hide TokenValues, Language.Normalize, Language.NormalizedFilters, ValueSet, NormalizedSet;
    if tokens == [] {
      NoValues(language, field);
    } else {
      ParsedValues(language, tokens[1..], field);
      assert tokens == [tokens[0]] + tokens[1..];
      MeaningConcat(language, [tokens[0]], tokens[1..]);
      ValuesAppend([tokens[0]], tokens[1..], field);
      ValueSetAppend(language.Filters([tokens[0]]), language.Filters(tokens[1..]), field);
      NormalizedSetAppend(language, FieldValues([tokens[0]], field), FieldValues(tokens[1..], field));
      if tokens[0].FieldToken? {
        OneTokenFilters(language, tokens[0]);
        FieldValuesAreClean([tokens[0]], tokens[0].field);
        assert FieldValues([tokens[0]], tokens[0].field) == TokenValues(tokens[0]);
        FiltersOfValues(language, tokens[0].field, TokenValues(tokens[0]), field);
      }
      NoValues(language, field);
    }
  }

  lemma NoValues(language: Language, field: Field)
    ensures ValueSet([], field) == {} == NormalizedSet(language, [])
  {
  }

  lemma {:induction false} WithoutValues(language: Language, values: seq<string>, target: string)
    ensures NormalizedSet(language, language.Without(values, target)) == NormalizedSet(language, values) - {target}
  {
    hide Language.Normalize;
    NoValues(language, Title);
    if values != [] {
      var rest := language.Without(values[1..], target);
      WithoutValues(language, values[1..], target);
      NormalizedSetAppend(language, [values[0]], values[1..]);
      assert values == [values[0]] + values[1..];
      NormalizedSetAppend(language, [values[0]], rest);
      assert NormalizedSet(language, [values[0]]) == {language.Normalize(values[0])};
      assert [] + rest == rest;
    }
  }

  function Toggled(values: set<string>, target: string): set<string> {
    if target in values then values - {target} else values + {target}
  }

  lemma NextValuesToggle(language: Language, values: seq<string>, targetValue: string)
    ensures NormalizedSet(language, language.NextValues(values, targetValue))
         == Toggled(NormalizedSet(language, values), language.Normalize(targetValue))
  {
    hide Language.Normalize;
    var target := language.Normalize(targetValue);
    WithoutValues(language, values, target);
    NormalizedSetAppend(language, values, [targetValue]);
    assert language.HasValue(values, target) <==> target in NormalizedSet(language, values) by {
      if i :| 0 <= i < |values| && language.Normalize(values[i]) == target {
        assert values[i] in values;
      }
    }
  }

  lemma NextTokensToggle(language: Language, query: string, field: Field, targetValue: string)
    requires IsClean(targetValue)
    ensures var tokens := language.Tokenize(query);
            NormalizedSet(language, FieldValues(NextTokens(language, tokens, field, targetValue), field))
            == Toggled(NormalizedSet(language, FieldValues(tokens, field)), language.Normalize(targetValue))
  {
    hide Language.Normalize, Language.Tokenize, NextTokens, FieldValues, Language.NextValues;
    var values := FieldValues(language.Tokenize(query), field);
    NextTokensValues(language, query, field, targetValue);
    NextValuesToggle(language, values, targetValue);
    assert values == [] ==> NormalizedSet(language, [targetValue, targetValue]) == NormalizedSet(language, [targetValue]);
    NormalizedSetAppend(language, [], [targetValue]);
  }
}
