/** What toggling a filter does to the parsed query, and exactly when it leaves the rest of it alone. */
module BrowseToggleMeaning {
  import opened Text
  import opened Wrappers
  import opened BrowseSearch
  import opened BrowseTokens
  import opened BrowseReadState
  import opened BrowsePrinting
  import opened BrowseToggle

  // The guard, seen on the tokens of the query

  lemma {:induction false} OpensBeforeMeans(tokens: seq<Token>, field: Field)
    ensures OpensBefore(tokens, field)
       <==> exists i :: 0 <= i < |tokens| && IsOpen(tokens[i]) && !OwnToken(tokens[i], field) && !HasOwn(tokens[..i], field)
  {
    if tokens != [] {
      var rest := tokens[1..];
      OpensBeforeMeans(rest, field);
      forall i | 0 <= i < |rest|
        ensures rest[i] == tokens[i + 1]
        ensures HasOwn(tokens[..i + 1], field) <==> OwnToken(tokens[0], field) || HasOwn(rest[..i], field)
      {
        assert tokens[..i + 1] == [tokens[0]] + rest[..i];
      }
      if OpensBefore(tokens, field) {
        if IsOpen(tokens[0]) {
          assert !HasOwn(tokens[..0], field);
        } else {
          var i :| 0 <= i < |rest| && IsOpen(rest[i]) && !OwnToken(rest[i], field) && !HasOwn(rest[..i], field);
          assert IsOpen(tokens[i + 1]) && !HasOwn(tokens[..i + 1], field);
        }
      } else {
        forall i | 0 <= i < |tokens|
          ensures !(IsOpen(tokens[i]) && !OwnToken(tokens[i], field) && !HasOwn(tokens[..i], field))
        {
          if i > 0 {
            assert tokens[..i] == [tokens[0]] + rest[..i - 1];
            assert tokens[i] == rest[i - 1];
          }
        }
      }
    }
  }

  predicate OpensOther(tokens: seq<Token>, field: Field) {
    exists token <- tokens :: IsOpen(token) && !OwnToken(token, field)
  }

  lemma {:induction false} ReplacedOpens(tokens: seq<Token>, field: Field, printed: seq<Token>)
    requires OwnTokens(printed, field)
    ensures (exists token <- ReplacedTokens(tokens, field, printed) :: IsOpen(token)) <==> OpensOther(tokens, field)
  {
    if tokens != [] {
      assert tokens == [tokens[0]] + tokens[1..];
      if OwnToken(tokens[0], field) {
        ReplacedOpens(tokens[1..], field, []);
      } else {
        ReplacedOpens(tokens[1..], field, printed);
      }
    }
  }

  lemma NextOpenSafeWithValues(tokens: seq<Token>, field: Field, printed: seq<Token>, simple: bool)
    requires OpenSafe(tokens) && OwnTokens(printed, field) && (NoneCloses(printed) <==> simple)
    requires FieldValues(tokens, field) != []
    ensures OpenSafe(ReplacedTokens(tokens, field, printed))
       <==> simple || forall i :: 0 <= i < |tokens| && IsOpen(tokens[i]) && !OwnToken(tokens[i], field)
                                  ==> PrintsBefore(tokens, field, i)
  {
    hide ReplacedTokens, FieldValues, NoneCloses, OpenSafe, OwnTokens;
    if !HasOwn(tokens, field) {
      NoOwnNoValues(tokens, field);
    }
    ReplacedOpenSafe(tokens, field, printed);
    OpensBeforeMeans(tokens, field);
  }

  lemma NextOpenSafeWithoutValues(tokens: seq<Token>, field: Field, printed: seq<Token>, simple: bool)
    requires OpenSafe(tokens) && OwnTokens(printed, field) && (NoneCloses(printed) <==> simple)
    requires FieldValues(tokens, field) == []
    ensures OpenSafe(ReplacedTokens(tokens, field, printed) + printed)
       <==> simple || forall i :: 0 <= i < |tokens| && IsOpen(tokens[i]) && !OwnToken(tokens[i], field)
                                  ==> PrintsBefore(tokens, field, i)
  {
    hide ReplacedTokens, FieldValues, NoneCloses;
    var replaced := ReplacedTokens(tokens, field, printed);
    ReplacedOpenSafe(tokens, field, printed);
    OpensBeforeMeans(tokens, field);
    ReplacedOpens(tokens, field, printed);
    NoOpenIsSafe(printed);
    OpenSafeAppend(replaced, printed);
    assert (exists token <- replaced :: IsOpen(token)) <==> exists i :: 0 <= i < |replaced| && IsOpen(replaced[i]);
  }

  /** The guard holds exactly when the new query's braces close nothing but themselves. */
  lemma CanPrintMeans(language: Language, query: string, field: Field, targetValue: string)
    requires language.Valid() && IsClean(targetValue)
    ensures var tokens := language.Tokenize(query);
            OpenSafe(NextTokens(language, tokens, field, targetValue))
            <==> CanPrint(tokens, field, language.NextValues(FieldValues(tokens, field), targetValue))
  {
    hide Trim, Language.Tokenize, Language.NextValues, Printed, ReplacedTokens, FieldValues, NoneCloses, OpenSafe, PrintsBefore,
      AllSimple, OwnTokens;
    var tokens := language.Tokenize(query);
    var values := FieldValues(tokens, field);
    var next := language.NextValues(values, targetValue);
    var printed := Printed(field, next);
    TokensOpenSafe(language, query);
    FieldValuesAreClean(tokens, field);
    NextValuesAreClean(language, values, targetValue);
    PrintedAreOwn(field, next);
    PrintedNoneCloses(language, field, next);
    if values == [] {
      NextOfNone(language, targetValue);
      NextOpenSafeWithoutValues(tokens, field, printed, AllSimple(next));
    } else {
      NextOpenSafeWithValues(tokens, field, printed, AllSimple(next));
      assert ReplacedTokens(tokens, field, printed) + [] == ReplacedTokens(tokens, field, printed);
    }
  }

  lemma NextOfNone(language: Language, targetValue: string)
    ensures language.NextValues([], targetValue) == [targetValue]
  {
    hide Language.Normalize;
  }

  // Toggling under the guard

  predicate CanToggle(language: Language, query: string, field: Field, value: string) {
    var tokens := language.Tokenize(query);
    CanPrint(tokens, field, language.NextValues(FieldValues(tokens, field), Trim(value)))
  }

  lemma TargetIsClean(language: Language, value: string)
    requires Trim(value) != ""
    ensures IsClean(Trim(value)) && language.Normalize(Trim(value)) == language.Normalize(value)
  {
    TrimTrims(value);
  }

  /** Under the guard, the new query is read as the tokens it was written from. */
  lemma ToggleReadsBack(language: Language, query: string, field: Field, value: string)
    requires language.Valid() && Trim(value) != "" && CanToggle(language, query, field, value)
    ensures language.Tokenize(language.Toggle(query, field, value))
         == NextTokens(language, language.Tokenize(query), field, Trim(value))
  {
    hide Language.Tokenize, Language.Toggle, NextTokens, CanPrint, Trim, Language.NextValues, FieldValues, Standalone, OpenSafe;
    TargetIsClean(language, value);
    ToggledText(language, query, field, value);
    NextTokensStandAlone(language, query, field, Trim(value));
    CanPrintMeans(language, query, field, Trim(value));
    JoinedTokensReadBack(language, NextTokens(language, language.Tokenize(query), field, Trim(value)));
  }

  /** The rest of the query: other fields' values, free terms and read state. */
  ghost predicate SameElsewhere(before: Search, after: Search, field: Field) {
    && OtherFilters(after.fields, field) == OtherFilters(before.fields, field)
    && after.freeTerms == before.freeTerms
    && after.readState == before.readState
  }

  lemma SameOthersMeanSame(language: Language, a: seq<Token>, b: seq<Token>, field: Field)
    requires OtherTokens(a, field) == OtherTokens(b, field)
    ensures OtherFilters(language.Filters(a), field) == OtherFilters(language.Filters(b), field)
    ensures language.FreeTerms(a) == language.FreeTerms(b)
    ensures language.ReadStateOf(a) == language.ReadStateOf(b)
  {
    hide OtherFilters, OtherTokens;
    OthersDecide(language, a, field);
    OthersDecide(language, b, field);
    ReadStateKept(language, a, b, field);
  }

  /** Toggling a value adds or removes exactly that normalised value, and changes nothing else. */
  lemma ToggleChangesOneValue(language: Language, query: string, field: Field, value: string)
    requires language.Valid() && Trim(value) != "" && CanToggle(language, query, field, value)
    ensures var before, after := language.Parse(query), language.Parse(language.Toggle(query, field, value));
            && ValueSet(after.fields, field) == Toggled(ValueSet(before.fields, field), language.Normalize(value))
            && SameElsewhere(before, after, field)
  {
    hide Language.Tokenize, Language.Toggle, NextTokens, CanToggle, Trim, Language.Normalize, ValueSet, NormalizedSet, FieldValues,
      OtherTokens, Language.Filters, Language.FreeTerms, Language.ReadStateOf, Toggled;
    var tokens := language.Tokenize(query);
    TargetIsClean(language, value);
    ToggleReadsBack(language, query, field, value);
    var next := NextTokens(language, tokens, field, Trim(value));
    ParsedValues(language, tokens, field);
    ParsedValues(language, next, field);
    NextTokensToggle(language, query, field, Trim(value));
    NextTokensOthers(language, tokens, field, Trim(value));
    SameOthersMeanSame(language, next, tokens, field);
  }

  // Toggling twice

  predicate OtherBracesClosed(language: Language, query: string, field: Field) {
    !OpensOther(language.Tokenize(query), field)
  }

  lemma ClosedCanToggle(language: Language, query: string, field: Field, value: string)
    requires OtherBracesClosed(language, query, field)
    ensures CanToggle(language, query, field, value)
  {
    hide Language.Tokenize, Language.NextValues, FieldValues;
  }

  lemma ToggleKeepsBracesClosed(language: Language, query: string, field: Field, value: string)
    requires language.Valid() && Trim(value) != "" && OtherBracesClosed(language, query, field)
    ensures OtherBracesClosed(language, language.Toggle(query, field, value), field)
  {
    hide Language.Tokenize, Language.Toggle, Trim, Language.NextValues, FieldValues, ReplacedTokens, Printed, CanToggle;
    var tokens := language.Tokenize(query);
    var next := language.NextValues(FieldValues(tokens, field), Trim(value));
    ClosedCanToggle(language, query, field, value);
    ToggleReadsBack(language, query, field, value);
    PrintedAreOwn(field, next);
    PrintedAreOwn(field, [Trim(value)]);
    ReplacedOpens(tokens, field, Printed(field, next));
  }

  /** Toggling the same value twice restores what the query asks for. */
  lemma ToggleTwiceRestores(language: Language, query: string, field: Field, value: string)
    requires language.Valid() && Trim(value) != "" && OtherBracesClosed(language, query, field)
    ensures var once := language.Toggle(query, field, value);
            var before, after := language.Parse(query), language.Parse(language.Toggle(once, field, value));
            ValueSet(after.fields, field) == ValueSet(before.fields, field) && SameElsewhere(before, after, field)
  {
    hide Language.Tokenize, Language.Toggle, Trim, Language.Normalize, Language.Parse, ValueSet, CanToggle, OtherBracesClosed;
    var once := language.Toggle(query, field, value);
    ClosedCanToggle(language, query, field, value);
    ToggleKeepsBracesClosed(language, query, field, value);
    ClosedCanToggle(language, once, field, value);
    ToggleChangesOneValue(language, query, field, value);
    ToggleChangesOneValue(language, once, field, value);
  }
}
