/** What the parts of a query mean, said about its text. */
module BrowseMeaning {
  import opened Text
  import opened Wrappers
  import opened BrowseSearch

  predicate IsSeparator(c: char) {
    c == ':' || c == '='
  }

  /** The names that a filter can have. */
  predicate IsFieldName(name: string, field: Field) {
    match field
    case Title => name == "title"
    case Url => name == "url"
    case Tag => name == "tag"
    case Category => name == "category"
    case Flashback => name == "flashback"
  }

  /** A colon or an equals sign, with neither of them nor white space before it. */
  lemma {:induction false} SeparatorIff(s: string, n: nat)
    ensures Separator(s) == Some(n) <==>
              n < |s| && IsSeparator(s[n]) && forall i :: 0 <= i < n ==> !IsSeparator(s[i]) && !IsSpace(s[i])
    decreases |s|
  {
    if s != "" && !IsSpace(s[0]) && !IsSeparator(s[0]) {
      if n > 0 {
        SeparatorIff(s[1..], n - 1);
        assert forall i :: 1 <= i < n && i < |s| ==> s[i] == s[1..][i - 1];
        assert forall i :: 0 <= i < n - 1 && i < |s| - 1 ==> s[1..][i] == s[i + 1];
      }
    } else if s != "" && IsSeparator(s[0]) {
      SeparatorNotSpace(s[0]);
    }
  }

  lemma SeparatorNotSpace(c: char)
    requires IsSeparator(c)
    ensures !IsSpace(c)
  {
  }

  lemma NamedIff(name: string, field: Field)
    ensures FieldNamed(name) == Some(field) <==> IsFieldName(name, field)
  {
  }

  /** The text starts with a field's name, in any case, and a separator; the value starts at `start`. */
  ghost predicate StartsField(language: Language, s: string, field: Field, start: nat) {
    && 1 <= start <= |s| && IsSeparator(s[start - 1])
    && (forall i :: 0 <= i < start - 1 ==> !IsSeparator(s[i]) && !IsSpace(s[i]))
    && IsFieldName(language.Fold(s[..start - 1]), field)
  }

  lemma FieldRead(language: Language, s: string, field: Field, start: nat)
    ensures 1 <= start && language.ReadField(s) == Some(NamedField(field, start - 1)) <==> StartsField(language, s, field, start)
  {
    hide Language.Fold, Separator, FieldNamed;
    if start >= 1 {
      SeparatorIff(s, start - 1);
      if start <= |s| {
        NamedIff(language.Fold(s[..start - 1]), field);
      }
    }
  }

  /** The first token of a text is a filter exactly when the text starts with a field's name and a separator. */
  lemma FirstIsFieldIff(language: Language, s: string)
    requires s != "" && !IsSpace(s[0])
    ensures language.First(s).FieldToken? <==> exists field, start: nat :: StartsField(language, s, field, start)
    ensures language.First(s).TermToken? ==> language.First(s).text == s[..RunLength(s)]
  {
    hide Trim, ReadBraced, Language.ReadField, StartsField;
    if language.ReadField(s).Some? {
      var named := language.ReadField(s).value;
      FieldRead(language, s, named.field, named.end + 1);
    }
    if field, start: nat :| StartsField(language, s, field, start) {
      FieldRead(language, s, field, start);
    }
  }

  /**
   The filter whose value starts here: the value goes up to the closing brace if it starts with a brace
   that is closed, and otherwise up to white space.
   */
  function FieldTokenAt(s: string, field: Field, start: nat): Token
    requires start <= RunLength(s)
  {
    var braced := if start < |s| && s[start] == '{' then ReadBraced(s[start + 1..]) else None;
    if braced.Some? then FieldToken(field, true, Trim(braced.value.value), s[..start + 1 + braced.value.length])
    else FieldToken(field, false, Trim(s[start..RunLength(s)]), s[..RunLength(s)])
  }

  lemma FieldTokenIs(language: Language, s: string, field: Field, start: nat)
    requires s != "" && !IsSpace(s[0]) && StartsField(language, s, field, start)
    ensures start <= RunLength(s) && language.First(s) == FieldTokenAt(s, field, start)
  {
    hide Trim, ReadBraced, Language.ReadField, RunLength, StartsField, Separator, Language.Fold, FieldNamed;
    FieldRead(language, s, field, start);
    Language.SeparatorInRun(s);
  }

  // Values

  /** Splitting at ampersands: joined again the parts are the text, and no part has an ampersand. */
  lemma {:induction false} SplitIs(s: string)
    ensures Join(Split(s), "&") == s && forall part <- Split(s) :: forall c <- part :: c != '&'
  {
    if s != "" {
      SplitIs(s[1..]);
      var rest := Split(s[1..]);
      if s[0] == '&' {
        assert ([""] + rest)[1..] == rest;
      } else {
        var parts := [[s[0]] + rest[0]] + rest[1..];
        assert parts[1..] == rest[1..];
        assert s == [s[0]] + s[1..];
        if |rest| > 1 {
          assert [s[0]] + (rest[0] + "&" + Join(rest[1..], "&")) == [s[0]] + rest[0] + "&" + Join(rest[1..], "&");
        }
        forall part <- parts
          ensures forall c <- part :: c != '&'
        {
          if part == parts[0] {
            assert rest[0] in rest;
          } else {
            assert part in rest;
          }
        }
      }
    }
  }

  lemma {:induction false} TrimmedAppend(a: seq<string>, b: seq<string>)
    ensures TrimmedNonEmpty(a + b) == TrimmedNonEmpty(a) + TrimmedNonEmpty(b)
  {
    hide Trim;
    if a == [] {
      assert a + b == b;
    } else {
      assert (a + b)[1..] == a[1..] + b;
      TrimmedAppend(a[1..], b);
    }
  }

  lemma OneTrimmed(part: string)
    ensures TrimmedNonEmpty([]) == [] && TrimmedNonEmpty([part]) == if Trim(part) == "" then [] else [Trim(part)]
  {
    hide Trim;
    assert [part][1..] == [];
  }

  /** A braced value is one value; any other one is as many as there are parts between ampersands that are not blank. */
  lemma ValuesAre(token: Token, parts: seq<string>, part: string)
    requires token.FieldToken?
    ensures token.braced ==> TokenValues(token) == if Trim(token.value) == "" then [] else [Trim(token.value)]
    ensures !token.braced ==> TokenValues(token) == TrimmedNonEmpty(Split(token.value))
    ensures TrimmedNonEmpty(parts + [part]) == TrimmedNonEmpty(parts) + if Trim(part) == "" then [] else [Trim(part)]
  {
    hide Trim;
    OneTrimmed(token.value);
    OneTrimmed(part);
    TrimmedAppend(parts, [part]);
  }

  // What a query asks for

  /** The normalised values that are not empty, for one field. */
  lemma {:induction false} FilterValuesAre(language: Language, field: Field, values: seq<string>, filter: Filter)
    ensures filter in language.NormalizedFilters(field, values)
       <==> filter.field == field && filter.value != ""
            && exists i :: 0 <= i < |values| && language.Fold(Trim(values[i])) == filter.value
  {
    hide Language.Fold, Trim;
    if values != [] {
      FilterValuesAre(language, field, values[1..], filter);
      assert values == [values[0]] + values[1..];
      assert language.Normalize(values[0]) == language.Fold(Trim(values[0]));
      if i :| 0 <= i < |values| && language.Fold(Trim(values[i])) == filter.value {
        assert i > 0 ==> values[1..][i - 1] == values[i];
      }
      if i :| 0 <= i < |values[1..]| && language.Fold(Trim(values[1..][i])) == filter.value {
        assert values[i + 1] == values[1..][i];
      }
      assert filter == Filter(filter.field, filter.value);
    }
  }

  /** The filters of a query are the normalised values of its field tokens. */
  lemma {:induction false} FiltersAre(language: Language, tokens: seq<Token>, filter: Filter)
    ensures filter in language.Filters(tokens) <==> filter.value != "" && exists i :: IsFilterOf(language, tokens, filter, i)
  {
    hide Language.Fold, Trim, TokenValues, Language.NormalizedFilters;
    if tokens != [] {
      FiltersAre(language, tokens[1..], filter);
      if tokens[0].FieldToken? {
        FilterValuesAre(language, tokens[0].field, TokenValues(tokens[0]), filter);
      }
      if i :| IsFilterOf(language, tokens, filter, i) {
        assert i > 0 ==> tokens[1..][i - 1] == tokens[i] && IsFilterOf(language, tokens[1..], filter, i - 1);
      }
      if i :| IsFilterOf(language, tokens[1..], filter, i) {
        assert IsFilterOf(language, tokens, filter, i + 1);
      }
      if tokens[0].FieldToken? && filter in language.NormalizedFilters(tokens[0].field, TokenValues(tokens[0])) {
        assert IsFilterOf(language, tokens, filter, 0);
      }
    }
  }

  ghost predicate IsFilterOf(language: Language, tokens: seq<Token>, filter: Filter, i: int) {
    && 0 <= i < |tokens| && tokens[i].FieldToken? && tokens[i].field == filter.field
    && exists k :: 0 <= k < |TokenValues(tokens[i])| && language.Fold(Trim(TokenValues(tokens[i])[k])) == filter.value
  }

  /** The free terms are the normalised texts of the other tokens, in order, except for the two words about reading. */
  lemma {:induction false} FreeTermsAre(language: Language, tokens: seq<Token>, token: Token)
    ensures language.FreeTerms([]) == []
    ensures language.FreeTerms(tokens + [token])
         == language.FreeTerms(tokens)
            + if token.FieldToken? then []
              else
                var term := language.Fold(Trim(token.text));
                if term == "" || term == "read" || term == "unread" then [] else [term]
  {
    hide Language.Fold, Trim;
    if tokens == [] {
      assert tokens + [token] == [token] && [token][1..] == [];
    } else {
      assert (tokens + [token])[1..] == tokens[1..] + [token];
      FreeTermsAre(language, tokens[1..], token);
    }
  }

  /** The read state asked for is what the words about reading say; both of them ask for nothing that there is. */
  lemma ReadStateIs(language: Language, tokens: seq<Token>)
    ensures var read := exists i :: 0 <= i < |tokens| && tokens[i].TermToken? && language.Fold(Trim(tokens[i].text)) == "read";
            var unread := exists i :: 0 <= i < |tokens| && tokens[i].TermToken? && language.Fold(Trim(tokens[i].text)) == "unread";
            match language.ReadStateOf(tokens)
            case Both => read && unread
            case Read => read && !unread
            case Unread => unread && !read
            case All => !read && !unread
  {
    hide Language.Fold, Trim;
  }

  /** A query means what its tokens mean. */
  lemma ParseIs(language: Language, query: string)
    ensures var tokens := language.Tokenize(query);
            language.Parse(query) == Search(language.Filters(tokens), language.FreeTerms(tokens), language.ReadStateOf(tokens))
  {
    hide Language.Tokenize, Language.Filters, Language.FreeTerms, Language.ReadStateOf;
  }

  /** Tokens are read one after the other, each from the first character that is not white space. */
  lemma TokensFollow(language: Language, s: string)
    ensures AllSpace(s) <==> language.Tokenize(s) == []
    ensures !AllSpace(s) ==>
              exists gap, rest ::
                && s == gap + rest && AllSpace(gap) && rest != "" && !IsSpace(rest[0])
                && var first := language.First(rest);
                   language.Tokenize(s) == [first] + language.Tokenize(rest[|first.text|..])
  {
    hide Language.First;
    var gap := StartTakesSpace(s);
    var rest := TrimStart(s);
    Language.TrimStartShortens(s);
    if rest != "" {
      assert s[|gap|] == rest[0];
      assert s == gap + rest && AllSpace(gap) && rest != "" && !IsSpace(rest[0]);
    }
  }
}
