/** Printed filters are read back as the values they were printed from. */
module BrowsePrinting {
  import opened Text
  import opened Wrappers
  import opened BrowseSearch
  import opened BrowseTokens
  import opened BrowseReadState

  /** A value as tokens carry it: trimmed and not empty. */
  predicate IsClean(value: string) {
    value != "" && Trim(value) == value
  }

  predicate AllClean(values: seq<string>) {
    forall i :: 0 <= i < |values| ==> IsClean(values[i])
  }

  // Cleaning

  lemma {:induction false} TrimmedIsClean(parts: seq<string>)
    ensures AllClean(TrimmedNonEmpty(parts))
  {
    if parts != [] {
      TrimTrims(parts[0]);
      TrimmedIsClean(parts[1..]);
    }
  }

  lemma {:induction false} CleanStays(values: seq<string>)
    requires AllClean(values)
    ensures TrimmedNonEmpty(values) == values
  {
    if values != [] {
      CleanStays(values[1..]);
      assert IsClean(values[0]);
      assert values == [values[0]] + values[1..];
    }
  }

  lemma {:induction false} FieldValuesAreClean(tokens: seq<Token>, field: Field)
    ensures AllClean(FieldValues(tokens, field))
  {
    if tokens != [] {
      FieldValuesAreClean(tokens[1..], field);
      if OwnToken(tokens[0], field) {
        if tokens[0].braced {
          TrimmedIsClean([tokens[0].value]);
        } else {
          TrimmedIsClean(Split(tokens[0].value));
        }
      }
    }
  }

  lemma SimpleIsClean(value: string)
    requires IsSimple(value)
    ensures IsClean(value) && NoSpace(value)
  {
    TrimNoSpace(value);
  }

  // Joining and splitting

  predicate NoAmpersand(s: string) {
    forall i :: 0 <= i < |s| ==> s[i] != '&'
  }

  lemma {:induction false} SplitWhole(s: string)
    requires NoAmpersand(s)
    ensures Split(s) == [s]
  {
    if s != "" {
      SplitWhole(s[1..]);
      assert [s[0]] + s[1..] == s;
    }
  }

  lemma {:induction false} SplitFirst(s: string, rest: string)
    requires NoAmpersand(s)
    ensures Split(s + "&" + rest) == [s] + Split(rest)
  {
    if s == "" {
      assert s + "&" + rest == "&" + rest;
      assert ("&" + rest)[1..] == rest;
    } else {
      SplitFirst(s[1..], rest);
      assert (s + "&" + rest)[1..] == s[1..] + "&" + rest;
      assert [s[0]] + s[1..] == s;
    }
  }

  lemma {:induction false} SplitJoined(values: seq<string>)
    requires values != [] && AllSimple(values)
    ensures Split(Join(values, "&")) == values
  {
    assert NoAmpersand(values[0]) by { assert IsSimple(values[0]); }
    if |values| == 1 {
      SplitWhole(values[0]);
    } else {
      SplitFirst(values[0], Join(values[1..], "&"));
      assert AllSimple(values[1..]);
      SplitJoined(values[1..]);
    }
  }

  predicate IsBare(s: string) {
    forall i :: 0 <= i < |s| ==> !IsSpace(s[i]) && s[i] != '{' && s[i] != '}'
  }

  lemma {:induction false} JoinedIsBare(values: seq<string>)
    requires values != [] && AllSimple(values)
    ensures Join(values, "&") != "" && IsBare(Join(values, "&"))
  {
    assert IsSimple(values[0]);
    if |values| > 1 {
      assert AllSimple(values[1..]);
      JoinedIsBare(values[1..]);
    }
  }

  // Escaping

  lemma {:induction false} EscapeReadsBack(value: string, rest: string)
    ensures ReadBraced(Escape(value) + "}" + rest) == Some(Braced(value, |Escape(value)| + 1))
  {
    var s := Escape(value) + "}" + rest;
    if value == "" {
      assert s == "}" + rest;
    } else {
      var tail := Escape(value[1..]) + "}" + rest;
      EscapeReadsBack(value[1..], rest);
      assert value == [value[0]] + value[1..];
      if value[0] == '\\' || value[0] == '{' || value[0] == '}' {
        assert s == ['\\', value[0]] + tail;
        assert s[2..] == tail;
      } else {
        assert s == [value[0]] + tail;
        assert s[1..] == tail;
      }
    }
  }

  // Printed tokens

  function BareToken(field: Field, value: string): Token {
    FieldToken(field, false, value, FieldName(field) + "=" + value)
  }

  function BracedToken(field: Field, value: string): Token {
    FieldToken(field, true, value, FieldName(field) + "={" + Escape(value) + "}")
  }

  function PrintedEach(field: Field, values: seq<string>): seq<Token> {
    if values == [] then []
    else
      [if IsSimple(values[0]) then BareToken(field, values[0]) else BracedToken(field, values[0])]
      + PrintedEach(field, values[1..])
  }

  /** The tokens that printing these values is meant to write. */
  function Printed(field: Field, values: seq<string>): seq<Token> {
    if values == [] then []
    else if AllSimple(values) then [BareToken(field, Join(values, "&"))]
    else PrintedEach(field, values)
  }

  lemma {:induction false} PrintedEachTexts(field: Field, values: seq<string>)
    ensures Texts(PrintedEach(field, values)) == FormatEach(field, values)
  {
    if values != [] {
      PrintedEachTexts(field, values[1..]);
    }
  }

  lemma PrintedTexts(field: Field, values: seq<string>)
    requires AllClean(values)
    ensures Texts(Printed(field, values)) == FormatTokens(field, values)
  {
    CleanStays(values);
    PrintedEachTexts(field, values);
  }

  predicate OwnTokens(tokens: seq<Token>, field: Field) {
    forall i :: 0 <= i < |tokens| ==> OwnToken(tokens[i], field) && !IsOpen(tokens[i])
  }

  lemma {:induction false} PrintedEachAreOwn(field: Field, values: seq<string>)
    ensures OwnTokens(PrintedEach(field, values), field)
  {
    if values != [] {
      PrintedEachAreOwn(field, values[1..]);
    }
  }

  lemma PrintedAreOwn(field: Field, values: seq<string>)
    ensures OwnTokens(Printed(field, values), field)
  {
    PrintedEachAreOwn(field, values);
    if values != [] && AllSimple(values) {
      JoinedIsBare(values);
    }
  }

  lemma OnePrintedValue(field: Field, value: string)
    requires IsClean(value)
    ensures var token := if IsSimple(value) then BareToken(field, value) else BracedToken(field, value);
            OwnToken(token, field) && TokenValues(token) == [value]
  {
    assert TrimmedNonEmpty([value]) == [value] by {
      assert [value][1..] == [];
    }
    if IsSimple(value) {
      SplitWhole(value);
    }
  }

  lemma {:induction false} PrintedEachValues(field: Field, values: seq<string>)
    requires AllClean(values)
    ensures FieldValues(PrintedEach(field, values), field) == values
  {
    hide TokenValues, IsSimple, BareToken, BracedToken, IsClean;
    if values != [] {
      PrintedEachValues(field, values[1..]);
      assert IsClean(values[0]);
      OnePrintedValue(field, values[0]);
      var printed := PrintedEach(field, values);
      assert printed[1..] == PrintedEach(field, values[1..]);
      assert values == [values[0]] + values[1..];
    }
  }

  /** Printing and reading back gives the values again, in order. */
  lemma PrintedValues(field: Field, values: seq<string>)
    requires AllClean(values)
    ensures FieldValues(Printed(field, values), field) == values
  {
    if values != [] {
      if AllSimple(values) {
        SplitJoined(values);
        CleanStays(values);
        assert FieldValues(Printed(field, values)[1..], field) == [];
        assert TokenValues(Printed(field, values)[0]) == values;
      } else {
        PrintedEachValues(field, values);
      }
    }
  }

  // Printed tokens stand alone

  lemma {:induction false} SeparatorAt(name: string, rest: string)
    requires forall i :: 0 <= i < |name| ==> 'a' <= name[i] <= 'z'
    ensures Separator(name + "=" + rest) == Some(|name|)
  {
    var s := name + "=" + rest;
    if name == "" {
      assert s[0] == '=';
    } else {
      assert s[0] == name[0] && s[1..] == name[1..] + "=" + rest;
      SeparatorAt(name[1..], rest);
    }
  }

  lemma NamesAreLowerCase(field: Field)
    ensures var name := FieldName(field);
            name != "" && FieldNamed(name) == Some(field) && forall i :: 0 <= i < |name| ==> 'a' <= name[i] <= 'z'
  {
  }

  lemma FieldIsRead(language: Language, field: Field, rest: string)
    requires language.Valid()
    ensures language.ReadField(FieldName(field) + "=" + rest) == Some(NamedField(field, |FieldName(field)|))
  {
    var name := FieldName(field);
    NamesAreLowerCase(field);
    SeparatorAt(name, rest);
    FoldCaseless(language, name);
    assert (name + "=" + rest)[..|name|] == name;
  }

  lemma NameStarts(field: Field, rest: string)
    ensures var s := FieldName(field) + "=" + rest;
            s != "" && !IsSpace(s[0]) && s[0] == FieldName(field)[0] && s[|FieldName(field)| + 1..] == rest
  {
    NamesAreLowerCase(field);
  }

  lemma BareStandsAlone(language: Language, field: Field, value: string)
    requires language.Valid() && value != "" && IsBare(value)
    ensures Standalone(language, BareToken(field, value))
  {
    hide Language.First, Language.ReadField, Language.Fold, Trim, Separator, RunLength;
    var name := FieldName(field);
    var s := name + "=" + value;
    NamesAreLowerCase(field);
    NameStarts(field, value);
    FieldIsRead(language, field, value);
    assert s[|name| + 1] == value[0];
    assert s[..|s|] == s;
    RunLengthIs(s, |s|);
    UnbracedFirstIs(language, s, NamedField(field, |name|));
    assert s[|name| + 1..|s|] == value;
    TrimNoSpace(value);
  }

  lemma BracedStandsAlone(language: Language, field: Field, value: string)
    requires language.Valid() && IsClean(value)
    ensures Standalone(language, BracedToken(field, value))
  {
    hide Language.First, Language.ReadField, Language.Fold, Trim, Separator, RunLength, ReadBraced, Escape, FieldName, IsSpace;
    var name := FieldName(field);
    var body := Escape(value) + "}";
    var s := name + "=" + ("{" + body);
    NameStarts(field, "{" + body);
    FieldIsRead(language, field, "{" + body);
    EscapeReadsBack(value, "");
    assert body + "" == body;
    assert s[|name| + 1] == '{';
    assert s[|name| + 2..] == body;
    BracedFirstIs(language, s, NamedField(field, |name|), Braced(value, |body|));
    assert s[..|s|] == s;
    assert s == name + "={" + Escape(value) + "}";
  }

  lemma {:induction false} PrintedEachStandAlone(language: Language, field: Field, values: seq<string>)
    requires language.Valid() && AllClean(values)
    ensures AllStandalone(language, PrintedEach(field, values))
  {
    hide Standalone;
    if values != [] {
      PrintedEachStandAlone(language, field, values[1..]);
      assert IsClean(values[0]);
      if IsSimple(values[0]) {
        BareStandsAlone(language, field, values[0]);
      } else {
        BracedStandsAlone(language, field, values[0]);
      }
    }
  }

  lemma PrintedStandAlone(language: Language, field: Field, values: seq<string>)
    requires language.Valid() && AllClean(values)
    ensures AllStandalone(language, Printed(field, values))
  {
    hide Standalone;
    if values != [] && AllSimple(values) {
      JoinedIsBare(values);
      BareStandsAlone(language, field, Join(values, "&"));
    } else {
      PrintedEachStandAlone(language, field, values);
    }
  }

  /** The whole round trip on a query of its own: the printed query holds exactly the given values. */
  lemma PrintedQueryReadsBack(language: Language, field: Field, values: seq<string>)
    requires language.Valid() && AllClean(values)
    ensures FieldValues(language.Tokenize(Join(FormatTokens(field, values), " ")), field) == values
  {
    PrintedTexts(field, values);
    PrintedAreOwn(field, values);
    PrintedStandAlone(language, field, values);
    NoOpenIsSafe(Printed(field, values));
    JoinedTokensReadBack(language, Printed(field, values));
    PrintedValues(field, values);
  }

  lemma {:induction false} NoOpenIsSafe(tokens: seq<Token>)
    requires forall i :: 0 <= i < |tokens| ==> !IsOpen(tokens[i])
    ensures OpenSafe(tokens)
  {
    if tokens != [] {
      NoOpenIsSafe(tokens[1..]);
    }
  }

  /** A printed list closes a brace exactly when some value needs braces. */
  lemma PrintedNoneCloses(language: Language, field: Field, values: seq<string>)
    requires language.Valid() && AllClean(values)
    ensures NoneCloses(Printed(field, values)) <==> AllSimple(values)
  {
    hide Standalone, NeverCloses;
    if values != [] && AllSimple(values) {
      JoinedIsBare(values);
      BareNeverCloses(field, Join(values, "&"));
    } else if values != [] {
      PrintedEachCloses(language, field, values);
    }
  }

  lemma BareNeverCloses(field: Field, value: string)
    requires IsBare(value)
    ensures NeverCloses(BareToken(field, value).text)
  {
    var text := FieldName(field) + "=" + value;
    NamesAreLowerCase(field);
    assert forall i :: 0 <= i < |text| ==> text[i] != '}' by {
      forall i | 0 <= i < |text|
        ensures text[i] != '}'
      {
        if i > |FieldName(field)| {
          assert text[i] == value[i - |FieldName(field)| - 1];
        }
      }
    }
    NoBraceNeverCloses(text);
  }

  lemma BracedTextCloses(language: Language, field: Field, value: string)
    requires language.Valid() && IsClean(value)
    ensures !NeverCloses(BracedToken(field, value).text)
  {
    hide Standalone, NeverCloses, Trim, Escape;
    BracedStandsAlone(language, field, value);
    BracedTokenCloses(language, BracedToken(field, value));
  }

  lemma {:induction false} PrintedEachCloses(language: Language, field: Field, values: seq<string>)
    requires language.Valid() && AllClean(values) && !AllSimple(values)
    ensures !NoneCloses(PrintedEach(field, values))
  {
    hide NeverCloses, IsSimple, IsClean, BareToken, BracedToken;
    var printed := PrintedEach(field, values);
    var rest := PrintedEach(field, values[1..]);
    assert printed[1..] == rest;
    if IsSimple(values[0]) {
      assert values == [values[0]] + values[1..];
      assert !AllSimple(values[1..]);
      PrintedEachCloses(language, field, values[1..]);
      var i :| 0 <= i < |rest| && !NeverCloses(rest[i].text);
      assert printed[i + 1] == rest[i];
    } else {
      assert IsClean(values[0]);
      BracedTextCloses(language, field, values[0]);
      assert printed[0] == BracedToken(field, values[0]);
    }
  }
}
