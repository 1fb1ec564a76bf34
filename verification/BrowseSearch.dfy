/**
 The browse query language: how a query is cut into tokens, what the tokens mean, and how filters
 are printed back. Everything is defined on the text that is still to be read.
 */
module BrowseSearch {

  import opened Text
  import opened Wrappers

  datatype Field = Title | Url | Tag | Category | Flashback

  function FieldName(field: Field): string {
    match field
    case Title => "title"
    case Url => "url"
    case Tag => "tag"
    case Category => "category"
    case Flashback => "flashback"
  }

  function FieldNamed(name: string): Option<Field> {
    if name == "title" then Some(Title)
    else if name == "url" then Some(Url)
    else if name == "tag" then Some(Tag)
    else if name == "category" then Some(Category)
    else if name == "flashback" then Some(Flashback)
    else None
  }

  ghost predicate NoSpace(s: string) {
    forall i :: 0 <= i < |s| ==> !IsSpace(s[i])
  }

  /** The length of the leading run of characters that are not white space. */
  function RunLength(s: string): (n: nat)
    ensures n <= |s| && NoSpace(s[..n]) && (n < |s| ==> IsSpace(s[n]))
  {
    if s == "" || IsSpace(s[0]) then 0
    else
      var n := 1 + RunLength(s[1..]);
      assert s[..n] == [s[0]] + s[1..][..n - 1];
      n
  }

  /** The first `:` or `=` before any white space. */
  function Separator(s: string): (r: Option<nat>)
    ensures r.Some? ==> r.value < |s| && (s[r.value] == ':' || s[r.value] == '=') && NoSpace(s[..r.value + 1])
    ensures r.Some? ==> forall i :: 0 <= i < r.value ==> s[i] != ':' && s[i] != '='
  {
    if s == "" || IsSpace(s[0]) then None
    else if s[0] == ':' || s[0] == '=' then Some(0)
    else
      var r := Separator(s[1..]);
      if r.None? then None
      else
        assert s[..r.value + 2] == [s[0]] + s[1..][..r.value + 1];
        Some(r.value + 1)
  }

  datatype Braced = Braced(value: string, length: nat)

  /** The value up to the first unescaped closing brace, with escapes removed. */
  function ReadBraced(s: string): (r: Option<Braced>)
    ensures r.Some? ==> 0 < r.value.length <= |s|
    decreases |s|
  {
    if s == "" then None
    else if s[0] == '\\' then
      if |s| == 1 then None
      else
        var r := ReadBraced(s[2..]);
        if r.None? then None else Some(Braced([s[1]] + r.value.value, r.value.length + 2))
    else if s[0] == '}' then Some(Braced("", 1))
    else
      var r := ReadBraced(s[1..]);
      if r.None? then None else Some(Braced([s[0]] + r.value.value, r.value.length + 1))
  }

  datatype NamedField = NamedField(field: Field, end: nat)

  datatype Token =
    | FieldToken(field: Field, braced: bool, value: string, text: string)
    | TermToken(text: string)

  function Split(s: string): (parts: seq<string>)
    ensures parts != []
  {
    if s == "" then [""]
    else
      var rest := Split(s[1..]);
      if s[0] == '&' then [""] + rest else [[s[0]] + rest[0]] + rest[1..]
  }

  function TrimmedNonEmpty(parts: seq<string>): seq<string> {
    if parts == [] then []
    else
      var part := Trim(parts[0]);
      (if part == "" then [] else [part]) + TrimmedNonEmpty(parts[1..])
  }

  function TokenValues(token: Token): seq<string>
    requires token.FieldToken?
  {
    if token.braced then TrimmedNonEmpty([token.value]) else TrimmedNonEmpty(Split(token.value))
  }

  function FieldValues(tokens: seq<Token>, field: Field): seq<string> {
    if tokens == [] then []
    else
      (if tokens[0].FieldToken? && tokens[0].field == field then TokenValues(tokens[0]) else [])
      + FieldValues(tokens[1..], field)
  }

  function Join(parts: seq<string>, separator: string): string {
    if parts == [] then ""
    else if |parts| == 1 then parts[0]
    else parts[0] + separator + Join(parts[1..], separator)
  }

  function Texts(tokens: seq<Token>): (texts: seq<string>)
    ensures |texts| == |tokens|
  {
    if tokens == [] then [] else [tokens[0].text] + Texts(tokens[1..])
  }

  // Printing

  predicate IsSimple(value: string) {
    value != "" && forall i :: 0 <= i < |value| ==> !IsSpace(value[i]) && value[i] != '&' && value[i] != '{' && value[i] != '}'
  }

  predicate AllSimple(values: seq<string>) {
    forall i :: 0 <= i < |values| ==> IsSimple(values[i])
  }

  function Escape(value: string): string {
    if value == "" then ""
    else (if value[0] == '\\' || value[0] == '{' || value[0] == '}' then ['\\', value[0]] else [value[0]]) + Escape(value[1..])
  }

  function FormatOne(field: Field, value: string): string {
    if IsSimple(value) then FieldName(field) + "=" + value
    else FieldName(field) + "={" + Escape(value) + "}"
  }

  function FormatEach(field: Field, values: seq<string>): seq<string> {
    if values == [] then [] else [FormatOne(field, values[0])] + FormatEach(field, values[1..])
  }

  function FormatTokens(field: Field, values: seq<string>): seq<string> {
    var cleaned := TrimmedNonEmpty(values);
    if cleaned == [] then []
    else if AllSimple(cleaned) then [FieldName(field) + "=" + Join(cleaned, "&")]
    else FormatEach(field, cleaned)
  }

  datatype ReadState = All | Both | Read | Unread

  datatype Filter = Filter(field: Field, value: string)

  datatype Search = Search(fields: seq<Filter>, freeTerms: seq<string>, readState: ReadState)

  predicate OwnToken(token: Token, field: Field) {
    token.FieldToken? && token.field == field
  }

  /** The characters that lower-casing leaves alone: white space and ASCII other than capital letters. */
  predicate Caseless(c: char) {
    IsSpace(c) || (c < '\U{80}' && !('A' <= c <= 'Z'))
  }

  /** A query language for one way of lower-casing characters. */
  datatype Language = Language(lower: char -> string) {

    ghost predicate Valid() {
      && (forall c :: Caseless(c) ==> lower(c) == [c])
      && (forall c :: lower(c) != "")
      && (forall c :: !IsSpace(c) ==> NoSpace(lower(c)))
    }

    function Fold(s: string): string {
      if s == "" then "" else lower(s[0]) + Fold(s[1..])
    }

    function Normalize(s: string): string {
      Fold(Trim(s))
    }

    // Tokens

    /** A field name directly before the first separator, and the position of that separator. */
    function ReadField(s: string): (r: Option<NamedField>)
      ensures r.Some? ==> Separator(s) == Some(r.value.end)
    {
      var separator := Separator(s);
      if separator.None? then None
      else
        var field := FieldNamed(Fold(s[..separator.value]));
        if field.None? then None else Some(NamedField(field.value, separator.value))
    }

    /** The braced value at the start of a field's value, if there is a closing brace. */
    static function ReadBracedValue(s: string, start: nat): (r: Option<Braced>)
      ensures r.Some? ==> start < |s| && 0 < r.value.length <= |s| - start - 1
    {
      if start < |s| && s[start] == '{' then ReadBraced(s[start + 1..]) else None
    }

    /** The token at the start of a text that starts with a character other than white space. */
    function First(s: string): (token: Token)
      requires s != "" && !IsSpace(s[0])
      ensures 0 < |token.text| <= |s| && token.text <= s
    {
      var run := RunLength(s);
      assert 0 < run;
      var field := ReadField(s);
      if field.None? then TermToken(s[..run])
      else
        var start := field.value.end + 1;
        assert start <= run by { SeparatorInRun(s); }
        var braced := ReadBracedValue(s, start);
        if braced.Some? then
          FieldToken(field.value.field, true, Trim(braced.value.value), s[..start + 1 + braced.value.length])
        else FieldToken(field.value.field, false, Trim(s[start..run]), s[..run])
    }

    static lemma SeparatorInRun(s: string)
      requires Separator(s).Some?
      ensures Separator(s).value + 1 <= RunLength(s)
    {
      if s[0] != ':' && s[0] != '=' {
        SeparatorInRun(s[1..]);
      }
    }

    static lemma TrimStartShortens(s: string)
      ensures |TrimStart(s)| <= |s|
      ensures TrimStart(s) != "" ==> !IsSpace(TrimStart(s)[0])
    {
    }

    function Tokenize(s: string): seq<Token>
      decreases |s|
    {
      var rest := TrimStart(s);
      assert |rest| <= |s| && (rest != "" ==> !IsSpace(rest[0])) by { TrimStartShortens(s); }
      if rest == "" then []
      else
        var token := First(rest);
        [token] + Tokenize(rest[|token.text|..])
    }

    // Meaning

    function NormalizedFilters(field: Field, values: seq<string>): seq<Filter> {
      if values == [] then []
      else
        var value := Normalize(values[0]);
        (if value == "" then [] else [Filter(field, value)]) + NormalizedFilters(field, values[1..])
    }

    function Filters(tokens: seq<Token>): seq<Filter> {
      if tokens == [] then []
      else
        (if tokens[0].FieldToken? then NormalizedFilters(tokens[0].field, TokenValues(tokens[0])) else [])
        + Filters(tokens[1..])
    }

    predicate IsReadTerm(token: Token) {
      token.TermToken? && Normalize(token.text) == "read"
    }

    predicate IsUnreadTerm(token: Token) {
      token.TermToken? && Normalize(token.text) == "unread"
    }

    predicate IsReadStateTerm(token: Token) {
      IsReadTerm(token) || IsUnreadTerm(token)
    }

    function FreeTerms(tokens: seq<Token>): seq<string> {
      if tokens == [] then []
      else
        var term := if tokens[0].TermToken? then Normalize(tokens[0].text) else "";
        (if term == "" || IsReadStateTerm(tokens[0]) then [] else [term]) + FreeTerms(tokens[1..])
    }

    function ReadStateOf(tokens: seq<Token>): ReadState {
      var read := exists i :: 0 <= i < |tokens| && IsReadTerm(tokens[i]);
      var unread := exists i :: 0 <= i < |tokens| && IsUnreadTerm(tokens[i]);
      if read && unread then Both else if read then Read else if unread then Unread else All
    }

    function Parse(query: string): Search {
      var tokens := Tokenize(query);
      Search(Filters(tokens), FreeTerms(tokens), ReadStateOf(tokens))
    }

    // Read-state edits

    function WithoutReadState(tokens: seq<Token>): seq<Token> {
      if tokens == [] then []
      else (if IsReadStateTerm(tokens[0]) then [] else [tokens[0]]) + WithoutReadState(tokens[1..])
    }

    /** The choice offered to the reader: all, read or unread. */
    function ReadStateFilter(query: string): ReadState {
      var state := Parse(query).readState;
      if state == Both then All else state
    }

    function SetReadState(query: string, choice: ReadState): string
      requires choice != Both
    {
      var parts := Texts(WithoutReadState(Tokenize(query)));
      Join(parts + (match choice case Read => ["read"] case Unread => ["unread"] case _ => []), " ")
    }

    // Toggling a filter

    predicate HasValue(values: seq<string>, target: string) {
      exists i :: 0 <= i < |values| && Normalize(values[i]) == target
    }

    function Without(values: seq<string>, target: string): seq<string> {
      if values == [] then []
      else (if Normalize(values[0]) == target then [] else [values[0]]) + Without(values[1..], target)
    }

    function NextValues(values: seq<string>, targetValue: string): seq<string> {
      var target := Normalize(targetValue);
      if HasValue(values, target) then Without(values, target) else values + [targetValue]
    }

    /** The other tokens' texts, with the printed filter where the first own token was. */
    function Replaced(tokens: seq<Token>, field: Field, printed: seq<string>): seq<string> {
      if tokens == [] then []
      else if OwnToken(tokens[0], field) then printed + Replaced(tokens[1..], field, [])
      else [tokens[0].text] + Replaced(tokens[1..], field, printed)
    }

    function Toggle(query: string, field: Field, value: string): string {
      var targetValue := Trim(value);
      if targetValue == "" then query
      else
        var tokens := Tokenize(query);
        var values := FieldValues(tokens, field);
        var replaced := Replaced(tokens, field, FormatTokens(field, NextValues(values, targetValue)));
        Join(if values == [] then replaced + FormatTokens(field, [targetValue]) else replaced, " ")
    }
  }
}
