/**
 Alert rows and their generations: the text that approvals are computed from, and the `where` clause
 that finds exactly the approved row, are two forms of one equality.
 */
module FailsafeAlerts {

  import T = Text
  import opened Wrappers

  datatype Kind = PathDrift | ContentInconsistent | RepositoryMissing | PushFailed

  function KindName(kind: Kind): string {
    match kind
    case PathDrift => "backup_path_drift"
    case ContentInconsistent => "backup_content_inconsistent"
    case RepositoryMissing => "backup_repository_missing"
    case PushFailed => "backup_push_failed"
  }

  /** An alert row; times are in milliseconds. */
  datatype Alert = Alert(
    id: string, kind: Kind, severity: string, message: string,
    previousProjectPath: Option<string>, previousStorePath: Option<string>,
    currentProjectPath: string, currentStorePath: string,
    gitRemote: string, gitRemoteUrl: Option<string>, gitBranch: string,
    error: Option<string>, createdAt: int, updatedAt: int)

  // JSON text

  datatype Json = Null | Text(text: string) | Number(number: int)

  /** How `JSON.stringify` writes one character of a string. */
  function Escaped(c: char): string {
    if c == '"' then "\\\""
    else if c == '\\' then "\\\\"
    else if c == '\U{08}' then "\\b"
    else if c == '\t' then "\\t"
    else if c == '\n' then "\\n"
    else if c == '\U{0c}' then "\\f"
    else if c == '\r' then "\\r"
    else if c < ' ' then ['\\', 'u', '0', '0', T.HexDigit(c as int / 16), T.HexDigit(c as int % 16)]
    else [c]
  }

  function EscapedText(s: string): string {
    if s == "" then "" else Escaped(s[0]) + EscapedText(s[1..])
  }

  function Digits(n: nat): string {
    (if n < 10 then "" else Digits(n / 10)) + [Digit(n % 10)]
  }

  function Digit(n: nat): char
    requires n < 10
  {
    '0' + n as char
  }

  function Written(json: Json): string {
    match json
    case Null => "null"
    case Text(text) => "\"" + EscapedText(text) + "\""
    case Number(number) => if number < 0 then "-" + Digits(-number) else Digits(number)
  }

  function Elements(values: seq<Json>): string {
    if values == [] then ""
    else if |values| == 1 then Written(values[0])
    else Written(values[0]) + "," + Elements(values[1..])
  }

  function Stringify(values: seq<Json>): string {
    "[" + Elements(values) + "]"
  }

  function Nullable(value: Option<string>): Json {
    if value.None? then Null else Text(value.value)
  }

  function Fields(alert: Alert): seq<Json> {
    [ Text(alert.id), Text(KindName(alert.kind)), Text(alert.severity), Text(alert.message),
      Nullable(alert.previousProjectPath), Nullable(alert.previousStorePath),
      Text(alert.currentProjectPath), Text(alert.currentStorePath),
      Text(alert.gitRemote), Nullable(alert.gitRemoteUrl), Text(alert.gitBranch),
      Nullable(alert.error), Number(alert.createdAt), Number(alert.updatedAt) ]
  }

  function Serialize(alert: Alert): string {
    Stringify(Fields(alert))
  }

  // The where clause

  /** SQL equality of a nullable column and a value that may be null. */
  predicate NullableTextEquals(column: Option<string>, value: Option<string>) {
    match value
    case None => column.None?
    case Some(text) => column.Some? && column.value == text
  }

  predicate GenerationWhere(row: Alert, alert: Alert) {
    && row.id == alert.id
    && row.kind == alert.kind
    && row.severity == alert.severity
    && row.message == alert.message
    && NullableTextEquals(row.previousProjectPath, alert.previousProjectPath)
    && NullableTextEquals(row.previousStorePath, alert.previousStorePath)
    && row.currentProjectPath == alert.currentProjectPath
    && row.currentStorePath == alert.currentStorePath
    && row.gitRemote == alert.gitRemote
    && NullableTextEquals(row.gitRemoteUrl, alert.gitRemoteUrl)
    && row.gitBranch == alert.gitBranch
    && NullableTextEquals(row.error, alert.error)
    && row.createdAt == alert.createdAt
    && row.updatedAt == alert.updatedAt
  }

  // The text determines the values

  lemma EscapedIsPrefixCode(a: char, b: char, x: string, y: string)
    requires Escaped(a) + x == Escaped(b) + y
    ensures a == b && x == y
  {
    var s := Escaped(a) + x;
    assert s[0] == Escaped(a)[0] == Escaped(b)[0];
    if s[0] == '\\' {
      assert s[1] == Escaped(a)[1] == Escaped(b)[1];
      if s[1] == 'u' {
        assert s[4] == Escaped(a)[4] == Escaped(b)[4];
        assert s[5] == Escaped(a)[5] == Escaped(b)[5];
      }
    }
    assert a == b;
    assert x == s[|Escaped(a)|..] == y;
  }

  lemma TextStarts(text: string, rest: string)
    ensures (EscapedText(text) + "\"" + rest)[0] == '"' <==> text == ""
  {
    if text != "" {
      assert (EscapedText(text) + "\"" + rest)[0] == Escaped(text[0])[0];
    }
  }

  lemma {:induction false} EscapedTextTells(a: string, b: string, x: string, y: string)
    requires EscapedText(a) + "\"" + x == EscapedText(b) + "\"" + y
    ensures a == b && x == y
  {
    hide Escaped;
    var s := EscapedText(a) + "\"" + x;
    TextStarts(a, x);
    TextStarts(b, y);
    if a == "" {
      assert x == s[1..] == y;
    } else {
      var restA := EscapedText(a[1..]) + "\"" + x;
      var restB := EscapedText(b[1..]) + "\"" + y;
      assert s == Escaped(a[0]) + restA == Escaped(b[0]) + restB;
      EscapedIsPrefixCode(a[0], b[0], restA, restB);
      EscapedTextTells(a[1..], b[1..], x, y);
      assert a == [a[0]] + a[1..] && b == [b[0]] + b[1..];
    }
  }

  predicate IsDigit(c: char) {
    '0' <= c <= '9'
  }

  function DigitValue(c: char): nat {
    if IsDigit(c) then c as int - '0' as int else 0
  }

  function Value(digits: string): nat {
    if digits == "" then 0 else 10 * Value(digits[..|digits| - 1]) + DigitValue(digits[|digits| - 1])
  }

  predicate AllDigits(s: string) {
    forall i :: 0 <= i < |s| ==> IsDigit(s[i])
  }

  lemma DigitReadsBack(n: nat)
    requires n < 10
    ensures IsDigit(Digit(n)) && DigitValue(Digit(n)) == n
  {
  }

  lemma {:induction false} DigitsReadBack(n: nat)
    ensures Digits(n) != "" && Value(Digits(n)) == n && AllDigits(Digits(n))
  {
    hide Digit, DigitValue, IsDigit;
    var d := Digits(n);
    DigitReadsBack(n % 10);
    if n < 10 {
      assert d == [Digit(n % 10)];
      assert d[..0] == "";
    } else {
      DigitsReadBack(n / 10);
      assert d[..|d| - 1] == Digits(n / 10);
    }
  }

  /** Where a number in a text ends. */
  predicate EndsNumber(rest: string) {
    rest == "" || !IsDigit(rest[0])
  }

  function DigitRun(s: string): (n: nat)
    ensures n <= |s|
  {
    if s == "" || !IsDigit(s[0]) then 0 else 1 + DigitRun(s[1..])
  }

  lemma {:induction false} DigitRunOf(digits: string, rest: string)
    requires AllDigits(digits) && EndsNumber(rest)
    ensures DigitRun(digits + rest) == |digits|
  {
    if digits == "" {
      assert digits + rest == rest;
    } else {
      assert (digits + rest)[1..] == digits[1..] + rest;
      DigitRunOf(digits[1..], rest);
    }
  }

  lemma DigitsTell(n: nat, m: nat, x: string, y: string)
    requires Digits(n) + x == Digits(m) + y && EndsNumber(x) && EndsNumber(y)
    ensures n == m && x == y
  {
    hide Digits, Value, IsDigit, EndsNumber, AllDigits;
    var s := Digits(n) + x;
    DigitsReadBack(n);
    DigitsReadBack(m);
    DigitRunOf(Digits(n), x);
    DigitRunOf(Digits(m), y);
    assert Digits(n) == s[..|Digits(n)|] == Digits(m);
    assert x == s[|Digits(n)|..] == y;
  }

  lemma NumbersTell(a: int, b: int, x: string, y: string)
    requires Written(Number(a)) + x == Written(Number(b)) + y && EndsNumber(x) && EndsNumber(y)
    ensures a == b && x == y
  {
    hide Digits, EndsNumber;
    var s := Written(Number(a)) + x;
    WrittenStarts(Number(a));
    WrittenStarts(Number(b));
    assert s[0] == Written(Number(a))[0] == Written(Number(b))[0];
    if a < 0 {
      assert s[1..] == Digits(-a) + x;
      assert s[1..] == Digits(-b) + y;
      DigitsTell(-a, -b, x, y);
    } else {
      DigitsTell(a, b, x, y);
    }
  }

  /** The first character tells what kind of value is written. */
  lemma WrittenStarts(json: Json)
    ensures Written(json) != ""
    ensures json.Null? <==> Written(json)[0] == 'n'
    ensures json.Text? <==> Written(json)[0] == '"'
    ensures json.Number? ==> (json.number < 0 <==> Written(json)[0] == '-')
  {
    if json.Number? {
      var n := if json.number < 0 then -json.number else json.number;
      DigitsReadBack(n);
      assert IsDigit(Digits(n)[0]);
    }
  }

  lemma TextsTell(a: string, b: string, x: string, y: string)
    requires Written(Text(a)) + x == Written(Text(b)) + y
    ensures a == b && x == y
  {
    hide EscapedText;
    var s := Written(Text(a)) + x;
    assert s[1..] == EscapedText(a) + "\"" + x;
    assert s[1..] == EscapedText(b) + "\"" + y;
    EscapedTextTells(a, b, x, y);
  }

  lemma NullsTell(x: string, y: string)
    requires Written(Null) + x == Written(Null) + y
    ensures x == y
  {
    var s := Written(Null) + x;
    assert x == s[4..] == y;
  }

  lemma WrittenTells(a: Json, b: Json, x: string, y: string)
    requires Written(a) + x == Written(b) + y && EndsNumber(x) && EndsNumber(y)
    ensures a == b && x == y
  {
    hide Written, EndsNumber;
    var s := Written(a) + x;
    WrittenStarts(a);
    WrittenStarts(b);
    assert s[0] == Written(a)[0] == Written(b)[0];
    match a
    case Null => NullsTell(x, y);
    case Text(text) => TextsTell(text, b.text, x, y);
    case Number(number) => NumbersTell(number, b.number, x, y);
  }

  lemma {:induction false} ElementsTell(a: seq<Json>, b: seq<Json>)
    requires |a| == |b| && Elements(a) == Elements(b)
    ensures a == b
  {
    hide Written;
    if |a| == 1 {
      assert Written(a[0]) + "" == Written(b[0]) + "";
      WrittenTells(a[0], b[0], "", "");
    } else if a != [] {
      var restA, restB := "," + Elements(a[1..]), "," + Elements(b[1..]);
      assert Elements(a) == Written(a[0]) + restA && Elements(b) == Written(b[0]) + restB;
      WrittenTells(a[0], b[0], restA, restB);
      assert restA[1..] == Elements(a[1..]) && restB[1..] == Elements(b[1..]);
      ElementsTell(a[1..], b[1..]);
      assert a == [a[0]] + a[1..] && b == [b[0]] + b[1..];
    }
  }

  lemma KindsDiffer(a: Kind, b: Kind)
    requires KindName(a) == KindName(b)
    ensures a == b
  {
    assert KindName(a)[7] == KindName(b)[7] && KindName(a)[8] == KindName(b)[8];
  }

  lemma FieldsTell(a: Alert, b: Alert)
    requires Fields(a) == Fields(b)
    ensures a == b
  {
    hide KindName;
    var x, y := Fields(a), Fields(b);
    assert x[0] == y[0] && x[1] == y[1] && x[2] == y[2] && x[3] == y[3] && x[4] == y[4] && x[5] == y[5] && x[6] == y[6]
        && x[7] == y[7] && x[8] == y[8] && x[9] == y[9] && x[10] == y[10] && x[11] == y[11] && x[12] == y[12] && x[13] == y[13];
    KindsDiffer(a.kind, b.kind);
  }

  /** The serialised text and the where clause agree on every pair of alerts, and both mean the same row. */
  lemma SerializedAlertsAgreeWithWhere(row: Alert, alert: Alert)
    ensures Serialize(row) == Serialize(alert) <==> GenerationWhere(row, alert)
    ensures GenerationWhere(row, alert) <==> row == alert
  {
    hide Elements, Fields;
    if Serialize(row) == Serialize(alert) {
      var s := Serialize(row);
      assert Elements(Fields(row)) == s[1..|s| - 1] == Elements(Fields(alert));
      SameFieldCount(row, alert);
      ElementsTell(Fields(row), Fields(alert));
      FieldsTell(row, alert);
    }
  }

  lemma SameFieldCount(a: Alert, b: Alert)
    ensures |Fields(a)| == |Fields(b)|
  {
  }
}
