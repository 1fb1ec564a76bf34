/**
 Bringing a database up to date: the recorded migrations must be a prefix of the manifest, and each
 remaining one is applied and recorded in one transaction.
 */
module DatabaseMigrations {
  import opened Text
  import opened Wrappers

  datatype Row = Row(createdAt: int, hash: string)

  datatype Migration = Migration(statements: seq<string>, folderMillis: int, hash: string, breakpointed: bool)

  datatype HistoryError = Unknown | Duplicate | Gap | HashMismatch

  // Statements

  function SkipSpace(s: string): string {
    TrimStart(s)
  }

  /** The text after a word, which is compared without regard to case. */
  function AfterWord(s: string, word: string): Option<string> {
    if word == "" then Some(s)
    else if s != "" && LowerAscii(s[0]) == word[0] then AfterWord(s[1..], word[1..])
    else None
  }

  function AfterValue(s: string): Option<(bool, string)> {
    if AfterWord(s, "on").Some? then Some((true, AfterWord(s, "on").value))
    else if AfterWord(s, "off").Some? then Some((false, AfterWord(s, "off").value))
    else if AfterWord(s, "1").Some? then Some((true, AfterWord(s, "1").value))
    else if AfterWord(s, "0").Some? then Some((false, AfterWord(s, "0").value))
    else None
  }

  /** The state that a statement asks for, if it does nothing but switch foreign keys. */
  function ParseForeignKeysPragma(statement: string): Option<bool> {
    var start := AfterWord(statement, "pragma");
    if start.None? || start.value == "" || !IsSpace(start.value[0]) then None
    else
      var name := AfterWord(SkipSpace(start.value), "foreign_keys");
      if name.None? then None
      else
        var equals := AfterWord(SkipSpace(name.value), "=");
        if equals.None? then None
        else
          var value := AfterValue(SkipSpace(equals.value));
          if value.None? then None
          else
            var end := SkipSpace(value.value.1);
            if end == "" || end == ";" then Some(value.value.0) else None
  }

  /** The statements that a migration runs for its effect: not blank, and not a foreign-key switch. */
  function Ordinary(statements: seq<string>): seq<string> {
    if statements == [] then []
    else
      var trimmed := Trim(statements[0]);
      (if trimmed == "" || ParseForeignKeysPragma(trimmed).Some? then [] else [trimmed]) + Ordinary(statements[1..])
  }

  function AllOrdinary(migrations: seq<Migration>): seq<string> {
    if migrations == [] then [] else Ordinary(migrations[0].statements) + AllOrdinary(migrations[1..])
  }

  /** The state that the last foreign-key switch asks for. */
  function Desired(statements: seq<string>, state: bool): bool {
    if statements == [] then state
    else
      var pragma := ParseForeignKeysPragma(Trim(statements[0]));
      Desired(statements[1..], if pragma.Some? then pragma.value else state)
  }

  /** Some statement switches foreign keys off. */
  predicate SwitchesOff(statements: seq<string>) {
    exists i :: 0 <= i < |statements| && ParseForeignKeysPragma(Trim(statements[i])) == Some(false)
  }

  lemma {:induction false} OrdinaryAppend(a: seq<string>, b: seq<string>)
    ensures Ordinary(a + b) == Ordinary(a) + Ordinary(b)
  {
    hide ParseForeignKeysPragma, Trim;
    if a == [] {
      assert a + b == b;
    } else {
      assert (a + b)[1..] == a[1..] + b;
      OrdinaryAppend(a[1..], b);
    }
  }

  lemma {:induction false} AllOrdinaryAppend(a: seq<Migration>, b: seq<Migration>)
    ensures AllOrdinary(a + b) == AllOrdinary(a) + AllOrdinary(b)
  {
    hide Ordinary;
    if a == [] {
      assert a + b == b;
    } else {
      assert (a + b)[1..] == a[1..] + b;
      AllOrdinaryAppend(a[1..], b);
    }
  }

  // The manifest

  predicate IsManifest(migrations: seq<Migration>) {
    && (forall i :: 0 <= i < |migrations| ==> -MAX_SAFE_INTEGER <= migrations[i].folderMillis <= MAX_SAFE_INTEGER)
    && (forall i :: 1 <= i < |migrations| ==> migrations[i - 1].folderMillis < migrations[i].folderMillis)
  }

  lemma {:induction false} ManifestIncreases(migrations: seq<Migration>, i: nat, j: nat)
    requires IsManifest(migrations) && i < j < |migrations|
    ensures migrations[i].folderMillis < migrations[j].folderMillis
    decreases j
  {
    if i < j - 1 {
      ManifestIncreases(migrations, i, j - 1);
    }
    assert migrations[j - 1].folderMillis < migrations[j].folderMillis;
  }

  method ValidateManifest(migrations: seq<Migration>) returns (ok: bool)
    ensures ok <==> IsManifest(migrations)
  {
    var previous: Option<int> := None;
    for i := 0 to |migrations|
      invariant IsManifest(migrations[..i])
      invariant previous == if i == 0 then None else Some(migrations[i - 1].folderMillis)
    {
      var millis := migrations[i].folderMillis;
      if !(-MAX_SAFE_INTEGER <= millis <= MAX_SAFE_INTEGER) || (previous.Some? && millis <= previous.value) {
        return false;
      }
      assert migrations[..i + 1] == migrations[..i] + [migrations[i]];
      previous := Some(millis);
    }
    assert migrations[..|migrations|] == migrations;
    return true;
  }

  // The recorded history

  function Record(migration: Migration): Row {
    Row(migration.folderMillis, migration.hash)
  }

  /** The rows are the first migrations, by time stamp and hash. */
  predicate IsPrefix(rows: seq<Row>, migrations: seq<Migration>) {
    |rows| <= |migrations| && forall i :: 0 <= i < |rows| ==> rows[i] == Record(migrations[i])
  }

  predicate IsKnown(row: Row, migrations: seq<Migration>) {
    exists i :: 0 <= i < |migrations| && migrations[i].folderMillis == row.createdAt
  }

  predicate AllKnown(rows: seq<Row>, migrations: seq<Migration>) {
    forall i :: 0 <= i < |rows| ==> IsKnown(rows[i], migrations)
  }

  predicate NoDuplicates(rows: seq<Row>) {
    forall i, j :: 0 <= i < j < |rows| ==> rows[i].createdAt != rows[j].createdAt
  }

  predicate TimesAgree(rows: seq<Row>, migrations: seq<Migration>, i: nat)
    requires i < |rows|
  {
    i < |migrations| && rows[i].createdAt == migrations[i].folderMillis
  }

  lemma PrefixIsKnown(rows: seq<Row>, migrations: seq<Migration>)
    requires IsManifest(migrations) && IsPrefix(rows, migrations)
    ensures AllKnown(rows, migrations) && NoDuplicates(rows)
  {
    forall i, j | 0 <= i < j < |rows|
      ensures rows[i].createdAt != rows[j].createdAt
    {
      ManifestIncreases(migrations, i, j);
    }
  }

  /** Accepts exactly the prefixes of the manifest; otherwise the error says what is wrong. */
  method ValidateHistory(rows: seq<Row>, migrations: seq<Migration>) returns (refusal: Option<HistoryError>)
    requires IsManifest(migrations)
    ensures refusal.None? <==> IsPrefix(rows, migrations)
    ensures refusal == Some(Unknown) <==> !AllKnown(rows, migrations)
    ensures refusal == Some(Duplicate) <==> AllKnown(rows, migrations) && !NoDuplicates(rows)
    ensures refusal == Some(Gap) ==> exists i :: 0 <= i < |rows| && IsPrefix(rows[..i], migrations) && !TimesAgree(rows, migrations, i)
    ensures refusal == Some(HashMismatch) ==>
              exists i :: 0 <= i < |rows| && IsPrefix(rows[..i], migrations) && TimesAgree(rows, migrations, i)
                          && rows[i].hash != migrations[i].hash
  {
    if IsPrefix(rows, migrations) {
      PrefixIsKnown(rows, migrations);
    }
    var known := AllRowsKnown(rows, migrations);
    if !known {
      return Some(Unknown);
    }
    var distinct := AllRowsDistinct(rows);
    if !distinct {
      return Some(Duplicate);
    }
    for i := 0 to |rows|
      invariant IsPrefix(rows[..i], migrations)
    {
      if i >= |migrations| || rows[i].createdAt != migrations[i].folderMillis {
        return Some(Gap);
      }
      if rows[i].hash != migrations[i].hash {
        return Some(HashMismatch);
      }
      assert rows[..i + 1] == rows[..i] + [rows[i]];
    }
    assert rows[..|rows|] == rows;
    return None;
  }

  method AllRowsKnown(rows: seq<Row>, migrations: seq<Migration>) returns (known: bool)
    ensures known <==> AllKnown(rows, migrations)
  {
    var byCreatedAt := set migration | migration in migrations :: migration.folderMillis;
    for i := 0 to |rows|
      invariant AllKnown(rows[..i], migrations)
    {
      assert IsKnown(rows[i], migrations) <==> rows[i].createdAt in byCreatedAt;
      if rows[i].createdAt !in byCreatedAt {
        return false;
      }
      assert rows[..i + 1] == rows[..i] + [rows[i]];
    }
    assert rows[..|rows|] == rows;
    return true;
  }

  method AllRowsDistinct(rows: seq<Row>) returns (distinct: bool)
    ensures distinct <==> NoDuplicates(rows)
  {
    var seen: set<int> := {};
    for i := 0 to |rows|
      invariant NoDuplicates(rows[..i])
      invariant forall t :: t in seen <==> exists j :: 0 <= j < i && rows[j].createdAt == t
    {
      if rows[i].createdAt in seen {
        return false;
      }
      seen := seen + {rows[i].createdAt};
      assert rows[..i + 1] == rows[..i] + [rows[i]];
    }
    assert rows[..|rows|] == rows;
    return true;
  }

  // Rows in order of time

  function Insert(sorted: seq<Row>, row: Row): seq<Row> {
    if sorted == [] || row.createdAt < sorted[0].createdAt then [row] + sorted else [sorted[0]] + Insert(sorted[1..], row)
  }

  function Sorted(rows: seq<Row>): seq<Row> {
    if rows == [] then [] else Insert(Sorted(rows[..|rows| - 1]), rows[|rows| - 1])
  }

  lemma {:induction false} InsertLast(sorted: seq<Row>, row: Row)
    requires forall i :: 0 <= i < |sorted| ==> sorted[i].createdAt < row.createdAt
    ensures Insert(sorted, row) == sorted + [row]
  {
    if sorted != [] {
      InsertLast(sorted[1..], row);
      assert sorted == [sorted[0]] + sorted[1..];
    }
  }

  predicate InOrder(rows: seq<Row>) {
    forall i, j :: 0 <= i < j < |rows| ==> rows[i].createdAt <= rows[j].createdAt
  }

  lemma {:induction false} InsertKeepsRows(sorted: seq<Row>, row: Row)
    ensures multiset(Insert(sorted, row)) == multiset(sorted) + multiset{row}
  {
    if sorted != [] && row.createdAt >= sorted[0].createdAt {
      InsertKeepsRows(sorted[1..], row);
      assert sorted == [sorted[0]] + sorted[1..];
    }
  }

  lemma {:induction false} InsertSorts(sorted: seq<Row>, row: Row)
    requires InOrder(sorted)
    ensures InOrder(Insert(sorted, row))
    ensures sorted == [] || Insert(sorted, row)[0].createdAt == if row.createdAt < sorted[0].createdAt then row.createdAt
                                                                else sorted[0].createdAt
  {
    if sorted != [] && row.createdAt >= sorted[0].createdAt {
      InsertSorts(sorted[1..], row);
      var rest := Insert(sorted[1..], row);
      assert forall i :: 0 <= i < |rest| ==> rest[0].createdAt <= rest[i].createdAt;
    }
  }

  /** What the query returns: the same rows, by time. */
  lemma {:induction false} SortedSorts(rows: seq<Row>)
    ensures multiset(Sorted(rows)) == multiset(rows) && InOrder(Sorted(rows))
  {
    if rows != [] {
      var first := Sorted(rows[..|rows| - 1]);
      SortedSorts(rows[..|rows| - 1]);
      InsertSorts(first, rows[|rows| - 1]);
      InsertKeepsRows(first, rows[|rows| - 1]);
      assert rows == rows[..|rows| - 1] + [rows[|rows| - 1]];
    }
  }

  // The database

  /**
   A connection. `failures` says which of the coming steps fail; `enforced` says for each committed
   transaction whether foreign keys were enforced in it.
   */
  class Sqlite {
    var rows: seq<Row>
    var committed: seq<string>
    var enforced: seq<bool>
    var foreignKeys: bool
    var failures: seq<bool>

    constructor (foreignKeys: bool, failures: seq<bool>)
      ensures rows == [] && committed == [] && enforced == [] && this.foreignKeys == foreignKeys && this.failures == failures
    {
      rows, committed, enforced, this.foreignKeys, this.failures := [], [], [], foreignKeys, failures;
    }

    /** Whether the next step works. */
    method Step() returns (ok: bool)
      modifies this`failures
      ensures old(failures) == [] ==> ok && failures == []
    {
      ok := true;
      if failures != [] {
        ok := !failures[0];
        failures := failures[1..];
      }
    }

    /** Runs statements inside a transaction; there a foreign-key switch has no effect. */
    method ApplyStatements(statements: seq<string>) returns (ok: bool, done: seq<string>)
      modifies this`failures
      ensures ok ==> done == Ordinary(statements)
      ensures old(failures) == [] ==> ok && failures == []
    {
      done := [];
      ok := true;
      var i := 0;
      while i < |statements| && ok
        invariant i <= |statements|
        invariant ok ==> done == Ordinary(statements[..i])
        invariant old(failures) == [] ==> ok && failures == []
      {
        var trimmed := Trim(statements[i]);
        assert statements[..i + 1] == statements[..i] + [statements[i]];
        OrdinaryAppend(statements[..i], [statements[i]]);
        if trimmed != "" {
          ok := Step();
          if ParseForeignKeysPragma(trimmed).None? {
            done := done + [trimmed];
          }
        }
        i := i + 1;
      }
      assert statements[..|statements|] == statements;
    }

    /** Statements, the foreign-key check and the record, in one transaction: all of them or none. */
    method Transaction(statements: seq<string>, record: Row) returns (ok: bool)
      modifies this`failures, this`rows, this`committed, this`enforced
      ensures ok ==> rows == old(rows) + [record] && committed == old(committed) + Ordinary(statements)
                     && enforced == old(enforced) + [foreignKeys]
      ensures !ok ==> rows == old(rows) && committed == old(committed) && enforced == old(enforced)
      ensures old(failures) == [] ==> ok && failures == []
    {
      var done: seq<string>;
      ok, done := ApplyStatements(statements);
      if ok {
        ok := Step();
        if ok {
          ok := Step();
          if ok {
            committed := committed + done;
            rows := rows + [record];
            enforced := enforced + [foreignKeys];
          }
        }
      }
    }

    /**
     A migration with breakpoints: switches come out of the transaction. Off takes effect at once; the
     last switch takes effect at the end, and a failure restores the original state.
     */
    method ApplyBreakpointed(migration: Migration) returns (ok: bool)
      modifies this
      ensures ok ==>
                && rows == old(rows) + [Record(migration)] && committed == old(committed) + Ordinary(migration.statements)
                && foreignKeys == Desired(migration.statements, old(foreignKeys))
                && enforced == old(enforced) + [old(foreignKeys) && !SwitchesOff(migration.statements)]
      ensures !ok ==> rows == old(rows) && committed == old(committed) && enforced == old(enforced) && foreignKeys == old(foreignKeys)
      ensures old(failures) == [] ==> ok && failures == []
    {
      var original := foreignKeys;
      var completed := false;
      var desired, ordinary: seq<string>;
      ok, desired, ordinary := SwitchForeignKeys(migration.statements);
      if ok {
        OrdinaryOfOrdinary(migration.statements);
        ok := Transaction(ordinary, Record(migration));
        completed := ok;
      }
      foreignKeys := if completed then desired else original;
    }

    method SwitchForeignKeys(statements: seq<string>) returns (ok: bool, desired: bool, ordinary: seq<string>)
      modifies this`failures, this`foreignKeys
      ensures ok ==> desired == Desired(statements, old(foreignKeys)) && ordinary == Ordinary(statements)
      ensures ok ==> foreignKeys == (old(foreignKeys) && !SwitchesOff(statements))
      ensures old(failures) == [] ==> ok && failures == []
    {
      hide Ordinary, Desired, SwitchesOff, ParseForeignKeysPragma, Trim;
      desired := foreignKeys;
      ordinary := [];
      ok := true;
      var i := 0;
      assert statements[0..] == statements;
      assert statements[..0] == [];
      NoStatements(desired);
      while i < |statements| && ok
        invariant i <= |statements|
        invariant ok ==> Desired(statements[i..], desired) == Desired(statements, old(foreignKeys))
        invariant ok ==> ordinary + Ordinary(statements[i..]) == Ordinary(statements)
        invariant ok ==> foreignKeys == (old(foreignKeys) && !SwitchesOff(statements[..i]))
        invariant old(failures) == [] ==> ok && failures == []
      {
        var trimmed := Trim(statements[i]);
        NextStatement(statements, i, desired);
        NextSwitch(statements, i);
        if trimmed != "" {
          var pragma := ParseForeignKeysPragma(trimmed);
          if pragma.Some? {
            desired := pragma.value;
            if !pragma.value {
              ok := Step();
              if ok {
                foreignKeys := false;
              }
            }
          } else {
            ordinary := ordinary + [trimmed];
          }
        }
        i := i + 1;
      }
      assert statements[|statements|..] == [];
      assert statements[..|statements|] == statements;
      NoStatements(desired);
    }
  }

  lemma NoStatements(state: bool)
    ensures Ordinary([]) == [] && Desired([], state) == state && !SwitchesOff([])
  {
  }

  lemma NextSwitch(statements: seq<string>, i: nat)
    requires i < |statements|
    ensures SwitchesOff(statements[..i + 1])
       <==> SwitchesOff(statements[..i]) || ParseForeignKeysPragma(Trim(statements[i])) == Some(false)
  {
    hide ParseForeignKeysPragma, Trim;
    var first, next := statements[..i], statements[..i + 1];
    assert next == first + [statements[i]];
    if SwitchesOff(first) {
      var j :| 0 <= j < |first| && ParseForeignKeysPragma(Trim(first[j])) == Some(false);
      assert next[j] == first[j];
    }
    assert next[i] == statements[i];
    if SwitchesOff(next) {
      var j :| 0 <= j < |next| && ParseForeignKeysPragma(Trim(next[j])) == Some(false);
      assert j < i ==> first[j] == next[j];
    }
  }

  lemma NextStatement(statements: seq<string>, i: nat, desired: bool)
    requires i < |statements|
    ensures var trimmed := Trim(statements[i]);
            var pragma := ParseForeignKeysPragma(trimmed);
            && (trimmed == "" ==> pragma.None?)
            && Desired(statements[i..], desired) == Desired(statements[i + 1..], if pragma.Some? then pragma.value else desired)
            && Ordinary(statements[i..])
               == (if trimmed == "" || pragma.Some? then [] else [trimmed]) + Ordinary(statements[i + 1..])
  {
    assert statements[i..][1..] == statements[i + 1..];
  }

  lemma {:induction false} OrdinaryOfOrdinary(statements: seq<string>)
    ensures Ordinary(Ordinary(statements)) == Ordinary(statements)
  {
    hide ParseForeignKeysPragma, Trim;
    if statements != [] {
      OrdinaryOfOrdinary(statements[1..]);
      TrimTrims(statements[0]);
      var trimmed := Trim(statements[0]);
      if trimmed != "" && ParseForeignKeysPragma(trimmed).None? {
        OrdinaryAppend([trimmed], Ordinary(statements[1..]));
        assert [trimmed][1..] == [];
      } else {
        assert Ordinary(statements) == Ordinary(statements[1..]);
      }
    }
  }

  // Applying a manifest

  /** How far a database is: its rows are the first migrations, and exactly their statements are committed. */
  ghost predicate IsAt(rows: seq<Row>, committed: seq<string>, base: seq<string>, migrations: seq<Migration>) {
    && IsPrefix(Sorted(rows), migrations)
    && committed == base + AllOrdinary(migrations[..|Sorted(rows)|])
  }

  lemma {:induction false} RecordedNext(rows: seq<Row>, committed: seq<string>, base: seq<string>, migrations: seq<Migration>, n: nat)
    requires IsManifest(migrations) && IsAt(rows, committed, base, migrations) && |Sorted(rows)| == n < |migrations|
    ensures IsAt(rows + [Record(migrations[n])], committed + Ordinary(migrations[n].statements), base, migrations)
    ensures |Sorted(rows + [Record(migrations[n])])| == n + 1
  {
    hide Ordinary;
    var row := Record(migrations[n]);
    var sorted := Sorted(rows);
    forall i | 0 <= i < |sorted|
      ensures sorted[i].createdAt < row.createdAt
    {
      ManifestIncreases(migrations, i, n);
    }
    InsertLast(sorted, row);
    assert (rows + [row])[..|rows|] == rows;
    assert migrations[..n + 1] == migrations[..n] + [migrations[n]];
    AllOrdinaryAppend(migrations[..n], [migrations[n]]);
    assert AllOrdinary([migrations[n]]) == Ordinary(migrations[n].statements) + AllOrdinary([migrations[n]][1..]);
  }

  /** Every migration that switches foreign keys off switches them on again, as rebuilds of tables must. */
  predicate RestoreForeignKeys(migrations: seq<Migration>) {
    forall i :: 0 <= i < |migrations| ==> Desired(migrations[i].statements, true)
  }

  // What a stretch of migrations does

  function Records(migrations: seq<Migration>): seq<Row> {
    if migrations == [] then [] else Records(migrations[..|migrations| - 1]) + [Record(migrations[|migrations| - 1])]
  }

  /** Whether foreign keys are enforced after the migrations; only those with breakpoints can switch. */
  function StateAfter(migrations: seq<Migration>, state: bool): bool {
    if migrations == [] then state
    else
      var last, before := migrations[|migrations| - 1], StateAfter(migrations[..|migrations| - 1], state);
      if last.breakpointed then Desired(last.statements, before) else before
  }

  /** Whether foreign keys are enforced in each transaction. */
  function EnforcedIn(migrations: seq<Migration>, state: bool): seq<bool> {
    if migrations == [] then []
    else
      var last, before := migrations[|migrations| - 1], migrations[..|migrations| - 1];
      EnforcedIn(before, state) + [StateAfter(before, state) && !(last.breakpointed && SwitchesOff(last.statements))]
  }

  /** A plain migration leaves the state as it is; one with breakpoints may go without it and ends as its last switch says. */
  lemma OneMigration(migration: Migration, state: bool)
    ensures Records([migration]) == [Row(migration.folderMillis, migration.hash)]
    ensures !migration.breakpointed ==> StateAfter([migration], state) == state && EnforcedIn([migration], state) == [state]
    ensures migration.breakpointed ==>
              && StateAfter([migration], state) == Desired(migration.statements, state)
              && EnforcedIn([migration], state) == [state && !SwitchesOff(migration.statements)]
  {
    hide Desired, SwitchesOff;
    assert [migration][..0] == [];
  }

  /** Exactly the migrations from the `n`th up to the `i`th have been applied. */
  ghost predicate HasApplied(sqlite: Sqlite, migrations: seq<Migration>, n: nat, i: nat,
                             rows: seq<Row>, committed: seq<string>, enforced: seq<bool>, state: bool)
    requires n <= i <= |migrations|
    reads sqlite
  {
    && sqlite.rows == rows + Records(migrations[n..i])
    && sqlite.committed == committed + AllOrdinary(migrations[n..i])
    && sqlite.enforced == enforced + EnforcedIn(migrations[n..i], state)
    && sqlite.foreignKeys == StateAfter(migrations[n..i], state)
  }

  lemma NoneApplied(sqlite: Sqlite, migrations: seq<Migration>, n: nat)
    requires n <= |migrations|
    ensures HasApplied(sqlite, migrations, n, n, sqlite.rows, sqlite.committed, sqlite.enforced, sqlite.foreignKeys)
  {
    assert migrations[n..n] == [];
  }

  lemma NextApplied(migrations: seq<Migration>, n: nat, i: nat, state: bool)
    requires n <= i < |migrations|
    ensures var done, next, last := migrations[n..i], migrations[n..i + 1], migrations[i];
            && Records(next) == Records(done) + [Record(last)]
            && AllOrdinary(next) == AllOrdinary(done) + Ordinary(last.statements)
            && StateAfter(next, state)
               == (if last.breakpointed then Desired(last.statements, StateAfter(done, state)) else StateAfter(done, state))
            && EnforcedIn(next, state)
               == EnforcedIn(done, state) + [StateAfter(done, state) && !(last.breakpointed && SwitchesOff(last.statements))]
  {
    hide Ordinary, Desired, SwitchesOff;
    var done, next, last := migrations[n..i], migrations[n..i + 1], migrations[i];
    assert next == done + [last] && next[..|next| - 1] == done;
    AllOrdinaryAppend(done, [last]);
    assert AllOrdinary([last]) == Ordinary(last.statements) + AllOrdinary([last][1..]);
  }

  datatype Outcome = UpToDate | BadManifest | BadHistory(error: HistoryError) | MigrationFailed

  /**
   One attempt. A refused manifest or history changes nothing; a failing migration changes nothing
   itself, while those before it stay; a database that was at a prefix is at a prefix afterwards.
   */
  method ApplyRuntimeMigrations(sqlite: Sqlite, migrations: seq<Migration>, ghost base: seq<string>) returns (outcome: Outcome)
    modifies sqlite
    ensures outcome == BadManifest <==> !IsManifest(migrations)
    ensures outcome.BadHistory? <==> IsManifest(migrations) && !IsPrefix(Sorted(old(sqlite.rows)), migrations)
    ensures outcome == BadManifest || outcome.BadHistory? ==>
              sqlite.rows == old(sqlite.rows) && sqlite.committed == old(sqlite.committed)
              && sqlite.foreignKeys == old(sqlite.foreignKeys)
    ensures outcome == UpToDate || outcome == MigrationFailed ==>
              var n := |Sorted(old(sqlite.rows))|;
              n <= |migrations|
              && exists i :: (n <= i <= |migrations| && (outcome == UpToDate <==> i == |migrations|)
                              && HasApplied(sqlite, migrations, n, i, old(sqlite.rows), old(sqlite.committed), old(sqlite.enforced),
                                            old(sqlite.foreignKeys)))
    ensures IsManifest(migrations) && IsAt(old(sqlite.rows), old(sqlite.committed), base, migrations) ==>
              IsAt(sqlite.rows, sqlite.committed, base, migrations) && |Sorted(sqlite.rows)| >= |Sorted(old(sqlite.rows))|
    ensures outcome == UpToDate && IsAt(old(sqlite.rows), old(sqlite.committed), base, migrations) ==>
              |Sorted(sqlite.rows)| == |migrations|
    ensures old(sqlite.failures) == [] && IsManifest(migrations) && IsPrefix(Sorted(old(sqlite.rows)), migrations) ==>
              outcome == UpToDate
    ensures old(sqlite.foreignKeys) && RestoreForeignKeys(migrations) ==> sqlite.foreignKeys
  {
    hide Ordinary, Desired, AllOrdinary, Sorted, SwitchesOff, Records, StateAfter, EnforcedIn;
    var manifestOk := ValidateManifest(migrations);
    if !manifestOk {
      return BadManifest;
    }
    var applied := Sorted(sqlite.rows);
    var error := ValidateHistory(applied, migrations);
    if error.Some? {
      return BadHistory(error.value);
    }
    outcome := UpToDate;
    ghost var rows0, committed0, failures0 := sqlite.rows, sqlite.committed, sqlite.failures;
    ghost var n := |applied|;
    NoneApplied(sqlite, migrations, n);
    var i := |applied|;
    while i < |migrations| && outcome == UpToDate
      invariant |applied| <= i <= |migrations|
      invariant HasApplied(sqlite, migrations, n, i, rows0, committed0, old(sqlite.enforced), old(sqlite.foreignKeys))
      invariant outcome != UpToDate ==> i < |migrations|
      invariant outcome == UpToDate || outcome == MigrationFailed
      invariant IsAt(rows0, committed0, base, migrations) ==>
                  IsAt(sqlite.rows, sqlite.committed, base, migrations) && |Sorted(sqlite.rows)| >= |applied|
      invariant IsAt(rows0, committed0, base, migrations) && outcome == UpToDate ==> |Sorted(sqlite.rows)| == i
      invariant failures0 == [] ==> outcome == UpToDate && sqlite.failures == []
      invariant old(sqlite.foreignKeys) && RestoreForeignKeys(migrations) ==> sqlite.foreignKeys
      decreases if outcome == UpToDate then 1 else 0, |migrations| - i
    {
      if IsAt(rows0, committed0, base, migrations) {
        RecordedNext(sqlite.rows, sqlite.committed, base, migrations, i);
      }
      NextApplied(migrations, n, i, old(sqlite.foreignKeys));
      var ok: bool;
      if migrations[i].breakpointed {
        ok := sqlite.ApplyBreakpointed(migrations[i]);
      } else {
        ok := sqlite.Transaction(migrations[i].statements, Record(migrations[i]));
      }
      if ok {
        i := i + 1;
      } else {
        outcome := MigrationFailed;
      }
    }
  }

  /** Each manifest continues the one before it. */
  ghost predicate AreExtensions(manifests: seq<seq<Migration>>) {
    forall i :: 1 <= i < |manifests| ==> manifests[i - 1] <= manifests[i]
  }

  lemma {:induction false} ExtensionsGrow(manifests: seq<seq<Migration>>, i: nat)
    requires AreExtensions(manifests) && i < |manifests|
    ensures manifests[i] <= manifests[|manifests| - 1]
    decreases |manifests| - i
  {
    if i + 1 < |manifests| {
      ExtensionsGrow(manifests, i + 1);
      assert manifests[i + 1 - 1] <= manifests[i + 1];
    }
  }

  /** Of two manifests one continuing the other, a database that is at the longer one is at the shorter one unless it is further. */
  lemma AtBoth(rows: seq<Row>, committed: seq<string>, base: seq<string>, a: seq<Migration>, b: seq<Migration>)
    requires a <= b
    ensures IsAt(rows, committed, base, a) ==> IsAt(rows, committed, base, b)
    ensures IsAt(rows, committed, base, b) ==> (IsPrefix(Sorted(rows), a) <==> IsAt(rows, committed, base, a))
  {
    if |Sorted(rows)| <= |a| {
      assert a[..|Sorted(rows)|] == b[..|Sorted(rows)|];
    }
  }

  /**
   Any series of attempts with manifests that grow, on a database at any point of the last of them: the
   rows stay a prefix, and each committed statement is there once, in order. A manifest that the database
   is ahead of is refused. A last attempt in which no step fails ends up to date.
   */
  method ApplyReleases(sqlite: Sqlite, manifests: seq<seq<Migration>>, futures: seq<seq<bool>>, ghost base: seq<string>)
    returns (outcome: Outcome)
    requires manifests != [] && |futures| == |manifests| && AreExtensions(manifests)
    requires forall i :: 0 <= i < |manifests| ==> IsManifest(manifests[i])
    requires IsAt(sqlite.rows, sqlite.committed, base, manifests[|manifests| - 1])
    modifies sqlite
    ensures IsAt(sqlite.rows, sqlite.committed, base, manifests[|manifests| - 1])
    ensures |Sorted(sqlite.rows)| >= |Sorted(old(sqlite.rows))|
    ensures outcome == UpToDate ==> sqlite.committed == base + AllOrdinary(manifests[|manifests| - 1])
    ensures futures[|futures| - 1] == [] ==> outcome == UpToDate
    ensures old(sqlite.foreignKeys) && RestoreForeignKeys(manifests[|manifests| - 1]) ==> sqlite.foreignKeys
  {
    hide IsManifest, Sorted, AllOrdinary, Desired, Ordinary;
    outcome := BadManifest;
    ghost var last := manifests[|manifests| - 1];
    for i := 0 to |manifests|
      invariant IsAt(sqlite.rows, sqlite.committed, base, last) && |Sorted(sqlite.rows)| >= |Sorted(old(sqlite.rows))|
      invariant i > 0 && outcome == UpToDate ==> |Sorted(sqlite.rows)| >= |manifests[i - 1]|
      invariant i > 0 && futures[i - 1] == [] && i == |manifests| ==> outcome == UpToDate
      invariant old(sqlite.foreignKeys) && RestoreForeignKeys(last) ==> sqlite.foreignKeys
    {
      ExtensionsGrow(manifests, i);
      AtBoth(sqlite.rows, sqlite.committed, base, manifests[i], last);
      sqlite.failures := futures[i];
      outcome := ApplyRuntimeMigrations(sqlite, manifests[i], base);
      AtBoth(sqlite.rows, sqlite.committed, base, manifests[i], last);
    }
    assert last[..|last|] == last;
  }
}
