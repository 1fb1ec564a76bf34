/** What the statements that switch foreign keys look like, and what they make of a migration. */
module ForeignKeySwitches {
  import opened Text
  import opened Wrappers
  import opened DatabaseMigrations

  /** A switch, piece by piece: `PRAGMA foreign_keys = ON ;`. */
  datatype Pieces = Pieces(pragma: string, gap: string, name: string, before: string, after: string, value: string,
                           space: string, end: string)
  {
    function Whole(): string {
      pragma + (gap + (name + (before + ("=" + (after + (value + (space + end)))))))
    }

    predicate Switches(on: bool) {
      && Spells(pragma, "pragma") && gap != "" && AllSpace(gap) && Spells(name, "foreign_keys")
      && AllSpace(before) && AllSpace(after) && AllSpace(space) && (end == "" || end == ";")
      && (if on then Spells(value, "on") || value == "1" else Spells(value, "off") || value == "0")
    }
  }

  /** The statement is nothing but a switch. */
  ghost predicate IsSwitch(statement: string, on: bool) {
    exists p: Pieces :: p.Whole() == statement && p.Switches(on)
  }

  // Words and gaps

  lemma {:induction false} WordRead(s: string, word: string)
    requires forall i :: 0 <= i < |word| ==> 'a' <= word[i] <= 'z' || word[i] in "_=01"
    ensures AfterWord(s, word).Some? ==>
              |word| <= |s| && Spells(s[..|word|], word) && AfterWord(s, word).value == s[|word|..]
    decreases |word|
  {
    if word != "" && s != "" && LowerAscii(s[0]) == word[0] {
      WordRead(s[1..], word[1..]);
      if AfterWord(s[1..], word[1..]).Some? {
        var n := |word| - 1;
        assert s[..n + 1] == [s[0]] + s[1..][..n];
        forall i | 0 <= i < |word|
          ensures s[i] == word[i] || ('A' <= s[i] <= 'Z' && s[i] as int + 32 == word[i] as int)
        {
          if i > 0 {
            assert s[1..][..n][i - 1] == s[i] && word[1..][i - 1] == word[i];
          }
        }
      }
    }
  }

  lemma {:induction false} ReadsWord(spelled: string, word: string, rest: string)
    requires Spells(spelled, word) && forall i :: 0 <= i < |word| ==> 'a' <= word[i] <= 'z' || word[i] in "_=01"
    ensures AfterWord(spelled + rest, word) == Some(rest)
    decreases |word|
  {
    if word == "" {
      assert spelled + rest == rest;
    } else {
      assert (spelled + rest)[1..] == spelled[1..] + rest;
      ReadsWord(spelled[1..], word[1..], rest);
    }
  }

  lemma {:induction false} SpaceRead(s: string) returns (gap: string)
    ensures s == gap + TrimStart(s) && AllSpace(gap) && (gap == "" <==> s == "" || !IsSpace(s[0]))
    ensures TrimStart(s) != "" ==> !IsSpace(TrimStart(s)[0])
    decreases |s|
  {
    if s != "" && IsSpace(s[0]) {
      var rest := SpaceRead(s[1..]);
      gap := [s[0]] + rest;
    } else {
      gap := "";
    }
  }

  lemma {:induction false} ReadsSpace(gap: string, rest: string)
    requires AllSpace(gap) && (rest != "" ==> !IsSpace(rest[0]))
    ensures TrimStart(gap + rest) == rest
    decreases |gap|
  {
    if gap == "" {
      assert gap + rest == rest;
    } else {
      assert (gap + rest)[1..] == gap[1..] + rest;
      ReadsSpace(gap[1..], rest);
    }
  }

  lemma ValueRead(s: string) returns (value: string)
    ensures AfterValue(s).Some? ==>
              var (on, rest) := AfterValue(s).value;
              s == value + rest && if on then Spells(value, "on") || value == "1" else Spells(value, "off") || value == "0"
  {
    hide AfterWord;
    WordRead(s, "on");
    WordRead(s, "off");
    WordRead(s, "1");
    WordRead(s, "0");
    value := if AfterWord(s, "on").Some? then s[..2] else if AfterWord(s, "off").Some? then s[..3] else if s != "" then s[..1] else "";
  }

  lemma ReadsValue(value: string, rest: string, on: bool)
    requires if on then Spells(value, "on") || value == "1" else Spells(value, "off") || value == "0"
    ensures AfterValue(value + rest) == Some((on, rest))
  {
    var s := value + rest;
    if Spells(value, "on") {
      ReadsWord(value, "on", rest);
    } else if value == "1" {
      ReadsWord(value, "1", rest);
    } else if Spells(value, "off") {
      ReadsWord(value, "off", rest);
    } else {
      ReadsWord(value, "0", rest);
    }
    OtherValues(s, value);
  }

  /** No value is taken for another one. */
  lemma OtherValues(s: string, value: string)
    requires value <= s
    ensures Spells(value, "off") ==> AfterWord(s, "on").None?
    ensures value == "1" || value == "0" ==> AfterWord(s, "on").None? && AfterWord(s, "off").None?
    ensures value == "0" ==> AfterWord(s, "1").None?
  {
    hide AfterWord;
    WordRead(s, "on");
    WordRead(s, "off");
    WordRead(s, "1");
    assert value != "" ==> s[0] == value[0];
    assert |value| >= 2 ==> s[1] == value[1];
  }

  // Reading a switch is recognising its text

  lemma SwitchRead(statement: string)
    requires ParseForeignKeysPragma(statement).Some?
    ensures IsSwitch(statement, ParseForeignKeysPragma(statement).value)
  {
    hide AfterWord, AfterValue;
    WordRead(statement, "pragma");
    var start := AfterWord(statement, "pragma").value;
    var gap := SpaceRead(start);
    WordRead(TrimStart(start), "foreign_keys");
    var name := AfterWord(TrimStart(start), "foreign_keys").value;
    var before := SpaceRead(name);
    WordRead(TrimStart(name), "=");
    var equals := AfterWord(TrimStart(name), "=").value;
    var after := SpaceRead(equals);
    var value := ValueRead(TrimStart(equals));
    var rest := AfterValue(TrimStart(equals)).value.1;
    var space := SpaceRead(rest);
    var p := Pieces(statement[..6], gap, TrimStart(start)[..12], before, after, value, space, TrimStart(rest));
    assert TrimStart(name) == "=" + equals;
    assert p.value + (p.space + p.end) == TrimStart(equals);
    assert p.name + name == TrimStart(start) && p.pragma + start == statement;
    assert p.Whole() == statement;
    assert p.Switches(ParseForeignKeysPragma(statement).value);
  }

  lemma ReadsSwitch(p: Pieces, on: bool)
    requires p.Switches(on)
    ensures ParseForeignKeysPragma(p.Whole()) == Some(on)
  {
    hide AfterWord, AfterValue;
    var rest5 := p.space + p.end;
    var rest4 := p.value + rest5;
    var rest3 := p.after + rest4;
    var rest2 := p.before + ("=" + rest3);
    var rest1 := p.name + rest2;
    ReadsWord(p.pragma, "pragma", p.gap + rest1);
    assert (p.gap + rest1)[0] == p.gap[0];
    ReadsSpace(p.gap, rest1);
    ReadsWord(p.name, "foreign_keys", rest2);
    ReadsSpace(p.before, "=" + rest3);
    ReadsWord("=", "=", rest3);
    ReadsSpace(p.after, rest4);
    ReadsValue(p.value, rest5, on);
    ReadsSpace(p.space, p.end);
  }

  /** The reader finds exactly the switches, and the state that they ask for. */
  lemma SwitchIff(statement: string, on: bool)
    ensures ParseForeignKeysPragma(statement) == Some(on) <==> IsSwitch(statement, on)
  {
    hide ParseForeignKeysPragma;
    if ParseForeignKeysPragma(statement).Some? {
      SwitchRead(statement);
    }
    if IsSwitch(statement, on) {
      var p: Pieces :| p.Whole() == statement && p.Switches(on);
      ReadsSwitch(p, on);
    }
  }

  // What the switches of a migration do

  /** The setting after a migration is what its last switch asks for. */
  lemma {:induction false} LastSwitchDecides(statements: seq<string>, state: bool, i: nat, on: bool)
    requires i < |statements| && IsSwitch(Trim(statements[i]), on)
    requires forall j, other :: i < j < |statements| ==> !IsSwitch(Trim(statements[j]), other)
    ensures Desired(statements, state) == on
    decreases i
  {
    hide IsSwitch, Trim, ParseForeignKeysPragma;
    if i == 0 {
      SwitchIff(Trim(statements[0]), on);
      NoSwitchKeeps(statements[1..], on);
    } else {
      assert forall j :: 0 <= j < |statements[1..]| ==> statements[1..][j] == statements[j + 1];
      var pragma := ParseForeignKeysPragma(Trim(statements[0]));
      LastSwitchDecides(statements[1..], if pragma.Some? then pragma.value else state, i - 1, on);
    }
  }

  lemma {:induction false} NoSwitchKeeps(statements: seq<string>, state: bool)
    requires forall j, other :: 0 <= j < |statements| ==> !IsSwitch(Trim(statements[j]), other)
    ensures Desired(statements, state) == state
  {
    hide IsSwitch, Trim, ParseForeignKeysPragma;
    if statements != [] {
      SwitchIff(Trim(statements[0]), true);
      SwitchIff(Trim(statements[0]), false);
      NoSwitchKeeps(statements[1..], state);
    }
  }

  /** Foreign keys are off in the transaction exactly when some statement switches them off. */
  lemma OffIff(statements: seq<string>)
    ensures SwitchesOff(statements) <==> exists i :: 0 <= i < |statements| && IsSwitch(Trim(statements[i]), false)
  {
    hide IsSwitch, Trim, ParseForeignKeysPragma;
    forall i | 0 <= i < |statements|
      ensures ParseForeignKeysPragma(Trim(statements[i])) == Some(false) <==> IsSwitch(Trim(statements[i]), false)
    {
      SwitchIff(Trim(statements[i]), false);
    }
  }

  /** The transaction runs exactly the other statements, trimmed and in order. */
  lemma {:induction false} OrdinaryAre(before: seq<string>, statement: string)
    ensures Ordinary([]) == []
    ensures Ordinary(before + [statement])
         == if Trim(statement) == "" || IsSwitch(Trim(statement), true) || IsSwitch(Trim(statement), false) then Ordinary(before)
            else Ordinary(before) + [Trim(statement)]
  {
    hide IsSwitch, Trim, ParseForeignKeysPragma;
    OrdinaryAppend(before, [statement]);
    var one := [statement];
    assert one[0] == statement && one[1..] == [];
    var pragma := ParseForeignKeysPragma(Trim(statement));
    assert Ordinary(one) == (if Trim(statement) == "" || pragma.Some? then [] else [Trim(statement)]) + Ordinary(one[1..]);
    if pragma.Some? {
      SwitchIff(Trim(statement), pragma.value);
    }
    SwitchIff(Trim(statement), true);
    SwitchIff(Trim(statement), false);
  }
}
