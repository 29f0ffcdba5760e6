/**
  `read_env_file` and `write_env_file` (scripts/wizard/writer.py). A file is its text,
  or `None` when it does not exist.
 */
module EnvFile {
  import opened Options
  import opened Text

  datatype Pair = Pair(key: string, value: string)

  /** A Python dict of settings: its items in order. */
  ghost predicate Dict(pairs: seq<Pair>) {
    forall i, j :: 0 <= i < j < |pairs| ==> pairs[i].key != pairs[j].key
  }

  /** The setting a line makes, if any. */
  function Setting(line: string): Option<Pair> {
    var stripped := Strip(line);
    if stripped == "" || stripped[0] == '#' || '=' !in stripped then None
    else
      var i := IndexOf(stripped, '=');
      Some(Pair(Strip(stripped[..i]), Strip(stripped[i + 1..])))
  }

  function ValueOf(pairs: seq<Pair>, key: string): (v: Option<string>)
    ensures v.Some? <==> exists i :: 0 <= i < |pairs| && pairs[i].key == key
  {
    if pairs == [] then None
    else if pairs[|pairs| - 1].key == key then Some(pairs[|pairs| - 1].value)
    else ValueOf(pairs[..|pairs| - 1], key)
  }

  function Printed(key: string, value: string): string {
    key + "=" + value
  }

  // ---------------------------------------------------------------------------
  // Reading and writing
  // ---------------------------------------------------------------------------

  /** The settings of a list of lines; later lines win. */
  function Settings(lines: seq<string>): map<string, string> {
    if lines == [] then map[]
    else
      var before, s := Settings(lines[..|lines| - 1]), Setting(lines[|lines| - 1]);
      if s.Some? then before[s.value.key := s.value.value] else before
  }

  function LinesOf(file: Option<string>): seq<string> {
    if file.Some? then SplitLines(file.value) else []
  }

  /** The line sets one of the pairs. */
  predicate Overridden(line: string, pairs: seq<Pair>) {
    Setting(line).Some? && ValueOf(pairs, Setting(line).value.key).Some?
  }

  function NewLine(line: string, pairs: seq<Pair>): string {
    if Overridden(line, pairs) then
      Printed(Setting(line).value.key, ValueOf(pairs, Setting(line).value.key).value)
    else line
  }

  /** Existing lines, with the values of the pairs put in place. */
  function Updated(lines: seq<string>, pairs: seq<Pair>): (r: seq<string>)
    ensures |r| == |lines| && forall i :: 0 <= i < |r| ==> r[i] == NewLine(lines[i], pairs)
  {
    if lines == [] then [] else Updated(lines[..|lines| - 1], pairs) + [NewLine(lines[|lines| - 1], pairs)]
  }

  /** Some line sets the key. */
  predicate Mentions(lines: seq<string>, key: string) {
    lines != [] && (SetsKey(lines[|lines| - 1], key) || Mentions(lines[..|lines| - 1], key))
  }

  predicate SetsKey(line: string, key: string) {
    Setting(line).Some? && Setting(line).value.key == key
  }

  /** New lines for the pairs no line sets. */
  function Appended(lines: seq<string>, pairs: seq<Pair>): seq<string> {
    if pairs == [] then []
    else
      var p := pairs[|pairs| - 1];
      Appended(lines, pairs[..|pairs| - 1]) + (if Mentions(lines, p.key) then [] else [Printed(p.key, p.value)])
  }

  function Written(lines: seq<string>, pairs: seq<Pair>): seq<string> {
    Updated(lines, pairs) + Appended(lines, pairs)
  }

  function TextOf(lines: seq<string>): string {
    Join("\n", lines) + "\n"
  }

  /** `read_env_file`. */
  method ReadEnvFile(file: Option<string>) returns (result: map<string, string>)
    ensures result == Settings(LinesOf(file))
  {
    result := map[];
    if file.None? {
      return;
    }
    var lines := SplitLines(file.value);
    for n := 0 to |lines|
      invariant result == Settings(lines[..n])
    {
      assert lines[..n + 1][..n] == lines[..n];
      var line := Strip(lines[n]);
      if line == "" || line[0] == '#' {
        continue;
      }
      if '=' in line {
        var i := IndexOf(line, '=');
        result := result[Strip(line[..i]) := Strip(line[i + 1..])];
      }
    }
    assert lines[..|lines|] == lines;
  }

  /** `write_env_file`: the new text of the file. */
  method WriteEnvFile(file: Option<string>, pairs: seq<Pair>) returns (text: string)
    requires Dict(pairs)
    ensures text == TextOf(Written(LinesOf(file), pairs))
  {
    var lines := if file.Some? then SplitLines(file.value) else [];
    var newLines, updated := UpdateLines(lines, pairs);
    var added := AddLines(lines, pairs, updated);
    text := TextOf(newLines + added);
  }

  /** The second loop of `write_env_file`. */
  method AddLines(lines: seq<string>, pairs: seq<Pair>, updated: set<string>) returns (added: seq<string>)
    requires Tracks(updated, lines, pairs)
    ensures added == Appended(lines, pairs)
  {
    added := [];
    for n := 0 to |pairs|
      invariant added == Appended(lines, pairs[..n])
    {
      AppendedOneMore(lines, pairs, updated, n);
      if pairs[n].key !in updated {
        added := added + [Printed(pairs[n].key, pairs[n].value)];
      }
    }
    assert pairs[..|pairs|] == pairs;
  }

  lemma AppendedOneMore(lines: seq<string>, pairs: seq<Pair>, updated: set<string>, n: nat)
    requires n < |pairs| && Tracks(updated, lines, pairs)
    ensures Appended(lines, pairs[..n + 1]) ==
            Appended(lines, pairs[..n])
            + (if pairs[n].key in updated then [] else [Printed(pairs[n].key, pairs[n].value)])
  {
    assert pairs[..n + 1][..n] == pairs[..n];
    AllTracked(updated, lines, pairs, n);
  }

  /** The first loop of `write_env_file`. */
  method UpdateLines(lines: seq<string>, pairs: seq<Pair>) returns (newLines: seq<string>, updated: set<string>)
    ensures newLines == Updated(lines, pairs) && Tracks(updated, lines, pairs)
  {
    newLines, updated := [], {};
    for n := 0 to |lines|
      invariant newLines == Updated(lines[..n], pairs)
      invariant Tracks(updated, lines[..n], pairs)
    {
      assert lines[..n + 1][..n] == lines[..n];
      TracksOneMore(updated, lines, n, pairs);
      var stripped := Strip(lines[n]);
      if stripped != "" && stripped[0] != '#' && '=' in stripped {
        var key := Strip(stripped[..IndexOf(stripped, '=')]);
        var value := ValueOf(pairs, key);
        if value.Some? {
          newLines := newLines + [Printed(key, value.value)];
          updated := updated + {key};
          continue;
        }
      }
      newLines := newLines + [lines[n]];
    }
    assert lines[..|lines|] == lines;
  }

  /** `updated` holds the pairs' keys that the lines mention. */
  ghost predicate Tracks(updated: set<string>, lines: seq<string>, pairs: seq<Pair>) {
    forall key :: key in updated <==> Mentions(lines, key) && ValueOf(pairs, key).Some?
  }

  lemma TracksOneMore(updated: set<string>, lines: seq<string>, n: nat, pairs: seq<Pair>)
    requires n < |lines| && Tracks(updated, lines[..n], pairs)
    ensures Overridden(lines[n], pairs) ==> Tracks(updated + {Setting(lines[n]).value.key}, lines[..n + 1], pairs)
    ensures !Overridden(lines[n], pairs) ==> Tracks(updated, lines[..n + 1], pairs)
  {
    MentionsOneMore(lines, n);
  }

  lemma AllTracked(updated: set<string>, lines: seq<string>, pairs: seq<Pair>, n: nat)
    requires n < |pairs| && Tracks(updated, lines, pairs)
    ensures pairs[n].key in updated <==> Mentions(lines, pairs[n].key)
  {
    assert ValueOf(pairs, pairs[n].key).Some?;
  }

  lemma MentionsOneMore(lines: seq<string>, n: nat)
    requires n < |lines|
    ensures forall key :: Mentions(lines[..n + 1], key) <==> Mentions(lines[..n], key) || SetsKey(lines[n], key)
  {
    assert lines[..n + 1][..n] == lines[..n];
  }

  // ---------------------------------------------------------------------------
  // Round trips
  // ---------------------------------------------------------------------------

  /** Names a `.env` line can carry. */
  ghost predicate Name(key: string) {
    Trimmed(key, WhiteSpace) && '=' !in key && (key == "" || key[0] != '#') && OneLine(key)
  }

  ghost predicate Writable(pairs: seq<Pair>) {
    Dict(pairs) && forall i :: 0 <= i < |pairs| ==> Name(pairs[i].key) && OneLine(pairs[i].value)
  }

  /** The exact condition, for keys without line breaks: a written setting is read back, with its value
      stripped, if and only if its key is trimmed, has no equals sign and does not start with `#`. */
  lemma ReadBackIff(key: string, value: string)
    requires OneLine(key)
    ensures Setting(Printed(key, value)) == Some(Pair(key, Strip(value))) <==> Name(key)
  {
    if Name(key) {
      var a, b := TrimParts(value, WhiteSpace);
      if Strip(value) == "" {
        BlankValue(key, value, a, b);
      } else {
        PaddedValue(key, value, a, Strip(value), b);
      }
    }
    if Setting(Printed(key, value)).Some? {
      SettingKeyIsName(Printed(key, value));
    }
  }

  lemma PrintedSetting(key: string, value: string)
    requires Name(key)
    ensures Setting(Printed(key, value)) == Some(Pair(key, Strip(value)))
  {
    ReadBackIff(key, value);
  }

  lemma BlankValue(key: string, value: string, a: string, b: string)
    requires Name(key) && value == a + "" + b && AllIn(a, WhiteSpace) && AllIn(b, WhiteSpace)
    ensures Setting(key + "=" + value) == Some(Pair(key, ""))
  {
    assert key + "=" + value == "" + (key + "=") + (a + b);
    TrimIs("", key + "=", a + b, WhiteSpace);
    assert key + "=" == key + "=" + "";
    ReadBack(key + "=" + value, key, "");
  }

  lemma PaddedValue(key: string, value: string, a: string, v: string, b: string)
    requires Name(key) && value == a + v + b && AllIn(a, WhiteSpace) && AllIn(b, WhiteSpace)
    requires v != "" && Trimmed(v, WhiteSpace)
    ensures Setting(key + "=" + value) == Some(Pair(key, v))
  {
    var line := key + "=" + (a + v);
    assert key + "=" + value == "" + line + b;
    assert line[|line| - 1] == v[|v| - 1] && line[0] == if key == "" then '=' else key[0];
    TrimIs("", line, b, WhiteSpace);
    ReadBack(key + "=" + value, key, a + v);
    assert a + v == a + v + "";
    TrimIs(a, v, "", WhiteSpace);
  }

  lemma ReadBack(line: string, key: string, kept: string)
    requires Name(key) && Strip(line) == key + "=" + kept
    ensures Setting(line) == Some(Pair(key, Strip(kept)))
  {
    var s := key + "=" + kept;
    assert key == "" + key + "";
    TrimIs("", key, "", WhiteSpace);
    IndexOfSeparator(key, '=', kept);
    assert s[|key|] == '=' && s[..|key|] == key && s[|key| + 1..] == kept;
  }

  /** The last value the lines give a key. */
  function Lookup(lines: seq<string>, key: string): Option<string> {
    if lines == [] then None
    else if SetsKey(lines[|lines| - 1], key) then Some(Setting(lines[|lines| - 1]).value.value)
    else Lookup(lines[..|lines| - 1], key)
  }

  function Held(m: map<string, string>, key: string): Option<string> {
    if key in m then Some(m[key]) else None
  }

  lemma {:induction false} SettingsAreLookups(lines: seq<string>, key: string)
    ensures Held(Settings(lines), key) == Lookup(lines, key)
  {
    if lines != [] {
      SettingsAreLookups(lines[..|lines| - 1], key);
    }
  }

  lemma {:induction false} LookupConcat(a: seq<string>, b: seq<string>, key: string)
    ensures Lookup(a + b, key) == if Lookup(b, key).Some? then Lookup(b, key) else Lookup(a, key)
  {
    if b == [] {
      assert a + b == a;
    } else {
      LookupConcat(a, b[..|b| - 1], key);
      assert (a + b)[..|a + b| - 1] == a + b[..|b| - 1];
    }
  }

  lemma {:induction false} ValueOfIsAPair(pairs: seq<Pair>, key: string) returns (i: nat)
    requires ValueOf(pairs, key).Some?
    ensures i < |pairs| && pairs[i] == Pair(key, ValueOf(pairs, key).value)
  {
    if pairs[|pairs| - 1].key == key {
      i := |pairs| - 1;
    } else {
      i := ValueOfIsAPair(pairs[..|pairs| - 1], key);
    }
  }

  /** What a line of the old file becomes, as a setting. */
  lemma NewLineSetting(line: string, pairs: seq<Pair>)
    requires Writable(pairs)
    ensures Overridden(line, pairs) ==>
              var key := Setting(line).value.key;
              Setting(NewLine(line, pairs)) == Some(Pair(key, Strip(ValueOf(pairs, key).value)))
  {
    if Overridden(line, pairs) {
      var i := ValueOfIsAPair(pairs, Setting(line).value.key);
      PrintedSetting(pairs[i].key, pairs[i].value);
    }
  }

  lemma {:induction false} LookupUpdated(lines: seq<string>, pairs: seq<Pair>, key: string)
    requires Writable(pairs)
    ensures Lookup(Updated(lines, pairs), key) ==
            if ValueOf(pairs, key).Some? && Mentions(lines, key) then Some(Strip(ValueOf(pairs, key).value))
            else Lookup(lines, key)
  {
    if lines != [] {
      var n := |lines| - 1;
      LookupUpdated(lines[..n], pairs, key);
      NewLineSetting(lines[n], pairs);
      assert lines[..n + 1] == lines;
      MentionsOneMore(lines, n);
      assert Updated(lines, pairs)[..n] == Updated(lines[..n], pairs);
    }
  }

  lemma {:induction false} LookupUnmentioned(lines: seq<string>, key: string)
    requires !Mentions(lines, key)
    ensures Lookup(lines, key) == None
  {
    if lines != [] {
      var n := |lines| - 1;
      assert lines[..n + 1] == lines;
      MentionsOneMore(lines, n);
      LookupUnmentioned(lines[..n], key);
    }
  }

  lemma LookupSnoc(lines: seq<string>, line: string, key: string)
    ensures Lookup(lines + [line], key) ==
            if SetsKey(line, key) then Some(Setting(line).value.value) else Lookup(lines, key)
  {
    assert (lines + [line])[..|lines|] == lines;
  }

  lemma LookupPrinted(lines: seq<string>, p: Pair, key: string)
    requires Name(p.key)
    ensures Lookup(lines + [Printed(p.key, p.value)], key) ==
            if p.key == key then Some(Strip(p.value)) else Lookup(lines, key)
  {
    PrintedSetting(p.key, p.value);
    LookupSnoc(lines, Printed(p.key, p.value), key);
  }

  lemma {:induction false} LookupAppended(lines: seq<string>, pairs: seq<Pair>, key: string)
    requires forall i :: 0 <= i < |pairs| ==> Name(pairs[i].key)
    ensures Lookup(Appended(lines, pairs), key) ==
            if ValueOf(pairs, key).Some? && !Mentions(lines, key) then Some(Strip(ValueOf(pairs, key).value)) else None
  {
    if pairs != [] {
      var p, front := pairs[|pairs| - 1], pairs[..|pairs| - 1];
      LookupAppended(lines, front, key);
      LookupPrinted(Appended(lines, front), p, key);
      assert Appended(lines, pairs) ==
        if Mentions(lines, p.key) then Appended(lines, front) else Appended(lines, front) + [Printed(p.key, p.value)];
    }
  }

  lemma LookupWritten(lines: seq<string>, pairs: seq<Pair>, key: string)
    requires Writable(pairs)
    ensures Lookup(Written(lines, pairs), key) ==
            if ValueOf(pairs, key).Some? then Some(Strip(ValueOf(pairs, key).value)) else Lookup(lines, key)
  {
    LookupUpdated(lines, pairs, key);
    LookupAppended(lines, pairs, key);
    LookupConcat(Updated(lines, pairs), Appended(lines, pairs), key);
  }

  /** The pairs, with stripped values. */
  function Stripped(pairs: seq<Pair>): map<string, string> {
    if pairs == [] then map[]
    else Stripped(pairs[..|pairs| - 1])[pairs[|pairs| - 1].key := Strip(pairs[|pairs| - 1].value)]
  }

  lemma {:induction false} StrippedValues(pairs: seq<Pair>, key: string)
    ensures Held(Stripped(pairs), key) ==
            if ValueOf(pairs, key).Some? then Some(Strip(ValueOf(pairs, key).value)) else None
  {
    if pairs != [] {
      StrippedValues(pairs[..|pairs| - 1], key);
    }
  }

  lemma SettingsWritten(lines: seq<string>, pairs: seq<Pair>)
    requires Writable(pairs)
    ensures Settings(Written(lines, pairs)) == Settings(lines) + Stripped(pairs)
  {
    var was, now, put := Settings(lines), Settings(Written(lines, pairs)), Stripped(pairs);
    forall key ensures Held(now, key) == Held(was + put, key) {
      SettingsAreLookups(lines, key);
      SettingsAreLookups(Written(lines, pairs), key);
      LookupWritten(lines, pairs, key);
      StrippedValues(pairs, key);
    }
    SameMaps(now, was + put);
  }

  lemma SameMaps(a: map<string, string>, b: map<string, string>)
    requires forall key :: Held(a, key) == Held(b, key)
    ensures a == b
  {
    forall key ensures key in a <==> key in b { assert Held(a, key) == Held(b, key); }
    forall key | key in a ensures a[key] == b[key] { assert Held(a, key) == Held(b, key); }
  }

  /** Lines the pairs do not concern: comments, blanks, other settings, other text. */
  function Untouched(lines: seq<string>, pairs: seq<Pair>): seq<string> {
    if lines == [] then []
    else Untouched(lines[..|lines| - 1], pairs)
         + (if Overridden(lines[|lines| - 1], pairs) then [] else [lines[|lines| - 1]])
  }

  lemma {:induction false} UntouchedConcat(a: seq<string>, b: seq<string>, pairs: seq<Pair>)
    ensures Untouched(a + b, pairs) == Untouched(a, pairs) + Untouched(b, pairs)
  {
    if b == [] {
      assert a + b == a;
    } else {
      UntouchedConcat(a, b[..|b| - 1], pairs);
      assert (a + b)[..|a + b| - 1] == a + b[..|b| - 1];
    }
  }

  lemma {:induction false} UntouchedUpdated(lines: seq<string>, pairs: seq<Pair>)
    requires Writable(pairs)
    ensures Untouched(Updated(lines, pairs), pairs) == Untouched(lines, pairs)
  {
    if lines != [] {
      var n := |lines| - 1;
      UntouchedUpdated(lines[..n], pairs);
      NewLineSetting(lines[n], pairs);
      assert Updated(lines, pairs)[..n] == Updated(lines[..n], pairs);
    }
  }

  lemma PrintedStays(all: seq<Pair>, n: nat)
    requires n < |all| && Writable(all)
    ensures var line := Printed(all[n].key, all[n].value);
            Overridden(line, all) && NewLine(line, all) == line && OneLine(line)
  {
    PrintedSetting(all[n].key, all[n].value);
    var i := ValueOfIsAPair(all, all[n].key);
    assert i == n;
  }

  lemma {:induction false} AppendedArePrinted(lines: seq<string>, pairs: seq<Pair>, line: string) returns (n: nat)
    requires line in Appended(lines, pairs)
    ensures n < |pairs| && line == Printed(pairs[n].key, pairs[n].value)
  {
    n := |pairs| - 1;
    if line in Appended(lines, pairs[..n]) {
      n := AppendedArePrinted(lines, pairs[..n], line);
    }
  }

  lemma AppendedAreSettings(lines: seq<string>, pairs: seq<Pair>)
    requires Writable(pairs)
    ensures forall line :: line in Appended(lines, pairs) ==>
              Overridden(line, pairs) && NewLine(line, pairs) == line && OneLine(line)
  {
    forall line | line in Appended(lines, pairs)
      ensures Overridden(line, pairs) && NewLine(line, pairs) == line && OneLine(line)
    {
      var n := AppendedArePrinted(lines, pairs, line);
      PrintedStays(pairs, n);
    }
  }

  lemma {:induction false} NoneUntouched(lines: seq<string>, pairs: seq<Pair>)
    requires forall line :: line in lines ==> Overridden(line, pairs)
    ensures Untouched(lines, pairs) == []
  {
    if lines != [] {
      assert lines[|lines| - 1] in lines;
      NoneUntouched(lines[..|lines| - 1], pairs);
    }
  }

  /** Everything else in the file survives verbatim, in order. */
  lemma UntouchedWritten(lines: seq<string>, pairs: seq<Pair>)
    requires Writable(pairs)
    ensures Untouched(Written(lines, pairs), pairs) == Untouched(lines, pairs)
  {
    UntouchedUpdated(lines, pairs);
    AppendedAreSettings(lines, pairs);
    NoneUntouched(Appended(lines, pairs), pairs);
    UntouchedConcat(Updated(lines, pairs), Appended(lines, pairs), pairs);
  }

  lemma {:induction false} NothingAppended(lines: seq<string>, pairs: seq<Pair>)
    requires forall i :: 0 <= i < |pairs| ==> Mentions(lines, pairs[i].key)
    ensures Appended(lines, pairs) == []
  {
    if pairs != [] {
      NothingAppended(lines, pairs[..|pairs| - 1]);
    }
  }

  lemma WrittenTwice(lines: seq<string>, pairs: seq<Pair>)
    requires Writable(pairs)
    ensures Written(Written(lines, pairs), pairs) == Written(lines, pairs)
  {
    var once := Written(lines, pairs);
    AppendedAreSettings(lines, pairs);
    forall i | 0 <= i < |once| ensures NewLine(once[i], pairs) == once[i] {
      if i < |lines| {
        NewLineSetting(lines[i], pairs);
      } else {
        assert once[i] in Appended(lines, pairs);
      }
    }
    assert Updated(once, pairs) == once;
    forall i | 0 <= i < |pairs| ensures Mentions(once, pairs[i].key) {
      LookupWritten(lines, pairs, pairs[i].key);
      if !Mentions(once, pairs[i].key) {
        LookupUnmentioned(once, pairs[i].key);
      }
    }
    NothingAppended(once, pairs);
  }

  // ---------------------------------------------------------------------------
  // The file
  // ---------------------------------------------------------------------------

  function WrittenText(file: Option<string>, pairs: seq<Pair>): string {
    TextOf(Written(LinesOf(file), pairs))
  }

  lemma WrittenOneLine(file: Option<string>, pairs: seq<Pair>)
    requires Writable(pairs)
    ensures AllOneLine(Written(LinesOf(file), pairs))
  {
    var lines := LinesOf(file);
    if file.Some? {
      SplitLinesOneLine(file.value);
    }
    forall i | 0 <= i < |lines| ensures OneLine(NewLine(lines[i], pairs)) {
      if Overridden(lines[i], pairs) {
        var k := ValueOfIsAPair(pairs, Setting(lines[i]).value.key);
      }
    }
    AppendedAreSettings(lines, pairs);
    var tail := Appended(lines, pairs);
    assert forall i :: 0 <= i < |tail| ==> tail[i] in tail;
  }

  /** The lines of the written file: an empty result is written as one blank line. */
  lemma LinesOfWritten(file: Option<string>, pairs: seq<Pair>)
    requires Writable(pairs)
    ensures var lines := Written(LinesOf(file), pairs);
            LinesOf(Some(WrittenText(file, pairs))) == if lines == [] then [""] else lines
    ensures Written(LinesOf(file), pairs) == [] ==> pairs == []
  {
    var lines := Written(LinesOf(file), pairs);
    assert pairs == [] || Mentions(LinesOf(file), pairs[|pairs| - 1].key) || Appended(LinesOf(file), pairs) != [];
    if lines == [] {
      assert TextOf(lines) == "\n";
      assert !("\n" == "");
      LineEndAt("", "");
      assert "\n" == "" + "\n" + "" && "\n"[1..] == "" && "\n"[..0] == "";
      assert SplitLines("\n") == [""] + SplitLines("");
    } else {
      WrittenOneLine(file, pairs);
      SplitLinesJoined(lines);
    }
  }

  lemma BlankLine()
    ensures Setting("") == None && Settings([""]) == map[]
  {
    assert "" == "" + "" + "";
    TrimIs("", "", "", WhiteSpace);
    assert [""][..0] == [];
  }

  /** Reading a written file gives the old settings overridden by the pairs, however often a key occurred. */
  lemma ReadAfterWrite(file: Option<string>, pairs: seq<Pair>)
    requires Writable(pairs)
    ensures Settings(LinesOf(Some(WrittenText(file, pairs)))) == Settings(LinesOf(file)) + Stripped(pairs)
  {
    LinesOfWritten(file, pairs);
    SettingsWritten(LinesOf(file), pairs);
    BlankLine();
  }

  /** Writing the same pairs again leaves the file as it is. */
  lemma WriteIdempotent(file: Option<string>, pairs: seq<Pair>)
    requires Writable(pairs)
    ensures WrittenText(Some(WrittenText(file, pairs)), pairs) == WrittenText(file, pairs)
  {
    LinesOfWritten(file, pairs);
    WrittenTwice(LinesOf(file), pairs);
    if Written(LinesOf(file), pairs) == [] {
      BlankLine();
      assert Written([""], []) == [""];
    }
  }

  /** Whatever a line says, the key read from it is trimmed, has no equals sign and no leading `#`. */
  lemma SettingKeyIsName(line: string)
    requires Setting(line).Some?
    ensures var key := Setting(line).value.key;
            Trimmed(key, WhiteSpace) && '=' !in key && (key == "" || key[0] != '#')
  {
    var stripped := Strip(line);
    var a, b := TrimParts(line, WhiteSpace);
    KeyPart(stripped, IndexOf(stripped, '='));
  }

  lemma KeyPart(stripped: string, i: nat)
    requires i <= |stripped| && Trimmed(stripped, WhiteSpace) && '=' !in stripped[..i]
    requires stripped != "" && stripped[0] != '#'
    ensures var key := Strip(stripped[..i]);
            Trimmed(key, WhiteSpace) && '=' !in key && (key == "" || key[0] != '#')
  {
    var c, d := TrimParts(stripped[..i], WhiteSpace);
    TrimWithin(stripped[..i], WhiteSpace, '=');
    assert c <= stripped;
    TrimmedStart(stripped, c, WhiteSpace);
    var key := Strip(stripped[..i]);
    assert key != "" ==> key[0] == stripped[0];
  }

  /** The hypothesis on names is needed: a key with an equals sign is read back cut at the sign. */
  lemma EqualsSignCutsKey(key: string, rest: string, value: string)
    requires Name(key)
    ensures Setting(Printed(key + "=" + rest, value)) == Some(Pair(key, Strip(rest + "=" + value)))
  {
    assert Printed(key + "=" + rest, value) == Printed(key, rest + "=" + value);
    PrintedSetting(key, rest + "=" + value);
  }

  ghost predicate Assigns(line: string, key: string, value: string, a: string, b: string, c: string, d: string) {
    && line == a + (key + b + "=" + (c + value)) + d
    && AllIn(a, WhiteSpace) && AllIn(b, WhiteSpace) && AllIn(c, WhiteSpace) && AllIn(d, WhiteSpace)
  }

  /** A line is a setting exactly when it is a key, an equals sign and a value with any blanks around
      them; a key is trimmed, has no equals sign and does not start with `#`. */
  lemma SettingExact(line: string, key: string, value: string)
    ensures Setting(line) == Some(Pair(key, value)) <==>
            && Trimmed(key, WhiteSpace) && '=' !in key && (key == "" || key[0] != '#') && Trimmed(value, WhiteSpace)
            && exists a, b, c, d :: Assigns(line, key, value, a, b, c, d)
  {
    if Setting(line) == Some(Pair(key, value)) {
      SettingSplits(line, key, value);
    }
    if Trimmed(key, WhiteSpace) && '=' !in key && (key == "" || key[0] != '#') && Trimmed(value, WhiteSpace)
       && exists a, b, c, d :: Assigns(line, key, value, a, b, c, d) {
      var a, b, c, d :| Assigns(line, key, value, a, b, c, d);
      SettingReads(line, key, value, a, b, c, d);
    }
  }

  lemma SettingSplits(line: string, key: string, value: string)
    requires Setting(line) == Some(Pair(key, value))
    ensures Trimmed(key, WhiteSpace) && '=' !in key && (key == "" || key[0] != '#') && Trimmed(value, WhiteSpace)
    ensures exists a, b, c, d :: Assigns(line, key, value, a, b, c, d)
  {
    SettingKeyIsName(line);
    var s := Strip(line);
    var a, d := TrimParts(line, WhiteSpace);
    var i := IndexOf(s, '=');
    var p, b := TrimParts(s[..i], WhiteSpace);
    var c, q := TrimParts(s[i + 1..], WhiteSpace);
    SplitAtSign(s, i);
    Recombined(line, a, s, d, p, key, b, c, value, q);
    BlanksConcat(a, p);
    BlanksConcat(q, d);
    assert Assigns(line, key, value, a + p, b, c, q + d);
  }

  lemma SplitAtSign(s: string, i: nat)
    requires i < |s| && s[i] == '='
    ensures s == s[..i] + "=" + s[i + 1..]
  {
  }

  lemma BlanksConcat(a: string, b: string)
    requires AllIn(a, WhiteSpace) && AllIn(b, WhiteSpace)
    ensures AllIn(a + b, WhiteSpace)
  {
  }

  lemma Recombined(line: string, a: string, s: string, d: string,
                   p: string, key: string, b: string, c: string, value: string, q: string)
    requires line == a + s + d && s == (p + key + b) + "=" + (c + value + q)
    ensures line == (a + p) + (key + b + "=" + (c + value)) + (q + d)
  {
    assert s == p + (key + b + "=" + (c + value)) + q;
  }

  lemma SettingReads(line: string, key: string, value: string, a: string, b: string, c: string, d: string)
    requires Trimmed(key, WhiteSpace) && '=' !in key && (key == "" || key[0] != '#') && Trimmed(value, WhiteSpace)
    requires Assigns(line, key, value, a, b, c, d)
    ensures Setting(line) == Some(Pair(key, value))
  {
    BlanksConcat(a, b);
    BlanksConcat(c, d);
    var lead, mid := if key == "" then a + b else a, if key == "" then "" else b;
    var gap, tail := if value == "" then "" else c, if value == "" then c + d else d;
    assert a + (key + b) == lead + (key + mid);
    assert (c + value) + d == (gap + value) + tail;
    assert line == a + (key + b) + "=" + ((c + value) + d);
    CoreReads(line, lead, key, mid, gap, value, tail);
  }

  lemma CoreReads(line: string, lead: string, key: string, mid: string, gap: string, value: string, tail: string)
    requires Trimmed(key, WhiteSpace) && '=' !in key && (key == "" || key[0] != '#') && Trimmed(value, WhiteSpace)
    requires AllIn(lead, WhiteSpace) && AllIn(mid, WhiteSpace) && AllIn(gap, WhiteSpace) && AllIn(tail, WhiteSpace)
    requires (key == "" ==> mid == "") && (value == "" ==> gap == "")
    requires line == (lead + (key + mid)) + "=" + ((gap + value) + tail)
    ensures Setting(line) == Some(Pair(key, value))
  {
    var core := (key + mid) + "=" + (gap + value);
    assert line == lead + core + tail;
    assert core[0] == (if key == "" then '=' else key[0]);
    assert core[|core| - 1] == (if value == "" then '=' else value[|value| - 1]);
    TrimIs(lead, core, tail, WhiteSpace);
    BlanksHoldNoSign(mid);
    PartsRead(line, core, key, mid, gap, value);
  }

  lemma PartsRead(line: string, core: string, key: string, mid: string, gap: string, value: string)
    requires Trimmed(key, WhiteSpace) && '=' !in key && (key == "" || key[0] != '#') && Trimmed(value, WhiteSpace)
    requires AllIn(mid, WhiteSpace) && AllIn(gap, WhiteSpace) && '=' !in mid && (key == "" ==> mid == "")
    requires core == (key + mid) + "=" + (gap + value) && Strip(line) == core
    ensures Setting(line) == Some(Pair(key, value))
  {
    var front := key + mid;
    IndexOfSeparator(front, '=', gap + value);
    assert core == front + ['='] + (gap + value) && core[|front|] == '=';
    assert core[..|front|] == front && core[|front| + 1..] == gap + value;
    assert front == "" + key + mid && gap + value == gap + value + "";
    TrimIs("", key, mid, WhiteSpace);
    TrimIs(gap, value, "", WhiteSpace);
  }

  lemma BlanksHoldNoSign(s: string)
    requires AllIn(s, WhiteSpace)
    ensures '=' !in s
  {
    assert !Has(WhiteSpace, '=');
  }
}
