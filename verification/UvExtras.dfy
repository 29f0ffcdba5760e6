/**
  The indentation parser of scripts/detect_uv_extras.py: values of `section.key` and
  `parent.child.key` in a YAML configuration, found line by line.
 */
module UvExtras {
  import opened Options
  import opened Text

  predicate IsQuote(c: char) {
    c == '\'' || c == '"'
  }

  /** The text up to a `#` outside quotes. */
  function Uncommented(s: string, quote: Option<char>): string {
    if s == "" then ""
    else if quote.Some? then [s[0]] + Uncommented(s[1..], if s[0] == quote.value then None else quote)
    else if IsQuote(s[0]) then [s[0]] + Uncommented(s[1..], Some(s[0]))
    else if s[0] == '#' then ""
    else [s[0]] + Uncommented(s[1..], None)
  }

  function StripComment(line: string): string {
    TrimRight(Uncommented(line, None), WhiteSpace)
  }

  /** `_strip_comment`. */
  method StripCommentLoop(line: string) returns (stripped: string)
    ensures stripped == StripComment(line)
  {
    var inQuote: Option<char> := None;
    var out := "";
    var n := 0;
    while n < |line|
      invariant 0 <= n <= |line|
      invariant out + Uncommented(line[n..], inQuote) == Uncommented(line, None)
    {
      var ch := line[n];
      assert line[n..][1..] == line[n + 1..];
      n := n + 1;
      if inQuote.Some? {
        out := out + [ch];
        if ch == inQuote.value {
          inQuote := None;
        }
        continue;
      }
      if IsQuote(ch) {
        inQuote := Some(ch);
        out := out + [ch];
      } else if ch == '#' {
        assert out + "" == Uncommented(line, None);
        break;
      } else {
        out := out + [ch];
      }
    }
    assert out == Uncommented(line, None) by { assert out + "" == out; }
    stripped := TrimRight(out, WhiteSpace);
  }

  /** `_unquote`. */
  function Unquote(value: string): string {
    if |value| >= 2 && value[0] == value[|value| - 1] && IsQuote(value[0]) then value[1..|value| - 1] else value
  }

  predicate NameStart(c: char) {
    'A' <= c <= 'Z' || 'a' <= c <= 'z' || c == '_'
  }

  predicate NameChar(c: char) {
    NameStart(c) || '0' <= c <= '9' || c == '-'
  }

  /** The length of the name a text starts with. */
  function NameRun(s: string): (n: nat)
    ensures n <= |s|
  {
    if s != "" && NameChar(s[0]) then 1 + NameRun(s[1..]) else 0
  }

  /** A name and what follows its colon. */
  function Named(s: string): Option<(string, string)> {
    var n := NameRun(s);
    if n == 0 || !NameStart(s[0]) then None
    else
      var rest := TrimLeft(s[n..], WhiteSpace);
      if rest != "" && rest[0] == ':' then Some((s[..n], rest[1..])) else None
  }

  /** `_SECTION_RE`. */
  function SectionName(s: string): Option<string> {
    var named := Named(s);
    if named.Some? && TrimLeft(named.value.1, WhiteSpace) == "" then Some(named.value.0) else None
  }

  /** `_INDENTED_SECTION_RE`. */
  function SubsectionName(s: string): Option<string> {
    var t := TrimLeft(s, WhiteSpace);
    if |t| == |s| then None else SectionName(t)
  }

  /** `_KEY_RE`. */
  function KeyValue(s: string): Option<(string, string)> {
    var t := TrimLeft(s, WhiteSpace);
    var named := Named(t);
    if |t| < |s| && named.Some? && Strip(named.value.1) != "" then Some((named.value.0, Strip(named.value.1))) else None
  }

  /** What the parsers see in a line. */
  datatype Row =
    | Blank
    | Head(name: string)                                                              // a top-level section
    | Inner(indent: nat, pair: Option<(string, string)>, opens: Option<string>)       // anything else

  function RowOf(line: string): Row {
    var s := StripComment(line);
    if Strip(s) == "" then Blank
    else if SectionName(s).Some? then Head(SectionName(s).value)
    else Inner(Indent(s), KeyValue(s), SubsectionName(s))
  }

  function RowsOf(lines: seq<string>): seq<Row> {
    seq(|lines|, i requires 0 <= i < |lines| => RowOf(lines[i]))
  }

  /** The rows from line `n` on start with its row. */
  lemma RowsAt(lines: seq<string>, n: nat)
    requires n < |lines|
    ensures RowsOf(lines[n..]) == [RowOf(lines[n])] + RowsOf(lines[n + 1..])
  {
  }

  function Indent(s: string): nat {
    TrimLeftShorter(s);
    |s| - |TrimLeft(s, WhiteSpace)|
  }

  lemma TrimLeftShorter(s: string)
    ensures |TrimLeft(s, WhiteSpace)| <= |s|
  {
    var a := TrimLeftParts(s, WhiteSpace);
  }

  // ---------------------------------------------------------------------------
  // What the patterns and the helpers accept, on characters
  // ---------------------------------------------------------------------------

  predicate Letter(c: char) {
    'A' <= c <= 'Z' || 'a' <= c <= 'z' || c == '_'
  }

  /** Letters, digits and dashes, the first a letter. */
  predicate IsName(s: string) {
    s != "" && Letter(s[0]) && forall i :: 0 <= i < |s| ==> Letter(s[i]) || '0' <= s[i] <= '9' || s[i] == '-'
  }

  /** The quote still open after a text. */
  function OpenAfter(s: string, quote: Option<char>): Option<char> {
    if s == "" then quote
    else if quote.Some? then OpenAfter(s[1..], if s[0] == quote.value then None else quote)
    else OpenAfter(s[1..], if s[0] == '\'' || s[0] == '"' then Some(s[0]) else None)
  }

  /** A text between two equal quotes. */
  predicate Enclosed(text: string) {
    && |text| >= 2 && text[0] == text[|text| - 1]
    && (text[0] == '\'' || text[0] == '"')
  }

  ghost predicate Sections(s: string, name: string, a: string, b: string) {
    s == name + a + ":" + b && AllIn(a, WhiteSpace) && AllIn(b, WhiteSpace)
  }

  ghost predicate Indents(s: string, pad: string, t: string) {
    s == pad + t && pad != "" && AllIn(pad, WhiteSpace) && t != "" && !IsSpace(t[0])
  }

  ghost predicate Assigns(s: string, name: string, value: string, a: string, b: string, c: string) {
    && s == name + a + ":" + (b + value + c)
    && AllIn(a, WhiteSpace) && AllIn(b, WhiteSpace) && AllIn(c, WhiteSpace)
  }

  /** Quotes go when they enclose the whole value, whatever is between them, and only then. */
  lemma UnquoteExact(value: string, quote: char, text: string)
    requires quote == '\'' || quote == '"'
    ensures Unquote([quote] + text + [quote]) == text
    ensures !Enclosed(value) ==> Unquote(value) == value
  {
    var s := [quote] + text + [quote];
    assert s[1..|s| - 1] == text;
  }

  lemma UncommentedPad(text: string, pad: string, tail: string)
    requires '#' !in text && OpenAfter(text, None) == None && AllIn(pad, WhiteSpace)
    ensures Uncommented(text + (pad + tail), None) == text + (pad + Uncommented(tail, None))
  {
    SpacesAreCalm(pad);
    UncommentedHashFree(text, pad + tail, None);
    UncommentedCalm(pad, tail);
  }

  /** A comment goes with the blanks before it, wherever no quote is open before its `#`. */
  lemma CommentCut(text: string, pad: string, comment: string)
    requires '#' !in text && OpenAfter(text, None) == None && AllIn(pad, WhiteSpace)
    requires text == "" || !IsSpace(text[|text| - 1])
    requires comment == "" || comment[0] == '#'
    ensures StripComment(text + (pad + comment)) == text
  {
    UncommentedPad(text, pad, comment);
    assert pad + "" == pad;
    TrimRightIs(text, pad, WhiteSpace);
  }

  lemma {:induction false} NameRunChars(s: string)
    ensures forall i :: 0 <= i < NameRun(s) ==> NameChar(s[i])
    ensures NameRun(s) < |s| ==> !NameChar(s[NameRun(s)])
  {
    if s != "" && NameChar(s[0]) {
      NameRunChars(s[1..]);
      forall i | 0 <= i < NameRun(s) ensures NameChar(s[i]) { assert i > 0 ==> s[i] == s[1..][i - 1]; }
    }
  }

  /** A name, blanks, a colon and the rest are read as such, ... */
  lemma NamedReads(name: string, blanks: string, rest: string)
    requires IsName(name) && AllIn(blanks, WhiteSpace)
    ensures Named(name + blanks + ":" + rest) == Some((name, rest))
  {
    var tail := blanks + (":" + rest);
    var s := name + tail;
    assert name + blanks + ":" + rest == s;
    assert !NameChar(tail[0]);
    NameRunIs(name, tail);
    assert s[|name|..] == tail && s[..|name|] == name;
    TrimLeftIs(blanks, ":" + rest, WhiteSpace);
    assert (":" + rest)[1..] == rest;
  }

  lemma NameOf(s: string, n: nat)
    requires 0 < n <= |s| && NameStart(s[0]) && forall i :: 0 <= i < n ==> NameChar(s[i])
    ensures IsName(s[..n])
  {
  }

  lemma Assembled(s: string, n: nat, blanks: string, rest: string)
    requires n <= |s| && s[n..] == blanks + rest && rest != "" && rest[0] == ':'
    ensures s == s[..n] + blanks + ":" + rest[1..]
  {
    assert rest == ":" + rest[1..];
    assert s == s[..n] + s[n..];
  }

  /** ... and nothing else is. */
  lemma NamedOnly(s: string) returns (blanks: string)
    requires Named(s).Some?
    ensures IsName(Named(s).value.0) && AllIn(blanks, WhiteSpace)
    ensures s == Named(s).value.0 + blanks + ":" + Named(s).value.1
  {
    var n := NameRun(s);
    NameRunChars(s);
    NameOf(s, n);
    blanks := TrimLeftParts(s[n..], WhiteSpace);
    Assembled(s, n, blanks, TrimLeft(s[n..], WhiteSpace));
  }

  /** `_SECTION_RE`: a line is a section exactly when it is a name, blanks, a colon and blanks. */
  lemma SectionNameExact(s: string, name: string)
    ensures SectionName(s) == Some(name) <==>
            IsName(name) && exists a, b :: Sections(s, name, a, b)
  {
    if SectionName(s) == Some(name) {
      var a := NamedOnly(s);
      var b := TrimLeftParts(Named(s).value.1, WhiteSpace);
      assert Named(s).value.1 == b + "" == b;
      assert Sections(s, name, a, b);
    }
    if IsName(name) && exists a, b :: Sections(s, name, a, b) {
      var a, b :| Sections(s, name, a, b);
      NamedReads(name, a, b);
      TrimLeftIs(b, "", WhiteSpace);
      assert b + "" == b;
    }
  }

  /** `_INDENTED_SECTION_RE`: the same after at least one blank. */
  lemma SubsectionNameExact(s: string, name: string)
    ensures SubsectionName(s) == Some(name) <==>
            IsName(name) && exists pad, t :: Indents(s, pad, t) && exists a, b :: Sections(t, name, a, b)
  {
    var t := TrimLeft(s, WhiteSpace);
    var pad := TrimLeftParts(s, WhiteSpace);
    SectionNameExact(t, name);
    if SubsectionName(s) == Some(name) {
      assert Indents(s, pad, t);
    }
    if IsName(name) && exists p, u :: Indents(s, p, u) && exists a, b :: Sections(u, name, a, b) {
      var p, u :| Indents(s, p, u) && exists a, b :: Sections(u, name, a, b);
      TrimLeftIs(p, u, WhiteSpace);
    }
  }

  /** `_KEY_RE`: a name, blanks, a colon and a value, after at least one blank. */
  lemma KeyValueExact(s: string, name: string, value: string)
    ensures KeyValue(s) == Some((name, value)) <==>
            && IsName(name) && value != "" && Trimmed(value, WhiteSpace)
            && exists pad, t :: Indents(s, pad, t) && exists a, b, c :: Assigns(t, name, value, a, b, c)
  {
    var t := TrimLeft(s, WhiteSpace);
    var pad := TrimLeftParts(s, WhiteSpace);
    if KeyValue(s) == Some((name, value)) {
      var a := NamedOnly(t);
      var b, c := TrimParts(Named(t).value.1, WhiteSpace);
      assert Indents(s, pad, t) && Assigns(t, name, value, a, b, c);
    }
    if IsName(name) && value != "" && Trimmed(value, WhiteSpace)
       && exists p, u :: Indents(s, p, u) && exists a, b, c :: Assigns(u, name, value, a, b, c) {
      var p, u :| Indents(s, p, u) && exists a, b, c :: Assigns(u, name, value, a, b, c);
      var a, b, c :| Assigns(u, name, value, a, b, c);
      TrimLeftIs(p, u, WhiteSpace);
      NamedReads(name, a, b + value + c);
      assert u == name + a + ":" + (b + value + c);
      TrimIs(b, value, c, WhiteSpace);
    }
  }

  // ---------------------------------------------------------------------------
  // section.key
  // ---------------------------------------------------------------------------

  /** Outside the section, or inside it with its child indent once known. */
  datatype Cursor = Outside | Inside(childIndent: Option<nat>)

  function Found(row: Row, key: string): Option<string> {
    if row.Inner? && row.pair.Some? && row.pair.value.0 == key then Some(Unquote(row.pair.value.1)) else None
  }

  /** The cursor after a row that does not answer the query, and the answer of one that does. */
  function Next(cursor: Cursor, row: Row, section: string, key: string): (Cursor, Option<string>) {
    match row
    case Blank => (cursor, None)
    case Head(name) => (if name == section then Inside(None) else Outside, None)
    case Inner(indent, _, _) =>
      if cursor.Outside? then (Outside, None)
      else if indent == 0 then (Outside, None)
      else
        var child := if cursor.childIndent.Some? then cursor.childIndent.value else indent;
        if indent < child then (Outside, None)
        else (Inside(Some(child)), if indent == child then Found(row, key) else None)
  }

  function Scan(rows: seq<Row>, cursor: Cursor, section: string, key: string): Option<string> {
    if rows == [] then None
    else
      var (next, answer) := Next(cursor, rows[0], section, key);
      if answer.Some? then answer else Scan(rows[1..], next, section, key)
  }

  /** `section_value`. */
  method SectionValue(lines: seq<string>, section: string, key: string) returns (value: Option<string>)
    ensures value == Scan(RowsOf(lines), Outside, section, key)
  {
    var inside := false;
    var childIndent: Option<nat> := None;
    var n := 0;
    while n < |lines|
      invariant 0 <= n <= |lines|
      invariant Scan(RowsOf(lines[n..]), if inside then Inside(childIndent) else Outside, section, key)
                == Scan(RowsOf(lines), Outside, section, key)
    {
      RowsAt(lines, n);
      var line := StripCommentLoop(lines[n]);
      n := n + 1;
      if Strip(line) == "" {
        continue;
      }
      var sectMatch := SectionName(line);
      if sectMatch.Some? {
        inside := sectMatch.value == section;
        childIndent := None;
        continue;
      }
      if !inside {
        continue;
      }
      var indent := Indent(line);
      if indent == 0 {
        inside := false;
        continue;
      }
      if childIndent.None? {
        childIndent := Some(indent);
      }
      if indent < childIndent.value {
        inside := false;
        continue;
      }
      if indent != childIndent.value {
        continue;
      }
      var keyMatch := KeyValue(line);
      if keyMatch.Some? && keyMatch.value.0 == key {
        return Some(Unquote(keyMatch.value.1));
      }
    }
    return None;
  }

  // ---------------------------------------------------------------------------
  // parent.child.key
  // ---------------------------------------------------------------------------

  /** The locals of `nested_section_value`. */
  datatype Nest = Nest(inParent: bool, inChild: bool, parentIndent: Option<nat>, childIndent: Option<nat>)

  function NextNested(st: Nest, row: Row, parent: string, child: string, key: string): (Nest, Option<string>) {
    match row
    case Blank => (st, None)
    case Head(name) => (Nest(name == parent, false, None, None), None)
    case Inner(indent, _, opens) =>
      if !st.inParent then (st, None)
      else
        var parentIndent := if st.parentIndent.None? && indent > 0 then Some(indent) else st.parentIndent;
        if indent == 0 then (Nest(false, false, parentIndent, st.childIndent), None)
        else if parentIndent == Some(indent) then
          if opens == Some(child) then (Nest(true, true, parentIndent, None), None)
          else (Nest(true, false, parentIndent, st.childIndent), None)
        else if !st.inChild then (Nest(true, false, parentIndent, st.childIndent), None)
        else
          var childIndent :=
            if st.childIndent.None? && indent > (if parentIndent.Some? then parentIndent.value else 0) then Some(indent)
            else st.childIndent;
          (Nest(true, true, parentIndent, childIndent),
           if childIndent.Some? && childIndent != Some(indent) then None else Found(row, key))
  }

  function ScanNested(rows: seq<Row>, st: Nest, parent: string, child: string, key: string): Option<string> {
    if rows == [] then None
    else
      var (next, answer) := NextNested(st, rows[0], parent, child, key);
      if answer.Some? then answer else ScanNested(rows[1..], next, parent, child, key)
  }

  const AWAY := Nest(false, false, None, None)

  /** `nested_section_value`, for a section path of two names. */
  method NestedSectionValue(lines: seq<string>, path: string, key: string) returns (value: Option<string>)
    ensures value == if |Split(path, '.')| != 2 then None
                     else ScanNested(RowsOf(lines), AWAY, Split(path, '.')[0], Split(path, '.')[1], key)
  {
    var parts := Split(path, '.');
    if |parts| != 2 {
      return None;
    }
    var parentSection, childSection := parts[0], parts[1];
    var insideParent, insideChild := false, false;
    var parentIndent: Option<nat>, childIndent: Option<nat> := None, None;
    var n := 0;
    while n < |lines|
      invariant 0 <= n <= |lines|
      invariant ScanNested(RowsOf(lines[n..]), Nest(insideParent, insideChild, parentIndent, childIndent),
                parentSection, childSection, key)
                == ScanNested(RowsOf(lines), AWAY, parentSection, childSection, key)
    {
      RowsAt(lines, n);
      var line := StripCommentLoop(lines[n]);
      n := n + 1;
      if Strip(line) == "" {
        continue;
      }
      var indent := Indent(line);
      var sectMatch := SectionName(line);
      if sectMatch.Some? {
        SectionAtMargin(line);
        if indent == 0 {
          insideParent := sectMatch.value == parentSection;
        }
        insideChild, parentIndent, childIndent := false, None, None;
        continue;
      }
      if !insideParent {
        continue;
      }
      if parentIndent.None? && indent > 0 {
        parentIndent := Some(indent);
      }
      if indent == 0 {
        insideParent, insideChild := false, false;
        continue;
      }
      if parentIndent.Some? && indent == parentIndent.value {
        var subMatch := SubsectionName(line);
        if subMatch.Some? && subMatch.value == childSection {
          insideChild, childIndent := true, None;
          continue;
        } else {
          insideChild := false;
          continue;
        }
      }
      if !insideChild {
        continue;
      }
      if childIndent.None? && indent > (if parentIndent.Some? then parentIndent.value else 0) {
        childIndent := Some(indent);
      }
      if childIndent.Some? && indent != childIndent.value {
        continue;
      }
      var keyMatch := KeyValue(line);
      if keyMatch.Some? && keyMatch.value.0 == key {
        return Some(Unquote(keyMatch.value.1));
      }
    }
    return None;
  }

  lemma SectionAtMargin(s: string)
    requires SectionName(s).Some?
    ensures Indent(s) == 0
  {
    assert NameStart(s[0]) && !IsSpace(s[0]);
  }

  // ---------------------------------------------------------------------------
  // Documents
  // ---------------------------------------------------------------------------

  datatype Scalar = Plain(text: string) | Quoted(quote: char, text: string)

  /**
    What stands in a mapping: a scalar entry or an unkeyed item, each with lines of its own below; a
    nested mapping with an indent step of its own; a blank or comment-only line. The lines of entries
    and sections may end in a comment.
   */
  datatype Tree =
    | Leaf(key: string, scalar: Scalar, note: Option<string>, below: seq<string>)
    | Item(text: string, below: seq<string>)
    | Branch(key: string, note: Option<string>, step: nat, children: seq<Tree>)
    | Gap(line: string)

  predicate Calm(s: string) {
    '#' !in s && '\'' !in s && '"' !in s
  }

  /** A scalar as a line can carry it: plain without `#` or enclosing quotes (and, before a comment,
      without an open quote), or quoted, with anything but its own quote inside. */
  predicate WellFormedScalar(v: Scalar, noted: bool) {
    match v
    case Plain(text) =>
      && text != "" && Trimmed(text, WhiteSpace) && '#' !in text && !Enclosed(text)
      && (noted ==> OpenAfter(text, None) == None)
    case Quoted(quote, text) => (quote == '\'' || quote == '"') && quote !in text
  }

  /** Any line that is indented further, or blank. */
  predicate DeeperLine(line: string, depth: nat) {
    forall i :: 0 <= i < |line| && (i <= depth || |line| <= depth) ==> IsSpace(line[i])
  }

  predicate AllDeeper(lines: seq<string>, depth: nat) {
    forall i :: 0 <= i < |lines| ==> DeeperLine(lines[i], depth)
  }

  predicate WellFormed(ts: seq<Tree>, depth: nat) {
    forall i :: 0 <= i < |ts| ==> WellFormedTree(ts[i], depth)
  }

  predicate WellFormedTree(t: Tree, depth: nat) {
    match t
    case Leaf(key, scalar, note, below) =>
      IsName(key) && WellFormedScalar(scalar, note.Some?) && AllDeeper(below, depth)
    case Item(text, below) =>
      && text != "" && !IsSpace(text[0]) && !Letter(text[0]) && text[0] != '#'
      && AllDeeper(below, depth)
    case Branch(key, _, step, children) => IsName(key) && step > 0 && WellFormed(children, depth + step)
    case Gap(line) => TrimLeft(line, WhiteSpace) == "" || TrimLeft(line, WhiteSpace)[0] == '#'
  }

  function Shown(v: Scalar): string {
    match v
    case Plain(text) => text
    case Quoted(quote, text) => [quote] + text + [quote]
  }

  function Spaces(n: nat): (s: string)
    ensures |s| == n && forall i :: 0 <= i < n ==> s[i] == ' '
  {
    if n == 0 then "" else " " + Spaces(n - 1)
  }

  function Note(note: Option<string>): string {
    if note.Some? then " #" + note.value else ""
  }

  function LineOf(t: Tree, depth: nat): string {
    match t
    case Leaf(key, scalar, note, _) => Spaces(depth) + (key + ": " + Shown(scalar)) + Note(note)
    case Item(text, _) => Spaces(depth) + text
    case Branch(key, note, _, _) => Spaces(depth) + (key + ":") + Note(note)
    case Gap(line) => line
  }

  /** The lines of a mapping whose entries are indented by `depth`. */
  function Lines(ts: seq<Tree>, depth: nat): seq<string> {
    if ts == [] then [] else [LineOf(ts[0], depth)] + LinesBelow(ts[0], depth) + Lines(ts[1..], depth)
  }

  function LinesBelow(t: Tree, depth: nat): seq<string> {
    match t
    case Leaf(_, _, _, below) => below
    case Item(_, below) => below
    case Branch(_, _, step, children) => Lines(children, depth + step)
    case Gap(_) => []
  }

  /** The first scalar entry with a key. */
  function FirstLeaf(ts: seq<Tree>, key: string): Option<string> {
    if ts == [] then None
    else if ts[0].Leaf? && ts[0].key == key then Some(ts[0].scalar.text)
    else FirstLeaf(ts[1..], key)
  }

  /** The value of `section.key`: the first answer among the sections of that name. */
  function SectionLookup(ts: seq<Tree>, section: string, key: string): Option<string> {
    if ts == [] then None
    else if ts[0].Branch? && ts[0].key == section && FirstLeaf(ts[0].children, key).Some? then
      FirstLeaf(ts[0].children, key)
    else SectionLookup(ts[1..], section, key)
  }

  /** The value of `parent.child.key`. */
  function NestedLookup(ts: seq<Tree>, parent: string, child: string, key: string): Option<string> {
    if ts == [] then None
    else if ts[0].Branch? && ts[0].key == parent && SectionLookup(ts[0].children, child, key).Some? then
      SectionLookup(ts[0].children, child, key)
    else NestedLookup(ts[1..], parent, child, key)
  }

  // ---------------------------------------------------------------------------
  // What the parsers see in printed lines
  // ---------------------------------------------------------------------------

  /** Text without `#` stays, and leaves its quotes open. */
  lemma {:induction false} UncommentedHashFree(a: string, b: string, quote: Option<char>)
    requires '#' !in a
    ensures Uncommented(a + b, quote) == a + Uncommented(b, OpenAfter(a, quote))
  {
    if a == "" {
      assert a + b == b;
    } else {
      assert (a + b)[1..] == a[1..] + b;
      var next :=
        if quote.Some? then (if a[0] == quote.value then None else quote)
        else if IsQuote(a[0]) then Some(a[0])
        else None;
      UncommentedHashFree(a[1..], b, next);
    }
  }

  lemma {:induction false} CalmOpensNothing(a: string)
    requires Calm(a)
    ensures OpenAfter(a, None) == None
  {
    if a != "" {
      CalmOpensNothing(a[1..]);
    }
  }

  lemma UncommentedCalm(a: string, b: string)
    requires Calm(a)
    ensures Uncommented(a + b, None) == a + Uncommented(b, None)
  {
    UncommentedHashFree(a, b, None);
    CalmOpensNothing(a);
  }

  lemma {:induction false} UncommentedInQuotes(quote: char, t: string, b: string)
    requires quote !in t
    ensures Uncommented(t + [quote] + b, Some(quote)) == t + [quote] + Uncommented(b, None)
  {
    var s := t + [quote] + b;
    if t == "" {
      assert s[1..] == b;
    } else {
      assert s[1..] == t[1..] + [quote] + b;
      UncommentedInQuotes(quote, t[1..], b);
    }
  }

  lemma UncommentedNote(note: Option<string>)
    ensures Uncommented(Note(note), None) == if note.Some? then " " else ""
  {
    if note.Some? {
      assert Note(note)[1..][0] == '#';
    }
  }

  function Rest(note: Option<string>): string {
    if note.Some? then " " else ""
  }

  lemma UncommentedScalar(v: Scalar, note: Option<string>)
    requires WellFormedScalar(v, note.Some?)
    ensures Uncommented(Shown(v) + Note(note), None) == Shown(v) + Rest(note)
  {
    UncommentedNote(note);
    match v {
      case Plain(text) =>
        UncommentedHashFree(text, Note(note), None);
        assert note.None? ==> Uncommented(Note(note), OpenAfter(text, None)) == "";
      case Quoted(quote, text) =>
        var s := [quote] + text + [quote] + Note(note);
        assert s[1..] == text + [quote] + Note(note);
        UncommentedInQuotes(quote, text, Note(note));
        assert Shown(v) + Rest(note) == [quote] + (text + [quote] + Rest(note));
    }
  }

  lemma CalmConcat(a: string, b: string)
    requires Calm(a) && Calm(b)
    ensures Calm(a + b)
  {
  }

  lemma CalmFront(depth: nat, name: string, tail: string)
    requires IsName(name) && Calm(tail)
    ensures Calm(Spaces(depth) + name + tail)
  {
    assert forall i :: 0 <= i < depth ==> Spaces(depth)[i] == ' ';
    assert Calm(Spaces(depth)) && Calm(name);
    CalmConcat(Spaces(depth), name);
    CalmConcat(Spaces(depth) + name, tail);
  }

  lemma UncommentedLeaf(front: string, v: Scalar, note: Option<string>)
    requires Calm(front) && WellFormedScalar(v, note.Some?)
    ensures Uncommented(front + (Shown(v) + Note(note)), None) == front + (Shown(v) + Rest(note))
  {
    UncommentedCalm(front, Shown(v) + Note(note));
    UncommentedScalar(v, note);
  }

  lemma Regroup(a: string, name: string, shown: string, end: string)
    ensures a + (name + ": " + shown) + end == a + name + ": " + (shown + end)
  {
  }

  lemma UncommentedLeafLine(depth: nat, key: string, v: Scalar, note: Option<string>)
    requires IsName(key) && WellFormedScalar(v, note.Some?)
    ensures Uncommented(Spaces(depth) + (key + ": " + Shown(v)) + Note(note), None)
            == Spaces(depth) + (key + ": " + Shown(v)) + Rest(note)
  {
    CalmFront(depth, key, ": ");
    UncommentedLeaf(Spaces(depth) + key + ": ", v, note);
    Regroup(Spaces(depth), key, Shown(v), Note(note));
    Regroup(Spaces(depth), key, Shown(v), Rest(note));
  }

  lemma UncommentedBranchLine(depth: nat, key: string, note: Option<string>)
    requires IsName(key)
    ensures Uncommented(Spaces(depth) + (key + ":") + Note(note), None) == Spaces(depth) + (key + ":") + Rest(note)
  {
    CalmFront(depth, key, ":");
    assert Spaces(depth) + key + ":" == Spaces(depth) + (key + ":");
    UncommentedNote(note);
    UncommentedCalm(Spaces(depth) + (key + ":"), Note(note));
  }

  lemma ShownTrimmed(v: Scalar, noted: bool)
    requires WellFormedScalar(v, noted)
    ensures Shown(v) != "" && Trimmed(Shown(v), WhiteSpace) && Unquote(Shown(v)) == v.text
  {
    var s := Shown(v);
    if v.Quoted? {
      assert s[0] == v.quote && s[|s| - 1] == v.quote && !IsSpace(v.quote);
      assert s[1..|s| - 1] == v.text;
    }
  }

  /** Removing the space before a comment. */
  lemma StrippedBody(line: string, body: string, note: Option<string>)
    requires Uncommented(line, None) == body + Rest(note) && body != "" && !IsSpace(body[|body| - 1])
    ensures StripComment(line) == body
  {
    TrimRightIs(body, Rest(note), WhiteSpace);
  }

  lemma {:induction false} NameRunIs(name: string, after: string)
    requires forall i :: 0 <= i < |name| ==> NameChar(name[i])
    requires after != "" && !NameChar(after[0])
    ensures NameRun(name + after) == |name|
  {
    if name == "" {
      assert name + after == after;
    } else {
      assert (name + after)[1..] == name[1..] + after;
      NameRunIs(name[1..], after);
    }
  }

  lemma NamedCore(name: string, after: string)
    requires IsName(name)
    ensures Named(name + ":" + after) == Some((name, after))
  {
    var s := name + ":" + after;
    assert s == name + (":" + after);
    NameRunIs(name, ":" + after);
    assert s[|name|..] == ":" + after && s[..|name|] == name && (":" + after)[1..] == after;
  }

  /** The row of a line that holds, after its indent, a name, a colon and something. */
  lemma RowOfCore(line: string, depth: nat, name: string, after: string, core: string)
    requires IsName(name) && core == name + ":" + after && !IsSpace(core[|core| - 1])
    requires StripComment(line) == Spaces(depth) + core
    ensures RowOf(line) ==
      if depth == 0 && TrimLeft(after, WhiteSpace) == "" then Head(name)
      else Inner(depth, if depth > 0 && Strip(after) != "" then Some((name, Strip(after))) else None,
                 if depth > 0 && TrimLeft(after, WhiteSpace) == "" then Some(name) else None)
  {
    var s := Spaces(depth) + core;
    assert core[0] == name[0] && !IsSpace(core[0]);
    TrimLeftIs(Spaces(depth), core, WhiteSpace);
    assert s == Spaces(depth) + core + "";
    TrimIs(Spaces(depth), core, "", WhiteSpace);
    NamedCore(name, after);
    if depth == 0 {
      assert s == core;
    } else {
      assert s[0] == ' ' && NameRun(s) == 0;
    }
  }

  lemma RowOfLeaf(t: Tree, depth: nat)
    requires t.Leaf? && WellFormedTree(t, depth)
    ensures RowOf(LineOf(t, depth)) == PrintedRow(t, depth)
  {
    var shown := Shown(t.scalar);
    var core, after := t.key + ": " + shown, " " + shown;
    UncommentedLeafLine(depth, t.key, t.scalar, t.note);
    ShownTrimmed(t.scalar, t.note.Some?);
    assert core == t.key + ":" + after && core[|core| - 1] == shown[|shown| - 1];
    var body := Spaces(depth) + core;
    assert body[|body| - 1] == core[|core| - 1];
    StrippedBody(LineOf(t, depth), body, t.note);
    TrimLeftIs(" ", shown, WhiteSpace);
    assert after == " " + shown + "";
    TrimIs(" ", shown, "", WhiteSpace);
    RowOfCore(LineOf(t, depth), depth, t.key, after, core);
  }

  lemma RowOfBranch(t: Tree, depth: nat)
    requires t.Branch? && WellFormedTree(t, depth)
    ensures RowOf(LineOf(t, depth)) == PrintedRow(t, depth)
  {
    var core := t.key + ":";
    UncommentedBranchLine(depth, t.key, t.note);
    assert core == t.key + ":" + "";
    var body := Spaces(depth) + core;
    assert body[|body| - 1] == ':';
    StrippedBody(LineOf(t, depth), body, t.note);
    RowOfCore(LineOf(t, depth), depth, t.key, "", core);
  }

  /** A line is its indent and its text; a comment takes away a tail of the text at most. */
  lemma StrippedTail(line: string) returns (a: string, core: string, left: string)
    ensures line == a + core && core == TrimLeft(line, WhiteSpace) && AllIn(a, WhiteSpace)
    ensures core == "" || !IsSpace(core[0])
    ensures StripComment(line) == if core == "" || core[0] == '#' then "" else a + left
    ensures core != "" && core[0] != '#' ==> left != "" && left[0] == core[0] && Trimmed(left, WhiteSpace)
  {
    a := TrimLeftParts(line, WhiteSpace);
    core := TrimLeft(line, WhiteSpace);
    SpacesAreCalm(a);
    UncommentedCalm(a, core);
    var kept := Uncommented(core, None);
    if core == "" || core[0] == '#' {
      assert a + kept == "" + a;
      TrimRightIs("", a, WhiteSpace);
      left := "";
    } else {
      left := TrimRight(kept, WhiteSpace);
      KeptTail(a, kept, left);
    }
  }

  lemma SpacesAreCalm(a: string)
    requires AllIn(a, WhiteSpace)
    ensures Calm(a)
  {
    assert !IsSpace('#') && !IsSpace('\'') && !IsSpace('"');
  }

  lemma KeptTail(a: string, kept: string, left: string)
    requires kept != "" && !IsSpace(kept[0]) && left == TrimRight(kept, WhiteSpace)
    ensures TrimRight(a + kept, WhiteSpace) == a + left
    ensures left != "" && left[0] == kept[0] && Trimmed(left, WhiteSpace)
  {
    var b := TrimRightParts(kept, WhiteSpace);
    FirstSurvives(kept, left, b);
    assert a + kept == (a + left) + b;
    assert (a + left)[|a + left| - 1] == left[|left| - 1];
    TrimRightIs(a + left, b, WhiteSpace);
  }

  lemma FirstSurvives(kept: string, left: string, b: string)
    requires kept != "" && !IsSpace(kept[0]) && kept == left + b && AllIn(b, WhiteSpace)
    ensures left != "" && left[0] == kept[0]
  {
    assert !Has(WhiteSpace, kept[0]);
    assert left == "" ==> kept == b;
    assert forall i :: 0 <= i < |b| ==> Has(WhiteSpace, b[i]);
  }

  /** What is seen of any other line. */
  lemma RowOfTail(line: string, a: string, left: string)
    requires StripComment(line) == a + left && AllIn(a, WhiteSpace)
    requires left != "" && Trimmed(left, WhiteSpace)
    ensures RowOf(line).Head? || (RowOf(line).Inner? && RowOf(line).indent == |a|)
    ensures |a| > 0 || !NameStart(left[0]) ==> RowOf(line).Inner?
    ensures !NameStart(left[0]) ==> RowOf(line) == Inner(|a|, None, None)
  {
    var s := a + left;
    TrimLeftIs(a, left, WhiteSpace);
    assert s == a + left + "";
    TrimIs(a, left, "", WhiteSpace);
    if |a| > 0 {
      assert s[0] == a[0] && Has(WhiteSpace, a[0]) && !NameStart(s[0]);
    } else {
      assert s == left;
    }
  }

  lemma RowOfGap(line: string)
    requires TrimLeft(line, WhiteSpace) == "" || TrimLeft(line, WhiteSpace)[0] == '#'
    ensures RowOf(line) == Blank
  {
    var a, core, left := StrippedTail(line);
  }

  lemma RowOfItem(t: Tree, depth: nat)
    requires t.Item? && WellFormedTree(t, depth)
    ensures RowOf(LineOf(t, depth)) == PrintedRow(t, depth)
  {
    var line := LineOf(t, depth);
    TrimLeftIs(Spaces(depth), t.text, WhiteSpace);
    var a, core, left := StrippedTail(line);
    assert |a| == depth by { assert |line| == |a| + |core|; }
    RowOfTail(line, a, left);
  }

  lemma RowOfDeeper(line: string, depth: nat)
    requires DeeperLine(line, depth)
    ensures RowOf(line) == Blank || (RowOf(line).Inner? && RowOf(line).indent > depth)
  {
    var a, core, left := StrippedTail(line);
    if core == "" || core[0] == '#' {
      RowOfGap(line);
    } else {
      assert line[|a|] == core[0];
      RowOfTail(line, a, left);
    }
  }

  /** The row of a printed line: its indent, and its key with a value or a section. */
  function PrintedRow(t: Tree, depth: nat): Row {
    match t
    case Leaf(key, scalar, _, _) => Inner(depth, if depth > 0 then Some((key, Shown(scalar))) else None, None)
    case Item(_, _) => Inner(depth, None, None)
    case Branch(key, _, _, _) => if depth == 0 then Head(key) else Inner(depth, None, Some(key))
    case Gap(_) => Blank
  }

  lemma RowOfLine(t: Tree, depth: nat)
    requires WellFormedTree(t, depth)
    ensures RowOf(LineOf(t, depth)) == PrintedRow(t, depth)
  {
    match t {
      case Leaf(_, _, _, _) => RowOfLeaf(t, depth);
      case Item(_, _) => RowOfItem(t, depth);
      case Branch(_, _, _, _) => RowOfBranch(t, depth);
      case Gap(line) => RowOfGap(line);
    }
  }

  /** The rows of a printed mapping. */
  function PrintedRows(ts: seq<Tree>, depth: nat): seq<Row> {
    if ts == [] then [] else [PrintedRow(ts[0], depth)] + RowsBelow(ts[0], depth) + PrintedRows(ts[1..], depth)
  }

  function RowsBelow(t: Tree, depth: nat): seq<Row> {
    match t
    case Leaf(_, _, _, below) => RowsOf(below)
    case Item(_, below) => RowsOf(below)
    case Branch(_, _, step, children) => PrintedRows(children, depth + step)
    case Gap(_) => []
  }

  lemma RowsOfEntry(line: string, below: seq<string>, more: seq<string>)
    ensures RowsOf([line] + below + more) == [RowOf(line)] + RowsOf(below) + RowsOf(more)
  {
  }

  lemma {:induction false} RowsOfLines(ts: seq<Tree>, depth: nat)
    requires WellFormed(ts, depth)
    ensures RowsOf(Lines(ts, depth)) == PrintedRows(ts, depth)
    decreases ts
  {
    if ts != [] {
      assert WellFormedTree(ts[0], depth);
      RowOfLine(ts[0], depth);
      if ts[0].Branch? {
        RowsOfLines(ts[0].children, depth + ts[0].step);
      }
      RowsOfLines(ts[1..], depth);
      RowsOfEntry(LineOf(ts[0], depth), LinesBelow(ts[0], depth), Lines(ts[1..], depth));
    }
  }

  ghost predicate Deeper(rows: seq<Row>, depth: nat) {
    forall i :: 0 <= i < |rows| ==> rows[i].Blank? || (rows[i].Inner? && rows[i].indent > depth)
  }

  lemma RowsOfDeeper(lines: seq<string>, depth: nat)
    requires AllDeeper(lines, depth)
    ensures Deeper(RowsOf(lines), depth)
  {
    forall i | 0 <= i < |lines|
      ensures RowOf(lines[i]).Blank? || (RowOf(lines[i]).Inner? && RowOf(lines[i]).indent > depth)
    {
      RowOfDeeper(lines[i], depth);
    }
  }

  lemma DeeperStill(rows: seq<Row>, at: nat, depth: nat)
    requires Deeper(rows, at) && depth <= at
    ensures Deeper(rows, depth)
  {
  }

  /** A mapping printed at some depth is deeper than anything above it. */
  lemma {:induction false} MappingIsDeeper(ts: seq<Tree>, at: nat, depth: nat)
    requires WellFormed(ts, at) && at > depth
    ensures Deeper(PrintedRows(ts, at), depth)
    decreases ts, 1
  {
    if ts != [] {
      assert WellFormedTree(ts[0], at);
      BelowIsDeeper(ts[0], at);
      DeeperStill(RowsBelow(ts[0], at), at, depth);
      MappingIsDeeper(ts[1..], at, depth);
    }
  }

  /** Everything printed below an entry is deeper than it. */
  lemma {:induction false} BelowIsDeeper(t: Tree, depth: nat)
    requires WellFormedTree(t, depth)
    ensures Deeper(RowsBelow(t, depth), depth)
    decreases t, 0
  {
    match t {
      case Leaf(_, _, _, below) => RowsOfDeeper(below, depth);
      case Item(_, below) => RowsOfDeeper(below, depth);
      case Branch(_, _, step, children) => MappingIsDeeper(children, depth + step, depth);
      case Gap(_) =>
    }
  }

  /** The rows of a printed mapping, entry by entry. */
  lemma RowsThen(ts: seq<Tree>, depth: nat, rest: seq<Row>) returns (below: seq<Row>, more: seq<Row>)
    requires ts != [] && WellFormed(ts, depth)
    ensures below == RowsBelow(ts[0], depth) && Deeper(below, depth)
    ensures more == PrintedRows(ts[1..], depth) + rest
    ensures var all := PrintedRows(ts, depth) + rest;
            all != [] && all[0] == PrintedRow(ts[0], depth) && all[1..] == below + more
    ensures WellFormedTree(ts[0], depth) && WellFormed(ts[1..], depth)
  {
    below, more := RowsBelow(ts[0], depth), PrintedRows(ts[1..], depth) + rest;
    assert WellFormedTree(ts[0], depth);
    BelowIsDeeper(ts[0], depth);
    assert PrintedRows(ts, depth) + rest == [PrintedRow(ts[0], depth)] + (below + more);
  }

  // ---------------------------------------------------------------------------
  // section.key on documents
  // ---------------------------------------------------------------------------

  /** Outside the section, and below its children, rows change nothing. */
  lemma {:induction false} ScanSkips(rows: seq<Row>, rest: seq<Row>, depth: nat, cursor: Cursor,
                                     section: string, key: string)
    requires Deeper(rows, depth) && (cursor == Outside || (cursor == Inside(Some(depth)) && depth > 0))
    ensures Scan(rows + rest, cursor, section, key) == Scan(rest, cursor, section, key)
  {
    if rows == [] {
      assert rows + rest == rest;
    } else {
      assert (rows + rest)[0] == rows[0] && (rows + rest)[1..] == rows[1..] + rest;
      ScanSkips(rows[1..], rest, depth, cursor, section, key);
    }
  }

  /** The entries of a section; the cursor after them is inside it. */
  lemma {:induction false} ScanChildren(ts: seq<Tree>, depth: nat, rest: seq<Row>, cursor: Cursor,
                                        section: string, key: string) returns (after: Cursor)
    requires WellFormed(ts, depth) && depth > 0 && cursor in {Inside(None), Inside(Some(depth))}
    ensures Scan(PrintedRows(ts, depth) + rest, cursor, section, key) ==
            if FirstLeaf(ts, key).Some? then FirstLeaf(ts, key) else Scan(rest, after, section, key)
    ensures after in {Inside(None), Inside(Some(depth))}
    ensures cursor == Inside(Some(depth)) || (exists i :: 0 <= i < |ts| && !ts[i].Gap?) ==> after == Inside(Some(depth))
  {
    after := cursor;
    if ts == [] {
      assert PrintedRows(ts, depth) + rest == rest;
    } else {
      var below, more := RowsThen(ts, depth, rest);
      if ts[0].Gap? {
        assert below + more == more;
      } else {
        after := Inside(Some(depth));
        if ts[0].Leaf? { ShownTrimmed(ts[0].scalar, ts[0].note.Some?); }
        ScanSkips(below, more, depth, after, section, key);
      }
      after := ScanChildren(ts[1..], depth, rest, after, section, key);
    }
  }

  lemma {:induction false} ScanSections(ts: seq<Tree>, cursor: Cursor, section: string, key: string)
    requires WellFormed(ts, 0)
    ensures Scan(PrintedRows(ts, 0), cursor, section, key) == SectionLookup(ts, section, key)
  {
    if ts != [] {
      var below, more := RowsThen(ts, 0, []);
      assert PrintedRows(ts, 0) + [] == PrintedRows(ts, 0) && more == PrintedRows(ts[1..], 0);
      var after := cursor;
      if ts[0].Gap? {
        assert below + more == more;
      } else if ts[0].Branch? && ts[0].key == section {
        after := ScanChildren(ts[0].children, ts[0].step, more, Inside(None), section, key);
      } else {
        after := Outside;
        ScanSkips(below, more, 0, Outside, section, key);
      }
      ScanSections(ts[1..], after, section, key);
    }
  }

  /** `section_value` on a printed document is the lookup in the tree: the first direct child of that
      key, over all sections of that name. Deeper nesting never answers. */
  lemma SectionValueIsLookup(ts: seq<Tree>, section: string, key: string)
    requires WellFormed(ts, 0)
    ensures Scan(RowsOf(Lines(ts, 0)), Outside, section, key) == SectionLookup(ts, section, key)
  {
    RowsOfLines(ts, 0);
    ScanSections(ts, Outside, section, key);
  }

  /** A line that is indented less than the entries of a section, but not at the margin, ends it: the
      lines after it answer only from the next section of that name on. */
  lemma DedentEndsSection(name: string, ts: seq<Tree>, step: nat, pad: string, text: string, rest: seq<string>,
                          key: string)
    requires IsName(name) && WellFormed(ts, step) && exists i :: 0 <= i < |ts| && !ts[i].Gap?
    requires AllIn(pad, WhiteSpace) && 0 < |pad| < step
    requires text != "" && !IsSpace(text[0]) && text[0] != '#'
    ensures Scan(RowsOf([name + ":"] + Lines(ts, step) + ([pad + text] + rest)), Outside, name, key) ==
            if FirstLeaf(ts, key).Some? then FirstLeaf(ts, key) else Scan(RowsOf(rest), Outside, name, key)
  {
    var tail := [RowOf(pad + text)] + RowsOf(rest);
    SectionRows(name, ts, step, pad + text, rest);
    RowOfStray(pad, text);
    var after := ScanChildren(ts, step, tail, Inside(None), name, key);
    ScanCons(Head(name), PrintedRows(ts, step) + tail, Outside, name, key);
    ScanCons(RowOf(pad + text), RowsOf(rest), after, name, key);
  }

  lemma ScanCons(row: Row, rows: seq<Row>, cursor: Cursor, section: string, key: string)
    ensures var (next, answer) := Next(cursor, row, section, key);
            Scan([row] + rows, cursor, section, key) == if answer.Some? then answer else Scan(rows, next, section, key)
  {
    assert ([row] + rows)[1..] == rows;
  }

  lemma SectionRows(name: string, ts: seq<Tree>, step: nat, stray: string, rest: seq<string>)
    requires IsName(name) && WellFormed(ts, step) && step > 0
    ensures RowsOf([name + ":"] + Lines(ts, step) + ([stray] + rest)) ==
            [Head(name)] + (PrintedRows(ts, step) + ([RowOf(stray)] + RowsOf(rest)))
  {
    RowOfHead(name, ts, step);
    RowsOfLines(ts, step);
    RowsOfPieces(name + ":", Lines(ts, step), stray, rest);
  }

  lemma RowOfHead(name: string, ts: seq<Tree>, step: nat)
    requires IsName(name) && WellFormed(ts, step) && step > 0
    ensures RowOf(name + ":") == Head(name)
  {
    var head := Branch(name, None, step, ts);
    assert LineOf(head, 0) == name + ":";
    RowOfLine(head, 0);
  }

  lemma RowsOfPieces(line: string, lines: seq<string>, stray: string, rest: seq<string>)
    ensures RowsOf([line] + lines + ([stray] + rest)) ==
            [RowOf(line)] + (RowsOf(lines) + ([RowOf(stray)] + RowsOf(rest)))
  {
    RowsOfEntry(line, lines, [stray] + rest);
    RowsOfCons(stray, rest);
    Reassociated(RowOf(line), RowsOf(lines), [RowOf(stray)] + RowsOf(rest));
  }

  lemma RowsOfCons(line: string, rest: seq<string>)
    ensures RowsOf([line] + rest) == [RowOf(line)] + RowsOf(rest)
  {
  }

  lemma Reassociated(row: Row, a: seq<Row>, b: seq<Row>)
    ensures [row] + a + b == [row] + (a + b)
  {
  }

  lemma RowOfStray(pad: string, text: string)
    requires AllIn(pad, WhiteSpace) && pad != "" && text != "" && !IsSpace(text[0]) && text[0] != '#'
    ensures RowOf(pad + text).Inner? && RowOf(pad + text).indent == |pad|
  {
    TrimLeftIs(pad, text, WhiteSpace);
    var a, core, left := StrippedTail(pad + text);
    assert |pad + text| == |a| + |core|;
    RowOfTail(pad + text, a, left);
  }

  // ---------------------------------------------------------------------------
  // parent.child.key on documents
  // ---------------------------------------------------------------------------

  /** Rows that a state of the nested scan passes over. */
  predicate PassesOver(st: Nest, depth: nat) {
    || !st.inParent
    || (st.parentIndent == Some(depth) && !st.inChild)
    || (st.parentIndent.Some? && st.parentIndent.value < depth && st.inChild && st.childIndent == Some(depth))
  }

  lemma {:induction false} NestedSkips(rows: seq<Row>, rest: seq<Row>, depth: nat, st: Nest,
                                       parent: string, child: string, key: string)
    requires Deeper(rows, depth) && PassesOver(st, depth)
    ensures ScanNested(rows + rest, st, parent, child, key) == ScanNested(rest, st, parent, child, key)
  {
    if rows == [] {
      assert rows + rest == rest;
    } else {
      assert (rows + rest)[0] == rows[0] && (rows + rest)[1..] == rows[1..] + rest;
      NestedSkips(rows[1..], rest, depth, st, parent, child, key);
    }
  }

  function InChild(above: nat, depth: nat, seen: bool): Nest {
    Nest(true, true, Some(above), if seen then Some(depth) else None)
  }

  /** The entries of the child section. */
  lemma {:induction false} NestedLeaves(ts: seq<Tree>, above: nat, depth: nat, rest: seq<Row>, seen: bool,
                                        parent: string, child: string, key: string) returns (seen': bool)
    requires WellFormed(ts, depth) && 0 < above < depth
    ensures ScanNested(PrintedRows(ts, depth) + rest, InChild(above, depth, seen), parent, child, key) ==
            if FirstLeaf(ts, key).Some? then FirstLeaf(ts, key)
            else ScanNested(rest, InChild(above, depth, seen'), parent, child, key)
  {
    seen' := seen;
    if ts == [] {
      assert PrintedRows(ts, depth) + rest == rest;
    } else {
      var below, more := RowsThen(ts, depth, rest);
      if ts[0].Gap? {
        assert below + more == more;
      } else {
        seen' := true;
        if ts[0].Leaf? { ShownTrimmed(ts[0].scalar, ts[0].note.Some?); }
        NestedSkips(below, more, depth, InChild(above, depth, true), parent, child, key);
      }
      seen' := NestedLeaves(ts[1..], above, depth, rest, seen', parent, child, key);
    }
  }

  /** Inside the parent, its indent known or not. */
  predicate InParent(st: Nest, depth: nat) {
    st.inParent && (st.parentIndent == Some(depth) || (st.parentIndent.None? && !st.inChild))
  }

  /** One entry of the parent section. */
  lemma NestedEntry(t: Tree, depth: nat, more: seq<Row>, st: Nest, parent: string, child: string, key: string)
      returns (after: Nest)
    requires WellFormedTree(t, depth) && Deeper(RowsBelow(t, depth), depth) && depth > 0 && InParent(st, depth)
    ensures InParent(after, depth)
    ensures ScanNested([PrintedRow(t, depth)] + (RowsBelow(t, depth) + more), st, parent, child, key) ==
            if t.Branch? && t.key == child && FirstLeaf(t.children, key).Some? then FirstLeaf(t.children, key)
            else ScanNested(more, after, parent, child, key)
  {
    var below, rows := RowsBelow(t, depth), [PrintedRow(t, depth)] + (RowsBelow(t, depth) + more);
    assert rows[0] == PrintedRow(t, depth) && rows[1..] == below + more;
    after := NextNested(st, PrintedRow(t, depth), parent, child, key).0;
    if t.Gap? {
      assert below + more == more;
    } else if t.Branch? && t.key == child {
      var seen := NestedLeaves(t.children, depth, depth + t.step, more, false, parent, child, key);
      after := InChild(depth, depth + t.step, seen);
    } else {
      NestedSkips(below, more, depth, after, parent, child, key);
    }
  }

  /** The entries of the parent section; what is left of it is a state inside the parent. */
  lemma {:induction false} NestedChildren(ts: seq<Tree>, depth: nat, rest: seq<Row>, st: Nest,
                                          parent: string, child: string, key: string) returns (after: Nest)
    requires WellFormed(ts, depth) && depth > 0 && InParent(st, depth)
    ensures InParent(after, depth)
    ensures ScanNested(PrintedRows(ts, depth) + rest, st, parent, child, key) ==
            if SectionLookup(ts, child, key).Some? then SectionLookup(ts, child, key)
            else ScanNested(rest, after, parent, child, key)
  {
    if ts == [] {
      assert PrintedRows(ts, depth) + rest == rest;
      after := st;
    } else {
      var below, more := RowsThen(ts, depth, rest);
      assert PrintedRows(ts, depth) + rest == [PrintedRow(ts[0], depth)] + (below + more);
      after := NestedEntry(ts[0], depth, more, st, parent, child, key);
      after := NestedChildren(ts[1..], depth, rest, after, parent, child, key);
    }
  }

  /** One entry at the top level. */
  lemma NestedTop(t: Tree, more: seq<Row>, st: Nest, parent: string, child: string, key: string) returns (after: Nest)
    requires WellFormedTree(t, 0) && Deeper(RowsBelow(t, 0), 0)
    ensures ScanNested([PrintedRow(t, 0)] + (RowsBelow(t, 0) + more), st, parent, child, key) ==
            if t.Branch? && t.key == parent && SectionLookup(t.children, child, key).Some? then
              SectionLookup(t.children, child, key)
            else ScanNested(more, after, parent, child, key)
  {
    var below, rows := RowsBelow(t, 0), [PrintedRow(t, 0)] + (RowsBelow(t, 0) + more);
    assert rows[0] == PrintedRow(t, 0) && rows[1..] == below + more;
    after := NextNested(st, PrintedRow(t, 0), parent, child, key).0;
    if t.Gap? {
      assert below + more == more;
    } else if t.Branch? && t.key == parent {
      after := NestedChildren(t.children, t.step, more, after, parent, child, key);
    } else {
      NestedSkips(below, more, 0, after, parent, child, key);
    }
  }

  lemma {:induction false} NestedSections(ts: seq<Tree>, rest: seq<Row>, st: Nest,
                                          parent: string, child: string, key: string) returns (after: Nest)
    requires WellFormed(ts, 0)
    ensures ScanNested(PrintedRows(ts, 0) + rest, st, parent, child, key) ==
            if NestedLookup(ts, parent, child, key).Some? then NestedLookup(ts, parent, child, key)
            else ScanNested(rest, after, parent, child, key)
  {
    if ts == [] {
      assert PrintedRows(ts, 0) + rest == rest;
      after := st;
    } else {
      var below, more := RowsThen(ts, 0, rest);
      assert PrintedRows(ts, 0) + rest == [PrintedRow(ts[0], 0)] + (below + more);
      after := NestedTop(ts[0], more, st, parent, child, key);
      after := NestedSections(ts[1..], rest, after, parent, child, key);
    }
  }

  /** `nested_section_value` on a printed document is the same lookup one level down. */
  lemma NestedValueIsLookup(ts: seq<Tree>, parent: string, child: string, key: string)
    requires WellFormed(ts, 0)
    ensures ScanNested(RowsOf(Lines(ts, 0)), AWAY, parent, child, key) == NestedLookup(ts, parent, child, key)
  {
    RowsOfLines(ts, 0);
    var after := NestedSections(ts, [], AWAY, parent, child, key);
    assert PrintedRows(ts, 0) + [] == PrintedRows(ts, 0);
  }

  lemma ScanNestedCons(row: Row, rows: seq<Row>, st: Nest, parent: string, child: string, key: string)
    ensures var (next, answer) := NextNested(st, row, parent, child, key);
            ScanNested([row] + rows, st, parent, child, key) ==
            if answer.Some? then answer else ScanNested(rows, next, parent, child, key)
  {
    assert ([row] + rows)[1..] == rows;
  }

  /** Indentation is trusted less far here: an entry right after the head of the child section counts for
      that section even if it is indented less than the head, and the section goes on after it. */
  lemma StrayJoinsChild(parent: string, child: string, above: nat, stray: Tree, indent: nat, ts: seq<Tree>,
                        depth: nat, key: string)
    requires IsName(parent) && IsName(child) && WellFormed(ts, depth) && 0 < indent < above < depth
    requires stray.Leaf? && stray.below == [] && WellFormedTree(stray, indent)
    ensures ScanNested(RowsOf([parent + ":"] + ([Spaces(above) + (child + ":")]
                              + ([LineOf(stray, indent)] + Lines(ts, depth)))), AWAY, parent, child, key) ==
            if stray.key == key then Some(stray.scalar.text) else FirstLeaf(ts, key)
  {
    RowOfHead(parent, [], above);
    RowOfSubhead(child, above);
    RowOfLine(stray, indent);
    ShownTrimmed(stray.scalar, stray.note.Some?);
    StrayRows(parent + ":", Spaces(above) + (child + ":"), LineOf(stray, indent), ts, depth);
    StrayScan(parent, child, above, Shown(stray.scalar), stray.key, indent, PrintedRows(ts, depth), depth, key);
    var seen := NestedLeaves(ts, above, depth, [], false, parent, child, key);
    assert PrintedRows(ts, depth) + [] == PrintedRows(ts, depth);
  }

  lemma RowOfSubhead(name: string, depth: nat)
    requires IsName(name) && depth > 0
    ensures RowOf(Spaces(depth) + (name + ":")) == Inner(depth, None, Some(name))
  {
    var head := Branch(name, None, 1, []);
    assert LineOf(head, depth) == Spaces(depth) + (name + ":");
    RowOfLine(head, depth);
  }

  lemma StrayScan(parent: string, child: string, above: nat, shown: string, name: string, indent: nat,
                  rows: seq<Row>, depth: nat, key: string)
    requires 0 < indent < above
    ensures ScanNested([Head(parent)] + ([Inner(above, None, Some(child))]
                       + ([Inner(indent, Some((name, shown)), None)] + rows)), AWAY, parent, child, key) ==
            if name == key then Some(Unquote(shown))
            else ScanNested(rows, InChild(above, depth, false), parent, child, key)
  {
    var stray := Inner(indent, Some((name, shown)), None);
    ScanNestedCons(stray, rows, InChild(above, depth, false), parent, child, key);
    ScanNestedCons(Inner(above, None, Some(child)), [stray] + rows, Nest(true, false, None, None), parent, child, key);
    ScanNestedCons(Head(parent), [Inner(above, None, Some(child))] + ([stray] + rows), AWAY, parent, child, key);
  }

  lemma StrayRows(a: string, b: string, c: string, ts: seq<Tree>, depth: nat)
    requires WellFormed(ts, depth)
    ensures RowsOf([a] + ([b] + ([c] + Lines(ts, depth)))) ==
            [RowOf(a)] + ([RowOf(b)] + ([RowOf(c)] + PrintedRows(ts, depth)))
  {
    RowsOfLines(ts, depth);
    RowsOfCons(c, Lines(ts, depth));
    RowsOfCons(b, [c] + Lines(ts, depth));
    RowsOfCons(a, [b] + ([c] + Lines(ts, depth)));
  }
}
