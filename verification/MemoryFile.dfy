/** The markdown file of a memory: what saving prints and what parsing reads back. */
module MemoryFile {
  import opened Sequences
  import opened Characters

  /** What `saveMemory` is asked to store. An absent scope is `global`. */
  datatype Input = Input(name: string, description: string, kind: string, scope: Option<string>, body: string,
                         source: Option<string>, lastSeenAt: Option<string>)

  datatype Memory = Memory(name: string, description: string, kind: string, scope: string, created: string,
                           source: Option<string>, lastSeenAt: Option<string>, body: string)

  datatype Parsed = Valid(memory: Memory) | Quarantined(reason: string)

  const NO_DELIMITERS := "frontmatter delimiters not found"
  const MISSING_FIELDS := "missing required frontmatter fields"
  const OPENING := "---\n"
  const CLOSING := "\n---\n"

  // ----- Printing

  predicate IsWordCharacter(c: char) {
    'a' <= c <= 'z' || 'A' <= c <= 'Z' || '0' <= c <= '9'
  }

  predicate NameOk(name: string) {
    name != [] && IsWordCharacter(name[0]) &&
    forall i :: 0 <= i < |name| ==> IsWordCharacter(name[i]) || name[i] == '_' || name[i] == '-'
  }

  /** Every newline replaced by a space. */
  function OneLine(s: string): (r: string)
    ensures |r| == |s|
    ensures forall i :: 0 <= i < |s| ==> r[i] == if s[i] == '\n' then ' ' else s[i]
  {
    if s == [] then [] else [if s[0] == '\n' then ' ' else s[0]] + OneLine(s[1..])
  }

  function ScopeOf(input: Input): string {
    match input.scope
    case None => "global"
    case Some(scope) => scope
  }

  function OptionalLine(key: Key, value: Option<string>): seq<string> {
    if value.Some? && value.value != "" then [KeyText(key) + ": " + value.value] else []
  }

  function FieldLines(input: Input, created: string): seq<string> {
    [ KeyText(Name) + ": " + input.name,
      KeyText(Description) + ": " + OneLine(input.description),
      KeyText(Kind) + ": " + input.kind,
      KeyText(Scope) + ": " + ScopeOf(input),
      KeyText(Created) + ": " + created ]
    + OptionalLine(Source, input.source)
    + OptionalLine(LastSeenAt, input.lastSeenAt)
  }

  function Print(input: Input, created: string): string {
    Join(["---"] + FieldLines(input, created) + ["---", "", Trim(IsSpace, input.body), ""], "\n")
  }

  /** The file that `saveMemory` writes, or None where it throws. */
  function Save(input: Input, created: string): Option<string> {
    if NameOk(input.name) then Some(Print(input, created)) else None
  }

  // ----- Parsing

  datatype Key = Name | Description | Kind | Scope | Created | Source | LastSeenAt
  type Fields = map<Key, string>

  function KeyText(key: Key): string {
    match key
    case Name => "name"
    case Description => "description"
    case Kind => "type"
    case Scope => "scope"
    case Created => "created"
    case Source => "source"
    case LastSeenAt => "lastSeenAt"
  }

  /** The field that a key of the frontmatter names, if any. */
  function KeyNamed(text: string): Option<Key> {
    if text == KeyText(Name) then Some(Name)
    else if text == KeyText(Description) then Some(Description)
    else if text == KeyText(Kind) then Some(Kind)
    else if text == KeyText(Scope) then Some(Scope)
    else if text == KeyText(Created) then Some(Created)
    else if text == KeyText(Source) then Some(Source)
    else if text == KeyText(LastSeenAt) then Some(LastSeenAt)
    else None
  }

  function SetField(fields: Fields, key: string, value: string): Fields {
    if key == "" || value == "" then fields
    else
      match KeyNamed(key)
      case Some(k) => fields[k := value]
      case None => fields
  }

  /** Key and value of a frontmatter line, cut at its first colon. */
  function SplitLine(line: string): Option<(string, string)> {
    var colonIdx := IndexOf(line, ":", 0);
    if colonIdx == -1 then None
    else Some((Trim(IsSpace, line[..colonIdx]), Trim(IsSpace, line[colonIdx + 1..])))
  }

  function ReadLine(fields: Fields, line: string): Fields {
    match SplitLine(line)
    case None => fields
    case Some(kv) => SetField(fields, kv.0, kv.1)
  }

  type Reader = (Fields, string) -> Fields

  /** All lines read in turn. */
  function ReadLines(read: Reader, fields: Fields, lines: seq<string>): Fields
    decreases lines
  {
    if lines == [] then fields else ReadLines(read, read(fields, lines[0]), lines[1..])
  }

  function FieldOf(fields: Fields, key: Key): Option<string> {
    if key in fields then Some(fields[key]) else None
  }

  /** A memory made of these fields. */
  function MemoryOf(fields: Fields, body: string): Memory
    requires {Name, Description, Kind, Scope, Created} <= fields.Keys
  {
    Memory(fields[Name], fields[Description], fields[Kind], fields[Scope], fields[Created],
           FieldOf(fields, Source), FieldOf(fields, LastSeenAt), body)
  }

  function FromFields(fields: Fields, body: string): Parsed {
    if {Name, Description, Kind, Scope, Created} <= fields.Keys then
      Valid(MemoryOf(fields, Trim(IsSpace, body)))
    else
      Quarantined(MISSING_FIELDS)
  }

  function Parse(raw: string): Parsed {
    var close := IndexOf(raw, CLOSING, |OPENING|);
    if !(OPENING <= raw) || close == -1 then Quarantined(NO_DELIMITERS)
    else FromFields(ReadLines(ReadLine, map[], Split(raw[|OPENING|..close], '\n')), raw[close + |CLOSING|..])
  }

  method ReadFrontmatter(lines: seq<string>) returns (fm: Fields)
    ensures fm == ReadLines(ReadLine, map[], lines)
  {
    fm := map[];
    ghost var read: Reader := ReadLine;
    for i := 0 to |lines|
      invariant ReadLines(read, fm, lines[i..]) == ReadLines(read, map[], lines)
    {
      assert lines[i..][0] == lines[i] && lines[i..][1..] == lines[i + 1..];
      var split := SplitLine(lines[i]);
      if split.Some? { fm := SetField(fm, split.value.0, split.value.1); }
    }
  }

  /** The parser as the program runs it. */
  method ParseMemory(raw: string) returns (parsed: Parsed)
    ensures parsed == Parse(raw)
  {
    var close := IndexOf(raw, CLOSING, |OPENING|);
    if !(OPENING <= raw) || close == -1 { return Quarantined(NO_DELIMITERS); }
    var fm := ReadFrontmatter(Split(raw[|OPENING|..close], '\n'));
    return FromFields(fm, raw[close + |CLOSING|..]);
  }

  // ----- The delimiters are found where they were printed

  /** A line of the frontmatter as printed: on one line and not starting with a dash. */
  ghost predicate IsFieldLine(line: string) {
    line != [] && line[0] != '-' && '\n' !in line
  }

  lemma {:induction false} NewlineBeforeLine(lines: seq<string>, q: nat)
    requires forall i :: 0 <= i < |lines| ==> IsFieldLine(lines[i])
    requires q < |Join(lines, "\n")| && Join(lines, "\n")[q] == '\n'
    ensures q + 1 < |Join(lines, "\n")| && Join(lines, "\n")[q + 1] != '-'
  {
    var whole := Join(lines, "\n");
    assert '\n' !in lines[0];
    if |lines| > 1 {
      var rest := Join(lines[1..], "\n");
      var n := |lines[0]|;
      assert whole == lines[0] + "\n" + rest;
      assert rest != [] && rest[0] == lines[1][0];
      assert forall i :: 0 <= i < n ==> whole[i] == lines[0][i];
      if q == n {
        assert whole[q + 1] == rest[0];
      } else if q > n {
        assert whole[q] == rest[q - n - 1];
        NewlineBeforeLine(lines[1..], q - n - 1);
        assert whole[q + 1] == rest[q - n];
      }
    }
  }

  lemma ClosingFound(lines: seq<string>, tail: string)
    requires |lines| > 0 && forall i :: 0 <= i < |lines| ==> IsFieldLine(lines[i])
    ensures IndexOf(OPENING + Join(lines, "\n") + CLOSING + tail, CLOSING, |OPENING|) == |OPENING| + |Join(lines, "\n")|
  {
    var front := Join(lines, "\n");
    var raw := OPENING + front + CLOSING + tail;
    var close := |OPENING| + |front|;
    assert raw[close..close + |CLOSING|] == CLOSING;
    forall j: nat | |OPENING| <= j < close ensures !OccursAt(raw, CLOSING, j) {
      if OccursAt(raw, CLOSING, j) {
        var q := j - |OPENING|;
        assert raw[j] == raw[j..j + |CLOSING|][0] == '\n';
        assert raw[j + 1] == raw[j..j + |CLOSING|][1] == '-';
        assert front[q] == raw[j];
        assert q + 1 < |front| ==> front[q + 1] == raw[j + 1];
        NewlineBeforeLine(lines, q);
      }
    }
    IndexOfIs(raw, CLOSING, |OPENING|, close);
  }

  lemma {:induction false} JoinAppend(a: seq<string>, b: seq<string>)
    requires a != [] && b != []
    ensures Join(a + b, "\n") == Join(a, "\n") + "\n" + Join(b, "\n")
  {
    if |a| == 1 {
      assert (a + b)[1..] == b;
    } else {
      assert (a + b)[1..] == a[1..] + b;
      JoinAppend(a[1..], b);
      var ja, jb := Join(a[1..], "\n"), Join(b, "\n");
      assert a[0] + "\n" + (ja + "\n" + jb) == a[0] + "\n" + ja + "\n" + jb;
    }
  }

  lemma PrintShape(fields: seq<string>, body: string)
    requires fields != []
    ensures Join(["---"] + fields + ["---", "", body, ""], "\n")
         == OPENING + Join(fields, "\n") + CLOSING + ("\n" + body + "\n")
  {
    var front := Join(fields, "\n");
    var end := ["---", "", body, ""];
    assert ["---"] + fields + end == ["---"] + (fields + end);
    JoinAppend(["---"], fields + end);
    JoinAppend(fields, end);
    JoinEnd("---", body);
    Regrouped("---", "\n", front, body);
    assert OPENING == "---" + "\n" && CLOSING == "\n" + "---" + "\n";
  }

  lemma JoinEnd(dashes: string, body: string)
    ensures Join([dashes], "\n") == dashes
    ensures Join([dashes, "", body, ""], "\n") == dashes + "\n" + ("" + "\n" + (body + "\n" + ""))
  {
    assert [dashes, "", body, ""][1..] == ["", body, ""] && ["", body, ""][1..] == [body, ""] && [body, ""][1..] == [""];
    assert Join([body, ""], "\n") == body + "\n" + Join([""], "\n");
    assert Join(["", body, ""], "\n") == "" + "\n" + Join([body, ""], "\n");
  }

  lemma Regrouped(dashes: string, nl: string, front: string, body: string)
    ensures dashes + nl + (front + nl + (dashes + nl + ("" + nl + (body + nl + ""))))
         == (dashes + nl) + front + (nl + dashes + nl) + (nl + body + nl)
  {
  }

  // ----- Each printed line is read back

  lemma KeyShape(key: Key)
    ensures KeyText(key) != "" && KeyText(key)[0] != '-' && Trimmed(IsSpace, KeyText(key))
    ensures ':' !in KeyText(key) && '\n' !in KeyText(key)
  {
  }

  lemma KeyIsNamed(key: Key)
    ensures KeyNamed(KeyText(key)) == Some(key)
  {
  }

  lemma ColonFound(key: string, rest: string)
    requires ':' !in key
    ensures IndexOf(key + ":" + rest, ":", 0) == |key|
    ensures (key + ":" + rest)[..|key|] == key && (key + ":" + rest)[|key| + 1..] == rest
  {
    var line := key + ":" + rest;
    assert line[|key|..|key| + 1] == ":";
    forall j: nat | j < |key| ensures !OccursAt(line, ":", j) {
      assert line[j..j + 1][0] == key[j];
    }
    IndexOfIs(line, ":", 0, |key|);
  }

  lemma TrimKey(key: string, value: string)
    requires Trimmed(IsSpace, key)
    ensures Trim(IsSpace, key) == key && Trim(IsSpace, " " + value) == Trim(IsSpace, value)
  {
    TrimPadded(IsSpace, [], key, []);
    assert [] + key + [] == key;
    assert " " + value == " " + value + [];
    TrimAbsorbs(IsSpace, " ", value, []);
  }

  lemma SplitAtColon(key: string, rest: string)
    requires ':' !in key
    ensures SplitLine(key + ":" + rest) == Some((Trim(IsSpace, key), Trim(IsSpace, rest)))
  {
    ColonFound(key, rest);
  }

  lemma ColonSpace(key: string, value: string)
    ensures key + ": " + value == key + ":" + (" " + value)
  {
  }

  lemma SplitPrintedLine(key: string, value: string)
    requires ':' !in key && Trimmed(IsSpace, key)
    ensures SplitLine(key + ": " + value) == Some((key, Trim(IsSpace, value)))
  {
    ColonSpace(key, value);
    SplitAtColon(key, " " + value);
    TrimKey(key, value);
  }

  lemma ReadSplitLine(fields: Fields, line: string, key: Key, value: string)
    requires SplitLine(line) == Some((KeyText(key), value))
    ensures ReadLine(fields, line) == if value == "" then fields else fields[key := value]
  {
    SetNamedField(fields, key, value);
  }

  lemma SetNamedField(fields: Fields, key: Key, value: string)
    ensures SetField(fields, KeyText(key), value) == if value == "" then fields else fields[key := value]
  {
    KeyShape(key);
    KeyIsNamed(key);
  }

  lemma ReadPrintedLine(fields: Fields, key: Key, value: string)
    ensures ReadLine(fields, KeyText(key) + ": " + value)
         == if Trim(IsSpace, value) == "" then fields else fields[key := Trim(IsSpace, value)]
  {
    KeyShape(key);
    SplitPrintedLine(KeyText(key), value);
    ReadSplitLine(fields, KeyText(key) + ": " + value, key, Trim(IsSpace, value));
  }

  lemma {:induction false} ReadAppend(read: Reader, fields: Fields, a: seq<string>, b: seq<string>)
    ensures ReadLines(read, fields, a + b) == ReadLines(read, ReadLines(read, fields, a), b)
    decreases a
  {
    if a == [] {
      assert a + b == b;
    } else {
      assert (a + b)[1..] == a[1..] + b;
      ReadAppend(read, read(fields, a[0]), a[1..], b);
    }
  }

  /** A value that survives printing and trimming: on one line, not empty, no space around it. */
  ghost predicate PlainValue(value: string) {
    value != "" && Trimmed(IsSpace, value) && '\n' !in value
  }

  ghost predicate PlainOptional(value: Option<string>) {
    value.Some? ==> PlainValue(value.value)
  }

  lemma PlainIsTrimmed(value: string)
    requires PlainValue(value)
    ensures Trim(IsSpace, value) == value
  {
    TrimPadded(IsSpace, [], value, []);
    assert [] + value + [] == value;
  }

  lemma ReadOptional(fields: Fields, key: Key, value: Option<string>)
    requires PlainOptional(value)
    ensures ReadLines(ReadLine, fields, OptionalLine(key, value))
         == if value.Some? then fields[key := value.value] else fields
  {
    if value.Some? {
      PlainIsTrimmed(value.value);
      ReadPrintedLine(fields, key, value.value);
      ReadOne(ReadLine, fields, KeyText(key) + ": " + value.value);
    }
  }

  lemma ReadOne(read: Reader, fields: Fields, line: string)
    ensures ReadLines(read, fields, [line]) == read(fields, line)
  {
    assert [line][1..] == [];
  }

  lemma ReadFive(read: Reader, fields: Fields, l1: string, l2: string, l3: string, l4: string, l5: string)
    ensures ReadLines(read, fields, [l1, l2, l3, l4, l5])
         == read(read(read(read(read(fields, l1), l2), l3), l4), l5)
  {
    var f1 := read(fields, l1);
    var f2 := read(f1, l2);
    var f3 := read(f2, l3);
    assert [l1, l2, l3, l4, l5][1..] == [l2, l3, l4, l5] && [l2, l3, l4, l5][1..] == [l3, l4, l5];
    assert [l3, l4, l5][1..] == [l4, l5] && [l4, l5][1..] == [l5];
    ReadOne(read, read(f3, l4), l5);
    assert ReadLines(read, f3, [l4, l5]) == ReadLines(read, read(f3, l4), [l5]);
    assert ReadLines(read, f2, [l3, l4, l5]) == ReadLines(read, f3, [l4, l5]);
    assert ReadLines(read, f1, [l2, l3, l4, l5]) == ReadLines(read, f2, [l3, l4, l5]);
  }

  ghost predicate Plain(input: Input, created: string) {
    NameOk(input.name) && PlainValue(input.kind) && PlainValue(ScopeOf(input)) && PlainValue(created) &&
    PlainOptional(input.source) && PlainOptional(input.lastSeenAt)
  }

  lemma NameIsPlain(name: string)
    requires NameOk(name)
    ensures PlainValue(name)
  {
  }

  /** The fields the parser collects from the printed frontmatter. */
  ghost function Collected(input: Input, created: string, description: string): Fields {
    var f1: Fields := map[Name := input.name];
    var f2 := if description == "" then f1 else f1[Description := description];
    var f5 := f2[Kind := input.kind][Scope := ScopeOf(input)][Created := created];
    var f6 := if input.source.Some? then f5[Source := input.source.value] else f5;
    if input.lastSeenAt.Some? then f6[LastSeenAt := input.lastSeenAt.value] else f6
  }

  lemma ReadRequired(input: Input, created: string)
    requires Plain(input, created)
    ensures ReadLines(ReadLine, map[], FieldLines(input, created)[..5])
         == Collected(input.(source := None, lastSeenAt := None), created, Trim(IsSpace, OneLine(input.description)))
  {
    var l1, l2 := KeyText(Name) + ": " + input.name, KeyText(Description) + ": " + OneLine(input.description);
    var l3, l4, l5 := KeyText(Kind) + ": " + input.kind, KeyText(Scope) + ": " + ScopeOf(input), KeyText(Created) + ": " + created;
    assert FieldLines(input, created)[..5] == [l1, l2, l3, l4, l5];
    NameIsPlain(input.name);
    PlainIsTrimmed(input.name);
    PlainIsTrimmed(input.kind);
    PlainIsTrimmed(ScopeOf(input));
    PlainIsTrimmed(created);
    ReadFive(ReadLine, map[], l1, l2, l3, l4, l5);
    ReadPrintedLine(map[], Name, input.name);
    var f1: Fields := map[Name := input.name];
    ReadPrintedLine(f1, Description, OneLine(input.description));
    var f2 := ReadLine(f1, l2);
    ReadPrintedLine(f2, Kind, input.kind);
    ReadPrintedLine(f2[Kind := input.kind], Scope, ScopeOf(input));
    ReadPrintedLine(f2[Kind := input.kind][Scope := ScopeOf(input)], Created, created);
  }

  lemma ReadFields(input: Input, created: string)
    requires Plain(input, created)
    ensures ReadLines(ReadLine, map[], FieldLines(input, created)) == Collected(input, created, Trim(IsSpace, OneLine(input.description)))
  {
    var source, seen := OptionalLine(Source, input.source), OptionalLine(LastSeenAt, input.lastSeenAt);
    var required := FieldLines(input, created)[..5];
    assert FieldLines(input, created) == required + source + seen;
    ReadRequired(input, created);
    ReadAppend(ReadLine, map[], required + source, seen);
    ReadAppend(ReadLine, map[], required, source);
    var f5 := ReadLines(ReadLine, map[], required);
    ReadOptional(f5, Source, input.source);
    ReadOptional(ReadLines(ReadLine, f5, source), LastSeenAt, input.lastSeenAt);
  }

  lemma FieldLinesShape(input: Input, created: string)
    requires Plain(input, created)
    ensures forall i :: 0 <= i < |FieldLines(input, created)| ==> IsFieldLine(FieldLines(input, created)[i])
  {
    NameIsPlain(input.name);
    assert '\n' !in OneLine(input.description);
  }

  // ----- Theorem

  lemma ParseOf(front: string, tail: string)
    requires IndexOf(OPENING + front + CLOSING + tail, CLOSING, |OPENING|) == |OPENING| + |front|
    ensures Parse(OPENING + front + CLOSING + tail) == FromFields(ReadLines(ReadLine, map[], Split(front, '\n')), tail)
  {
    var raw, close := OPENING + front + CLOSING + tail, |OPENING| + |front|;
    assert raw[..|OPENING|] == OPENING;
    assert raw[|OPENING|..close] == front;
    assert raw[close + |CLOSING|..] == tail;
  }

  lemma FromCollected(input: Input, created: string, description: string, body: string)
    requires Trimmed(IsSpace, body)
    ensures FromFields(Collected(input, created, description), "\n" + body + "\n") ==
        if description == "" then Quarantined(MISSING_FIELDS)
        else Valid(Memory(input.name, description, input.kind, ScopeOf(input), created,
                          input.source, input.lastSeenAt, body))
  {
    var fields := Collected(input, created, description);
    TrimPadded(IsSpace, "\n", body, "\n");
    assert Description in fields <==> description != "";
    assert description != "" ==> {Name, Description, Kind, Scope, Created} <= fields.Keys;
  }

  /** What saving prints, parsing reads back, whatever the body: the memory is lost exactly if its
      description is blank. */
  lemma ParsePrint(input: Input, created: string)
    requires Plain(input, created)
    ensures var description := Trim(IsSpace, OneLine(input.description));
      Parse(Print(input, created)) ==
        if description == "" then Quarantined(MISSING_FIELDS)
        else Valid(Memory(input.name, description, input.kind, ScopeOf(input), created,
                          input.source, input.lastSeenAt, Trim(IsSpace, input.body)))
  {
    var lines := FieldLines(input, created);
    var tail := "\n" + Trim(IsSpace, input.body) + "\n";
    PrintShape(lines, Trim(IsSpace, input.body));
    FieldLinesShape(input, created);
    ClosingFound(lines, tail);
    ParseOf(Join(lines, "\n"), tail);
    SplitJoin(lines, '\n');
    ReadFields(input, created);
    FromCollected(input, created, Trim(IsSpace, OneLine(input.description)), Trim(IsSpace, input.body));
  }

  /** The lines as they are printed. */
  lemma PrintedLines(input: Input, created: string)
    requires input.source.Some? && input.source.value != "" && input.lastSeenAt.Some? && input.lastSeenAt.value != ""
    requires input.scope.Some?
    ensures FieldLines(input, created) ==
      ["name: " + input.name, "description: " + OneLine(input.description), "type: " + input.kind,
       "scope: " + input.scope.value, "created: " + created, "source: " + input.source.value,
       "lastSeenAt: " + input.lastSeenAt.value]
  {
    KeyTexts();
    assert "name" + ": " == "name: " && "description" + ": " == "description: " && "type" + ": " == "type: ";
    assert "scope" + ": " == "scope: " && "created" + ": " == "created: " && "source" + ": " == "source: ";
    assert "lastSeenAt" + ": " == "lastSeenAt: ";
  }

  lemma KeyTexts()
    ensures KeyText(Name) == "name" && KeyText(Description) == "description" && KeyText(Kind) == "type"
    ensures KeyText(Scope) == "scope" && KeyText(Created) == "created" && KeyText(Source) == "source"
    ensures KeyText(LastSeenAt) == "lastSeenAt"
  {
  }

  // ----- What parsing accepts

  /** No field read is empty. */
  ghost predicate NoneEmpty(fields: Fields) {
    forall key :: key in fields ==> fields[key] != ""
  }

  lemma {:induction false} ReadNoneEmpty(fields: Fields, lines: seq<string>)
    requires NoneEmpty(fields)
    ensures NoneEmpty(ReadLines(ReadLine, fields, lines))
    decreases lines
  {
    if lines != [] {
      SetNoneEmpty(fields, lines[0]);
      ReadNoneEmpty(ReadLine(fields, lines[0]), lines[1..]);
    }
  }

  lemma SetNoneEmpty(fields: Fields, line: string)
    requires NoneEmpty(fields)
    ensures NoneEmpty(ReadLine(fields, line))
  {
  }

  /** The fields of a memory that is kept. */
  predicate Complete(m: Memory) {
    && m.name != "" && m.description != "" && m.kind != "" && m.scope != "" && m.created != ""
    && m.source != Some("") && m.lastSeenAt != Some("")
  }

  lemma FieldsComplete(fields: Fields, body: string)
    requires NoneEmpty(fields) && {Name, Description, Kind, Scope, Created} <= fields.Keys
    ensures Complete(MemoryOf(fields, body))
  {
    var required := {Name, Description, Kind, Scope, Created};
    forall key | key in required ensures fields[key] != "" { assert key in fields; }
  }

  lemma FromFieldsComplete(fields: Fields, body: string)
    requires NoneEmpty(fields) && FromFields(fields, body).Valid?
    ensures Complete(FromFields(fields, body).memory)
  {
    FieldsComplete(fields, Trim(IsSpace, body));
    assert FromFields(fields, body).memory == MemoryOf(fields, Trim(IsSpace, body));
  }

  /** A file that parses has a name, a description, a type, a scope and a date, none of them empty, and no
      optional field that is empty. */
  lemma ParsedIsComplete(raw: string)
    requires Parse(raw).Valid?
    ensures Complete(Parse(raw).memory)
  {
    var close := IndexOf(raw, CLOSING, |OPENING|);
    var fields := ReadLines(ReadLine, map[], Split(raw[|OPENING|..close], '\n'));
    ReadNoneEmpty(map[], Split(raw[|OPENING|..close], '\n'));
    FromFieldsComplete(fields, raw[close + |CLOSING|..]);
  }

  // ----- Saving

  /** A name that can be saved stays within its directory and on its line. */
  lemma NamesAreSafe(name: string)
    requires NameOk(name)
    ensures '/' !in name && '\\' !in name && '.' !in name && ':' !in name && ' ' !in name && '\n' !in name
    ensures name[0] != '-' && name[0] != '_'
  {
  }

  /** Every text of letters, digits, hyphens and underscores that begins with a letter or a digit can be saved. */
  lemma PlainNamesAreOk(name: string)
    requires name != "" && ('a' <= name[0] <= 'z' || 'A' <= name[0] <= 'Z' || '0' <= name[0] <= '9')
    requires forall c :: c in name ==> 'a' <= c <= 'z' || 'A' <= c <= 'Z' || '0' <= c <= '9' || c == '_' || c == '-'
    ensures NameOk(name)
  {
    assert forall i :: 0 <= i < |name| ==> name[i] in name;
  }

  /** Saving throws or writes a file that is read back, exactly as the name and the description allow. */
  lemma SavedIsReadBack(input: Input, created: string)
    requires NameOk(input.name) ==> Plain(input, created)
    ensures var description := Trim(IsSpace, OneLine(input.description));
      match Save(input, created) {
        case None => !NameOk(input.name)
        case Some(raw) =>
          && NameOk(input.name)
          && Parse(raw) == if description == "" then Quarantined(MISSING_FIELDS)
             else Valid(Memory(input.name, description, input.kind, ScopeOf(input), created,
                               input.source, input.lastSeenAt, Trim(IsSpace, input.body)))
      }
  {
    if NameOk(input.name) { ParsePrint(input, created); }
  }
}
