/** Documents printed line by line behind their anchors, and read back. */
module LineHashing {
  import opened Sequences
  import opened Characters
  import opened Fnv
  import opened AnchorDocuments
  import opened AnchorWords
  import opened AnchorStateManager
  import opened AnchorManager

  const LF: CodeUnit := 10
  const CR: CodeUnit := 13
  /** The section sign. */
  const DELIMITER: CodeUnit := 0xA7

  predicate IsSpaceUnit(u: CodeUnit) {
    IsSpaceCode(u)
  }

  /** The code units of a text whose characters all fit into one unit. */
  function Units(s: string): Text {
    seq(|s|, i requires 0 <= i < |s| => (s[i] as int) % TWO_TO_16)
  }

  /** An anchor as a template literal prints it. */
  function AnchorText(a: Anchor): Text {
    match a
    case None => Units("undefined")
    case Some(word) => Units(word)
  }

  datatype Split = Split(anchor: Text, content: Text)

  function SplitAnchor(rawAnchor: Text): Split {
    var delimiterIndex := IndexOf(rawAnchor, [DELIMITER], 0);
    if delimiterIndex == -1 then Split(Trim(IsSpaceUnit, rawAnchor), [])
    else Split(Trim(IsSpaceUnit, rawAnchor[..delimiterIndex]), rawAnchor[delimiterIndex + 1..])
  }

  function FormatLine(content: Text, anchor: Text): Text {
    anchor + [DELIMITER] + content
  }

  /** `content.split(/\r?\n/)`: a line ends at LF, together with one CR directly before it. */
  function SplitLines(content: Text): (lines: seq<Text>)
    ensures |lines| > 0
  {
    if content == [] then [[]]
    else if content[0] == LF then [[]] + SplitLines(content[1..])
    else if |content| > 1 && content[0] == CR && content[1] == LF then [[]] + SplitLines(content[2..])
    else
      var rest := SplitLines(content[1..]);
      [[content[0]] + rest[0]] + rest[1..]
  }

  /** The document with every CRLF turned into LF. */
  function Normalized(content: Text): Text {
    if content == [] then []
    else if |content| > 1 && content[0] == CR && content[1] == LF then Normalized(content[1..])
    else [content[0]] + Normalized(content[1..])
  }

  lemma {:induction false} SplitLinesIsSplit(content: Text)
    ensures SplitLines(content) == Sequences.Split(Normalized(content), LF)
    decreases |content|
  {
    if content != [] {
      var c, r := content[0], content[1..];
      if |content| > 1 && c == CR && content[1] == LF {
        SplitLinesIsSplit(content[2..]);
        assert r[0] == LF && r[1..] == content[2..];
        assert Normalized(r) == [LF] + Normalized(content[2..]);
        assert ([LF] + Normalized(content[2..]))[1..] == Normalized(content[2..]);
      } else {
        SplitLinesIsSplit(r);
        assert ([c] + Normalized(r))[1..] == Normalized(r);
      }
    }
  }

  function FormatLines(lines: seq<Text>, anchors: seq<Anchor>): seq<Text>
    requires |lines| == |anchors|
  {
    seq(|lines|, i requires 0 <= i < |lines| => FormatLine(lines[i], AnchorText(anchors[i])))
  }

  // ----- Reading back

  /** An anchor that cannot be mistaken for the end of itself or of its line. */
  ghost predicate PlainAnchor(anchor: Text) {
    LF !in anchor && DELIMITER !in anchor
  }

  lemma SplitFormatted(content: Text, anchor: Text)
    requires PlainAnchor(anchor)
    ensures SplitAnchor(FormatLine(content, anchor)) == Split(Trim(IsSpaceUnit, anchor), content)
  {
    var line := FormatLine(content, anchor);
    assert line[|anchor|..|anchor| + 1] == [DELIMITER];
    forall j: nat | j < |anchor| ensures !OccursAt(line, [DELIMITER], j) {
      assert line[j..j + 1][0] == anchor[j];
    }
    IndexOfIs(line, [DELIMITER], 0, |anchor|);
    assert line[..|anchor|] == anchor && line[|anchor| + 1..] == content;
  }

  /** The contents of the lines of a printed document. */
  function Contents(hashed: Text): seq<Text> {
    var lines := Sequences.Split(hashed, LF);
    seq(|lines|, i requires 0 <= i < |lines| => SplitAnchor(lines[i]).content)
  }

  function AnchorsRead(hashed: Text): seq<Text> {
    var lines := Sequences.Split(hashed, LF);
    seq(|lines|, i requires 0 <= i < |lines| => SplitAnchor(lines[i]).anchor)
  }

  /** Splitting what was printed recovers the document with CRLF turned into LF, and the anchors. */
  lemma HashedLinesRoundTrip(content: Text, anchors: seq<Anchor>)
    requires |anchors| == |SplitLines(content)|
    requires forall i :: 0 <= i < |anchors| ==> PlainAnchor(AnchorText(anchors[i]))
    ensures var hashed := Join(FormatLines(SplitLines(content), anchors), [LF]);
      Join(Contents(hashed), [LF]) == Normalized(content) &&
      |AnchorsRead(hashed)| == |anchors| &&
      forall i :: 0 <= i < |anchors| ==> AnchorsRead(hashed)[i] == Trim(IsSpaceUnit, AnchorText(anchors[i]))
  {
    var lines := SplitLines(content);
    var printed := FormatLines(lines, anchors);
    SplitLinesIsSplit(content);
    JoinSplit(Normalized(content), LF);
    forall i | 0 <= i < |lines| ensures LF !in printed[i] {
      assert LF !in lines[i] && LF !in AnchorText(anchors[i]);
    }
    SplitJoin(printed, LF);
    forall i | 0 <= i < |lines|
      ensures SplitAnchor(printed[i]) == Split(Trim(IsSpaceUnit, AnchorText(anchors[i])), lines[i])
    {
      SplitFormatted(lines[i], AnchorText(anchors[i]));
    }
    assert Contents(Join(printed, [LF])) == lines;
  }

  // ----- Printing

  /** No word of the dictionary holds a line feed or a delimiter. */
  ghost predicate PlainDictionary(dictionary: seq<string>) {
    forall w :: w in dictionary ==> PlainAnchor(Units(w))
  }

  lemma UnitsAppend(a: string, b: string)
    ensures Units(a + b) == Units(a) + Units(b)
  {
  }

  lemma DrawnPlain(dictionary: seq<string>, w: string)
    requires PlainDictionary(dictionary) && IsDrawn(dictionary, w)
    ensures PlainAnchor(Units(w))
  {
  }

  lemma WordPlain(dictionary: seq<string>, w: string)
    requires PlainDictionary(dictionary) && IsWord(dictionary, w)
    ensures PlainAnchor(Units(w))
  {
    if IsDrawn(dictionary, w) {
      DrawnPlain(dictionary, w);
    } else if IsPair(dictionary, w) {
      var a, b :| IsDrawn(dictionary, a) && IsDrawn(dictionary, b) && w == a + b;
      DrawnPlain(dictionary, a);
      DrawnPlain(dictionary, b);
      UnitsAppend(a, b);
    } else {
      var a, b, c :| IsDrawn(dictionary, a) && IsDrawn(dictionary, b) && IsDrawn(dictionary, c) && w == a + b + c;
      DrawnPlain(dictionary, a);
      DrawnPlain(dictionary, b);
      DrawnPlain(dictionary, c);
      UnitsAppend(a, b);
      UnitsAppend(a + b, c);
    }
  }

  lemma {:induction false} DecimalPlain(n: nat)
    ensures PlainAnchor(Units(Decimal(n)))
  {
    if n >= 10 {
      DecimalPlain(n / 10);
      UnitsAppend(Decimal(n / 10), ["0123456789"[n % 10]]);
    }
  }

  ghost predicate AllPlain(anchors: seq<Anchor>) {
    forall i :: 0 <= i < |anchors| ==> PlainAnchor(AnchorText(anchors[i]))
  }

  lemma LabelsPlain(n: nat)
    ensures AllPlain(LineLabels(n))
  {
    forall i | 0 <= i < n ensures PlainAnchor(AnchorText(LineLabels(n)[i])) {
      DecimalPlain(i + 1);
      UnitsAppend("L", Decimal(i + 1));
    }
  }

  /** Every anchor of a tracked document is plain if the dictionary is. */
  lemma TrackedAnchorsPlain(dictionary: seq<string>, s: Storage, task: string, path: string)
    requires StorageOk(s) && StorageMade(dictionary, s) && PlainDictionary(dictionary)
    requires Lookup(s, task, path).Some?
    ensures AllPlain(Lookup(s, task, path).value.anchors)
  {
    TrackedOk(s, task, path);
    assert MadeAt(dictionary, s, task, path);
    MadeAnchorsPlain(dictionary, Lookup(s, task, path).value);
  }

  lemma TrackedOk(s: Storage, task: string, path: string)
    requires StorageOk(s) && Lookup(s, task, path).Some?
    ensures DocumentOk(Lookup(s, task, path).value)
  {
    assert FilesOk(FilesOf(s, task));
  }

  lemma MadeAnchorsPlain(dictionary: seq<string>, d: Document)
    requires PlainDictionary(dictionary) && DocumentOk(d) && WordsMade(dictionary, d)
    ensures AllPlain(d.anchors)
  {
    forall i | 0 <= i < |d.anchors| ensures PlainAnchor(AnchorText(d.anchors[i])) {
      assert d.anchors[i] in Words(d.anchors);
      if d.anchors[i].Some? { WordPlain(dictionary, d.anchors[i].value); }
    }
  }

  /** The anchors printed: those then tracked for the file, or the labels of a file too long to track. */
  ghost predicate Printed(s: Storage, task: string, path: string, anchors: seq<Anchor>, n: nat) {
    if n > MAX_TRACKED_LINES then anchors == LineLabels(n)
    else Lookup(s, task, path).Some? && Lookup(s, task, path).value.anchors == anchors && |anchors| == n
  }

  method HashLinesStateful(manager: Manager, absolutePath: string, content: Text, taskId: Option<string>, patience: nat)
    returns (returned: bool, hashed: Text)
    requires manager.Valid()
    modifies manager
    ensures manager.Valid()
    ensures content == [] ==> returned && hashed == [] && manager.storage == old(manager.storage)
    ensures content != [] && returned ==>
      exists anchors :: Printed(manager.storage, TaskOf(taskId), absolutePath, anchors, |SplitLines(content)|) &&
        |anchors| == |SplitLines(content)| && hashed == Join(FormatLines(SplitLines(content), anchors), [LF])
    ensures content != [] && returned && PlainDictionary(manager.dictionary) ==>
      Join(Contents(hashed), [LF]) == Normalized(content)
  {
    if |content| == 0 { return true, []; }
    var lines := SplitLines(content);
    var anchors;
    returned, anchors := manager.Reconcile(absolutePath, lines, taskId, patience);
    if !returned { return false, []; }
    hashed := Join(FormatLines(lines, anchors), [LF]);
    if PlainDictionary(manager.dictionary) {
      LabelsPlain(|lines|);
      if |lines| <= MAX_TRACKED_LINES {
        TrackedAnchorsPlain(manager.dictionary, manager.storage, TaskOf(taskId), absolutePath);
      }
      HashedLinesRoundTrip(content, anchors);
    }
  }
}
