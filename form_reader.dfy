/** A strict reader for the text `TransparencyXObjectGroup.Write` emits.
    It recovers the bounding box, the two lists of resource entries, the
    declared `/Length` and the stream body. It is an independent
    description of the output format: reading back what a successful write
    emitted gives the group's own data. */
module FormReader {
  import opened Errors
  import opened Decimal
  import opened Text
  import opened Sink
  import opened ContentImages
  import opened XObjectGroup

  /** What the stream dictionary declares. */
  datatype Header = Header(bbox: BoundingBox, xobjects: seq<Ref>, extGStates: seq<Ref>, length: int)

  /** A whole stream object: its dictionary and its body. */
  datatype Form = Form(header: Header, body: string)

  /** The entries the group promises for its children: child `k` is named
      `/I<index+1>` and refers to object `index+1`. */
  function ImageRefs(xs: seq<ContentImage>): seq<Ref> {
    seq(|xs|, k requires 0 <= k < |xs| => Ref(xs[k].index + 1, xs[k].index + 1))
  }

  /** The entries the group promises for graphics state `r`: named
      `/GS<r+1>`, referring to object `r`. */
  function GStateRefs(gs: seq<int>): seq<Ref> {
    seq(|gs|, k requires 0 <= k < |gs| => Ref(gs[k] + 1, gs[k]))
  }

  function EntryLines(prefix: string, refs: seq<Ref>): seq<string> {
    seq(|refs|, k requires 0 <= k < |refs| => EntryLine(prefix, refs[k]))
  }

  lemma XObjectLinesAreEntries(xs: seq<ContentImage>)
    ensures XObjectLines(xs) == EntryLines("\t\t\t/I", ImageRefs(xs))
  {
  }

  lemma ExtGStateLinesAreEntries(gs: seq<int>)
    ensures ExtGStateLines(gs) == EntryLines("\t\t\t/GS", GStateRefs(gs))
  {
  }

  // ---------------------------------------------------------------------
  // Lines up to the `stream` keyword.
  // ---------------------------------------------------------------------

  /** A header line other than the keyword: no line feed inside, and not
      the keyword itself. */
  predicate PlainLine(line: string) {
    (forall i :: 0 <= i < |line| ==> line[i] != '\n') && line != "stream"
  }

  predicate PlainLines(lines: seq<string>) {
    forall i :: 0 <= i < |lines| ==> PlainLine(lines[i])
  }

  /** The lines before the first line that reads `stream`, and the text
      after that line; `None` when no such line ends in a line feed. */
  function ReadHeaderLines(s: string): Option<(seq<string>, string)>
    decreases |s|
  {
    if '\n' !in s then None
    else
      var k := IndexOf(s, '\n');
      if s[..k] == "stream" then Some(([], s[k + 1..]))
      else
        match ReadHeaderLines(s[k + 1..])
        case None => None
        case Some((lines, rest)) => Some(([s[..k]] + lines, rest))
  }

  lemma {:induction false} ReadHeaderLinesRoundTrip(lines: seq<string>, rest: string)
    requires PlainLines(lines)
    ensures ReadHeaderLines(JoinLines(lines) + Line("stream") + rest) == Some((lines, rest))
  {
    var s := JoinLines(lines) + Line("stream") + rest;
    if lines == [] {
      assert s == "stream" + ['\n'] + rest;
      IndexOfAt("stream", '\n', rest);
      assert s[..6] == "stream" && s[7..] == rest;
    } else {
      var tail := JoinLines(lines[1..]) + Line("stream") + rest;
      assert s == lines[0] + ['\n'] + tail;
      IndexOfAt(lines[0], '\n', tail);
      var k := |lines[0]|;
      assert s[..k] == lines[0] && s[k + 1..] == tail;
      ReadHeaderLinesRoundTrip(lines[1..], rest);
      assert [lines[0]] + lines[1..] == lines;
    }
  }

  // ---------------------------------------------------------------------
  // Resource entries.
  // ---------------------------------------------------------------------

  /** Reads `<prefix><name> <number> 0 R`. */
  function ParseEntry(prefix: string, line: string): Option<Ref> {
    var words := Split(line, ' ');
    if |words| == 4 && |words[0]| >= |prefix| && words[0][..|prefix|] == prefix
       && words[2] == "0" && words[3] == "R"
    then
      match (ParseInt(words[0][|prefix|..]), ParseInt(words[1]))
      case (Some(name), Some(number)) => Some(Ref(name, number))
      case _ => None
    else
      None
  }

  /** Entry lines, up to the line closing the sub-dictionary; the entries
      and the lines after the closing one. */
  function ParseEntries(prefix: string, lines: seq<string>): Option<(seq<Ref>, seq<string>)>
    decreases |lines|
  {
    if lines == [] then None
    else if lines[0] == "\t\t>>" then Some(([], lines[1..]))
    else
      match (ParseEntry(prefix, lines[0]), ParseEntries(prefix, lines[1..]))
      case (Some(r), Some((refs, rest))) => Some(([r] + refs, rest))
      case _ => None
  }

  /** A sub-dictionary opened by the line `open`. */
  function ParseDict(open: string, prefix: string, lines: seq<string>): Option<(seq<Ref>, seq<string>)> {
    if |lines| >= 1 && lines[0] == open then ParseEntries(prefix, lines[1..]) else None
  }

  /** An entry prefix: three tabs and a slash before the name, no space. */
  predicate EntryPrefix(prefix: string) {
    |prefix| >= 4 && prefix[..4] == "\t\t\t/" && ' ' !in prefix && '\n' !in prefix
  }

  lemma EntryLineShape(prefix: string, r: Ref)
    requires EntryPrefix(prefix)
    ensures var line := EntryLine(prefix, r);
      |line| > 4 && line[0] == '\t' && line[2] == '\t' && '\n' !in line
  {
    var ws := [prefix + IntToString(r.name), IntToString(r.number), "0", "R"];
    JoinStartsWith(ws, ' ');
    assert ws[0][..4] == prefix[..4];
    NotInNumeric(IntToString(r.name), '\n');
    NotInNumeric(IntToString(r.number), '\n');
    NotInJoin(ws, ' ', '\n');
  }

  /** The words of an entry line. */
  lemma EntryWords(prefix: string, r: Ref)
    requires EntryPrefix(prefix)
    ensures Split(EntryLine(prefix, r), ' ')
      == [prefix + IntToString(r.name), IntToString(r.number), "0", "R"]
  {
    NotInNumeric(IntToString(r.name), ' ');
    NotInNumeric(IntToString(r.number), ' ');
    SplitJoin([prefix + IntToString(r.name), IntToString(r.number), "0", "R"], ' ');
  }

  lemma EntryRoundTrip(prefix: string, r: Ref)
    requires EntryPrefix(prefix)
    ensures ParseEntry(prefix, EntryLine(prefix, r)) == Some(r)
  {
    var name := IntToString(r.name);
    var first := prefix + name;
    assert first[..|prefix|] == prefix && first[|prefix|..] == name;
    IntRoundTrip(r.name);
    IntRoundTrip(r.number);
    EntryWords(prefix, r);
  }

  /** Entry lines with one prefix are equal exactly when their references are. */
  lemma EntryLinesDistinct(prefix: string, r: Ref, q: Ref)
    requires EntryPrefix(prefix)
    ensures EntryLine(prefix, r) == EntryLine(prefix, q) <==> r == q
  {
    EntryRoundTrip(prefix, r);
    EntryRoundTrip(prefix, q);
  }

  /** Two children get the same `/XObject` entry exactly when their
      indexes agree. */
  lemma XObjectNamesFollowIndexes(x: ContentImage, y: ContentImage)
    ensures XObjectLine(x) == XObjectLine(y) <==> x.index == y.index
  {
    var a, b := x.index, y.index;
    EntryLinesDistinct("\t\t\t/I", Ref(a + 1, a + 1), Ref(b + 1, b + 1));
  }

  /** Two graphics-state indexes get the same `/ExtGState` entry exactly
      when they are equal. */
  lemma ExtGStateNamesFollowIndexes(r: int, q: int)
    ensures ExtGStateLine(r) == ExtGStateLine(q) <==> r == q
  {
    EntryLinesDistinct("\t\t\t/GS", Ref(r + 1, r), Ref(q + 1, q));
  }

  lemma {:induction false} EntriesRoundTrip(prefix: string, refs: seq<Ref>, more: seq<string>)
    requires EntryPrefix(prefix)
    ensures ParseEntries(prefix, EntryLines(prefix, refs) + ["\t\t>>"] + more) == Some((refs, more))
  {
    var lines := EntryLines(prefix, refs) + ["\t\t>>"] + more;
    if refs == [] {
      assert lines == ["\t\t>>"] + more;
      assert lines[1..] == more;
    } else {
      var tail := EntryLines(prefix, refs[1..]) + ["\t\t>>"] + more;
      assert lines[0] == EntryLine(prefix, refs[0]) && lines[1..] == tail;
      assert [refs[0]] + refs[1..] == refs;
      EntryLineShape(prefix, refs[0]);
      assert lines[0] != "\t\t>>";
      EntryRoundTrip(prefix, refs[0]);
      EntriesRoundTrip(prefix, refs[1..], more);
    }
  }

  // ---------------------------------------------------------------------
  // The bounding box and the length.
  // ---------------------------------------------------------------------

  /** Reads `\t/BBox [x0 y0 x1 y1]`, each coordinate with three decimals. */
  function ReadBox(line: string): Option<BoundingBox> {
    if |line| >= 9 && line[..8] == "\t/BBox [" && line[|line| - 1] == ']' then
      ParseCorners(Split(line[8..|line| - 1], ' '))
    else
      None
  }

  function ParseCorners(words: seq<string>): Option<BoundingBox> {
    if |words| == 4 then
      match (ParseThousandths(words[0]), ParseThousandths(words[1]),
             ParseThousandths(words[2]), ParseThousandths(words[3]))
      case (Some(x0), Some(y0), Some(x1), Some(y1)) => Some(BoundingBox(x0, y0, x1, y1))
      case _ => None
    else
      None
  }

  lemma CornersRoundTrip(b: BoundingBox)
    ensures ParseCorners(Corners(b)) == Some(b)
  {
    ThousandthsRoundTrip(b.x0);
    ThousandthsRoundTrip(b.y0);
    ThousandthsRoundTrip(b.x1);
    ThousandthsRoundTrip(b.y1);
  }

  /** The coordinates sit between `\t/BBox [` and the closing bracket. */
  lemma BoxLineInner(b: BoundingBox)
    ensures var line := BoxLine(b);
      && |line| >= 9 && line[..8] == "\t/BBox [" && line[|line| - 1] == ']'
      && line[8..|line| - 1] == Join(Corners(b), ' ')
  {
    var line := BoxLine(b);
    assert line[..8] == "\t/BBox [" && line[8..|line| - 1] == Join(Corners(b), ' ');
  }

  lemma CornersSplit(b: BoundingBox)
    ensures Split(Join(Corners(b), ' '), ' ') == Corners(b)
  {
    var ws := Corners(b);
    forall i | 0 <= i < 4
      ensures ' ' !in ws[i]
    {
      NotInNumeric(ws[i], ' ');
    }
    SplitJoin(ws, ' ');
  }

  lemma BoxRoundTrip(b: BoundingBox)
    ensures ReadBox(BoxLine(b)) == Some(b)
  {
    BoxLineInner(b);
    CornersSplit(b);
    CornersRoundTrip(b);
  }

  lemma BoxLinePlain(b: BoundingBox)
    ensures PlainLine(BoxLine(b))
  {
    var ws := Corners(b);
    forall i | 0 <= i < 4
      ensures '\n' !in ws[i]
    {
      NotInNumeric(ws[i], '\n');
    }
    NotInJoin(ws, ' ', '\n');
    assert '\n' !in "\t/BBox [" && '\n' !in "]";
    assert '\n' !in BoxLine(b);
  }

  /** Reads `\t/Length <n>`. */
  function ParseLength(line: string): Option<int> {
    if |line| >= 9 && line[..9] == "\t/Length " then ParseInt(line[9..]) else None
  }

  lemma LengthRoundTrip(n: int)
    ensures ParseLength("\t/Length " + IntToString(n)) == Some(n)
    ensures PlainLine("\t/Length " + IntToString(n))
  {
    var line := "\t/Length " + IntToString(n);
    assert line[..9] == "\t/Length " && line[9..] == IntToString(n);
    IntRoundTrip(n);
    NotInNumeric(IntToString(n), '\n');
  }

  // ---------------------------------------------------------------------
  // The dictionary.
  // ---------------------------------------------------------------------

  /** The lines after `expected`, when `lines` starts with them. */
  function ExpectLines(expected: seq<string>, lines: seq<string>): Option<seq<string>> {
    if |lines| >= |expected| && lines[..|expected|] == expected then Some(lines[|expected|..]) else None
  }

  lemma ExpectRoundTrip(expected: seq<string>, more: seq<string>)
    ensures ExpectLines(expected, expected + more) == Some(more)
  {
    var lines := expected + more;
    assert lines[..|expected|] == expected && lines[|expected|..] == more;
  }

  /** The three lines that close the dictionary; the declared length. */
  function ParseTrailer(tail: seq<string>): Option<int> {
    if |tail| == 3 && tail[0] == "\t>>" && tail[2] == ">>" then ParseLength(tail[1]) else None
  }

  /** The two resource sub-dictionaries and what follows them. */
  function ParseResources(lines: seq<string>): Option<(seq<Ref>, seq<Ref>, int)> {
    match ParseDict("\t\t/XObject<<", "\t\t\t/I", lines) {
      case None => None
      case Some((images, rest)) =>
        match ParseDict("\t\t/ExtGState<<", "\t\t\t/GS", rest) {
          case None => None
          case Some((states, tail)) =>
            match ParseTrailer(tail) {
              case None => None
              case Some(n) => Some((images, states, n))
            }
        }
    }
  }

  /** The stream dictionary, exactly in the order the group writes it. */
  function ParseHeader(lines: seq<string>): Option<Header> {
    match ExpectLines(OpeningLines, lines) {
      case None => None
      case Some(afterOpening) =>
        if afterOpening == [] then None
        else
          match (ReadBox(afterOpening[0]), ExpectLines(GroupLines, afterOpening[1..])) {
            case (Some(box), Some(resources)) =>
              match ParseResources(resources) {
                case None => None
                case Some((images, states, n)) => Some(Header(box, images, states, n))
              }
            case _ => None
          }
    }
  }

  lemma TrailerRoundTrip(length: int)
    ensures ParseTrailer(TrailerLines(length)) == Some(length)
  {
    LengthRoundTrip(length);
  }

  lemma XObjectDictRoundTrip(xs: seq<ContentImage>, more: seq<string>)
    ensures ParseDict("\t\t/XObject<<", "\t\t\t/I", XObjectDictLines(xs) + more) == Some((ImageRefs(xs), more))
  {
    var lines := XObjectDictLines(xs) + more;
    assert lines[1..] == XObjectLines(xs) + ["\t\t>>"] + more;
    XObjectLinesAreEntries(xs);
    EntriesRoundTrip("\t\t\t/I", ImageRefs(xs), more);
  }

  lemma ExtGStateDictRoundTrip(gs: seq<int>, more: seq<string>)
    ensures ParseDict("\t\t/ExtGState<<", "\t\t\t/GS", ExtGStateDictLines(gs) + more) == Some((GStateRefs(gs), more))
  {
    var lines := ExtGStateDictLines(gs) + more;
    assert lines[1..] == ExtGStateLines(gs) + ["\t\t>>"] + more;
    ExtGStateLinesAreEntries(gs);
    EntriesRoundTrip("\t\t\t/GS", GStateRefs(gs), more);
  }

  lemma ResourcesRoundTrip(xs: seq<ContentImage>, gs: seq<int>, length: int)
    ensures ParseResources(XObjectDictLines(xs) + (ExtGStateDictLines(gs) + TrailerLines(length)))
      == Some((ImageRefs(xs), GStateRefs(gs), length))
  {
    XObjectDictRoundTrip(xs, ExtGStateDictLines(gs) + TrailerLines(length));
    ExtGStateDictRoundTrip(gs, TrailerLines(length));
    TrailerRoundTrip(length);
  }

  lemma Reassociate<T>(a: seq<T>, b: seq<T>, c: seq<T>, d: seq<T>, e: seq<T>, f: seq<T>)
    ensures a + b + c + d + e + f == a + (b + (c + (d + (e + f))))
  {
  }

  lemma HeaderRoundTrip(box: BoundingBox, xs: seq<ContentImage>, gs: seq<int>, length: int)
    ensures ParseHeader(DictionaryLines(box, xs, gs, length))
      == Some(Header(box, ImageRefs(xs), GStateRefs(gs), length))
  {
    var resources := XObjectDictLines(xs) + (ExtGStateDictLines(gs) + TrailerLines(length));
    var afterOpening := [BoxLine(box)] + (GroupLines + resources);
    Reassociate(OpeningLines, [BoxLine(box)], GroupLines, XObjectDictLines(xs), ExtGStateDictLines(gs),
      TrailerLines(length));
    ExpectRoundTrip(OpeningLines, afterOpening);
    assert afterOpening[1..] == GroupLines + resources;
    ExpectRoundTrip(GroupLines, resources);
    BoxRoundTrip(box);
    ResourcesRoundTrip(xs, gs, length);
  }

  lemma PlainAppend(a: seq<string>, b: seq<string>)
    requires PlainLines(a) && PlainLines(b)
    ensures PlainLines(a + b)
  {
  }

  lemma EntryLinesPlain(prefix: string, refs: seq<Ref>)
    requires EntryPrefix(prefix)
    ensures PlainLines(EntryLines(prefix, refs))
  {
    forall k | 0 <= k < |refs|
      ensures PlainLine(EntryLines(prefix, refs)[k])
    {
      EntryLineShape(prefix, refs[k]);
    }
  }

  lemma XObjectDictPlain(xs: seq<ContentImage>)
    ensures PlainLines(XObjectDictLines(xs))
  {
    XObjectLinesAreEntries(xs);
    EntryLinesPlain("\t\t\t/I", ImageRefs(xs));
    DictLinesPlain();
    PlainAppend(["\t\t/XObject<<"], XObjectLines(xs));
    PlainAppend(["\t\t/XObject<<"] + XObjectLines(xs), ["\t\t>>"]);
  }

  lemma ExtGStateDictPlain(gs: seq<int>)
    ensures PlainLines(ExtGStateDictLines(gs))
  {
    ExtGStateLinesAreEntries(gs);
    EntryLinesPlain("\t\t\t/GS", GStateRefs(gs));
    DictLinesPlain();
    PlainAppend(["\t\t/ExtGState<<"], ExtGStateLines(gs));
    PlainAppend(["\t\t/ExtGState<<"] + ExtGStateLines(gs), ["\t\t>>"]);
  }

  lemma OpeningLinesPlain()
    ensures PlainLines(OpeningLines)
  {
    assert PlainLine("<<") && PlainLine("\t/FormType 1") && PlainLine("\t/Subtype /Form");
    assert PlainLine("\t/Type /" + XObjectType) && PlainLine("\t/Matrix [1 0 0 1 0 0]");
  }

  lemma GroupLinesPlain()
    ensures PlainLines(GroupLines)
  {
    assert PlainLine("\t/Group<</CS /DeviceGray /S /Transparency>>");
    assert PlainLine("\t/Resources<<") && PlainLine("\t\t/ProcSet [/PDF]");
  }

  lemma DictLinesPlain()
    ensures PlainLine("\t\t/XObject<<") && PlainLine("\t\t/ExtGState<<") && PlainLine("\t\t>>")
      && PlainLine("\t>>") && PlainLine(">>")
  {
  }

  lemma PreludePlain(box: BoundingBox)
    ensures PlainLines(PreludeLines(box))
  {
    BoxLinePlain(box);
    OpeningLinesPlain();
    GroupLinesPlain();
    PlainAppend(OpeningLines, [BoxLine(box)]);
    PlainAppend(OpeningLines + [BoxLine(box)], GroupLines);
  }

  lemma TrailerPlain(length: int)
    ensures PlainLines(TrailerLines(length))
  {
    LengthRoundTrip(length);
    DictLinesPlain();
  }

  lemma DictionaryLinesPlain(box: BoundingBox, xs: seq<ContentImage>, gs: seq<int>, length: int)
    ensures PlainLines(DictionaryLines(box, xs, gs, length))
  {
    PreludePlain(box);
    TrailerPlain(length);
    XObjectDictPlain(xs);
    ExtGStateDictPlain(gs);
    var prelude := PreludeLines(box);
    PlainAppend(prelude, XObjectDictLines(xs));
    PlainAppend(prelude + XObjectDictLines(xs), ExtGStateDictLines(gs));
    PlainAppend(prelude + XObjectDictLines(xs) + ExtGStateDictLines(gs), TrailerLines(length));
  }

  // ---------------------------------------------------------------------
  // The whole stream object.
  // ---------------------------------------------------------------------

  /** The dictionary up to `stream`, then `/Length` bytes of body, then
      exactly `endstream` and a line feed. */
  function ReadForm(s: string): Option<Form> {
    match ReadHeaderLines(s)
    case None => None
    case Some((lines, rest)) =>
      match ParseHeader(lines)
      case None => None
      case Some(h) =>
        if 0 <= h.length <= |rest| && rest[h.length..] == "endstream\n" then
          Some(Form(h, rest[..h.length]))
        else
          None
  }

  /** Reading the header, a body of the declared length and `endstream`
      gives back the box, both entry lists and the body. */
  lemma FormRoundTrip(box: BoundingBox, xs: seq<ContentImage>, gs: seq<int>, body: string)
    ensures ReadForm(Content(box, xs, gs, |body|) + body + "endstream\n")
      == Some(Form(Header(box, ImageRefs(xs), GStateRefs(gs), |body|), body))
  {
    var dict := DictionaryLines(box, xs, gs, |body|);
    var rest := body + "endstream\n";
    JoinLinesSnoc(dict, "stream");
    AppendAssoc(JoinLines(dict) + Line("stream"), body, "endstream\n");
    DictionaryLinesPlain(box, xs, gs, |body|);
    ReadHeaderLinesRoundTrip(dict, rest);
    HeaderRoundTrip(box, xs, gs, |body|);
    assert rest[|body|..] == "endstream\n" && rest[..|body|] == body;
  }

  /** What a successful write emits reads back as the group's box, its
      children's entries in list order, its graphics-state entries, a
      `/Length` equal to the children's total size, and their outputs
      concatenated as the body. */
  lemma WrittenFormReadsBack(box: BoundingBox, xs: seq<ContentImage>, gs: seq<int>, first: nat, failing: set<nat>)
    requires AllRendered(xs)
    requires first !in failing && first + 1 !in failing && first + 2 !in failing
    ensures ReadForm(Serialize(box, xs, gs, first, failing).emitted)
      == Some(Form(Header(box, ImageRefs(xs), GStateRefs(gs), TotalSize(xs)), Concat(Outputs(xs))))
  {
    WriteSucceeds(box, xs, gs, first, failing);
    BodyIsConcatenation(xs);
    FormRoundTrip(box, xs, gs, Concat(Outputs(xs)));
  }

  /** A group without children writes `/Length 0`, an empty `/XObject`
      dictionary and an empty body. */
  lemma EmptyGroupHasLengthZero(box: BoundingBox, xs: seq<ContentImage>, gs: seq<int>, first: nat, failing: set<nat>)
    requires xs == []
    requires first !in failing && first + 1 !in failing && first + 2 !in failing
    ensures ReadForm(Serialize(box, xs, gs, first, failing).emitted)
      == Some(Form(Header(box, [], GStateRefs(gs), 0), ""))
  {
    WrittenFormReadsBack(box, xs, gs, first, failing);
    assert Outputs(xs) == [] && ImageRefs(xs) == [];
  }

  /** One child with index 0 and graphics state 2: the entries read
      `/I1 1 0 R` and `/GS3 2 0 R`. */
  lemma ExampleEntries(x: ContentImage)
    requires x.index == 0
    ensures XObjectLine(x) == "\t\t\t/I1 1 0 R"
    ensures ExtGStateLine(2) == "\t\t\t/GS3 2 0 R"
  {
    EntryLineText("\t\t\t/I", Ref(1, 1));
    EntryLineText("\t\t\t/GS", Ref(3, 2));
    assert IntToString(1) == "1" && IntToString(2) == "2" && IntToString(3) == "3";
  }

  /** The same group written in full: its `/Length` is the child's size and
      its body the child's output. */
  lemma ExampleReadsBack(box: BoundingBox, xs: seq<ContentImage>, gs: seq<int>, first: nat, failing: set<nat>)
    requires box == BoundingBox(0, 0, 100000, 100000)
    requires |xs| == 1 && xs[0].index == 0 && xs[0].output.Success?
    requires |gs| == 1 && gs[0] == 2
    requires first !in failing && first + 1 !in failing && first + 2 !in failing
    ensures ReadForm(Serialize(box, xs, gs, first, failing).emitted)
      == Some(Form(Header(box, [Ref(1, 1)], [Ref(3, 2)], |xs[0].output.value|), xs[0].output.value))
  {
    assert ImageRefs(xs) == [Ref(1, 1)] && GStateRefs(gs) == [Ref(3, 2)];
    assert Outputs(xs) == [xs[0].output.value];
    assert xs[..0] == [] && TotalSize(xs) == |xs[0].output.value|;
    ConcatOfFew(xs[0].output.value, "", "");
    WrittenFormReadsBack(box, xs, gs, first, failing);
  }
}
