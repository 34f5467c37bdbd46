/** A transparency group: one Form XObject (section 8.10 of ISO 32000-1)
    whose `/Group` dictionary makes it a transparency group (section 11.6.6),
    drawing a list of child images and referring to external graphics
    states. `TransparencyXObjectGroup.Write` renders the children into a
    buffer, then writes a fixed-format header whose `/Length` is the
    buffer's size, the buffer itself, and `endstream`. */
module XObjectGroup {
  import opened Errors
  import opened Decimal
  import opened Text
  import opened Sink
  import opened ContentImages

  /** The group's bounding box, each coordinate in thousandths of a unit. */
  datatype BoundingBox = BoundingBox(x0: int, y0: int, x1: int, y1: int)

  /** The group's transformation matrix; it is stored but never written. */
  datatype AffineMatrix = AffineMatrix(a: real, b: real, c: real, d: real, e: real, f: real)

  /** The document's encryption settings, shared by reference. */
  class PDFProtection { }

  datatype TransparencyXObjectGroupOptions = TransparencyXObjectGroupOptions(
    Protection: PDFProtection?,
    ExtGStateIndexes: seq<int>,
    BBox: BoundingBox,
    XObjects: seq<ContentImage>)

  const XObjectType := "XObject"

  // ---------------------------------------------------------------------
  // The stream body: every child rendered in list order, fail-fast.
  // ---------------------------------------------------------------------

  /** Child `j` is the first child whose rendering fails. */
  predicate FirstFailure(xs: seq<ContentImage>, j: int) {
    && 0 <= j < |xs|
    && xs[j].output.Failure?
    && forall i :: 0 <= i < j ==> xs[i].output.Success?
  }

  predicate AllRendered(xs: seq<ContentImage>) {
    forall i :: 0 <= i < |xs| ==> xs[i].output.Success?
  }

  /** Bytes the children add to the buffer, in total. */
  function TotalSize(xs: seq<ContentImage>): nat {
    if xs == [] then 0 else TotalSize(xs[..|xs| - 1]) + Size(xs[|xs| - 1])
  }

  /** What the buffer holds once every child has written itself into it, or
      the error of the first child that fails. */
  function RenderBody(xs: seq<ContentImage>): (r: Result<string>)
    ensures r.Success? <==> AllRendered(xs)
    ensures r.Success? ==> |r.value| == TotalSize(xs)
    ensures r.Failure? ==> exists j :: FirstFailure(xs, j) && r.error == xs[j].output.error
  {
    if xs == [] then Success([])
    else
      var init := xs[..|xs| - 1];
      assert forall i :: 0 <= i < |init| ==> init[i] == xs[i];
      match RenderBody(init)
      case Failure(e) => Failure(e)
      case Success(prefix) =>
        match xs[|xs| - 1].output
        case Failure(e) => assert FirstFailure(xs, |xs| - 1); Failure(e)
        case Success(bytes) => Success(prefix + bytes)
  }

  /** The children's outputs, in list order. */
  function Outputs(xs: seq<ContentImage>): seq<string>
    requires AllRendered(xs)
  {
    seq(|xs|, i requires 0 <= i < |xs| => xs[i].output.value)
  }

  /** The buffer is the children's outputs concatenated in list order. */
  lemma {:induction false} BodyIsConcatenation(xs: seq<ContentImage>)
    requires AllRendered(xs)
    ensures RenderBody(xs) == Success(Concat(Outputs(xs)))
  {
    if xs != [] {
      var init := xs[..|xs| - 1];
      assert forall i :: 0 <= i < |init| ==> init[i] == xs[i];
      BodyIsConcatenation(init);
      assert Outputs(xs) == Outputs(init) + [xs[|xs| - 1].output.value];
      ConcatLast(Outputs(init), xs[|xs| - 1].output.value);
    }
  }

  /** Only the first failing child decides the error. */
  lemma ChildErrorIsFirstFailure(xs: seq<ContentImage>, j: int)
    requires FirstFailure(xs, j)
    ensures RenderBody(xs) == Failure(xs[j].output.error)
  {
    var r := RenderBody(xs);
    var j' :| FirstFailure(xs, j') && r.error == xs[j'].output.error;
    assert j' >= j;
  }

  // ---------------------------------------------------------------------
  // The header text.
  // ---------------------------------------------------------------------

  /** An entry of a resource sub-dictionary: the number in the resource's
      name, and the object number of the indirect reference (generation 0)
      it stands for. */
  datatype Ref = Ref(name: int, number: int)

  /** The line `<prefix><name> <number> 0 R`. */
  function EntryLine(prefix: string, r: Ref): string {
    Join([prefix + IntToString(r.name), IntToString(r.number), "0", "R"], ' ')
  }

  /** The entry line is the name, a space, the object number and ` 0 R`. */
  lemma EntryLineText(prefix: string, r: Ref)
    ensures EntryLine(prefix, r) == prefix + IntToString(r.name) + " " + IntToString(r.number) + " 0 R"
  {
    var name, number := prefix + IntToString(r.name), IntToString(r.number);
    calc {
      EntryLine(prefix, r);
      name + [' '] + Join([number, "0", "R"], ' ');
      { assert [name, number, "0", "R"][1..] == [number, "0", "R"]; }
      name + [' '] + (number + [' '] + Join(["0", "R"], ' '));
      { assert [number, "0", "R"][1..] == ["0", "R"] && ["0", "R"][1..] == ["R"]; }
      name + [' '] + (number + [' '] + ("0" + [' '] + "R"));
      { assert "0" + [' '] + "R" == "0 R"; }
      name + " " + number + " 0 R";
    }
  }

  /** `fmt.Sprintf("\t\t\t/I%d %d 0 R", x.index+1, x.index+1)`: name and
      object number both come from the child's own `index`, not from its
      position in the list. */
  function XObjectLine(x: ContentImage): string {
    EntryLine("\t\t\t/I", Ref(x.index + 1, x.index + 1))
  }

  /** `fmt.Sprintf("\t\t\t/GS%d %d 0 R", r+1, r)`: the name uses `r + 1`,
      the object number `r` itself. */
  function ExtGStateLine(r: int): string {
    EntryLine("\t\t\t/GS", Ref(r + 1, r))
  }

  function XObjectLines(xs: seq<ContentImage>): seq<string> {
    seq(|xs|, i requires 0 <= i < |xs| => XObjectLine(xs[i]))
  }

  function ExtGStateLines(gs: seq<int>): seq<string> {
    seq(|gs|, i requires 0 <= i < |gs| => ExtGStateLine(gs[i]))
  }

  /** The `/XObject` sub-dictionary: one entry line per child. */
  function XObjectDictLines(xs: seq<ContentImage>): seq<string> {
    ["\t\t/XObject<<"] + XObjectLines(xs) + ["\t\t>>"]
  }

  /** The `/ExtGState` sub-dictionary: one entry line per index. */
  function ExtGStateDictLines(gs: seq<int>): seq<string> {
    ["\t\t/ExtGState<<"] + ExtGStateLines(gs) + ["\t\t>>"]
  }

  function XObjectDict(xs: seq<ContentImage>): string {
    JoinLines(XObjectDictLines(xs))
  }

  function ExtGStateDict(gs: seq<int>): string {
    JoinLines(ExtGStateDictLines(gs))
  }

  /** The four coordinates, each printed by `%.3F`. */
  function Corners(b: BoundingBox): seq<string> {
    [FormatThousandths(b.x0), FormatThousandths(b.y0), FormatThousandths(b.x1), FormatThousandths(b.y1)]
  }

  /** `/BBox` with the coordinates separated by spaces. */
  function BoxLine(b: BoundingBox): string {
    "\t/BBox [" + Join(Corners(b), ' ') + "]"
  }

  /** The fixed lines before the bounding box: form type, subtype, type and
      the identity matrix, whatever the group's `Matrix` holds. */
  const OpeningLines: seq<string> :=
    ["<<", "\t/FormType 1", "\t/Subtype /Form", "\t/Type /" + XObjectType, "\t/Matrix [1 0 0 1 0 0]"]

  /** The fixed lines after it: the transparency group and the start of the
      resources. */
  const GroupLines: seq<string> :=
    ["\t/Group<</CS /DeviceGray /S /Transparency>>", "\t/Resources<<", "\t\t/ProcSet [/PDF]"]

  function PreludeLines(box: BoundingBox): seq<string> {
    OpeningLines + [BoxLine(box)] + GroupLines
  }

  /** The end of the resources, the stream length and the end of the
      dictionary. */
  function TrailerLines(length: int): seq<string> {
    ["\t>>", "\t/Length " + IntToString(length), ">>"]
  }

  /** The stream dictionary's lines, for a body of `length` bytes. */
  function DictionaryLines(box: BoundingBox, xs: seq<ContentImage>, gs: seq<int>, length: int): seq<string> {
    PreludeLines(box) + XObjectDictLines(xs) + ExtGStateDictLines(gs) + TrailerLines(length)
  }

  /** The header: the dictionary, then the `stream` keyword on its own line. */
  function HeaderLines(box: BoundingBox, xs: seq<ContentImage>, gs: seq<int>, length: int): seq<string> {
    DictionaryLines(box, xs, gs, length) + ["stream"]
  }

  /** The header the group writes before its stream body. */
  function Content(box: BoundingBox, xs: seq<ContentImage>, gs: seq<int>, length: int): string {
    JoinLines(HeaderLines(box, xs, gs, length))
  }

  /** The header declares a Form XObject of form type 1 with the identity
      matrix; nothing in it depends on the group's `Matrix` field. */
  lemma HeaderNamesFormXObject(box: BoundingBox, xs: seq<ContentImage>, gs: seq<int>, length: int)
    ensures HeaderLines(box, xs, gs, length)[..|OpeningLines|] == OpeningLines
    ensures OpeningLines[1..4] == ["\t/FormType 1", "\t/Subtype /Form", "\t/Type /XObject"]
    ensures OpeningLines[4] == "\t/Matrix [1 0 0 1 0 0]"
  {
    StartOf(OpeningLines, [BoxLine(box)], GroupLines, XObjectDictLines(xs), ExtGStateDictLines(gs),
            TrailerLines(length), ["stream"]);
    TypeLine();
  }

  lemma TypeLine()
    ensures OpeningLines[3] == "\t/Type /XObject"
  {
  }

  lemma StartOf<T>(a: seq<T>, b: seq<T>, c: seq<T>, d: seq<T>, e: seq<T>, f: seq<T>, g: seq<T>)
    ensures (a + b + c + d + e + f + g)[..|a|] == a
  {
  }

  /** `HeaderLines`, grouped the way `BuildContent` appends them. */
  lemma HeaderLinesInOrder(box: BoundingBox, xs: seq<ContentImage>, gs: seq<int>, length: int)
    ensures HeaderLines(box, xs, gs, length)
      == ["<<"] + ["\t/FormType 1"] + ["\t/Subtype /Form"] + ["\t/Type /" + XObjectType] + ["\t/Matrix [1 0 0 1 0 0]"]
         + [BoxLine(box)] + ["\t/Group<</CS /DeviceGray /S /Transparency>>"] + ["\t/Resources<<"] + ["\t\t/ProcSet [/PDF]"]
         + XObjectDictLines(xs) + ExtGStateDictLines(gs)
         + ["\t>>"] + ["\t/Length " + IntToString(length)] + [">>"] + ["stream"]
  {
    Regrouped("<<", "\t/FormType 1", "\t/Subtype /Form", "\t/Type /" + XObjectType, "\t/Matrix [1 0 0 1 0 0]",
      BoxLine(box), "\t/Group<</CS /DeviceGray /S /Transparency>>", "\t/Resources<<", "\t\t/ProcSet [/PDF]",
      XObjectDictLines(xs), ExtGStateDictLines(gs),
      "\t>>", "\t/Length " + IntToString(length), ">>", "stream");
  }

  /** The shape of `HeaderLines`, over arbitrary elements. */
  lemma Regrouped<T>(a: T, b: T, c: T, d: T, e: T, f: T, g: T, h: T, i: T, x: seq<T>, y: seq<T>,
                     t1: T, t2: T, t3: T, t4: T)
    ensures [a, b, c, d, e] + [f] + [g, h, i] + x + y + [t1, t2, t3] + [t4]
      == [a] + [b] + [c] + [d] + [e] + [f] + [g] + [h] + [i] + x + y + [t1] + [t2] + [t3] + [t4]
  {
  }

  lemma XObjectLinesSnoc(xs: seq<ContentImage>, j: nat)
    requires j < |xs|
    ensures XObjectLines(xs[..j + 1]) == XObjectLines(xs[..j]) + [XObjectLine(xs[j])]
  {
  }

  lemma ExtGStateLinesSnoc(gs: seq<int>, k: nat)
    requires k < |gs|
    ensures ExtGStateLines(gs[..k + 1]) == ExtGStateLines(gs[..k]) + [ExtGStateLine(gs[k])]
  {
  }

  /** The `xObjects` string of `write`, built one entry per child. */
  method XObjectsDictionary(xs: seq<ContentImage>) returns (xObjects: string)
    ensures xObjects == XObjectDict(xs)
  {
    xObjects := Line("\t\t/XObject<<");
    JoinLinesOne("\t\t/XObject<<");
    var j := 0;
    while j < |xs|
      invariant 0 <= j <= |xs|
      invariant xObjects == JoinLines(["\t\t/XObject<<"] + XObjectLines(xs[..j]))
    {
      XObjectLinesSnoc(xs, j);
      assert ["\t\t/XObject<<"] + XObjectLines(xs[..j + 1])
        == (["\t\t/XObject<<"] + XObjectLines(xs[..j])) + [XObjectLine(xs[j])];
      JoinLinesSnoc(["\t\t/XObject<<"] + XObjectLines(xs[..j]), XObjectLine(xs[j]));
      xObjects := xObjects + Line(XObjectLine(xs[j]));
      j := j + 1;
    }
    assert xs[..j] == xs;
    JoinLinesSnoc(["\t\t/XObject<<"] + XObjectLines(xs), "\t\t>>");
    xObjects := xObjects + Line("\t\t>>");
  }

  /** The `extGStates` string of `write`, built one entry per index. */
  method ExtGStatesDictionary(gs: seq<int>) returns (extGStates: string)
    ensures extGStates == ExtGStateDict(gs)
  {
    extGStates := Line("\t\t/ExtGState<<");
    JoinLinesOne("\t\t/ExtGState<<");
    var k := 0;
    while k < |gs|
      invariant 0 <= k <= |gs|
      invariant extGStates == JoinLines(["\t\t/ExtGState<<"] + ExtGStateLines(gs[..k]))
    {
      ExtGStateLinesSnoc(gs, k);
      assert ["\t\t/ExtGState<<"] + ExtGStateLines(gs[..k + 1])
        == (["\t\t/ExtGState<<"] + ExtGStateLines(gs[..k])) + [ExtGStateLine(gs[k])];
      JoinLinesSnoc(["\t\t/ExtGState<<"] + ExtGStateLines(gs[..k]), ExtGStateLine(gs[k]));
      extGStates := extGStates + Line(ExtGStateLine(gs[k]));
      k := k + 1;
    }
    assert gs[..k] == gs;
    JoinLinesSnoc(["\t\t/ExtGState<<"] + ExtGStateLines(gs), "\t\t>>");
    extGStates := extGStates + Line("\t\t>>");
  }

  /** The `content` string of `write` (the dictionary and the `stream`
      keyword), built line by line as the source appends it. */
  method BuildContent(box: BoundingBox, xs: seq<ContentImage>, gs: seq<int>, length: int) returns (content: string)
    ensures content == Content(box, xs, gs, length)
  {
    // `lines` tracks the lines written so far.
    content := Line("<<");
    ghost var lines := ["<<"];
    JoinLinesOne("<<");
    JoinLinesSnoc(lines, "\t/FormType 1");
    content, lines := content + Line("\t/FormType 1"), lines + ["\t/FormType 1"];
    JoinLinesSnoc(lines, "\t/Subtype /Form");
    content, lines := content + Line("\t/Subtype /Form"), lines + ["\t/Subtype /Form"];
    JoinLinesSnoc(lines, "\t/Type /" + XObjectType);
    content, lines := content + Line("\t/Type /" + XObjectType), lines + ["\t/Type /" + XObjectType];
    JoinLinesSnoc(lines, "\t/Matrix [1 0 0 1 0 0]");
    content, lines := content + Line("\t/Matrix [1 0 0 1 0 0]"), lines + ["\t/Matrix [1 0 0 1 0 0]"];
    JoinLinesSnoc(lines, BoxLine(box));
    content, lines := content + Line(BoxLine(box)), lines + [BoxLine(box)];
    JoinLinesSnoc(lines, "\t/Group<</CS /DeviceGray /S /Transparency>>");
    content, lines := content + Line("\t/Group<</CS /DeviceGray /S /Transparency>>"), lines + ["\t/Group<</CS /DeviceGray /S /Transparency>>"];
    JoinLinesSnoc(lines, "\t/Resources<<");
    content, lines := content + Line("\t/Resources<<"), lines + ["\t/Resources<<"];
    JoinLinesSnoc(lines, "\t\t/ProcSet [/PDF]");
    content, lines := content + Line("\t\t/ProcSet [/PDF]"), lines + ["\t\t/ProcSet [/PDF]"];

    var xObjects := XObjectsDictionary(xs);
    var extGStates := ExtGStatesDictionary(gs);
    JoinLinesAppend(lines, XObjectDictLines(xs));
    content, lines := content + xObjects, lines + XObjectDictLines(xs);
    JoinLinesAppend(lines, ExtGStateDictLines(gs));
    content, lines := content + extGStates, lines + ExtGStateDictLines(gs);

    JoinLinesSnoc(lines, "\t>>");
    content, lines := content + Line("\t>>"), lines + ["\t>>"];
    JoinLinesSnoc(lines, "\t/Length " + IntToString(length));
    content, lines := content + Line("\t/Length " + IntToString(length)), lines + ["\t/Length " + IntToString(length)];
    JoinLinesSnoc(lines, ">>");
    content, lines := content + Line(">>"), lines + [">>"];
    JoinLinesSnoc(lines, "stream");
    content, lines := content + Line("stream"), lines + ["stream"];
    HeaderLinesInOrder(box, xs, gs, length);
  }

  /** The three writes that end `write`: the header, the body, then
      `endstream`; the first failing write ends it and its error is
      returned. */
  method WriteStream(w: Writer, content: string, body: string) returns (status: Status)
    modifies w
    ensures var o := Emit([content, body, "endstream\n"], old(w.calls), w.failing);
      && w.out == old(w.out) + o.emitted
      && w.calls == old(w.calls) + o.calls
      && status == o.status
  {
    EmitThree(content, body, "endstream\n", w.calls, w.failing);
    ghost var out0 := w.out;
    AppendAssoc(out0, content, body);
    AppendAssoc(out0, content + body, "endstream\n");
    status := w.Write(content);
    if status.Failed? {
      return;
    }
    status := w.Write(body);
    if status.Failed? {
      return;
    }
    status := w.Write("endstream\n");
    if status.Failed? {
      return;
    }
    status := Ok;
  }

  // ---------------------------------------------------------------------
  // The whole write, as calls on the output writer.
  // ---------------------------------------------------------------------

  /** Everything `write` does to a writer whose next call is number `first`:
      render the children; only if that succeeds, write the header, the body
      and `endstream`, stopping at the first failing call. */
  function Serialize(box: BoundingBox, xs: seq<ContentImage>, gs: seq<int>, first: nat, failing: set<nat>): Outcome {
    match RenderBody(xs)
    case Failure(e) => Outcome([], 0, Failed(e))
    case Success(body) => Emit([Content(box, xs, gs, |body|), body, "endstream\n"], first, failing)
  }

  /** With every child rendered and no failing call, the output is the
      header, the children's outputs in order, and `endstream`; the header's
      `/Length` is their total size. */
  lemma WriteSucceeds(box: BoundingBox, xs: seq<ContentImage>, gs: seq<int>, first: nat, failing: set<nat>)
    requires AllRendered(xs)
    requires first !in failing && first + 1 !in failing && first + 2 !in failing
    ensures var o := Serialize(box, xs, gs, first, failing);
      && o.status == Ok
      && o.calls == 3
      && o.emitted == Content(box, xs, gs, TotalSize(xs)) + Concat(Outputs(xs)) + "endstream\n"
  {
    BodyIsConcatenation(xs);
    EmitThree(Content(box, xs, gs, TotalSize(xs)), Concat(Outputs(xs)), "endstream\n", first, failing);
  }

  /** A write succeeds exactly when every child renders and none of the
      three writer calls fails. */
  lemma WriteStatus(box: BoundingBox, xs: seq<ContentImage>, gs: seq<int>, first: nat, failing: set<nat>)
    ensures Serialize(box, xs, gs, first, failing).status == Ok
      <==> AllRendered(xs) && first !in failing && first + 1 !in failing && first + 2 !in failing
  {
    match RenderBody(xs)
    case Failure(_) =>
    case Success(body) =>
      EmitThree(Content(box, xs, gs, |body|), body, "endstream\n", first, failing);
  }

  /** A failing child: its error is returned and nothing reaches the writer,
      since the header is written only after every child has rendered. */
  lemma ChildFailureWritesNothing(box: BoundingBox, xs: seq<ContentImage>, gs: seq<int>, first: nat, failing: set<nat>, j: int)
    requires FirstFailure(xs, j)
    ensures var o := Serialize(box, xs, gs, first, failing);
      o.emitted == [] && o.calls == 0 && o.status == Failed(xs[j].output.error)
  {
    ChildErrorIsFirstFailure(xs, j);
  }

  /** A failing header write: nothing is written and no further call made. */
  lemma HeaderWriteFails(box: BoundingBox, xs: seq<ContentImage>, gs: seq<int>, first: nat, failing: set<nat>)
    requires AllRendered(xs) && first in failing
    ensures var o := Serialize(box, xs, gs, first, failing);
      o.emitted == [] && o.calls == 1 && o.status == Failed(WriteError(first))
  {
  }

  /** A failing body write: only the header is written, `endstream` is not
      attempted. */
  lemma BodyWriteFails(box: BoundingBox, xs: seq<ContentImage>, gs: seq<int>, first: nat, failing: set<nat>)
    requires AllRendered(xs) && first !in failing && first + 1 in failing
    ensures var o := Serialize(box, xs, gs, first, failing);
      && o.emitted == Content(box, xs, gs, TotalSize(xs))
      && o.calls == 2
      && o.status == Failed(WriteError(first + 1))
  {
    var body := RenderBody(xs).value;
    EmitThree(Content(box, xs, gs, |body|), body, "endstream\n", first, failing);
  }

  /** A failing `endstream` write: header and body are written, the error of
      that third call is returned. */
  lemma TrailerWriteFails(box: BoundingBox, xs: seq<ContentImage>, gs: seq<int>, first: nat, failing: set<nat>)
    requires AllRendered(xs) && first !in failing && first + 1 !in failing && first + 2 in failing
    ensures var o := Serialize(box, xs, gs, first, failing);
      && o.emitted == Content(box, xs, gs, TotalSize(xs)) + Concat(Outputs(xs))
      && o.calls == 3
      && o.status == Failed(WriteError(first + 2))
  {
    BodyIsConcatenation(xs);
    var body := RenderBody(xs).value;
    EmitThree(Content(box, xs, gs, |body|), body, "endstream\n", first, failing);
  }

  // ---------------------------------------------------------------------
  // The group object.
  // ---------------------------------------------------------------------

  class TransparencyXObjectGroup {
    var Index: int
    var BBox: BoundingBox
    var Matrix: AffineMatrix
    var ExtGStateIndexes: seq<int>
    var XObjects: seq<ContentImage>
    var pdfProtection: PDFProtection?

    /** The struct literal of `GetCachedTransparencyXObjectGroup` with the
        index the document table assigned; `Matrix` keeps Go's zero value. */
    constructor (opts: TransparencyXObjectGroupOptions, index: int)
      ensures Index == index
      ensures BBox == opts.BBox && XObjects == opts.XObjects
      ensures pdfProtection == opts.Protection && ExtGStateIndexes == opts.ExtGStateIndexes
      ensures Matrix == AffineMatrix(0.0, 0.0, 0.0, 0.0, 0.0, 0.0)
    {
      BBox := opts.BBox;
      XObjects := opts.XObjects;
      pdfProtection := opts.Protection;
      ExtGStateIndexes := opts.ExtGStateIndexes;
      Matrix := AffineMatrix(0.0, 0.0, 0.0, 0.0, 0.0, 0.0);
      Index := index;
    }

    function GetType(): string {
      XObjectType
    }

    function Protection(): PDFProtection?
      reads this
    {
      pdfProtection
    }

    /** Stores the shared protection handle; no other field changes. */
    method SetProtection(p: PDFProtection?)
      modifies this`pdfProtection
      ensures Protection() == p
      ensures Index == old(Index) && BBox == old(BBox) && Matrix == old(Matrix)
      ensures ExtGStateIndexes == old(ExtGStateIndexes) && XObjects == old(XObjects)
    {
      pdfProtection := p;
    }

    /** Writes the group as one Form XObject to `w`; `objId` is not used.
        The group itself is left unchanged. `childCalls` counts the children
        whose `write` was invoked: all of them, or up to the first failing
        one. */
    method Write(w: Writer, objId: int) returns (status: Status, ghost childCalls: nat)
      modifies w
      ensures var o := Serialize(BBox, XObjects, ExtGStateIndexes, old(w.calls), w.failing);
        && w.out == old(w.out) + o.emitted
        && w.calls == old(w.calls) + o.calls
        && status == o.status
      ensures AllRendered(XObjects) ==> childCalls == |XObjects|
      ensures !AllRendered(XObjects) ==> childCalls >= 1 && FirstFailure(XObjects, childCalls - 1)
    {
      var streamBuff: string := [];
      childCalls := 0;
      var i := 0;
      while i < |XObjects|
        invariant 0 <= i <= |XObjects|
        invariant childCalls == i
        invariant RenderBody(XObjects[..i]) == Success(streamBuff)
        invariant w.out == old(w.out) && w.calls == old(w.calls)
      {
        childCalls := childCalls + 1;
        assert XObjects[..i + 1][..i] == XObjects[..i];
        match XObjects[i].output {
          case Failure(err) =>
            assert FirstFailure(XObjects, i);
            ChildErrorIsFirstFailure(XObjects, i);
            return Failed(err), childCalls;
          case Success(bytes) =>
            streamBuff := streamBuff + bytes;
        }
        i := i + 1;
      }
      assert XObjects[..i] == XObjects;

      var content := BuildContent(BBox, XObjects, ExtGStateIndexes, |streamBuff|);
      assert RenderBody(XObjects) == Success(streamBuff);
      status := WriteStream(w, content, streamBuff);
    }
  }

  /** `GetCachedTransparencyXObjectGroup`: a new group holding the options'
      fields and carrying the index `index` the document table allocated
      (the allocation itself is not modelled); the error it returns is
      always nil. */
  method GetCachedTransparencyXObjectGroup(opts: TransparencyXObjectGroupOptions, index: int)
    returns (group: TransparencyXObjectGroup, err: Status)
    ensures fresh(group) && err == Ok
    ensures group.Index == index
    ensures group.BBox == opts.BBox && group.XObjects == opts.XObjects
    ensures group.pdfProtection == opts.Protection && group.ExtGStateIndexes == opts.ExtGStateIndexes
  {
    group := new TransparencyXObjectGroup(opts, index);
    err := Ok;
  }

  /** `getType` names the type the header declares: the `/Type` line is
      built from the value it returns. */
  lemma GetTypeNamesTypeLine(g: TransparencyXObjectGroup)
    ensures g.GetType() == "XObject"
    ensures OpeningLines[3] == "\t/Type /" + g.GetType()
  {
  }

  /** Writing the same group to two writers in the same state gives the same
      text and the same error: `write` depends on nothing but the group's
      fields and its children's outputs. */
  method WriteIsRepeatable(g: TransparencyXObjectGroup, w1: Writer, w2: Writer)
    returns (s1: Status, s2: Status)
    requires w1 != w2
    requires w1.out == w2.out && w1.calls == w2.calls && w1.failing == w2.failing
    modifies w1, w2
    ensures s1 == s2 && w1.out == w2.out && w1.calls == w2.calls
  {
    ghost var c1, c2;
    s1, c1 := g.Write(w1, g.Index);
    s2, c2 := g.Write(w2, g.Index);
  }
}
