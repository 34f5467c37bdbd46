/** Joining and splitting text on a separator character: the line
    structure of the emitted dictionary and the words of one entry. */
module Text {

  /** Position of the first `sep` in `s`. */
  function IndexOf(s: string, sep: char): (k: nat)
    requires sep in s
    ensures k < |s| && s[k] == sep && sep !in s[..k]
  {
    if s[0] == sep then 0 else 1 + IndexOf(s[1..], sep)
  }

  /** The pieces of `s` between occurrences of `sep` (like Go's
      `strings.Split`): never empty, and no piece contains `sep`. */
  function Split(s: string, sep: char): (parts: seq<string>)
    ensures |parts| >= 1
    ensures forall i :: 0 <= i < |parts| ==> sep !in parts[i]
    decreases |s|
  {
    if sep !in s then [s]
    else
      var k := IndexOf(s, sep);
      [s[..k]] + Split(s[k + 1..], sep)
  }

  lemma IndexOfAt(a: string, sep: char, b: string)
    requires sep !in a
    ensures IndexOf(a + [sep] + b, sep) == |a|
  {
    var s := a + [sep] + b;
    assert forall i :: 0 <= i < |a| ==> s[i] == a[i];
    assert s[|a|] == sep;
  }

  lemma SplitAt(a: string, sep: char, b: string)
    requires sep !in a
    ensures Split(a + [sep] + b, sep) == [a] + Split(b, sep)
  {
    var s := a + [sep] + b;
    IndexOfAt(a, sep, b);
    assert s[..|a|] == a && s[|a| + 1..] == b;
  }

  /** A line of text with its line feed. */
  function Line(text: string): string {
    text + "\n"
  }

  /** Every line followed by a line feed. */
  function JoinLines(lines: seq<string>): string {
    if lines == [] then "" else Line(lines[0]) + JoinLines(lines[1..])
  }

  lemma {:induction false} JoinLinesAppend(a: seq<string>, b: seq<string>)
    ensures JoinLines(a + b) == JoinLines(a) + JoinLines(b)
  {
    if a != [] {
      assert (a + b)[1..] == a[1..] + b;
      JoinLinesAppend(a[1..], b);
    } else {
      assert a + b == b;
    }
  }

  /** Appending one more line to the text appends it to the lines. */
  lemma JoinLinesSnoc(a: seq<string>, line: string)
    ensures JoinLines(a + [line]) == JoinLines(a) + Line(line)
  {
    JoinLinesAppend(a, [line]);
    assert JoinLines([line]) == Line(line) + JoinLines([]);
  }

  lemma JoinLinesOne(line: string)
    ensures JoinLines([line]) == Line(line)
  {
    assert JoinLines([line]) == Line(line) + JoinLines([]);
  }

  /** The words of `ws` with one `sep` between neighbours. */
  function Join(ws: seq<string>, sep: char): string {
    if ws == [] then "" else if |ws| == 1 then ws[0] else ws[0] + [sep] + Join(ws[1..], sep)
  }

  /** `Join` begins with its first word. */
  lemma JoinStartsWith(ws: seq<string>, sep: char)
    requires |ws| >= 1
    ensures |Join(ws, sep)| >= |ws[0]| && Join(ws, sep)[..|ws[0]|] == ws[0]
  {
    if |ws| > 1 {
      assert Join(ws, sep) == ws[0] + ([sep] + Join(ws[1..], sep));
    }
  }

  /** A character other than the separator occurs in the joined text only
      if it occurs in a word. */
  lemma {:induction false} NotInJoin(ws: seq<string>, sep: char, c: char)
    requires c != sep
    requires forall i :: 0 <= i < |ws| ==> c !in ws[i]
    ensures c !in Join(ws, sep)
  {
    if |ws| > 1 {
      NotInJoin(ws[1..], sep, c);
    }
  }

  /** Splitting joined words gives the words back, provided none of them
      holds the separator. */
  lemma {:induction false} SplitJoin(ws: seq<string>, sep: char)
    requires |ws| >= 1
    requires forall i :: 0 <= i < |ws| ==> sep !in ws[i]
    ensures Split(Join(ws, sep), sep) == ws
  {
    if |ws| > 1 {
      SplitJoin(ws[1..], sep);
      SplitAt(ws[0], sep, Join(ws[1..], sep));
      assert ws == [ws[0]] + ws[1..];
    }
  }

  lemma AppendAssoc(a: string, b: string, c: string)
    ensures a + b + c == a + (b + c)
  {
  }

  /** All the strings of `parts`, in order. */
  function Concat(parts: seq<string>): string {
    if parts == [] then "" else parts[0] + Concat(parts[1..])
  }

  lemma ConcatOfFew(a: string, b: string, c: string)
    ensures Concat([a]) == a
    ensures Concat([a, b]) == a + b
    ensures Concat([a, b, c]) == a + b + c
  {
    assert [a][1..] == [] && [a, b][1..] == [b] && [a, b, c][1..] == [b, c];
    assert Concat([b]) == b + Concat([]);
    assert Concat([b, c]) == b + Concat([c]);
    assert Concat([c]) == c + Concat([]);
  }

  lemma {:induction false} ConcatLast(parts: seq<string>, last: string)
    ensures Concat(parts + [last]) == Concat(parts) + last
  {
    if parts == [] {
      assert parts + [last] == [last];
    } else {
      assert (parts + [last])[1..] == parts[1..] + [last];
      ConcatLast(parts[1..], last);
    }
  }
}
