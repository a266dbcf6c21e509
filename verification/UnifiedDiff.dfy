/** The line diff shown for a proposed source edit. */
module UnifiedDiff {

  // ----- Lines of a text -----

  /** split('\n'): never empty. */
  function SplitLines(text: string): (lines: seq<string>)
    ensures |lines| >= 1
  {
    if text == "" then [""]
    else
      var rest := SplitLines(text[1..]);
      if text[0] == '\n' then [""] + rest else [[text[0]] + rest[0]] + rest[1..]
  }

  /** join('\n'). */
  function JoinLines(lines: seq<string>): string {
    if lines == [] then ""
    else if |lines| == 1 then lines[0]
    else lines[0] + "\n" + JoinLines(lines[1..])
  }

  lemma {:induction false} JoinSplit(text: string)
    ensures JoinLines(SplitLines(text)) == text
  {
    if text != "" {
      JoinSplit(text[1..]);
      var rest := SplitLines(text[1..]);
      if text[0] == '\n' {
        assert ([""] + rest)[1..] == rest;
        assert "" + "\n" + text[1..] == text;
      } else {
        JoinFirst(text[0], rest);
        assert [text[0]] + text[1..] == text;
      }
    }
  }

  lemma JoinFirst(c: char, lines: seq<string>)
    requires |lines| >= 1
    ensures JoinLines([[c] + lines[0]] + lines[1..]) == [c] + JoinLines(lines)
  {
    var l := [[c] + lines[0]] + lines[1..];
    assert l[1..] == lines[1..] && l[0] == [c] + lines[0];
    if |lines| > 1 {
      Prepend(c, lines[0], JoinLines(lines[1..]));
      assert JoinLines(l) == l[0] + "\n" + JoinLines(l[1..]);
      assert JoinLines(lines) == lines[0] + "\n" + JoinLines(lines[1..]);
      hide JoinLines;
    }
  }

  lemma Prepend(c: char, x: string, y: string)
    ensures [c] + x + "\n" + y == [c] + (x + "\n" + y)
  {
  }

  ghost predicate SingleLine(line: string) {
    '\n' !in line
  }

  lemma {:induction false} SplitSingle(line: string)
    requires SingleLine(line)
    ensures SplitLines(line) == [line]
  {
    if line != "" {
      SplitSingle(line[1..]);
      assert [line[0]] + line[1..] == line;
    }
  }

  lemma {:induction false} SplitAppend(line: string, text: string)
    requires SingleLine(line)
    ensures SplitLines(line + "\n" + text) == [line] + SplitLines(text)
  {
    var whole := line + "\n" + text;
    if line == "" {
      assert whole[1..] == text;
    } else {
      assert whole[1..] == line[1..] + "\n" + text;
      SplitAppend(line[1..], text);
      assert [line[0]] + line[1..] == line;
    }
  }

  lemma {:induction false} SplitJoin(lines: seq<string>)
    requires lines != [] && forall i :: 0 <= i < |lines| ==> SingleLine(lines[i])
    ensures SplitLines(JoinLines(lines)) == lines
  {
    if |lines| == 1 {
      SplitSingle(lines[0]);
    } else {
      SplitJoin(lines[1..]);
      SplitAppend(lines[0], JoinLines(lines[1..]));
    }
  }

  lemma {:induction false} SplitGivesSingleLines(text: string)
    ensures forall i :: 0 <= i < |SplitLines(text)| ==> SingleLine(SplitLines(text)[i])
  {
    if text != "" {
      SplitGivesSingleLines(text[1..]);
    }
  }

  // ----- Diffs -----

  datatype Mark = Same | Del | Add

  datatype DiffLine = DiffLine(mark: Mark, text: string)

  /** The lines of the old text: what is the same and what was deleted. */
  function OldSide(d: seq<DiffLine>): seq<string> {
    if d == [] then [] else (if d[0].mark == Add then [] else [d[0].text]) + OldSide(d[1..])
  }

  function NewSide(d: seq<DiffLine>): seq<string> {
    if d == [] then [] else (if d[0].mark == Del then [] else [d[0].text]) + NewSide(d[1..])
  }

  function Sign(m: Mark): char {
    match m
    case Same => ' '
    case Del => '-'
    case Add => '+'
  }

  function Rendered(d: seq<DiffLine>): (lines: seq<string>)
    ensures |lines| == |d|
    ensures forall k :: 0 <= k < |d| ==> lines[k] == [Sign(d[k].mark)] + d[k].text
  {
    seq(|d|, k requires 0 <= k < |d| => [Sign(d[k].mark)] + d[k].text)
  }

  const HEADER := ["--- original", "+++ proposed"]

  ghost predicate NothingChanged(d: seq<DiffLine>) {
    forall k :: 0 <= k < |d| ==> d[k].mark == Same
  }

  lemma {:induction false} OldConcat(x: seq<DiffLine>, y: seq<DiffLine>)
    ensures OldSide(x + y) == OldSide(x) + OldSide(y)
  {
    if x == [] {
      assert x + y == y;
    } else {
      assert (x + y)[0] == x[0] && (x + y)[1..] == x[1..] + y;
      OldConcat(x[1..], y);
    }
  }

  lemma {:induction false} NewConcat(x: seq<DiffLine>, y: seq<DiffLine>)
    ensures NewSide(x + y) == NewSide(x) + NewSide(y)
  {
    if x == [] {
      assert x + y == y;
    } else {
      assert (x + y)[0] == x[0] && (x + y)[1..] == x[1..] + y;
      NewConcat(x[1..], y);
    }
  }

  lemma SidesOfOne(x: DiffLine)
    ensures OldSide([x]) == (if x.mark == Add then [] else [x.text])
    ensures NewSide([x]) == (if x.mark == Del then [] else [x.text])
  {
    assert [x][1..] == [];
  }

  lemma {:induction false} UnchangedSides(d: seq<DiffLine>)
    requires NothingChanged(d)
    ensures OldSide(d) == NewSide(d)
  {
    if d != [] {
      UnchangedSides(d[1..]);
    }
  }

  lemma {:induction false} SidesAreTexts(d: seq<DiffLine>)
    ensures forall k :: 0 <= k < |d| ==> d[k].text in OldSide(d) || d[k].text in NewSide(d)
    ensures forall k :: 0 <= k < |d| && d[k].mark == Same ==> d[k].text in OldSide(d) && d[k].text in NewSide(d)
  {
    if d != [] {
      SidesAreTexts(d[1..]);
      assert forall k :: 0 < k < |d| ==> d[k] == d[1..][k - 1];
    }
  }

  // ----- The printed diff is enough -----

  function MarkOf(c: char): Mark {
    if c == '-' then Del else if c == '+' then Add else Same
  }

  function ReadLine(line: string): DiffLine {
    if line == "" then DiffLine(Same, "") else DiffLine(MarkOf(line[0]), line[1..])
  }

  /** Reads a printed diff back: the lines after the header. */
  function Decoded(diffText: string): seq<DiffLine> {
    var lines := SplitLines(diffText);
    seq(if |lines| < 2 then 0 else |lines| - 2, k requires 0 <= k && k + 2 < |lines| => ReadLine(lines[k + 2]))
  }

  lemma ReadsBack(x: DiffLine)
    ensures ReadLine([Sign(x.mark)] + x.text) == x
    ensures SingleLine(x.text) ==> SingleLine([Sign(x.mark)] + x.text)
  {
  }

  /** Nothing is lost in print: the diff lines, and with them both texts, can be recovered from the text alone. */
  lemma PrintedDiffDecodes(d: seq<DiffLine>)
    requires forall k :: 0 <= k < |d| ==> SingleLine(d[k].text)
    ensures Decoded(JoinLines(HEADER + Rendered(d))) == d
  {
    var lines := HEADER + Rendered(d);
    forall k | 0 <= k < |d| ensures lines[k + 2] == [Sign(d[k].mark)] + d[k].text {
    }
    hide SplitLines, JoinLines, ReadLine, Rendered;
    forall i | 0 <= i < |lines| ensures SingleLine(lines[i]) {
      if i >= 2 {
        ReadsBack(d[i - 2]);
      }
    }
    SplitJoin(lines);
    forall k | 0 <= k < |d| ensures ReadLine(lines[k + 2]) == d[k] {
      ReadsBack(d[k]);
    }
  }

  // ----- The walk -----

  /** The diff of the old lines from i on and the new lines from j on.  A line is looked up in the whole other text. */
  function DiffFrom(a: seq<string>, b: seq<string>, i: nat, j: nat): seq<DiffLine>
    requires i <= |a| && j <= |b|
    decreases |a| - i + |b| - j
  {
    if i == |a| && j == |b| then []
    else if i < |a| && j < |b| && a[i] == b[j] then [DiffLine(Same, a[i])] + DiffFrom(a, b, i + 1, j + 1)
    else if i < |a| && a[i] !in b then [DiffLine(Del, a[i])] + DiffFrom(a, b, i + 1, j)
    else if j < |b| && b[j] !in a then [DiffLine(Add, b[j])] + DiffFrom(a, b, i, j + 1)
    else if i == |a| then [DiffLine(Add, b[j])] + DiffFrom(a, b, i, j + 1)
    else if j == |b| then [DiffLine(Del, a[i])] + DiffFrom(a, b, i + 1, j)
    else [DiffLine(Del, a[i]), DiffLine(Add, b[j])] + DiffFrom(a, b, i + 1, j + 1)
  }

  function Diff(oldText: string, newText: string): seq<DiffLine> {
    DiffFrom(SplitLines(oldText), SplitLines(newText), 0, 0)
  }

  /** The two-index walk. */
  method ComputeUnifiedDiff(oldText: string, newText: string) returns (diffText: string, diffLines: seq<DiffLine>)
    ensures diffLines == Diff(oldText, newText)
    ensures diffText == JoinLines(HEADER + Rendered(diffLines))
    ensures JoinLines(OldSide(diffLines)) == oldText && JoinLines(NewSide(diffLines)) == newText
    ensures Decoded(diffText) == diffLines
    ensures NothingChanged(diffLines) <==> oldText == newText
  {
    hide OldSide, NewSide, SplitLines, Rendered, JoinLines, Decoded, NothingChanged, HEADER, DiffFrom;
    var oldLines, newLines := SplitLines(oldText), SplitLines(newText);
    diffLines := [];
    var output := HEADER;
    var i, j := 0, 0;
    NothingPrinted();
    while i < |oldLines| || j < |newLines|
      invariant i <= |oldLines| && j <= |newLines|
      invariant diffLines + DiffFrom(oldLines, newLines, i, j) == Diff(oldText, newText)
      invariant output == HEADER + Rendered(diffLines)
      decreases |oldLines| - i + |newLines| - j
    {
      WalkOn(oldLines, newLines, i, j, diffLines);
      if i < |oldLines| && j < |newLines| && oldLines[i] == newLines[j] {
        PrintOne(diffLines, DiffLine(Same, oldLines[i]), output);
        diffLines := diffLines + [DiffLine(Same, oldLines[i])];
        output := output + [" " + oldLines[i]];
        i, j := i + 1, j + 1;
      } else if i < |oldLines| && oldLines[i] !in newLines {
        PrintOne(diffLines, DiffLine(Del, oldLines[i]), output);
        diffLines := diffLines + [DiffLine(Del, oldLines[i])];
        output := output + ["-" + oldLines[i]];
        i := i + 1;
      } else if j < |newLines| && newLines[j] !in oldLines {
        PrintOne(diffLines, DiffLine(Add, newLines[j]), output);
        diffLines := diffLines + [DiffLine(Add, newLines[j])];
        output := output + ["+" + newLines[j]];
        j := j + 1;
      } else {
        if i < |oldLines| {
          PrintOne(diffLines, DiffLine(Del, oldLines[i]), output);
          diffLines := diffLines + [DiffLine(Del, oldLines[i])];
          output := output + ["-" + oldLines[i]];
          i := i + 1;
        }
        if j < |newLines| {
          PrintOne(diffLines, DiffLine(Add, newLines[j]), output);
          diffLines := diffLines + [DiffLine(Add, newLines[j])];
          output := output + ["+" + newLines[j]];
          j := j + 1;
        }
      }
    }
    DiffEnds(oldLines, newLines, diffLines);
    DiffIsFaithful(oldText, newText);
    diffText := JoinLines(output);
  }

  lemma NothingPrinted()
    ensures HEADER + Rendered([]) == HEADER
  {
  }

  lemma PrintOne(d: seq<DiffLine>, x: DiffLine, output: seq<string>)
    requires output == HEADER + Rendered(d)
    ensures output + [[Sign(x.mark)] + x.text] == HEADER + Rendered(d + [x])
  {
  }

  lemma DiffEnds(a: seq<string>, b: seq<string>, d: seq<DiffLine>)
    ensures d + DiffFrom(a, b, |a|, |b|) == d
  {
  }

  /** What one turn of the walk adds. */
  lemma WalkOn(a: seq<string>, b: seq<string>, i: nat, j: nat, d: seq<DiffLine>)
    requires i <= |a| && j <= |b| && (i < |a| || j < |b|)
    ensures d + DiffFrom(a, b, i, j) ==
      if i < |a| && j < |b| && a[i] == b[j] then d + [DiffLine(Same, a[i])] + DiffFrom(a, b, i + 1, j + 1)
      else if i < |a| && a[i] !in b then d + [DiffLine(Del, a[i])] + DiffFrom(a, b, i + 1, j)
      else if j < |b| && b[j] !in a then d + [DiffLine(Add, b[j])] + DiffFrom(a, b, i, j + 1)
      else if i == |a| then d + [DiffLine(Add, b[j])] + DiffFrom(a, b, i, j + 1)
      else if j == |b| then d + [DiffLine(Del, a[i])] + DiffFrom(a, b, i + 1, j)
      else d + [DiffLine(Del, a[i])] + [DiffLine(Add, b[j])] + DiffFrom(a, b, i + 1, j + 1)
  {
  }

  // ----- The diff is faithful -----

  /** One turn and the two lines or the one that it takes. */
  lemma Turn(a: seq<string>, b: seq<string>, i: nat, j: nat) returns (head: seq<DiffLine>, i': nat, j': nat)
    requires i <= |a| && j <= |b| && (i < |a| || j < |b|)
    ensures i <= i' <= |a| && j <= j' <= |b| && i + j < i' + j'
    ensures DiffFrom(a, b, i, j) == head + DiffFrom(a, b, i', j')
    ensures OldSide(head) == a[i..i'] && NewSide(head) == b[j..j']
  {
    hide *;
    NextLine(a, i);
    NextLine(b, j);
    if i < |a| && j < |b| && a[i] == b[j] {
      TurnSame(a, b, i, j);
      head, i', j' := [DiffLine(Same, a[i])], i + 1, j + 1;
      SidesOfOne(head[0]);
    } else if i < |a| && (a[i] !in b || j == |b|) {
      TurnDel(a, b, i, j);
      head, i', j' := [DiffLine(Del, a[i])], i + 1, j;
      SidesOfOne(head[0]);
    } else if j < |b| && (b[j] !in a || i == |a|) {
      TurnAdd(a, b, i, j);
      head, i', j' := [DiffLine(Add, b[j])], i, j + 1;
      SidesOfOne(head[0]);
    } else {
      TurnBoth(a, b, i, j);
      head, i', j' := [DiffLine(Del, a[i])] + [DiffLine(Add, b[j])], i + 1, j + 1;
      SidesOfOne(DiffLine(Del, a[i]));
      SidesOfOne(DiffLine(Add, b[j]));
      OldConcat([DiffLine(Del, a[i])], [DiffLine(Add, b[j])]);
      NewConcat([DiffLine(Del, a[i])], [DiffLine(Add, b[j])]);
    }
  }

  lemma NextLine(lines: seq<string>, i: nat)
    requires i <= |lines|
    ensures lines[i..i] == []
    ensures i < |lines| ==> lines[i..i + 1] == [lines[i]]
    ensures forall line: string :: [line] + [] == [line] == [] + [line]
  {
  }

  lemma TurnSame(a: seq<string>, b: seq<string>, i: nat, j: nat)
    requires i < |a| && j < |b| && a[i] == b[j]
    ensures DiffFrom(a, b, i, j) == [DiffLine(Same, a[i])] + DiffFrom(a, b, i + 1, j + 1)
  {
  }

  lemma TurnDel(a: seq<string>, b: seq<string>, i: nat, j: nat)
    requires i < |a| && j <= |b| && (a[i] !in b || j == |b|) && !(j < |b| && a[i] == b[j])
    ensures DiffFrom(a, b, i, j) == [DiffLine(Del, a[i])] + DiffFrom(a, b, i + 1, j)
  {
  }

  lemma TurnAdd(a: seq<string>, b: seq<string>, i: nat, j: nat)
    requires i <= |a| && j < |b| && (b[j] !in a || i == |a|) && !(i < |a| && (a[i] == b[j] || a[i] !in b))
    ensures DiffFrom(a, b, i, j) == [DiffLine(Add, b[j])] + DiffFrom(a, b, i, j + 1)
  {
  }

  lemma TurnBoth(a: seq<string>, b: seq<string>, i: nat, j: nat)
    requires i < |a| && j < |b| && a[i] != b[j] && a[i] in b && b[j] in a
    ensures DiffFrom(a, b, i, j) == [DiffLine(Del, a[i])] + [DiffLine(Add, b[j])] + DiffFrom(a, b, i + 1, j + 1)
  {
  }

  lemma {:induction false} DiffSides(a: seq<string>, b: seq<string>, i: nat, j: nat)
    requires i <= |a| && j <= |b|
    ensures OldSide(DiffFrom(a, b, i, j)) == a[i..] && NewSide(DiffFrom(a, b, i, j)) == b[j..]
    decreases |a| - i + |b| - j
  {
    if i < |a| || j < |b| {
      var head, i', j' := Turn(a, b, i, j);
      DiffSides(a, b, i', j');
      OldConcat(head, DiffFrom(a, b, i', j'));
      NewConcat(head, DiffFrom(a, b, i', j'));
      hide DiffFrom, OldSide, NewSide;
      assert a[i..i'] + a[i'..] == a[i..] && b[j..j'] + b[j'..] == b[j..];
    }
  }

  lemma {:induction false} EqualLinesStay(a: seq<string>, i: nat)
    requires i <= |a|
    ensures NothingChanged(DiffFrom(a, a, i, i))
    decreases |a| - i
  {
    if i < |a| {
      EqualLinesStay(a, i + 1);
    }
  }

  /** Both texts can be read off the diff, also off its printed form, and a diff without changes means equal texts. */
  lemma DiffIsFaithful(oldText: string, newText: string)
    ensures var d := Diff(oldText, newText);
      && JoinLines(OldSide(d)) == oldText && JoinLines(NewSide(d)) == newText
      && Decoded(JoinLines(HEADER + Rendered(d))) == d
      && (NothingChanged(d) <==> oldText == newText)
  {
    hide OldSide, NewSide, SplitLines, Rendered, SingleLine, JoinLines, Decoded, DiffFrom, NothingChanged;
    var a, b, d := SplitLines(oldText), SplitLines(newText), Diff(oldText, newText);
    DiffSides(a, b, 0, 0);
    assert a[0..] == a && b[0..] == b;
    JoinSplit(oldText);
    JoinSplit(newText);
    if NothingChanged(d) {
      UnchangedSides(d);
    }
    EqualLinesStay(a, 0);
    SplitGivesSingleLines(oldText);
    SplitGivesSingleLines(newText);
    SidesAreTexts(d);
    PrintedDiffDecodes(d);
  }

  // ----- What the walk keeps -----

  /** The lines that occur in the other text too, in order. */
  function Common(lines: seq<string>, other: seq<string>): seq<string> {
    if lines == [] then []
    else (if lines[0] in other then [lines[0]] else []) + Common(lines[1..], other)
  }

  function Kept(d: seq<DiffLine>): seq<string> {
    if d == [] then [] else (if d[0].mark == Same then [d[0].text] else []) + Kept(d[1..])
  }

  /** Only lines without a counterpart are deleted or added. */
  ghost predicate OnlyForeign(d: seq<DiffLine>, a: seq<string>, b: seq<string>) {
    forall k :: 0 <= k < |d| ==> (d[k].mark == Del ==> d[k].text !in b) && (d[k].mark == Add ==> d[k].text !in a)
  }

  /** What any diff keeps are common lines, so none keeps more than there are. */
  lemma {:induction false} KeptIsCommon(d: seq<DiffLine>, a: seq<string>, b: seq<string>)
    requires forall k :: 0 <= k < |d| && d[k].mark == Same ==> d[k].text in a && d[k].text in b
    ensures |Kept(d)| <= |Common(OldSide(d), b)| && |Kept(d)| <= |Common(NewSide(d), a)|
    ensures OnlyForeign(d, a, b) ==> Kept(d) == Common(OldSide(d), b) == Common(NewSide(d), a)
  {
    if d != [] {
      var rest := d[1..];
      assert forall k :: 0 <= k < |rest| ==> rest[k] == d[k + 1];
      KeptIsCommon(rest, a, b);
      CommonFirst(if d[0].mark == Add then [] else [d[0].text], OldSide(rest), b);
      CommonFirst(if d[0].mark == Del then [] else [d[0].text], NewSide(rest), a);
      assert OnlyForeign(d, a, b) ==> OnlyForeign(rest, a, b);
    }
  }

  lemma CommonFirst(x: seq<string>, rest: seq<string>, other: seq<string>)
    requires |x| <= 1
    ensures Common(x + rest, other) == (if x != [] && x[0] in other then x else []) + Common(rest, other)
  {
    if x == [] {
      assert x + rest == rest;
    } else {
      assert (x + rest)[1..] == rest;
    }
  }

  lemma {:induction false} SameOrderWalk(a: seq<string>, b: seq<string>, i: nat, j: nat)
    requires i <= |a| && j <= |b| && Common(a[i..], b) == Common(b[j..], a)
    ensures OnlyForeign(DiffFrom(a, b, i, j), a, b)
    decreases |a| - i + |b| - j
  {
    hide DiffFrom, Common, OnlyForeign;
    CommonStep(a, b, i, j);
    NoneForeign(a, b);
    if i == |a| && j == |b| {
      DiffEnds(a, b, []);
      assert [] + DiffFrom(a, b, i, j) == DiffFrom(a, b, i, j);
    } else {
      WalkOn(a, b, i, j, []);
      assert [] + DiffFrom(a, b, i, j) == DiffFrom(a, b, i, j);
      if i < |a| && j < |b| && a[i] == b[j] {
        SameOrderWalk(a, b, i + 1, j + 1);
        OneForeign(DiffLine(Same, a[i]), DiffFrom(a, b, i + 1, j + 1), a, b);
      } else if i < |a| && a[i] !in b {
        SameOrderWalk(a, b, i + 1, j);
        OneForeign(DiffLine(Del, a[i]), DiffFrom(a, b, i + 1, j), a, b);
      } else if j < |b| && b[j] !in a {
        SameOrderWalk(a, b, i, j + 1);
        OneForeign(DiffLine(Add, b[j]), DiffFrom(a, b, i, j + 1), a, b);
      }
    }
  }

  lemma NextCommon(lines: seq<string>, i: nat, other: seq<string>)
    requires i <= |lines|
    ensures i == |lines| ==> Common(lines[i..], other) == []
    ensures i < |lines| && lines[i] in other ==> Common(lines[i..], other) == [lines[i]] + Common(lines[i + 1..], other)
    ensures i < |lines| && lines[i] !in other ==> Common(lines[i..], other) == Common(lines[i + 1..], other)
    ensures i < |lines| ==> lines[i] in lines
  {
    if i < |lines| {
      assert lines[i..][1..] == lines[i + 1..];
    }
  }

  /** Where the common lines from here on agree, the first one of each side is foreign or both are the same. */
  lemma CommonStep(a: seq<string>, b: seq<string>, i: nat, j: nat)
    requires i <= |a| && j <= |b| && Common(a[i..], b) == Common(b[j..], a)
    ensures i < |a| && j < |b| && a[i] == b[j] ==> Common(a[i + 1..], b) == Common(b[j + 1..], a)
    ensures i < |a| && a[i] !in b ==> Common(a[i + 1..], b) == Common(b[j..], a)
    ensures j < |b| && b[j] !in a ==> Common(a[i..], b) == Common(b[j + 1..], a)
    ensures i < |a| && a[i] in b ==> j < |b| && (a[i] == b[j] || b[j] !in a)
    ensures i == |a| && j < |b| ==> b[j] !in a
  {
    hide Common;
    NextCommon(a, i, b);
    NextCommon(b, j, a);
    var p, q := Common(a[i..], b), Common(b[j..], a);
    if i < |a| && j < |b| && a[i] in b && b[j] in a {
      assert p[0] == a[i] && q[0] == b[j];
      assert p[1..] == Common(a[i + 1..], b) && q[1..] == Common(b[j + 1..], a);
    }
  }

  lemma NoneForeign(a: seq<string>, b: seq<string>)
    ensures OnlyForeign([], a, b)
  {
  }

  lemma OneForeign(x: DiffLine, d: seq<DiffLine>, a: seq<string>, b: seq<string>)
    requires OnlyForeign(d, a, b) && (x.mark == Del ==> x.text !in b) && (x.mark == Add ==> x.text !in a)
    ensures OnlyForeign([] + [x] + d, a, b)
  {
    assert forall k :: 0 < k < |[] + [x] + d| ==> ([] + [x] + d)[k] == d[k - 1];
  }

  /** The walk deletes and adds only lines without a counterpart exactly when the lines the two texts have in common
      come in the same order in both; then it keeps all of these, and no diff of the two texts keeps more. */
  lemma SmallestDiffIff(a: seq<string>, b: seq<string>, other: seq<DiffLine>)
    requires OldSide(other) == a && NewSide(other) == b
    ensures var d := DiffFrom(a, b, 0, 0);
      && (OnlyForeign(d, a, b) <==> Common(a, b) == Common(b, a))
      && (OnlyForeign(d, a, b) ==> Kept(d) == Common(a, b) && |Kept(other)| <= |Kept(d)|)
  {
    hide OldSide, NewSide, DiffFrom, Common, Kept, OnlyForeign;
    var d := DiffFrom(a, b, 0, 0);
    DiffSides(a, b, 0, 0);
    assert a[0..] == a && b[0..] == b;
    SidesAreTexts(d);
    SidesAreTexts(other);
    KeptIsCommon(d, a, b);
    KeptIsCommon(other, a, b);
    if Common(a, b) == Common(b, a) {
      SameOrderWalk(a, b, 0, 0);
    }
  }

  /** Two lines that change places: nothing is kept, though a diff could keep one of them. */
  lemma SwapKeepsNothing(x: string, y: string)
    requires x != y
    ensures DiffFrom([x, y], [y, x], 0, 0) ==
      [DiffLine(Del, x), DiffLine(Add, y), DiffLine(Del, y), DiffLine(Add, x)]
  {
    var a, b := [x, y], [y, x];
    assert DiffFrom(a, b, 2, 2) == [];
    assert DiffFrom(a, b, 1, 1) == [DiffLine(Del, y), DiffLine(Add, x)] + DiffFrom(a, b, 2, 2);
  }

  function Unchanged(lines: seq<string>): seq<DiffLine> {
    if lines == [] then [] else [DiffLine(Same, lines[0])] + Unchanged(lines[1..])
  }

  /** What the two texts begin with in common is kept. */
  lemma {:induction false} CommonStartStays(a: seq<string>, b: seq<string>, i: nat, n: nat)
    requires i <= n <= |a| && n <= |b| && a[..n] == b[..n]
    ensures DiffFrom(a, b, i, i) == Unchanged(a[i..n]) + DiffFrom(a, b, n, n)
    decreases n - i
  {
    hide *;
    if i == n {
      NothingUnchanged(a, n, DiffFrom(a, b, n, n));
    } else {
      AtCommonStart(a, b, i, n);
      CommonStartStays(a, b, i + 1, n);
      TurnSame(a, b, i, i);
      OneUnchanged(a, i, n, DiffFrom(a, b, n, n));
    }
  }

  lemma AtCommonStart(a: seq<string>, b: seq<string>, i: nat, n: nat)
    requires i < n <= |a| && n <= |b| && a[..n] == b[..n]
    ensures a[i] == b[i]
  {
    assert a[i] == a[..n][i] && b[i] == b[..n][i];
  }

  lemma NothingUnchanged(a: seq<string>, n: nat, d: seq<DiffLine>)
    requires n <= |a|
    ensures Unchanged(a[n..n]) + d == d
  {
  }

  lemma OneUnchanged(a: seq<string>, i: nat, n: nat, d: seq<DiffLine>)
    requires i < n <= |a|
    ensures [DiffLine(Same, a[i])] + (Unchanged(a[i + 1..n]) + d) == Unchanged(a[i..n]) + d
  {
    assert a[i..n][0] == a[i] && a[i..n][1..] == a[i + 1..n];
    UnchangedFirst(a[i..n]);
    hide Unchanged;
  }

  lemma UnchangedFirst(lines: seq<string>)
    requires lines != []
    ensures Unchanged(lines) == [DiffLine(Same, lines[0])] + Unchanged(lines[1..])
  {
  }

  /** Deletions come first: where a line without a counterpart has been added, no such line is deleted next. */
  lemma {:induction false} DeletionsFirst(a: seq<string>, b: seq<string>, i: nat, j: nat, k: nat)
    requires i <= |a| && j <= |b|
    ensures var d := DiffFrom(a, b, i, j);
      k + 1 < |d| && d[k].mark == Add && d[k].text !in a && d[k + 1].mark == Del ==> d[k + 1].text in b
    decreases |a| - i + |b| - j
  {
    var d := DiffFrom(a, b, i, j);
    if i < |a| && j < |b| && a[i] == b[j] {
      if k > 0 { DeletionsFirst(a, b, i + 1, j + 1, k - 1); }
    } else if i < |a| && a[i] !in b {
      if k > 0 { DeletionsFirst(a, b, i + 1, j, k - 1); }
    } else if j < |b| && (b[j] !in a || i == |a|) {
      if k > 0 { DeletionsFirst(a, b, i, j + 1, k - 1); }
    } else if i < |a| && j == |b| {
      if k > 0 { DeletionsFirst(a, b, i + 1, j, k - 1); }
    } else if i < |a| {
      if k > 1 { DeletionsFirst(a, b, i + 1, j + 1, k - 2); }
    }
  }
}
