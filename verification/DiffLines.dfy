/** The line diff of two prompt versions, by longest common subsequence. */
module DiffLines {

  // ----- lines

  /** The pieces between line breaks; an empty text is one empty line. */
  function Split(text: string): (lines: seq<string>)
    ensures lines != []
  {
    if text == "" then [""]
    else
      var rest := Split(text[1..]);
      if text[0] == '\n' then [""] + rest else [[text[0]] + rest[0]] + rest[1..]
  }

  function Join(lines: seq<string>): string
    requires lines != []
  {
    if |lines| == 1 then lines[0] else lines[0] + "\n" + Join(lines[1..])
  }

  lemma {:induction false} SplitJoins(text: string)
    ensures Join(Split(text)) == text
    decreases |text|
  {
    if text != "" {
      var rest := Split(text[1..]);
      SplitJoins(text[1..]);
      if text[0] == '\n' {
        assert ([""] + rest)[1..] == rest;
        assert Join([""] + rest) == "" + "\n" + Join(rest);
      } else {
        var lines := [[text[0]] + rest[0]] + rest[1..];
        assert lines[1..] == rest[1..];
        assert Join(lines) == [text[0]] + Join(rest);
      }
      assert text == [text[0]] + text[1..];
    }
  }

  predicate NoBreak(line: string) {
    '\n' !in line
  }

  function Breaks(text: string): nat {
    if text == "" then 0 else (if text[0] == '\n' then 1 else 0) + Breaks(text[1..])
  }

  /** No line holds a line break, and there is one more line than line breaks. */
  lemma {:induction false} SplitBreaks(text: string)
    ensures forall line <- Split(text) :: NoBreak(line)
    ensures |Split(text)| == Breaks(text) + 1
    decreases |text|
  {
    if text != "" {
      var rest := Split(text[1..]);
      SplitBreaks(text[1..]);
      assert forall line <- rest[1..] :: line in rest;
      assert rest[0] in rest;
    }
  }

  /** The lines of a text are the only ones without a line break that join back to it. */
  lemma {:induction false} SplitUnique(lines: seq<string>)
    requires lines != [] && forall line <- lines :: NoBreak(line)
    ensures Split(Join(lines)) == lines
    decreases |lines|, |lines[0]|
  {
    var text := Join(lines);
    if lines[0] != "" {
      var shorter := lines[0 := lines[0][1..]];
      forall line <- shorter ensures NoBreak(line) {
        assert NoBreak(lines[0]) && (line == shorter[0] || line in lines);
      }
      JoinFirst(lines, shorter);
      SplitUnique(shorter);
      assert text[0] == lines[0][0] && NoBreak(lines[0]);
      assert lines[0] == [text[0]] + shorter[0];
      assert lines == [lines[0]] + shorter[1..];
    } else if |lines| > 1 {
      assert forall line <- lines[1..] :: line in lines;
      SplitUnique(lines[1..]);
      assert text == "\n" + Join(lines[1..]) && text[1..] == Join(lines[1..]);
      assert lines == [""] + lines[1..];
    }
  }

  lemma JoinFirst(lines: seq<string>, shorter: seq<string>)
    requires lines != [] && lines[0] != "" && shorter == lines[0 := lines[0][1..]]
    ensures Join(lines) == [lines[0][0]] + Join(shorter) && Join(lines)[1..] == Join(shorter)
  {
    assert lines[0] == [lines[0][0]] + lines[0][1..];
    assert shorter[1..] == lines[1..];
    if |lines| > 1 {
      var rest := "\n" + Join(lines[1..]);
      assert Join(lines) == lines[0] + rest && Join(shorter) == shorter[0] + rest;
    }
  }

  // ----- common lines

  /** The most lines that can be kept from line i of the old text and line j of the new one on. */
  function Longest(x: seq<string>, y: seq<string>, i: nat, j: nat): nat
    requires i <= |x| && j <= |y|
    decreases |x| - i + |y| - j
  {
    if i == |x| || j == |y| then 0
    else if x[i] == y[j] then Longest(x, y, i + 1, j + 1) + 1
    else Max(Longest(x, y, i + 1, j), Longest(x, y, i, j + 1))
  }

  function Max(a: nat, b: nat): nat {
    if a >= b then a else b
  }

  /** Equal lines of the two texts, paired in order: a common subsequence by position. */
  predicate Matching(x: seq<string>, y: seq<string>, ix: seq<nat>, jx: seq<nat>, i: nat, j: nat) {
    && |ix| == |jx|
    && (forall k :: 0 <= k < |ix| ==> i <= ix[k] < |x| && j <= jx[k] < |y| && x[ix[k]] == y[jx[k]])
    && (forall k, l :: 0 <= k < l < |ix| ==> ix[k] < ix[l] && jx[k] < jx[l])
  }

  /** No common subsequence is longer. */
  lemma {:induction false} NoneLonger(x: seq<string>, y: seq<string>, ix: seq<nat>, jx: seq<nat>, i: nat, j: nat)
    requires i <= |x| && j <= |y| && Matching(x, y, ix, jx, i, j)
    ensures |ix| <= Longest(x, y, i, j)
    decreases |x| - i + |y| - j
  {
    if ix != [] {
      assert i <= ix[0] < |x| && j <= jx[0] < |y|;
      if x[i] == y[j] {
        NoneLonger(x, y, ix[1..], jx[1..], i + 1, j + 1);
      } else if ix[0] > i {
        NoneLonger(x, y, ix, jx, i + 1, j);
      } else {
        assert jx[0] > j;
        NoneLonger(x, y, ix, jx, i, j + 1);
      }
    }
  }

  // ----- edits

  datatype Tag = Keep | Add | Drop

  datatype Edit = Edit(tag: Tag, line: string)

  function Lines(out: seq<Edit>, without: Tag): seq<string> {
    if out == [] then []
    else
      var e := out[|out| - 1];
      Lines(out[..|out| - 1], without) + (if e.tag == without then [] else [e.line])
  }

  function Kept(out: seq<Edit>): nat {
    if out == [] then 0 else Kept(out[..|out| - 1]) + (if out[|out| - 1].tag.Keep? then 1 else 0)
  }

  lemma OneEdit(out: seq<Edit>, e: Edit)
    ensures Lines(out + [e], Add) == Lines(out, Add) + (if e.tag.Add? then [] else [e.line])
    ensures Lines(out + [e], Drop) == Lines(out, Drop) + (if e.tag.Drop? then [] else [e.line])
    ensures Kept(out + [e]) == Kept(out) + (if e.tag.Keep? then 1 else 0)
  {
    assert (out + [e])[..|out|] == out;
  }

  /** Every edit's line is a line of the old or of the new text. */
  lemma {:induction false} EditLines(out: seq<Edit>, k: nat)
    requires k < |out|
    ensures out[k].line in Lines(out, Add) || out[k].line in Lines(out, Drop)
    decreases |out|
  {
    var e := out[|out| - 1];
    OneEdit(out[..|out| - 1], e);
    assert out == out[..|out| - 1] + [e];
    hide Lines;
    if k < |out| - 1 {
      EditLines(out[..|out| - 1], k);
    }
  }

  lemma EditsHaveNoBreak(out: seq<Edit>, a: string, b: string)
    requires Lines(out, Add) == Split(a) && Lines(out, Drop) == Split(b)
    ensures forall k :: 0 <= k < |out| ==> NoBreak(out[k].line)
  {
    hide Lines, NoBreak;
    SplitBreaks(a);
    SplitBreaks(b);
    forall k | 0 <= k < |out| ensures NoBreak(out[k].line) {
      EditLines(out, k);
    }
  }

  /** Rows from i on hold the longest common lengths; of row i - 1, columns from j on. */
  ghost predicate Filled(x: seq<string>, y: seq<string>, table: array2<nat>, i: nat, j: nat)
    reads table
  {
    && table.Length0 == |x| + 1 && table.Length1 == |y| + 1
    && forall k, l :: 0 <= k <= |x| && 0 <= l <= |y| && (k >= i || (k == i - 1 && l >= j)) ==>
         table[k, l] == Longest(x, y, k, l)
  }

  /** The table of longest common lengths, filled from the end. */
  method Table(x: seq<string>, y: seq<string>) returns (table: array2<nat>)
    ensures fresh(table) && Filled(x, y, table, 0, 0)
  {
    table := new nat[|x| + 1, |y| + 1]((_, _) => 0);
    for i := |x| downto 0
      invariant Filled(x, y, table, i, |y| + 1)
      invariant i > 0 ==> forall k :: 0 <= k < i ==> table[k, |y|] == 0
    {
      for j := |y| downto 0
        invariant Filled(x, y, table, i + 1, j)
        invariant forall k :: 0 <= k < i ==> table[k, |y|] == 0
      {
        table[i, j] := if x[i] == y[j] then table[i + 1, j + 1] + 1 else Max(table[i + 1, j], table[i, j + 1]);
      }
    }
  }

  /** Where lines are replaced, the dropped ones come before the added ones. */
  predicate DropsFirst(out: seq<Edit>) {
    forall k :: 0 <= k < |out| - 1 ==> !(out[k].tag.Add? && out[k + 1].tag.Drop?)
  }

  /** After an added line, dropping the next old one would give up a common line. */
  predicate MayDrop(x: seq<string>, y: seq<string>, i: nat, j: nat, out: seq<Edit>)
    requires i <= |x| && j <= |y|
  {
    out != [] && out[|out| - 1].tag.Add? && i < |x| ==> Longest(x, y, i, j) > Longest(x, y, i + 1, j)
  }

  /** How far the diff has come: i lines of the old text and j of the new one are done. */
  ghost predicate Progress(x: seq<string>, y: seq<string>, i: nat, j: nat, out: seq<Edit>) {
    && i <= |x| && j <= |y|
    && Lines(out, Add) == x[..i] && Lines(out, Drop) == y[..j]
    && Kept(out) + Longest(x, y, i, j) == Longest(x, y, 0, 0)
  }

  /** An edit that gives up no common line. */
  predicate Best(x: seq<string>, y: seq<string>, i: nat, j: nat, e: Edit)
    requires i <= |x| && j <= |y|
  {
    match e.tag
    case Keep => i < |x| && j < |y| && x[i] == y[j] == e.line
    case Drop =>
      && i < |x| && e.line == x[i]
      && (j < |y| ==> x[i] != y[j] && Longest(x, y, i + 1, j) >= Longest(x, y, i, j + 1))
    case Add =>
      && j < |y| && e.line == y[j]
      && (i < |x| ==> x[i] != y[j] && Longest(x, y, i + 1, j) <= Longest(x, y, i, j + 1))
  }

  lemma Advance(x: seq<string>, y: seq<string>, i: nat, j: nat, out: seq<Edit>, e: Edit)
    requires Progress(x, y, i, j, out)
    requires Best(x, y, i, j, e)
    ensures Progress(x, y, if e.tag.Add? then i else i + 1, if e.tag.Drop? then j else j + 1, out + [e])
  {
    OneEdit(out, e);
    hide Lines, Kept;
    if i < |x| {
      assert x[..i + 1] == x[..i] + [x[i]];
    }
    if j < |y| {
      assert y[..j + 1] == y[..j] + [y[j]];
    }
  }

  /** One line more or less changes the longest common length by at most one. */
  lemma {:induction false} OneLineLess(x: seq<string>, y: seq<string>, i: nat, j: nat)
    requires i < |x| && j < |y|
    ensures Longest(x, y, i, j + 1) <= Longest(x, y, i, j) <= Longest(x, y, i, j + 1) + 1
    ensures Longest(x, y, i + 1, j) <= Longest(x, y, i, j) <= Longest(x, y, i + 1, j) + 1
    decreases |x| - i + |y| - j
  {
    if i + 1 < |x| {
      OneLineLess(x, y, i + 1, j);
    }
    if j + 1 < |y| {
      OneLineLess(x, y, i, j + 1);
    }
  }

  lemma LongestAt(x: seq<string>, y: seq<string>, i: nat, j: nat)
    requires i < |x| && j < |y|
    ensures x[i] != y[j] ==> Longest(x, y, i, j) == Max(Longest(x, y, i + 1, j), Longest(x, y, i, j + 1))
    ensures Longest(x, y, i + 1, j + 1) <= Longest(x, y, i + 1, j)
  {
    if i + 1 < |x| {
      OneLineLess(x, y, i + 1, j);
    }
  }

  lemma FilledAt(x: seq<string>, y: seq<string>, table: array2<nat>, i: nat, j: nat)
    requires Filled(x, y, table, 0, 0) && i < |x| && j < |y|
    ensures table.Length0 == |x| + 1 && table.Length1 == |y| + 1
    ensures table[i + 1, j] == Longest(x, y, i + 1, j) && table[i, j + 1] == Longest(x, y, i, j + 1)
  {
    hide Longest;
  }

  lemma OneMore(out: seq<Edit>, e: Edit)
    requires DropsFirst(out) && (e.tag.Drop? ==> out == [] || !out[|out| - 1].tag.Add?)
    ensures DropsFirst(out + [e])
  {
  }

  /** With the new text at its end, dropping gives up nothing. */
  lemma LastEdit(x: seq<string>, y: seq<string>, i: nat, j: nat, out: seq<Edit>)
    requires i <= |x| && j <= |y| && (i == |x| || j == |y|) && MayDrop(x, y, i, j, out)
    ensures i < |x| && out != [] ==> !out[|out| - 1].tag.Add?
  {
  }

  lemma Finished(x: seq<string>, y: seq<string>, out: seq<Edit>)
    requires Progress(x, y, |x|, |y|, out)
    ensures Lines(out, Add) == x && Lines(out, Drop) == y && Kept(out) == Longest(x, y, 0, 0)
  {
    hide Lines, Kept;
    assert x[..|x|] == x && y[..|y|] == y;
    assert Longest(x, y, |x|, |y|) == 0;
  }

  /** Without its added lines the diff is the old text, without its dropped lines the new one, and it
      keeps as many lines as any common subsequence of the two has. */
  method Diff(a: string, b: string) returns (out: seq<Edit>)
    ensures Lines(out, Add) == Split(a) && Lines(out, Drop) == Split(b)
    ensures Kept(out) == Longest(Split(a), Split(b), 0, 0)
    ensures forall k :: 0 <= k < |out| ==> '\n' !in out[k].line
    ensures DropsFirst(out)
  {
    hide Lines, Kept, Longest, Progress, Filled, Split, DropsFirst;
    var x, y := Split(a), Split(b);
    var table := Table(x, y);
    var i, j;
    out, i, j := Walk(x, y, table);
    LastEdit(x, y, i, j, out);
    while i < |x|
      invariant i <= |x| && j <= |y| && (i < |x| ==> j == |y|) && Progress(x, y, i, j, out)
      invariant DropsFirst(out) && (i < |x| && out != [] ==> !out[|out| - 1].tag.Add?)
    {
      Advance(x, y, i, j, out, Edit(Drop, x[i]));
      OneMore(out, Edit(Drop, x[i]));
      out := out + [Edit(Drop, x[i])];
      i := i + 1;
    }
    while j < |y|
      invariant j <= |y| && i == |x| && Progress(x, y, i, j, out) && DropsFirst(out)
    {
      Advance(x, y, i, j, out, Edit(Add, y[j]));
      OneMore(out, Edit(Add, y[j]));
      out := out + [Edit(Add, y[j])];
      j := j + 1;
    }
    Finished(x, y, out);
    EditsHaveNoBreak(out, a, b);
  }

  /** Follows the table while both texts have lines left. */
  method Walk(x: seq<string>, y: seq<string>, table: array2<nat>) returns (out: seq<Edit>, i: nat, j: nat)
    requires Filled(x, y, table, 0, 0)
    ensures i <= |x| && j <= |y| && (i == |x| || j == |y|) && Progress(x, y, i, j, out)
    ensures DropsFirst(out) && MayDrop(x, y, i, j, out)
  {
    out, i, j := [], 0, 0;
    while i < |x| && j < |y|
      invariant i <= |x| && j <= |y| && Progress(x, y, i, j, out) && DropsFirst(out) && MayDrop(x, y, i, j, out)
      decreases |x| - i + |y| - j
    {
      hide Lines, Kept, Longest, Progress, Filled;
      LongestAt(x, y, i, j);
      assert table[i + 1, j] == Longest(x, y, i + 1, j) && table[i, j + 1] == Longest(x, y, i, j + 1) by {
        FilledAt(x, y, table, i, j);
      }
      if x[i] == y[j] {
        Advance(x, y, i, j, out, Edit(Keep, x[i]));
        out := out + [Edit(Keep, x[i])];
        i, j := i + 1, j + 1;
      } else if table[i + 1, j] >= table[i, j + 1] {
        Advance(x, y, i, j, out, Edit(Drop, x[i]));
        out := out + [Edit(Drop, x[i])];
        i := i + 1;
      } else {
        Advance(x, y, i, j, out, Edit(Add, y[j]));
        out := out + [Edit(Add, y[j])];
        j := j + 1;
      }
    }
  }

  /** Both texts can be read back from any such diff, and no common subsequence beats the lines it keeps. */
  lemma DiffIsExactAndShortest(a: string, b: string, out: seq<Edit>, ix: seq<nat>, jx: seq<nat>)
    requires Lines(out, Add) == Split(a) && Lines(out, Drop) == Split(b)
    requires Kept(out) == Longest(Split(a), Split(b), 0, 0)
    ensures Join(Lines(out, Add)) == a && Join(Lines(out, Drop)) == b
    ensures Matching(Split(a), Split(b), ix, jx, 0, 0) ==> |ix| <= Kept(out)
  {
    SplitJoins(a);
    SplitJoins(b);
    if Matching(Split(a), Split(b), ix, jx, 0, 0) {
      NoneLonger(Split(a), Split(b), ix, jx, 0, 0);
    }
  }
}
