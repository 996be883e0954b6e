/** The header of a plot file: written line by line, parsed line by line, and what is
    read back is what was written. */
module PlotfileHeader {
  import opened Basics
  import opened HeaderText
  import opened MeshBoxes

  // ----------------------------------------------------------------- numbers

  /** Texts of numbers: integers, doubles with 17 digits, doubles in their shortest form,
      and integers printed with 17 digits as doubles are. */
  datatype Codec = Codec(isDouble: real -> bool, showInt: int -> string, readInt: string -> Option<int>,
                         showReal: real -> string, showPlain: real -> string, readReal: string -> Option<real>,
                         showRatio: int -> string)

  /** Integers up to this size print without an exponent when formatted like reals. */
  const EXACT: int := 100000000000000000

  /** The text of a number is a word, and reading it gives the number back, with a line
      break after it or without. */
  ghost predicate IntText(c: Codec, n: int) {
    Word(c.showInt(n)) && c.readInt(c.showInt(n)) == Some(n) && c.readInt(c.showInt(n) + "\n") == Some(n)
  }

  ghost predicate RatioText(c: Codec, n: int) { Word(c.showRatio(n)) && c.readInt(c.showRatio(n)) == Some(n) }

  ghost predicate RealText(c: Codec, x: real) {
    Word(c.showReal(x)) && c.readReal(c.showReal(x)) == Some(x) && c.readReal(c.showReal(x) + "\n") == Some(x)
  }

  ghost predicate PlainRealText(c: Codec, x: real) { Word(c.showPlain(x)) && c.readReal(c.showPlain(x)) == Some(x) }

  /** What number formatting is assumed to do; also, an empty line is not a number. */
  ghost predicate LosslessInts(c: Codec) {
    && (forall n :: IntText(c, n)) && (forall n :: 0 <= n < EXACT ==> RatioText(c, n)) && c.readInt("\n") == None
  }

  ghost predicate LosslessReals(c: Codec) {
    (forall x :: c.isDouble(x) ==> RealText(c, x)) && forall x :: c.isDouble(x) ==> PlainRealText(c, x)
  }

  ghost predicate Lossless(c: Codec) { LosslessInts(c) && LosslessReals(c) }

  function ReadInts(c: Codec, words: seq<string>): Option<seq<int>> {
    if words == [] then Some([])
    else
      var n, rest := c.readInt(words[0]), ReadInts(c, words[1..]);
      if n.Some? && rest.Some? then Some([n.value] + rest.value) else None
  }

  function ReadReals(c: Codec, words: seq<string>): Option<seq<real>> {
    if words == [] then Some([])
    else
      var x, rest := c.readReal(words[0]), ReadReals(c, words[1..]);
      if x.Some? && rest.Some? then Some([x.value] + rest.value) else None
  }

  function Shown<T>(show: T -> string, xs: seq<T>): (r: seq<string>)
    ensures |r| == |xs| && forall i :: 0 <= i < |xs| ==> r[i] == show(xs[i])
  {
    seq(|xs|, i requires 0 <= i < |xs| => show(xs[i]))
  }

  lemma {:induction false} ReadShownInts(c: Codec, words: seq<string>, xs: seq<int>)
    requires |words| == |xs| && forall i :: 0 <= i < |xs| ==> c.readInt(words[i]) == Some(xs[i])
    ensures ReadInts(c, words) == Some(xs)
  {
    if xs != [] {
      ReadShownInts(c, words[1..], xs[1..]);
      assert xs == [xs[0]] + xs[1..];
    }
  }

  lemma {:induction false} ReadShownReals(c: Codec, words: seq<string>, xs: seq<real>)
    requires |words| == |xs| && forall i :: 0 <= i < |xs| ==> c.readReal(words[i]) == Some(xs[i])
    ensures ReadReals(c, words) == Some(xs)
  {
    if xs != [] {
      ReadShownReals(c, words[1..], xs[1..]);
      assert xs == [xs[0]] + xs[1..];
    }
  }

  // ------------------------------------------------------------------ the header

  datatype Level = Level(step: int, grids: seq<Extent>, mfName: string)

  /** What a header says. */
  datatype Header = Header(version: string, names: seq<string>, time: real, probLo: seq<real>, probHi: seq<real>,
                           refRatio: seq<int>, probDomain: seq<Box>, cellSizes: seq<seq<real>>, coordSystem: int,
                           bwidth: int, levels: seq<Level>)

  ghost predicate PlainText(s: string) { OneLine(s) && NoTrailingBlank(s) }

  ghost predicate Doubles(c: Codec, xs: seq<real>) { forall i :: 0 <= i < |xs| ==> c.isDouble(xs[i]) }

  ghost predicate DoubleExtents(c: Codec, grids: seq<Extent>) {
    forall g :: 0 <= g < |grids| ==>
      Doubles(c, [grids[g].lo[0], grids[g].lo[1], grids[g].lo[2], grids[g].hi[0], grids[g].hi[1], grids[g].hi[2]])
  }

  /** All reals of the header are doubles. */
  ghost predicate Representable(c: Codec, h: Header) {
    && c.isDouble(h.time) && Doubles(c, h.probLo) && Doubles(c, h.probHi)
    && (forall lev :: 0 <= lev < |h.cellSizes| ==> Doubles(c, h.cellSizes[lev]))
    && forall lev :: 0 <= lev < |h.levels| ==> DoubleExtents(c, h.levels[lev].grids)
  }

  /** The version is one line, names have no line breaks or trailing blanks, every list
      per level has one entry for each level, and ratios print without an exponent. */
  ghost predicate WellFormed(h: Header) {
    && h.version != "" && h.version[|h.version| - 1] == '\n' && OneLine(h.version[..|h.version| - 1])
    && (forall n :: 0 <= n < |h.names| ==> PlainText(h.names[n]))
    && (forall lev :: 0 <= lev < |h.levels| ==> PlainText(h.levels[lev].mfName))
    && |h.probDomain| == |h.cellSizes| == |h.levels|
    && forall r :: 0 <= r < |h.refRatio| ==> 0 <= h.refRatio[r] < EXACT
  }

  // -------------------------------------------------------------- its lines

  function ListLine(words: seq<string>): string { Joined(words) + " " }

  function Corner(c: Codec, v: IVec): string { c.showInt(v[0]) + "," + c.showInt(v[1]) + "," + c.showInt(v[2]) }

  function Triple(c: Codec, v: IVec): string { Corner(c, v) + ")" }

  const ORIGIN: IVec := [0, 0, 0]

  function BoxText(c: Codec, b: Box, last: bool): string {
    "(" + Triple(c, b.smallEnd) + " (" + Triple(c, b.bigEnd) + " (" + Triple(c, ORIGIN) + ")"
    + if last then "" else " ("
  }

  function BoxesText(c: Codec, boxes: seq<Box>): string {
    if boxes == [] then "" else BoxText(c, boxes[0], |boxes| == 1) + BoxesText(c, boxes[1..])
  }

  function DomainLine(c: Codec, boxes: seq<Box>): string { "(" + BoxesText(c, boxes) + " " }

  function PairLine(c: Codec, lo: real, hi: real): string { Joined([c.showReal(lo), c.showReal(hi)]) }

  function GridLines(c: Codec, grids: seq<Extent>): seq<string> {
    if grids == [] then []
    else
      [PairLine(c, grids[0].lo[0], grids[0].hi[0]), PairLine(c, grids[0].lo[1], grids[0].hi[1]),
       PairLine(c, grids[0].lo[2], grids[0].hi[2])] + GridLines(c, grids[1..])
  }

  function LevelHead(c: Codec, lev: nat, ngrids: nat, time: real): string {
    Joined([c.showInt(lev), c.showInt(ngrids), c.showReal(time)])
  }

  /** The blocks of the levels from `lev` on. */
  function LevelLines(c: Codec, h: Header, lev: nat): seq<string>
    requires lev <= |h.levels|
    decreases |h.levels| - lev
  {
    if lev == |h.levels| then []
    else
      var l := h.levels[lev];
      [LevelHead(c, lev, |l.grids|, h.time)]
      + ([c.showInt(l.step)] + (GridLines(c, l.grids) + ([l.mfName] + LevelLines(c, h, lev + 1))))
  }

  function TailLines(c: Codec, h: Header): seq<string> {
    [c.showInt(h.coordSystem)] + ([c.showInt(h.bwidth)] + LevelLines(c, h, 0))
  }

  function SizeLines(c: Codec, sizes: seq<seq<real>>): seq<string> {
    if sizes == [] then [] else [ListLine(Shown(c.showPlain, sizes[0]))] + SizeLines(c, sizes[1..])
  }

  function Steps(h: Header): (r: seq<int>)
    ensures |r| == |h.levels| && forall lev :: 0 <= lev < |r| ==> r[lev] == h.levels[lev].step
  {
    seq(|h.levels|, lev requires 0 <= lev < |h.levels| => h.levels[lev].step)
  }

  /** From the dimension to the end. */
  function BodyLines(c: Codec, h: Header): seq<string> {
    [c.showInt(3)] + ([c.showReal(h.time)] + ([c.showInt(|h.levels| - 1)] + ([ListLine(Shown(c.showReal, h.probLo))]
    + ([ListLine(Shown(c.showReal, h.probHi))] + ([ListLine(Shown(c.showRatio, h.refRatio))]
    + ([DomainLine(c, h.probDomain)] + ([ListLine(Shown(c.showInt, Steps(h)))]
    + (SizeLines(c, h.cellSizes) + TailLines(c, h)))))))))
  }

  /** Without names the writer still ends the list of names with a line break. */
  function NameLines(names: seq<string>): seq<string> { if names == [] then [""] else names }

  function HeaderLines(c: Codec, h: Header): seq<string>
    requires h.version != ""
  {
    [h.version[..|h.version| - 1]] + ([c.showInt(|h.names|)] + (NameLines(h.names) + BodyLines(c, h)))
  }

  // ------------------------------------------------------ what stands on which line

  /** The line after the last name. */
  function AfterNames(h: Header): nat { if h.names == [] then 3 else 2 + |h.names| }

  lemma {:induction false} SizeLineAt(c: Codec, sizes: seq<seq<real>>, lev: nat)
    requires lev < |sizes|
    ensures |SizeLines(c, sizes)| == |sizes|
    ensures SizeLines(c, sizes)[lev] == Joined(Shown(c.showPlain, sizes[lev])) + " "
  {
    if |sizes| > 1 {
      SizeLineAt(c, sizes[1..], if lev == 0 then 0 else lev - 1);
    }
  }

  lemma {:induction false} SizeLinesCount(c: Codec, sizes: seq<seq<real>>)
    ensures |SizeLines(c, sizes)| == |sizes|
  {
    if sizes != [] {
      SizeLinesCount(c, sizes[1..]);
    }
  }

  /** The first lines: version, number of names, names, dimension, time, finest level, low
      and high bounds, ratios, index boxes, steps of the levels. */
  lemma LayoutOfFront(c: Codec, h: Header)
    requires h.version != "" && h.version[|h.version| - 1] == '\n'
    ensures var lines, p := HeaderLines(c, h), AfterNames(h);
      && |lines| > p + 7 && lines[0] + "\n" == h.version && lines[1] == c.showInt(|h.names|)
      && (forall n :: 0 <= n < |h.names| ==> lines[2 + n] == h.names[n])
      && lines[p] == c.showInt(3) && lines[p + 1] == c.showReal(h.time) && lines[p + 2] == c.showInt(|h.levels| - 1)
      && lines[p + 3] == Joined(Shown(c.showReal, h.probLo)) + " "
      && lines[p + 4] == Joined(Shown(c.showReal, h.probHi)) + " "
      && lines[p + 5] == Joined(Shown(c.showRatio, h.refRatio)) + " "
      && lines[p + 6] == DomainLine(c, h.probDomain) && lines[p + 7] == Joined(Shown(c.showInt, Steps(h))) + " "
  {
    FrontOfBody(c, h);
    HeaderSplits(c, h);
    AfterThese(Front(c, h), BodyLines(c, h), HeaderLines(c, h));
  }

  /** The lines up to the names. */
  function Front(c: Codec, h: Header): seq<string>
    requires h.version != ""
  {
    [h.version[..|h.version| - 1], c.showInt(|h.names|)] + NameLines(h.names)
  }

  lemma HeaderSplits(c: Codec, h: Header)
    requires h.version != ""
    ensures HeaderLines(c, h) == Front(c, h) + BodyLines(c, h) && |Front(c, h)| == AfterNames(h)
  {
  }

  lemma AfterThese(front: seq<string>, body: seq<string>, lines: seq<string>)
    requires lines == front + body
    ensures |lines| == |front| + |body| && lines[|front|..] == body
    ensures forall i :: 0 <= i < |body| ==> lines[|front| + i] == body[i]
  {
  }

  lemma FrontOfBody(c: Codec, h: Header)
    ensures var body := BodyLines(c, h);
      && |body| >= 8 && body[0] == c.showInt(3) && body[1] == c.showReal(h.time) && body[2] == c.showInt(|h.levels| - 1)
      && body[3] == Joined(Shown(c.showReal, h.probLo)) + " " && body[4] == Joined(Shown(c.showReal, h.probHi)) + " "
      && body[5] == Joined(Shown(c.showRatio, h.refRatio)) + " " && body[6] == DomainLine(c, h.probDomain)
      && body[7] == Joined(Shown(c.showInt, Steps(h))) + " "
  {
  }

  /** After them: cell sizes level by level, coordinate system, boundary width, and the
      blocks of the levels. */
  lemma LayoutOfBack(c: Codec, h: Header)
    requires h.version != "" && |h.cellSizes| == |h.levels|
    ensures var lines, q := HeaderLines(c, h), AfterNames(h) + 8;
      && |lines| >= q + |h.levels| + 2
      && (forall lev :: 0 <= lev < |h.levels| ==>
            lines[q + lev] == Joined(Shown(c.showPlain, h.cellSizes[lev])) + " ")
      && lines[q + |h.levels|] == c.showInt(h.coordSystem) && lines[q + |h.levels| + 1] == c.showInt(h.bwidth)
      && lines[q + |h.levels| + 2..] == LevelLines(c, h, 0)
  {
    SizeLinesCount(c, h.cellSizes);
    BackOfBody(c, h);
    HeaderSplits(c, h);
    BackLines(Front(c, h), BodyLines(c, h), HeaderLines(c, h), SizeLines(c, h.cellSizes), TailLines(c, h));
    forall lev | 0 <= lev < |h.levels|
      ensures SizeLines(c, h.cellSizes)[lev] == Joined(Shown(c.showPlain, h.cellSizes[lev])) + " "
    {
      SizeLineAt(c, h.cellSizes, lev);
    }
  }

  lemma BackLines(front: seq<string>, body: seq<string>, lines: seq<string>, sizes: seq<string>, tail: seq<string>)
    requires lines == front + body && |body| >= 8 && body[8..] == sizes + tail && |tail| >= 2
    ensures var q := |front| + 8;
      && |lines| >= q + |sizes| + 2 && (forall lev :: 0 <= lev < |sizes| ==> lines[q + lev] == sizes[lev])
      && lines[q + |sizes|] == tail[0] && lines[q + |sizes| + 1] == tail[1] && lines[q + |sizes| + 2..] == tail[2..]
  {
    var q := |front| + 8;
    forall i | 0 <= i < |sizes| + |tail|
      ensures lines[q + i] == (sizes + tail)[i]
    {
      assert body[8..][i] == body[8 + i];
    }
  }

  lemma BackOfBody(c: Codec, h: Header)
    ensures |BodyLines(c, h)| >= 8 && BodyLines(c, h)[8..] == SizeLines(c, h.cellSizes) + TailLines(c, h)
  {
  }

  /** The block of a level: its number, the number of its grids and the time, its step, its
      grids, the name of its data, and then the next block. */
  lemma LayoutOfLevel(c: Codec, h: Header, lev: nat)
    requires lev < |h.levels|
    ensures var l, lines := h.levels[lev], LevelLines(c, h, lev);
      && |lines| >= 3 * |l.grids| + 3
      && lines[0] == c.showInt(lev) + " " + c.showInt(|l.grids|) + " " + c.showReal(h.time)
      && lines[1] == c.showInt(l.step)
      && (forall g, i :: 0 <= g < |l.grids| && 0 <= i < 3 ==>
            lines[2 + (3 * g + i)] == c.showReal(l.grids[g].lo[i]) + " " + c.showReal(l.grids[g].hi[i]))
      && lines[2 + 3 * |l.grids|] == l.mfName && lines[3 + 3 * |l.grids|..] == LevelLines(c, h, lev + 1)
  {
    var l := h.levels[lev];
    GridLinesCount(c, l.grids);
    ThreeWords(c.showInt(lev), c.showInt(|l.grids|), c.showReal(h.time));
    BlockLines(LevelHead(c, lev, |l.grids|, h.time), c.showInt(l.step), GridLines(c, l.grids), l.mfName,
               LevelLines(c, h, lev + 1), LevelLines(c, h, lev));
    forall g, i | 0 <= g < |l.grids| && 0 <= i < 3
      ensures GridLines(c, l.grids)[3 * g + i] == c.showReal(l.grids[g].lo[i]) + " " + c.showReal(l.grids[g].hi[i])
    {
      GridLineAt(c, l.grids, g, i);
    }
  }

  lemma BlockLines(head: string, step: string, grids: seq<string>, name: string, rest: seq<string>, lines: seq<string>)
    requires lines == [head] + ([step] + (grids + ([name] + rest)))
    ensures |lines| == |grids| + |rest| + 3 && lines[0] == head && lines[1] == step
    ensures forall i :: 0 <= i < |grids| ==> lines[2 + i] == grids[i]
    ensures lines[2 + |grids|] == name && lines[3 + |grids|..] == rest
  {
  }

  lemma ThreeWords(a: string, b: string, d: string)
    ensures Joined([a, b, d]) == a + " " + b + " " + d
  {
    assert [a, b, d][1..] == [b, d] && [b, d][1..] == [d];
    assert Joined([a, b, d]) == a + " " + Joined([b, d]) && Joined([b, d]) == b + " " + Joined([d]);
  }

  lemma {:induction false} GridLinesCount(c: Codec, grids: seq<Extent>)
    ensures |GridLines(c, grids)| == 3 * |grids|
  {
    if grids != [] {
      GridLinesCount(c, grids[1..]);
    }
  }

  lemma {:induction false} GridLineAt(c: Codec, grids: seq<Extent>, g: nat, i: nat)
    requires g < |grids| && i < 3
    ensures |GridLines(c, grids)| == 3 * |grids|
    ensures GridLines(c, grids)[3 * g + i] == c.showReal(grids[g].lo[i]) + " " + c.showReal(grids[g].hi[i])
  {
    GridLinesCount(c, grids);
    if g > 0 {
      GridLineAt(c, grids[1..], g - 1, i);
    } else {
      TwoWords(c.showReal(grids[0].lo[i]), c.showReal(grids[0].hi[i]));
    }
  }

  lemma TwoWords(a: string, b: string)
    ensures Joined([a, b]) == a + " " + b
  {
    assert [a, b][1..] == [b];
  }

  /** The index box of a single level: two corners, and the cell-centred type at the end. */
  lemma LayoutOfBox(c: Codec, b: Box)
    ensures DomainLine(c, [b]) == "((" + Corner(c, b.smallEnd) + ") (" + Corner(c, b.bigEnd) + ") ("
                                  + Corner(c, [0, 0, 0]) + ")) "
  {
    assert [b][1..] == [] && BoxesText(c, [b]) == BoxText(c, b, true) + "";
    BoxMarks(Corner(c, b.smallEnd), Corner(c, b.bigEnd), Corner(c, ORIGIN));
  }

  lemma BoxMarks(lo: string, hi: string, o: string)
    ensures "(" + ("(" + (lo + ")") + " (" + (hi + ")") + " (" + (o + ")") + ")" + "" + "") + " "
            == "((" + lo + ") (" + hi + ") (" + o + ")) "
  {
  }

  lemma ReadNext(l: string, others: seq<string>)
    requires OneLine(l)
    ensures Line(Unlines([l] + others)) == l + "\n" && Rest(Unlines([l] + others)) == Unlines(others)
    ensures Unlines([l] + others) == l + "\n" + Unlines(others)
  {
    var lines := [l] + others;
    assert lines[0..] == lines && lines[1..] == others;
    NextLine(lines, 0);
  }

  // ------------------------------------------------------------ lines and words

  lemma WordIsLine(w: string)
    requires Word(w)
    ensures OneLine(w) && NoTrailingBlank(w)
  {
  }

  lemma {:induction false} JoinedIsLine(words: seq<string>)
    requires Words(words)
    ensures OneLine(Joined(words)) && OneLine(Joined(words) + " ")
  {
    if |words| > 1 {
      WordIsLine(words[0]);
      JoinedIsLine(words[1..]);
    } else if |words| == 1 {
      WordIsLine(words[0]);
    }
  }

  /** Lists of numbers come back from their lines. */
  lemma IntsLineRead(c: Codec, show: int -> string, xs: seq<int>)
    requires forall i :: 0 <= i < |xs| ==> Word(show(xs[i])) && c.readInt(show(xs[i])) == Some(xs[i])
    ensures OneLine(ListLine(Shown(show, xs)))
    ensures ReadInts(c, Split(ListLine(Shown(show, xs)) + "\n")) == Some(xs)
  {
    var words := Shown(show, xs);
    JoinedIsLine(words);
    SplitJoined(words);
    assert Joined(words) + " " + "\n" == Joined(words) + " \n";
    ReadShownInts(c, words, xs);
  }

  lemma RealsLineRead(c: Codec, show: real -> string, xs: seq<real>)
    requires forall i :: 0 <= i < |xs| ==> Word(show(xs[i])) && c.readReal(show(xs[i])) == Some(xs[i])
    ensures OneLine(ListLine(Shown(show, xs)))
    ensures ReadReals(c, Split(ListLine(Shown(show, xs)) + "\n")) == Some(xs)
  {
    var words := Shown(show, xs);
    JoinedIsLine(words);
    SplitJoined(words);
    assert Joined(words) + " " + "\n" == Joined(words) + " \n";
    ReadShownReals(c, words, xs);
  }

  lemma PairLineRead(c: Codec, lo: real, hi: real)
    requires LosslessReals(c) && c.isDouble(lo) && c.isDouble(hi)
    ensures OneLine(PairLine(c, lo, hi)) && ReadReals(c, Split(PairLine(c, lo, hi) + "\n")) == Some([lo, hi])
  {
    assert RealText(c, lo) && RealText(c, hi);
    var words := [c.showReal(lo), c.showReal(hi)];
    JoinedIsLine(words);
    SplitJoined(words);
    ReadShownReals(c, words, [lo, hi]);
  }

  // ------------------------------------------------------- the line of index boxes

  function Words3(c: Codec, v: IVec): seq<string> { [c.showInt(v[0]), c.showInt(v[1]), c.showInt(v[2])] }

  function BoxWords(c: Codec, b: Box): seq<string> { Words3(c, b.smallEnd) + Words3(c, b.bigEnd) + Words3(c, ORIGIN) }

  function BoxesWords(c: Codec, boxes: seq<Box>): seq<string> {
    if boxes == [] then [] else BoxWords(c, boxes[0]) + BoxesWords(c, boxes[1..])
  }

  lemma TripleBlanked(c: Codec, v: IVec)
    requires LosslessInts(c)
    ensures Blanked(Triple(c, v)) == Spaced(Words3(c, v)) && Words(Words3(c, v))
  {
    assert IntText(c, v[0]) && IntText(c, v[1]) && IntText(c, v[2]);
    var a, b, d := c.showInt(v[0]), c.showInt(v[1]), c.showInt(v[2]);
    BlankedWord(a);
    BlankedWord(b);
    BlankedWord(d);
    BlankedAppend(a + "," + b + "," + d, ")");
    BlankedAppend(a + "," + b + ",", d);
    BlankedAppend(a + "," + b, ",");
    BlankedAppend(a + ",", b);
    BlankedAppend(a, ",");
    assert Blanked(",") == " " && Blanked(")") == " ";
    assert Spaced([d]) == d + " " + "";
    assert Words3(c, v)[1..] == [b, d] && [b, d][1..] == [d] && [d][1..] == [];
  }

  lemma TripleReads(c: Codec, v: IVec)
    requires LosslessInts(c)
    ensures Reads(Blanked(Triple(c, v)), Words3(c, v))
  {
    TripleBlanked(c, v);
    SpacedReads(Words3(c, v));
  }

  lemma BlankedBox(lo: string, hi: string, o: string, end: string)
    ensures Blanked("(" + lo + " (" + hi + " (" + o + ")" + end)
            == " " + Blanked(lo) + "  " + Blanked(hi) + "  " + Blanked(o) + " " + Blanked(end)
  {
    BlankedAppend("(" + lo + " (" + hi + " (" + o + ")", end);
    BlankedAppend("(" + lo + " (" + hi + " (" + o, ")");
    BlankedAppend("(" + lo + " (" + hi + " (", o);
    BlankedAppend("(" + lo + " (" + hi, " (");
    BlankedAppend("(" + lo + " (", hi);
    BlankedAppend("(" + lo, " (");
    BlankedAppend("(", lo);
    assert Blanked("(") == " " && Blanked(" (") == "  " && Blanked(")") == " ";
  }

  lemma ThreeRead(lo: string, hi: string, o: string, end: string, u: seq<string>, v: seq<string>, w: seq<string>)
    requires Reads(lo, u) && Reads(hi, v) && Reads(o, w) && Reads(end, [])
    ensures Reads(" " + lo + "  " + hi + "  " + o + " " + end, u + v + w)
  {
    BlanksRead();
    ReadsBlanks(lo, u, " ");
    ReadsBlanks(" " + lo, u, "  ");
    ReadsAppend(" " + lo + "  ", u, hi, v);
    ReadsBlanks(" " + lo + "  " + hi, u + v, "  ");
    ReadsAppend(" " + lo + "  " + hi + "  ", u + v, o, w);
    ReadsBlanks(" " + lo + "  " + hi + "  " + o, u + v + w, " ");
    ReadsBlanks(" " + lo + "  " + hi + "  " + o + " ", u + v + w, end);
  }

  lemma BoxReads(c: Codec, b: Box, last: bool)
    requires LosslessInts(c)
    ensures Reads(Blanked(BoxText(c, b, last)), BoxWords(c, b))
  {
    var end := if last then "" else " (";
    BlankedBox(Triple(c, b.smallEnd), Triple(c, b.bigEnd), Triple(c, ORIGIN), end);
    TripleReads(c, b.smallEnd);
    TripleReads(c, b.bigEnd);
    TripleReads(c, ORIGIN);
    BlanksRead();
    assert Blanked(end) == if last then "" else "  ";
    ThreeRead(Blanked(Triple(c, b.smallEnd)), Blanked(Triple(c, b.bigEnd)), Blanked(Triple(c, ORIGIN)), Blanked(end),
              Words3(c, b.smallEnd), Words3(c, b.bigEnd), Words3(c, ORIGIN));
  }

  lemma {:induction false} BoxesRead(c: Codec, boxes: seq<Box>)
    requires LosslessInts(c)
    ensures Reads(Blanked(BoxesText(c, boxes)), BoxesWords(c, boxes))
  {
    if boxes == [] {
      BlanksRead();
      assert Blanked("") == "";
    } else {
      var first, others := BoxText(c, boxes[0], |boxes| == 1), BoxesText(c, boxes[1..]);
      BlankedAppend(first, others);
      BoxReads(c, boxes[0], |boxes| == 1);
      BoxesRead(c, boxes[1..]);
      ReadsAppend(Blanked(first), BoxWords(c, boxes[0]), Blanked(others), BoxesWords(c, boxes[1..]));
    }
  }

  function BoxInts(b: Box): seq<int> {
    [b.smallEnd[0], b.smallEnd[1], b.smallEnd[2], b.bigEnd[0], b.bigEnd[1], b.bigEnd[2], 0, 0, 0]
  }

  function BoxesInts(boxes: seq<Box>): seq<int> {
    if boxes == [] then [] else BoxInts(boxes[0]) + BoxesInts(boxes[1..])
  }

  ghost predicate Match(c: Codec, words: seq<string>, xs: seq<int>) {
    |words| == |xs| && forall i :: 0 <= i < |xs| ==> c.readInt(words[i]) == Some(xs[i])
  }

  lemma MatchAppend(c: Codec, a: seq<string>, x: seq<int>, b: seq<string>, y: seq<int>)
    requires Match(c, a, x) && Match(c, b, y)
    ensures Match(c, a + b, x + y)
  {
  }

  lemma BoxMatch(c: Codec, b: Box)
    requires LosslessInts(c)
    ensures Match(c, BoxWords(c, b), BoxInts(b))
  {
    assert IntText(c, b.smallEnd[0]) && IntText(c, b.smallEnd[1]) && IntText(c, b.smallEnd[2]) && IntText(c, 0);
    assert IntText(c, b.bigEnd[0]) && IntText(c, b.bigEnd[1]) && IntText(c, b.bigEnd[2]);
  }

  lemma {:induction false} BoxesMatch(c: Codec, boxes: seq<Box>)
    requires LosslessInts(c)
    ensures Match(c, BoxesWords(c, boxes), BoxesInts(boxes))
  {
    if boxes != [] {
      BoxesMatch(c, boxes[1..]);
      BoxMatch(c, boxes[0]);
      MatchAppend(c, BoxWords(c, boxes[0]), BoxInts(boxes[0]), BoxesWords(c, boxes[1..]), BoxesInts(boxes[1..]));
    }
  }

  lemma {:induction false} BoxesTextIsLine(c: Codec, boxes: seq<Box>)
    requires LosslessInts(c)
    ensures OneLine(BoxesText(c, boxes))
  {
    if boxes != [] {
      TripleIsLine(c, boxes[0].smallEnd);
      TripleIsLine(c, boxes[0].bigEnd);
      TripleIsLine(c, ORIGIN);
      BoxesTextIsLine(c, boxes[1..]);
    }
  }

  lemma TripleIsLine(c: Codec, v: IVec)
    requires LosslessInts(c)
    ensures OneLine(Triple(c, v))
  {
    assert IntText(c, v[0]) && IntText(c, v[1]) && IntText(c, v[2]);
    WordIsLine(c.showInt(v[0]));
    WordIsLine(c.showInt(v[1]));
    WordIsLine(c.showInt(v[2]));
  }

  lemma DomainBlanked(c: Codec, boxes: seq<Box>)
    ensures Blanked(DomainLine(c, boxes) + "\n") == " " + Blanked(BoxesText(c, boxes)) + " \n"
  {
    var text := BoxesText(c, boxes);
    assert "(" + text + " " + "\n" == "(" + text + " \n";
    BlankedAppend("(" + text, " \n");
    BlankedAppend("(", text);
    assert Blanked("(") == " " && Blanked(" \n") == " \n";
  }

  lemma PaddedReads(s: string, w: seq<string>)
    requires Reads(s, w)
    ensures Split(" " + s + " \n") == w
  {
    BlanksRead();
    ReadsBlanks(s, w, " ");
    ReadsBlanks(" " + s, w, " \n");
    ReadsAlone(" " + s + " \n", w);
  }

  lemma DomainLineWords(c: Codec, boxes: seq<Box>)
    requires LosslessInts(c)
    ensures Split(Blanked(RStrip(DomainLine(c, boxes) + "\n"))) == BoxesWords(c, boxes)
  {
    var text := Blanked(BoxesText(c, boxes));
    assert Reads(text, BoxesWords(c, boxes)) by { BoxesRead(c, boxes); }
    PaddedReads(text, BoxesWords(c, boxes));
    DomainBlanked(c, boxes);
    StripKeepsWords(DomainLine(c, boxes) + "\n");
  }

  /** The nine numbers of every box come back from the line. */
  lemma DomainLineRead(c: Codec, boxes: seq<Box>)
    requires LosslessInts(c)
    ensures OneLine(DomainLine(c, boxes))
    ensures ReadInts(c, Split(Blanked(RStrip(DomainLine(c, boxes) + "\n")))) == Some(BoxesInts(boxes))
  {
    BoxesTextIsLine(c, boxes);
    DomainLineWords(c, boxes);
    BoxesMatch(c, boxes);
    ReadShownInts(c, BoxesWords(c, boxes), BoxesInts(boxes));
  }
}
