/** Writing and parsing the header of a plot file. */
module AmrexPlotFile {
  import opened Basics
  import opened HeaderText
  import opened MeshBoxes
  import opened PlotfileHeader

  // --------------------------------------------------------------- parts written

  method SizesText(c: Codec, sizes: seq<seq<real>>) returns (s: string)
    ensures s == Unlines(SizeLines(c, sizes))
  {
    s := "";
    for lev := 0 to |sizes|
      invariant s + Unlines(SizeLines(c, sizes[lev..])) == Unlines(SizeLines(c, sizes))
    {
      var l := ListLine(Shown(c.showPlain, sizes[lev]));
      NextSizes(c, sizes, lev, l, s);
      s := s + l + "\n";
    }
  }

  lemma UnlinesCons(l: string, others: seq<string>)
    ensures Unlines([l] + others) == l + "\n" + Unlines(others)
  {
    assert ([l] + others)[1..] == others;
  }

  lemma NextSizes(c: Codec, sizes: seq<seq<real>>, lev: nat, l: string, s: string)
    requires lev < |sizes| && l == ListLine(Shown(c.showPlain, sizes[lev]))
    ensures s + Unlines(SizeLines(c, sizes[lev..])) == s + l + "\n" + Unlines(SizeLines(c, sizes[lev + 1..]))
  {
    assert sizes[lev..][1..] == sizes[lev + 1..];
    UnlinesCons(l, SizeLines(c, sizes[lev + 1..]));
  }

  method GridsText(c: Codec, grids: seq<Extent>) returns (s: string)
    ensures s == Unlines(GridLines(c, grids))
  {
    s := "";
    for igrid := 0 to |grids|
      invariant s + Unlines(GridLines(c, grids[igrid..])) == Unlines(GridLines(c, grids))
    {
      var g := grids[igrid];
      NextGrid(c, grids, igrid, s);
      s := s + PairLine(c, g.lo[0], g.hi[0]) + "\n";
      s := s + PairLine(c, g.lo[1], g.hi[1]) + "\n";
      s := s + PairLine(c, g.lo[2], g.hi[2]) + "\n";
    }
  }

  lemma ThreeLines(p: string, q: string, r: string, others: seq<string>)
    ensures Unlines([p, q, r] + others) == p + "\n" + q + "\n" + r + "\n" + Unlines(others)
  {
    UnlinesAppend([p, q, r], others);
    assert [p, q, r][1..] == [q, r] && [q, r][1..] == [r] && [r][1..] == [];
    assert Unlines([r]) == r + "\n" + "";
  }

  lemma NextGrid(c: Codec, grids: seq<Extent>, g: nat, s: string)
    requires g < |grids|
    ensures s + Unlines(GridLines(c, grids[g..])) == s + PairLine(c, grids[g].lo[0], grids[g].hi[0]) + "\n"
            + PairLine(c, grids[g].lo[1], grids[g].hi[1]) + "\n" + PairLine(c, grids[g].lo[2], grids[g].hi[2]) + "\n"
            + Unlines(GridLines(c, grids[g + 1..]))
  {
    assert grids[g..][1..] == grids[g + 1..];
    ThreeLines(PairLine(c, grids[g].lo[0], grids[g].hi[0]), PairLine(c, grids[g].lo[1], grids[g].hi[1]),
               PairLine(c, grids[g].lo[2], grids[g].hi[2]), GridLines(c, grids[g + 1..]));
  }

  lemma LevelText(c: Codec, h: Header, lev: nat)
    requires lev < |h.levels|
    ensures var l := h.levels[lev];
      Unlines(LevelLines(c, h, lev)) == LevelHead(c, lev, |l.grids|, h.time) + "\n" + (c.showInt(l.step) + "\n"
        + (Unlines(GridLines(c, l.grids)) + (l.mfName + "\n" + Unlines(LevelLines(c, h, lev + 1)))))
  {
    var l := h.levels[lev];
    var x3 := [l.mfName] + LevelLines(c, h, lev + 1);
    var x2 := GridLines(c, l.grids) + x3;
    UnlinesCons(LevelHead(c, lev, |l.grids|, h.time), [c.showInt(l.step)] + x2);
    UnlinesCons(c.showInt(l.step), x2);
    UnlinesAppend(GridLines(c, l.grids), x3);
    UnlinesCons(l.mfName, LevelLines(c, h, lev + 1));
  }

  method BoxesLine(c: Codec, boxes: seq<Box>) returns (line: string)
    ensures line == "(" + BoxesText(c, boxes)
  {
    line := "(";
    for lev := 0 to |boxes|
      invariant line + BoxesText(c, boxes[lev..]) == "(" + BoxesText(c, boxes)
    {
      assert boxes[lev..][1..] == boxes[lev + 1..];
      line := line + BoxText(c, boxes[lev], lev == |boxes| - 1);
    }
  }

  /** Names joined by line breaks. */
  function JoinedLines(names: seq<string>): string {
    if names == [] then "" else if |names| == 1 then names[0] else names[0] + "\n" + JoinedLines(names[1..])
  }

  lemma {:induction false} NamesText(names: seq<string>)
    ensures JoinedLines(names) + "\n" == Unlines(NameLines(names))
  {
    if |names| > 1 {
      NamesText(names[1..]);
    } else if |names| == 1 {
      assert names[1..] == [] && Unlines(names) == names[0] + "\n" + "";
    } else {
      assert Unlines([""]) == "" + "\n" + Unlines([""][1..]) && [""][1..] == [];
    }
  }

  // -------------------------------------------------------------- parts parsed

  ghost predicate PlainTexts(names: seq<string>) { forall n :: 0 <= n < |names| ==> PlainText(names[n]) }

  lemma NextName(names: seq<string>, i: nat, others: seq<string>)
    requires i < |names| && PlainTexts(names)
    ensures var text := Unlines(names[i..] + others);
      RStrip(Line(text)) == names[i] && Rest(text) == Unlines(names[i + 1..] + others)
  {
    assert names[i..] + others == [names[i]] + (names[i + 1..] + others);
    ReadNext(names[i], names[i + 1..] + others);
    RStripLine(names[i]);
  }

  /** Reads a number of lines as names. */
  method ReadNames(text: string, ncomp: int, ghost names: seq<string>, ghost others: seq<string>)
    returns (r: seq<string>, rest: string)
    ensures |r| == if ncomp < 0 then 0 else ncomp
    ensures ncomp <= 0 ==> rest == text
    ensures text == Unlines(names + others) && ncomp == |names| && PlainTexts(names)
            ==> r == names && rest == Unlines(others)
  {
    ghost var expected := text == Unlines(names + others) && ncomp == |names| && PlainTexts(names);
    r, rest := [], text;
    assert names[0..] == names;
    while |r| < ncomp
      invariant |r| <= (if ncomp < 0 then 0 else ncomp) && (r == [] ==> rest == text)
      invariant expected ==> r == names[..|r|] && rest == Unlines(names[|r|..] + others)
    {
      if expected {
        NextName(names, |r|, others);
      }
      r, rest := r + [RStrip(Line(rest))], Rest(rest);
    }
    assert names[|names|..] + others == others;
  }

  /** Reads a list of reals from each of a number of lines. */
  method ReadSizes(c: Codec, text: string, nlevels: int, ghost sizes: seq<seq<real>>, ghost others: seq<string>)
    returns (ok: bool, r: seq<seq<real>>, rest: string)
    ensures text == Unlines(SizeLines(c, sizes) + others) && nlevels == |sizes| && LosslessReals(c)
            && (forall lev :: 0 <= lev < |sizes| ==> Doubles(c, sizes[lev]))
            ==> ok && r == sizes && rest == Unlines(others)
  {
    ghost var expected := text == Unlines(SizeLines(c, sizes) + others) && nlevels == |sizes| && LosslessReals(c)
      && (forall lev :: 0 <= lev < |sizes| ==> Doubles(c, sizes[lev]));
    ok, r, rest := true, [], text;
    assert sizes[0..] == sizes;
    while |r| < nlevels
      invariant |r| <= if nlevels < 0 then 0 else nlevels
      invariant expected ==> r == sizes[..|r|] && rest == Unlines(SizeLines(c, sizes[|r|..]) + others)
    {
      ghost var i := |r|;
      if expected {
        NextSizeLine(c, sizes, i, others);
      }
      var line := ReadReals(c, Split(Line(rest)));
      if line.None? {
        return false, r, rest;
      }
      r, rest := r + [line.value], Rest(rest);
    }
    assert expected ==> SizeLines(c, sizes[|sizes|..]) + others == others;
  }

  lemma PlainReads(c: Codec, x: real)
    requires LosslessReals(c) && c.isDouble(x)
    ensures Word(c.showPlain(x)) && c.readReal(c.showPlain(x)) == Some(x)
  {
    assert PlainRealText(c, x);
  }

  lemma NextSizeLine(c: Codec, sizes: seq<seq<real>>, i: nat, others: seq<string>)
    requires i < |sizes| && LosslessReals(c) && Doubles(c, sizes[i])
    ensures var text := Unlines(SizeLines(c, sizes[i..]) + others);
      ReadReals(c, Split(Line(text))) == Some(sizes[i]) && Rest(text) == Unlines(SizeLines(c, sizes[i + 1..]) + others)
  {
    var l := ListLine(Shown(c.showPlain, sizes[i]));
    assert sizes[i..][1..] == sizes[i + 1..];
    assert SizeLines(c, sizes[i..]) + others == [l] + (SizeLines(c, sizes[i + 1..]) + others);
    forall k | 0 <= k < |sizes[i]|
      ensures Word(c.showPlain(sizes[i][k])) && c.readReal(c.showPlain(sizes[i][k])) == Some(sizes[i][k])
    {
      PlainReads(c, sizes[i][k]);
    }
    RealsLineRead(c, c.showPlain, sizes[i]);
    ReadNext(l, SizeLines(c, sizes[i + 1..]) + others);
  }

  /** Reads the lower and upper end of a grid along one direction. */
  method ReadPair(c: Codec, text: string, ghost lo: real, ghost hi: real, ghost others: seq<string>)
    returns (ok: bool, glo: real, ghi: real, rest: string)
    ensures text == Unlines([PairLine(c, lo, hi)] + others) && LosslessReals(c) && c.isDouble(lo) && c.isDouble(hi)
            ==> ok && glo == lo && ghi == hi && rest == Unlines(others)
  {
    if text == Unlines([PairLine(c, lo, hi)] + others) && LosslessReals(c) && c.isDouble(lo) && c.isDouble(hi) {
      PairLineRead(c, lo, hi);
      ReadNext(PairLine(c, lo, hi), others);
    }
    var line := ReadReals(c, Split(Line(text)));
    rest := Rest(text);
    if line.None? || |line.value| != 2 {
      return false, 0.0, 0.0, rest;
    }
    ok, glo, ghi := true, line.value[0], line.value[1];
  }

  method ReadGrid(c: Codec, text: string, ghost g: Extent, ghost others: seq<string>)
    returns (ok: bool, e: Extent, rest: string)
    ensures text == Unlines(GridLines(c, [g]) + others) && LosslessReals(c) && DoubleExtents(c, [g])
            ==> ok && e == g && rest == Unlines(others)
  {
    ghost var p, q, s := PairLine(c, g.lo[0], g.hi[0]), PairLine(c, g.lo[1], g.hi[1]), PairLine(c, g.lo[2], g.hi[2]);
    assert GridLines(c, [g]) == [p, q, s] + GridLines(c, [g][1..]) && [g][1..] == [];
    assert GridLines(c, [g]) + others == [p] + ([q] + ([s] + others));
    assert DoubleExtents(c, [g]) ==> Doubles(c, [g.lo[0], g.lo[1], g.lo[2], g.hi[0], g.hi[1], g.hi[2]]) by {
      assert [g][0] == g;
    }
    ghost var all := [g.lo[0], g.lo[1], g.lo[2], g.hi[0], g.hi[1], g.hi[2]];
    assert Doubles(c, all) ==> c.isDouble(all[0]) && c.isDouble(all[1]) && c.isDouble(all[2]) && c.isDouble(all[3])
                               && c.isDouble(all[4]) && c.isDouble(all[5]);
    var ok0, lo0, hi0, rest0 := ReadPair(c, text, g.lo[0], g.hi[0], [q] + ([s] + others));
    var ok1, lo1, hi1, rest1 := ReadPair(c, rest0, g.lo[1], g.hi[1], [s] + others);
    var ok2, lo2, hi2, rest2 := ReadPair(c, rest1, g.lo[2], g.hi[2], others);
    ok, e, rest := ok0 && ok1 && ok2, Extent([lo0, lo1, lo2], [hi0, hi1, hi2]), rest2;
  }

  lemma GridsSplit(c: Codec, grids: seq<Extent>, i: nat, others: seq<string>)
    requires i < |grids|
    ensures GridLines(c, grids[i..]) + others == GridLines(c, [grids[i]]) + (GridLines(c, grids[i + 1..]) + others)
  {
    assert grids[i..][1..] == grids[i + 1..] && [grids[i]][1..] == [];
  }

  /** Reads the extents of a number of grids. */
  method ReadGrids(c: Codec, text: string, ngrids: int, ghost grids: seq<Extent>, ghost others: seq<string>)
    returns (ok: bool, r: seq<Extent>, rest: string)
    ensures ok ==> |r| == if ngrids < 0 then 0 else ngrids
    ensures text == Unlines(GridLines(c, grids) + others) && ngrids == |grids|
            && LosslessReals(c) && DoubleExtents(c, grids)
            ==> ok && r == grids && rest == Unlines(others)
  {
    ghost var expected := text == Unlines(GridLines(c, grids) + others) && ngrids == |grids|
                          && LosslessReals(c) && DoubleExtents(c, grids);
    ok, r, rest := true, [], text;
    assert grids[0..] == grids;
    while |r| < ngrids
      invariant |r| <= if ngrids < 0 then 0 else ngrids
      invariant expected ==> r == grids[..|r|] && rest == Unlines(GridLines(c, grids[|r|..]) + others)
    {
      ghost var i := |r|;
      ghost var g := if expected then grids[i] else Extent([0.0, 0.0, 0.0], [0.0, 0.0, 0.0]);
      ghost var tail := if expected then GridLines(c, grids[i + 1..]) + others else [];
      if expected {
        GridsSplit(c, grids, i, others);
        assert [g][0] == grids[i];
      }
      var good, e, next := ReadGrid(c, rest, g, tail);
      if !good {
        return false, r, rest;
      }
      r, rest := r + [e], next;
    }
    assert GridLines(c, grids[|grids|..]) + others == others;
  }

  lemma LevelHeadRead(c: Codec, lev: nat, ngrids: nat, time: real)
    requires Lossless(c) && c.isDouble(time)
    ensures OneLine(LevelHead(c, lev, ngrids, time))
    ensures Split(LevelHead(c, lev, ngrids, time) + "\n") == [c.showInt(lev), c.showInt(ngrids), c.showReal(time)]
  {
    assert IntText(c, lev) && IntText(c, ngrids) && RealText(c, time);
    var words := [c.showInt(lev), c.showInt(ngrids), c.showReal(time)];
    JoinedIsLine(words);
    SplitJoined(words);
  }

  /** What the round trip needs of a header and of the texts of numbers. */
  ghost predicate Good(c: Codec, h: Header) { WellFormed(h) && Lossless(c) && Representable(c, h) }

  lemma LevelLinesRead(c: Codec, h: Header, lev: nat)
    requires Good(c, h) && lev < |h.levels|
    ensures var l := h.levels[lev];
      var text := Unlines(LevelLines(c, h, lev));
      var text1 := Rest(text);
      && Split(Line(text)) == [c.showInt(lev), c.showInt(|l.grids|), c.showReal(h.time)]
      && c.readInt(Line(text1)) == Some(l.step)
      && Rest(text1) == Unlines(GridLines(c, l.grids) + ([l.mfName] + LevelLines(c, h, lev + 1)))
  {
    var l := h.levels[lev];
    var rest := GridLines(c, l.grids) + ([l.mfName] + LevelLines(c, h, lev + 1));
    assert IntText(c, l.step);
    LevelHeadRead(c, lev, |l.grids|, h.time);
    ReadNext(LevelHead(c, lev, |l.grids|, h.time), [c.showInt(l.step)] + rest);
    WordIsLine(c.showInt(l.step));
    ReadNext(c.showInt(l.step), rest);
  }

  /** Reads the block of one level. */
  method ReadLevel(c: Codec, text: string, ghost h: Header, ghost lev: nat)
    returns (ok: bool, ngrids: int, l: Level, rest: string)
    ensures ok && ngrids >= 0 ==> |l.grids| == ngrids
    ensures Good(c, h) && lev < |h.levels| && text == Unlines(LevelLines(c, h, lev))
            ==> ok && l == h.levels[lev] && ngrids == |l.grids| && rest == Unlines(LevelLines(c, h, lev + 1))
  {
    ghost var expected := Good(c, h) && lev < |h.levels| && text == Unlines(LevelLines(c, h, lev));
    ghost var grids := if expected then h.levels[lev].grids else [];
    ghost var name := if expected then h.levels[lev].mfName else "";
    ghost var others := if expected then LevelLines(c, h, lev + 1) else [];
    if expected {
      LevelLinesRead(c, h, lev);
      assert IntText(c, lev) && IntText(c, |h.levels[lev].grids|) && RealText(c, h.time);
    }
    l := Level(0, [], "");
    var line := Split(Line(text));
    var text1 := Rest(text);
    if |line| < 3 || c.readInt(line[0]).None? || c.readInt(line[1]).None? || c.readReal(line[2]).None? {
      return false, 0, l, text1;
    }
    ngrids := c.readInt(line[1]).value;
    var step := c.readInt(Line(text1));
    if step.None? {
      return false, ngrids, l, text1;
    }
    var good, r, text2 := ReadGrids(c, Rest(text1), ngrids, grids, [name] + others);
    if !good {
      return false, ngrids, l, text2;
    }
    if expected {
      ReadNext(name, others);
      RStripLine(name);
    }
    ok, l, rest := true, Level(step.value, r, RStrip(Line(text2))), Rest(text2);
  }

  // ------------------------------------------------------------------ the file

  function Counts(h: Header): (r: seq<int>)
    ensures |r| == |h.levels| && forall lev :: 0 <= lev < |r| ==> r[lev] == |h.levels[lev].grids|
  {
    seq(|h.levels|, lev requires 0 <= lev < |h.levels| => |h.levels[lev].grids|)
  }

  function Glohis(h: Header): (r: seq<seq<Extent>>)
    ensures |r| == |h.levels| && forall lev :: 0 <= lev < |r| ==> r[lev] == h.levels[lev].grids
  {
    seq(|h.levels|, lev requires 0 <= lev < |h.levels| => h.levels[lev].grids)
  }

  function MfNames(h: Header): (r: seq<string>)
    ensures |r| == |h.levels| && forall lev :: 0 <= lev < |r| ==> r[lev] == h.levels[lev].mfName
  {
    seq(|h.levels|, lev requires 0 <= lev < |h.levels| => h.levels[lev].mfName)
  }

  lemma {:induction false} BoxIntsAt(boxes: seq<Box>, i: nat)
    requires i < |boxes|
    ensures |BoxesInts(boxes)| == 9 * |boxes| && BoxesInts(boxes)[9 * i..9 * i + 9] == BoxInts(boxes[i])
  {
    if |boxes| > 1 {
      BoxIntsAt(boxes[1..], if i == 0 then 0 else i - 1);
    }
    var first, others := BoxInts(boxes[0]), BoxesInts(boxes[1..]);
    if i == 0 {
      assert (first + others)[0..9] == first;
    } else {
      assert (first + others)[9 * i..9 * i + 9] == others[9 * (i - 1)..9 * (i - 1) + 9];
    }
  }

  method ReadInt(c: Codec, text: string, ghost n: int, ghost others: seq<string>)
    returns (ok: bool, r: int, rest: string)
    ensures rest == Rest(text)
    ensures LosslessInts(c) && text == Unlines([c.showInt(n)] + others) ==> ok && r == n && rest == Unlines(others)
    ensures LosslessInts(c) && Line(text) == "\n" ==> !ok
  {
    if LosslessInts(c) && text == Unlines([c.showInt(n)] + others) {
      assert IntText(c, n);
      WordIsLine(c.showInt(n));
      ReadNext(c.showInt(n), others);
    }
    var v := c.readInt(Line(text));
    ok, r, rest := v.Some?, if v.Some? then v.value else 0, Rest(text);
  }

  method ReadReal(c: Codec, text: string, ghost x: real, ghost others: seq<string>)
    returns (ok: bool, r: real, rest: string)
    ensures rest == Rest(text)
    ensures LosslessReals(c) && c.isDouble(x) && text == Unlines([c.showReal(x)] + others)
            ==> ok && r == x && rest == Unlines(others)
  {
    if LosslessReals(c) && c.isDouble(x) && text == Unlines([c.showReal(x)] + others) {
      assert RealText(c, x);
      WordIsLine(c.showReal(x));
      ReadNext(c.showReal(x), others);
    }
    var v := c.readReal(Line(text));
    ok, r, rest := v.Some?, if v.Some? then v.value else 0.0, Rest(text);
  }

  method ReadRealList(c: Codec, text: string, ghost xs: seq<real>, ghost others: seq<string>)
    returns (ok: bool, r: seq<real>, rest: string)
    ensures LosslessReals(c) && Doubles(c, xs) && text == Unlines([ListLine(Shown(c.showReal, xs))] + others)
            ==> ok && r == xs && rest == Unlines(others)
  {
    if LosslessReals(c) && Doubles(c, xs) && text == Unlines([ListLine(Shown(c.showReal, xs))] + others) {
      forall i | 0 <= i < |xs|
        ensures Word(c.showReal(xs[i])) && c.readReal(c.showReal(xs[i])) == Some(xs[i])
      {
        FullReads(c, xs[i]);
      }
      RealsLineRead(c, c.showReal, xs);
      ReadNext(ListLine(Shown(c.showReal, xs)), others);
    }
    var v := ReadReals(c, Split(Line(text)));
    ok, r, rest := v.Some?, if v.Some? then v.value else [], Rest(text);
  }

  lemma FullReads(c: Codec, x: real)
    requires LosslessReals(c) && c.isDouble(x)
    ensures Word(c.showReal(x)) && c.readReal(c.showReal(x)) == Some(x)
  {
    assert RealText(c, x);
  }

  /** A list of integers, however they were shown. */
  method ReadIntList(c: Codec, text: string, ghost show: int -> string, ghost xs: seq<int>, ghost others: seq<string>)
    returns (ok: bool, r: seq<int>, rest: string)
    ensures Readable(c, show, xs) && text == Unlines([ListLine(Shown(show, xs))] + others)
            ==> ok && r == xs && rest == Unlines(others)
  {
    if Readable(c, show, xs) && text == Unlines([ListLine(Shown(show, xs))] + others) {
      IntsLineRead(c, show, xs);
      ReadNext(ListLine(Shown(show, xs)), others);
    }
    var v := ReadInts(c, Split(Line(text)));
    ok, r, rest := v.Some?, if v.Some? then v.value else [], Rest(text);
  }

  ghost predicate Readable(c: Codec, show: int -> string, xs: seq<int>) {
    forall i :: 0 <= i < |xs| ==> Word(show(xs[i])) && c.readInt(show(xs[i])) == Some(xs[i])
  }

  /** The two corners among the numbers of a level. */
  predicate HasCorners(line: seq<int>, i: nat, b: Box) {
    && 9 * i + 9 <= |line|
    && b.smallEnd == [line[9 * i], line[9 * i + 1], line[9 * i + 2]]
    && b.bigEnd == [line[9 * i + 3], line[9 * i + 4], line[9 * i + 5]]
  }

  /** The boxes of all levels from their numbers, nine for each: two corners and a type. */
  method BoxesOf(line: seq<int>, nlevels: int, ghost boxes: seq<Box>) returns (ok: bool, r: seq<Box>)
    ensures ok <==> nlevels <= 0 || |line| >= 9 * nlevels
    ensures ok ==> |r| == (if nlevels < 0 then 0 else nlevels) && forall i :: 0 <= i < |r| ==> HasCorners(line, i, r[i])
    ensures line == BoxesInts(boxes) && nlevels == |boxes| ==> ok && r == boxes
  {
    r := [];
    while |r| < nlevels
      invariant |r| <= if nlevels < 0 then 0 else nlevels
      invariant 9 * |r| <= |line|
      invariant forall i :: 0 <= i < |r| ==> HasCorners(line, i, r[i])
    {
      var offset := 9 * |r|;
      if |line| < offset + 9 {
        if line == BoxesInts(boxes) && nlevels == |boxes| {
          BoxIntsAt(boxes, |r|);
        }
        return false, r;
      }
      var numbers := line[offset..offset + 9];
      r := r + [Box([numbers[0], numbers[1], numbers[2]], [numbers[3], numbers[4], numbers[5]])];
    }
    ok := true;
    if line == BoxesInts(boxes) && nlevels == |boxes| {
      CornersDetermine(boxes, r);
    }
  }

  /** The corners say which boxes were written. */
  lemma CornersDetermine(boxes: seq<Box>, r: seq<Box>)
    requires |r| == |boxes| && forall i :: 0 <= i < |r| ==> HasCorners(BoxesInts(boxes), i, r[i])
    ensures r == boxes
  {
    forall i | 0 <= i < |r|
      ensures r[i] == boxes[i]
    {
      CornersAt(boxes, i, r[i]);
    }
  }

  lemma CornersAt(boxes: seq<Box>, i: nat, b: Box)
    requires i < |boxes| && HasCorners(BoxesInts(boxes), i, b)
    ensures b == boxes[i]
  {
    BoxIntsAt(boxes, i);
    CornersOfSlice(BoxesInts(boxes), i, b, boxes[i]);
  }

  lemma CornersOfSlice(line: seq<int>, i: nat, b: Box, written: Box)
    requires HasCorners(line, i, b) && line[9 * i..9 * i + 9] == BoxInts(written)
    ensures b == written
  {
    var numbers := line[9 * i..9 * i + 9];
    assert numbers[0] == line[9 * i] && numbers[1] == line[9 * i + 1] && numbers[2] == line[9 * i + 2];
    assert numbers[3] == line[9 * i + 3] && numbers[4] == line[9 * i + 4] && numbers[5] == line[9 * i + 5];
  }

  /** The index boxes of all levels, from one line. */
  method ReadDomain(c: Codec, text: string, nlevels: int, ghost boxes: seq<Box>, ghost others: seq<string>)
    returns (ok: bool, r: seq<Box>, rest: string)
    ensures LosslessInts(c) && nlevels == |boxes| && text == Unlines([DomainLine(c, boxes)] + others)
            ==> ok && r == boxes && rest == Unlines(others)
  {
    if LosslessInts(c) && nlevels == |boxes| && text == Unlines([DomainLine(c, boxes)] + others) {
      DomainLineRead(c, boxes);
      ReadNext(DomainLine(c, boxes), others);
    }
    var words := Split(Blanked(RStrip(Line(text))));
    var line := ReadInts(c, words);
    rest, r := Rest(text), [];
    if line.None? {
      return false, r, rest;
    }
    ok, r := BoxesOf(line.value, nlevels, boxes);
  }

  lemma OneMore<T>(s: seq<T>, i: nat)
    requires i < |s|
    ensures s[..i] + [s[i]] == s[..i + 1]
  {
  }

  /** The blocks of all levels. The steps of the levels are read here, too; the line of
      steps before the cell sizes is parsed and dropped. */
  method ReadLevels(c: Codec, text: string, nlevels: int, ghost h: Header) returns (ok: bool, r: seq<Level>)
    ensures Good(c, h) && nlevels == |h.levels| && text == Unlines(LevelLines(c, h, 0)) ==> ok && r == h.levels
  {
    ghost var expected := Good(c, h) && nlevels == |h.levels| && text == Unlines(LevelLines(c, h, 0));
    var rest := text;
    r := [];
    for ilev := 0 to if nlevels < 0 then 0 else nlevels
      invariant |r| == ilev
      invariant expected ==> r == h.levels[..ilev] && rest == Unlines(LevelLines(c, h, ilev))
    {
      var good, n, l, next := ReadLevel(c, rest, h, ilev);
      if !good {
        return false, r;
      }
      if expected {
        OneMore(h.levels, ilev);
      }
      r, rest := r + [l], next;
    }
    ok := true;
  }

  method ReadTail(c: Codec, text: string, nlevels: int, ghost h: Header)
    returns (ok: bool, sizes: seq<seq<real>>, coord: int, width: int, levels: seq<Level>)
    ensures Good(c, h) && nlevels == |h.levels| && text == Unlines(SizeLines(c, h.cellSizes) + TailLines(c, h))
            ==> ok && sizes == h.cellSizes && coord == h.coordSystem && width == h.bwidth && levels == h.levels
  {
    ghost var t2 := LevelLines(c, h, 0);
    ghost var t1 := [c.showInt(h.bwidth)] + t2;
    var ok0, ok1, ok2, ok3, rest0, rest1, rest2;
    ok0, sizes, rest0 := ReadSizes(c, text, nlevels, h.cellSizes, TailLines(c, h));
    ok1, coord, rest1 := ReadInt(c, rest0, h.coordSystem, t1);
    ok2, width, rest2 := ReadInt(c, rest1, h.bwidth, t2);
    ok3, levels := ReadLevels(c, rest2, nlevels, h);
    ok := ok0 && ok1 && ok2 && ok3;
  }

  /** Dimension, time and finest level. */
  method ReadScalars(c: Codec, text: string, ghost h: Header, ghost others: seq<string>)
    returns (ok: bool, time: real, finest: int, rest: string)
    ensures LosslessInts(c) && LosslessReals(c) && c.isDouble(h.time)
            && text == Unlines([c.showInt(3)] + ([c.showReal(h.time)] + ([c.showInt(|h.levels| - 1)] + others)))
            ==> ok && time == h.time && finest == |h.levels| - 1 && rest == Unlines(others)
    ensures LosslessInts(c) && Line(text) == "\n" ==> !ok
  {
    ghost var t2 := [c.showInt(|h.levels| - 1)] + others;
    var ok1, dim, rest1 := ReadInt(c, text, 3, [c.showReal(h.time)] + t2);
    var ok2, t, rest2 := ReadReal(c, rest1, h.time, t2);
    var ok3, n, rest3 := ReadInt(c, rest2, |h.levels| - 1, others);
    ok, time, finest, rest := ok1 && dim == 3 && ok2 && ok3, t, n, rest3;
  }

  /** Problem bounds. */
  method ReadBounds(c: Codec, text: string, ghost h: Header, ghost others: seq<string>)
    returns (ok: bool, lo: seq<real>, hi: seq<real>, rest: string)
    ensures LosslessReals(c) && Doubles(c, h.probLo) && Doubles(c, h.probHi)
            && text == Unlines([ListLine(Shown(c.showReal, h.probLo))]
                               + ([ListLine(Shown(c.showReal, h.probHi))] + others))
            ==> ok && lo == h.probLo && hi == h.probHi && rest == Unlines(others)
  {
    var ok1, ok2, rest1;
    ok1, lo, rest1 := ReadRealList(c, text, h.probLo, [ListLine(Shown(c.showReal, h.probHi))] + others);
    ok2, hi, rest := ReadRealList(c, rest1, h.probHi, others);
    ok := ok1 && ok2;
  }

  lemma ListsReadable(c: Codec, h: Header)
    requires LosslessInts(c) && WellFormed(h)
    ensures Readable(c, c.showRatio, h.refRatio) && Readable(c, c.showInt, Steps(h))
  {
    forall i | 0 <= i < |h.refRatio|
      ensures Word(c.showRatio(h.refRatio[i])) && c.readInt(c.showRatio(h.refRatio[i])) == Some(h.refRatio[i])
    {
      assert RatioText(c, h.refRatio[i]);
    }
    forall i | 0 <= i < |Steps(h)|
      ensures Word(c.showInt(Steps(h)[i])) && c.readInt(c.showInt(Steps(h)[i])) == Some(Steps(h)[i])
    {
      assert IntText(c, Steps(h)[i]);
    }
  }

  /** Ratios, index boxes and the line of steps. */
  method ReadIndices(c: Codec, text: string, nlevels: int, ghost h: Header, ghost others: seq<string>)
    returns (ok: bool, ratios: seq<int>, boxes: seq<Box>, rest: string)
    ensures LosslessInts(c) && WellFormed(h) && nlevels == |h.levels|
            && text == Unlines([ListLine(Shown(c.showRatio, h.refRatio))] + ([DomainLine(c, h.probDomain)]
                               + ([ListLine(Shown(c.showInt, Steps(h)))] + others)))
            ==> ok && ratios == h.refRatio && boxes == h.probDomain && rest == Unlines(others)
  {
    if LosslessInts(c) && WellFormed(h) {
      ListsReadable(c, h);
    }
    ghost var t2 := [ListLine(Shown(c.showInt, Steps(h)))] + others;
    var ok1, ok2, ok3, rest1, rest2, steps;
    ok1, ratios, rest1 := ReadIntList(c, text, c.showRatio, h.refRatio, [DomainLine(c, h.probDomain)] + t2);
    ok2, boxes, rest2 := ReadDomain(c, rest1, nlevels, h.probDomain, t2);
    ok3, steps, rest := ReadIntList(c, rest2, c.showInt, Steps(h), others);
    ok := ok1 && ok2 && ok3;
  }

  /** Everything after the names. */
  method ReadBody(c: Codec, text: string, version: string, names: seq<string>, ghost h: Header)
    returns (ok: bool, finest: int, r: Header)
    ensures ok ==> r.version == version && r.names == names
    ensures Good(c, h) && text == Unlines(BodyLines(c, h))
            ==> ok && finest == |h.levels| - 1 && r == h.(version := version, names := names)
    ensures LosslessInts(c) && Line(text) == "\n" ==> !ok
  {
    ghost var t3 := SizeLines(c, h.cellSizes) + TailLines(c, h);
    ghost var t2 := [ListLine(Shown(c.showRatio, h.refRatio))] + ([DomainLine(c, h.probDomain)]
                    + ([ListLine(Shown(c.showInt, Steps(h)))] + t3));
    ghost var t1 := [ListLine(Shown(c.showReal, h.probLo))] + ([ListLine(Shown(c.showReal, h.probHi))] + t2);
    var ok1, time, n, rest1 := ReadScalars(c, text, h, t1);
    var ok2, lo, hi, rest2 := ReadBounds(c, rest1, h, t2);
    var ok3, ratios, boxes, rest3 := ReadIndices(c, rest2, n + 1, h, t3);
    var ok4, sizes, coord, width, levels := ReadTail(c, rest3, n + 1, h);
    ok, finest := ok1 && ok2 && ok3 && ok4, n;
    r := Header(version, names, time, lo, hi, ratios, boxes, sizes, coord, width, levels);
  }

  lemma FirstLines(c: Codec, h: Header)
    requires Good(c, h)
    ensures var text := Unlines(HeaderLines(c, h));
      && Line(text) == h.version && c.readInt(Line(Rest(text))) == Some(|h.names|)
      && Rest(Rest(text)) == Unlines(NameLines(h.names) + BodyLines(c, h))
  {
    TwoLines(c, h.version, |h.names|, NameLines(h.names) + BodyLines(c, h));
  }

  lemma TwoLines(c: Codec, version: string, n: int, others: seq<string>)
    requires LosslessInts(c) && version != "" && version[|version| - 1] == '\n' && OneLine(version[..|version| - 1])
    ensures var text := Unlines([version[..|version| - 1]] + ([c.showInt(n)] + others));
      && Line(text) == version && c.readInt(Line(Rest(text))) == Some(n) && Rest(Rest(text)) == Unlines(others)
  {
    ReadNext(version[..|version| - 1], [c.showInt(n)] + others);
    CountLine(c, n, others);
    assert version[..|version| - 1] + "\n" == version;
  }

  lemma CountLine(c: Codec, n: int, others: seq<string>)
    requires LosslessInts(c)
    ensures c.readInt(Line(Unlines([c.showInt(n)] + others))) == Some(n)
    ensures Rest(Unlines([c.showInt(n)] + others)) == Unlines(others)
  {
    assert IntText(c, n);
    WordIsLine(c.showInt(n));
    ReadNext(c.showInt(n), others);
  }

  method ReadNamesAndBody(c: Codec, text: string, version: string, ncomp: int, ghost h: Header)
    returns (ok: bool, finest: int, r: Header)
    ensures Good(c, h) && ncomp == |h.names| && text == Unlines(h.names + BodyLines(c, h))
            ==> ok && finest == |h.levels| - 1 && r == h.(version := version)
    ensures LosslessInts(c) && ncomp == 0 && Line(text) == "\n" ==> !ok
  {
    var names, rest := ReadNames(text, ncomp, h.names, BodyLines(c, h));
    assert Good(c, h) ==> PlainTexts(h.names);
    assert ncomp == 0 ==> names == [] && rest == text;
    ok, finest, r := ReadBody(c, rest, version, names, h);
  }

  /** Of a text that was written for a well-formed header the parser makes that header
      again, exactly when there is at least one name. */
  method ReadHeader(c: Codec, text: string, ghost h: Header) returns (ok: bool, ncomp: int, finest: int, r: Header)
    ensures Good(c, h) && text == Unlines(HeaderLines(c, h))
            ==> (ok <==> h.names != []) && (ok ==> ncomp == |h.names| && finest == |h.levels| - 1 && r == h)
  {
    if Good(c, h) && text == Unlines(HeaderLines(c, h)) {
      FirstLines(c, h);
      NamelessLine(c, h);
    }
    var version, rest := Line(text), Rest(text);
    var n := c.readInt(Line(rest));
    ncomp := if n.Some? then n.value else 0;
    ok, finest, r := ReadNamesAndBody(c, Rest(rest), version, ncomp, h);
    ok := ok && n.Some?;
  }

  lemma NamelessLine(c: Codec, h: Header)
    ensures h.names == [] ==> Line(Unlines(NameLines(h.names) + BodyLines(c, h))) == "\n"
  {
    ReadNext("", BodyLines(c, h));
  }

  class AmrexPlotFile {
    var version: string
    var ncomp: int
    var names: seq<string>
    var spacedim: int
    var time: real
    var finestLevel: int
    var nlevels: int
    var probLo: seq<real>
    var probHi: seq<real>
    var refRatio: seq<int>
    var probDomain: seq<Box>
    var levelSteps: seq<int>
    var cellSizes: seq<seq<real>>
    var coordSystem: int
    var bwidth: int
    var mfNames: seq<string>
    var ngrids: seq<int>
    var glohis: seq<seq<Extent>>

    constructor ()
    {
      version, ncomp, names, spacedim, time, finestLevel, nlevels := "", 0, [], 0, 0.0, 0, 0;
      probLo, probHi, refRatio, probDomain, levelSteps, cellSizes := [], [], [], [], [], [];
      coordSystem, bwidth, mfNames, ngrids, glohis := 0, 0, [], [], [];
    }

    ghost predicate HasLevels(h: Header)
      reads this`levelSteps, this`mfNames, this`ngrids, this`glohis
    {
      levelSteps == Steps(h) && ngrids == Counts(h) && glohis == Glohis(h) && mfNames == MfNames(h)
    }

    ghost predicate HasScalars(h: Header)
      reads this`spacedim, this`time, this`finestLevel, this`nlevels
    {
      spacedim == 3 && time == h.time && finestLevel == |h.levels| - 1 && nlevels == |h.levels|
    }

    ghost predicate HasLists(h: Header)
      reads this`probLo, this`probHi, this`refRatio, this`probDomain, this`cellSizes, this`coordSystem, this`bwidth
    {
      && probLo == h.probLo && probHi == h.probHi && refRatio == h.refRatio && probDomain == h.probDomain
      && cellSizes == h.cellSizes && coordSystem == h.coordSystem && bwidth == h.bwidth
    }

    ghost predicate HasBody(h: Header)
      reads this
    {
      HasScalars(h) && HasLists(h) && HasLevels(h)
    }

    /** The fields say what the header says. */
    ghost predicate Describes(h: Header)
      reads this
    {
      version == h.version && ncomp == |h.names| && names == h.names && HasBody(h)
    }

    method LevelsText(c: Codec, ghost h: Header) returns (s: string)
      requires HasBody(h)
      ensures s == Unlines(LevelLines(c, h, 0))
    {
      s := "";
      for ilev := 0 to nlevels
        invariant s + Unlines(LevelLines(c, h, ilev)) == Unlines(LevelLines(c, h, 0))
      {
        LevelText(c, h, ilev);
        ghost var tail := Unlines(LevelLines(c, h, ilev + 1));
        var head := Joined([c.showInt(ilev), c.showInt(ngrids[ilev]), c.showReal(time)]) + "\n";
        var step := c.showInt(levelSteps[ilev]) + "\n";
        var grids := GridsText(c, glohis[ilev]);
        Regroup(s, head, step, grids, mfNames[ilev] + "\n", tail);
        s := s + head + step + grids + (mfNames[ilev] + "\n");
      }
    }

    /** Writes the header; whatever header the fields describe, its lines come out. */
    method WriteHeader(c: Codec, ghost h: Header) returns (text: string)
      requires Describes(h) && h.version != "" && h.version[|h.version| - 1] == '\n'
      requires |h.probDomain| == |h.cellSizes| == |h.levels|
      ensures text == Unlines(HeaderLines(c, h))
    {
      ghost var full := Unlines(HeaderLines(c, h));
      text := version;
      ghost var rest := [c.showInt(|h.names|)] + (NameLines(h.names) + BodyLines(c, h));
      WroteLine("", h.version[..|h.version| - 1], rest, full);
      text := text + (c.showInt(ncomp) + "\n");
      WroteLine(version, c.showInt(|h.names|), NameLines(h.names) + BodyLines(c, h), full);
      ghost var before := text;
      text := text + (JoinedLines(names) + "\n");
      NamesText(names);
      WroteLines(before, NameLines(h.names), BodyLines(c, h), full);
      text := WriteBody(c, h, text, full);
    }

    method WriteBody(c: Codec, ghost h: Header, start: string, ghost full: string) returns (text: string)
      requires HasBody(h) && |h.probDomain| == |h.cellSizes| == |h.levels| && start + Unlines(BodyLines(c, h)) == full
      ensures text == full
    {
      ghost var t9 := SizeLines(c, h.cellSizes) + TailLines(c, h);
      ghost var t8 := [ListLine(Shown(c.showInt, Steps(h)))] + t9;
      ghost var t7 := [DomainLine(c, h.probDomain)] + t8;
      ghost var t6 := [ListLine(Shown(c.showRatio, h.refRatio))] + t7;
      ghost var t5 := [ListLine(Shown(c.showReal, h.probHi))] + t6;
      ghost var t4 := [ListLine(Shown(c.showReal, h.probLo))] + t5;
      ghost var t3 := [c.showInt(|h.levels| - 1)] + t4;
      ghost var t2 := [c.showReal(h.time)] + t3;
      text := Put(start, c.showInt(spacedim), "\n", t2, full);
      text := Put(text, c.showReal(time), "\n", t3, full);
      text := Put(text, c.showInt(finestLevel), "\n", t4, full);
      text := Put(text, Joined(Shown(c.showReal, probLo)), " \n", t5, full);
      text := Put(text, Joined(Shown(c.showReal, probHi)), " \n", t6, full);
      text := Put(text, Joined(Shown(c.showRatio, refRatio)), " \n", t7, full);
      var line := BoxesLine(c, probDomain);
      text := Put(text, line, " \n", t8, full);
      text := Put(text, Joined(Shown(c.showInt, levelSteps)), " \n", t9, full);
      text := WriteTail(c, h, text, full);
    }

    method WriteTail(c: Codec, ghost h: Header, start: string, ghost full: string) returns (text: string)
      requires HasBody(h) && |h.cellSizes| == |h.levels|
      requires start + Unlines(SizeLines(c, h.cellSizes) + TailLines(c, h)) == full
      ensures text == full
    {
      var sizes := SizesText(c, cellSizes);
      ghost var t2 := LevelLines(c, h, 0);
      ghost var t1 := [c.showInt(h.bwidth)] + t2;
      ghost var t0 := [c.showInt(h.coordSystem)] + t1;
      WroteLines(start, SizeLines(c, h.cellSizes), t0, full);
      text := start + sizes;
      text := Put(text, c.showInt(coordSystem), "\n", t1, full);
      text := Put(text, c.showInt(bwidth), "\n", t2, full);
      var levels := LevelsText(c, h);
      text := text + levels;
    }

    /** Parses a header into the fields. Of a text that was written for a well-formed
        header it makes that header again, exactly when there is at least one name:
        without names the writer leaves an empty line, which is then taken for the
        dimension. */
    method ParseHeader(c: Codec, text: string, ghost h: Header) returns (ok: bool)
      modifies this
      ensures Good(c, h) && text == Unlines(HeaderLines(c, h)) ==> (ok <==> h.names != []) && (ok ==> Describes(h))
    {
      var n, finest, r;
      ok, n, finest, r := ReadHeader(c, text, h);
      if ok {
        Assign(r, n, finest);
      }
    }

    /** Sets all fields; the numbers of components and levels are the ones that were read. */
    method Assign(r: Header, n: int, finest: int)
      modifies this
      ensures n == |r.names| && finest == |r.levels| - 1 ==> Describes(r)
    {
      AssignNames(r, n);
      AssignScalars(r, finest);
      AssignLists(r);
      AssignLevels(r);
    }

    method AssignNames(r: Header, n: int)
      modifies this`version, this`ncomp, this`names
      ensures version == r.version && ncomp == n && names == r.names
    {
      version, ncomp, names := r.version, n, r.names;
    }

    method AssignScalars(r: Header, finest: int)
      modifies this`spacedim, this`time, this`finestLevel, this`nlevels
      ensures finest == |r.levels| - 1 ==> HasScalars(r)
    {
      spacedim, time, finestLevel, nlevels := 3, r.time, finest, finest + 1;
    }

    method AssignLists(r: Header)
      modifies this`probLo, this`probHi, this`refRatio, this`probDomain, this`cellSizes, this`coordSystem, this`bwidth
      ensures HasLists(r)
    {
      probLo, probHi, refRatio, probDomain := r.probLo, r.probHi, r.refRatio, r.probDomain;
      cellSizes, coordSystem, bwidth := r.cellSizes, r.coordSystem, r.bwidth;
    }

    method AssignLevels(r: Header)
      modifies this`levelSteps, this`mfNames, this`ngrids, this`glohis
      ensures HasLevels(r)
    {
      levelSteps, ngrids, glohis, mfNames := Steps(r), Counts(r), Glohis(r), MfNames(r);
    }
  }

  /** Writing a file that describes a header and parsing the text into another file. */
  method WriteThenParse(c: Codec, f: AmrexPlotFile, g: AmrexPlotFile, ghost h: Header) returns (ok: bool)
    requires f.Describes(h) && Good(c, h)
    modifies g
    ensures ok <==> h.names != []
    ensures ok ==> g.Describes(h)
  {
    var text := f.WriteHeader(c, h);
    ok := g.ParseHeader(c, text, h);
  }

  /** Appends a line; what remains to be written still completes the text. */
  method Put(text: string, l: string, end: string, ghost others: seq<string>, ghost full: string) returns (r: string)
    requires end == "\n" || end == " \n"
    requires text + Unlines([if end == "\n" then l else l + " "] + others) == full
    ensures r == text + l + end && r + Unlines(others) == full
  {
    WroteLine(text, if end == "\n" then l else l + " ", others, full);
    assert l + " " + "\n" == l + " \n";
    r := text + l + end;
  }

  lemma WroteLine(text: string, l: string, others: seq<string>, full: string)
    requires text + Unlines([l] + others) == full
    ensures text + (l + "\n") + Unlines(others) == full
  {
    UnlinesCons(l, others);
  }

  lemma WroteLines(text: string, lines: seq<string>, others: seq<string>, full: string)
    requires text + Unlines(lines + others) == full
    ensures text + Unlines(lines) + Unlines(others) == full
  {
    UnlinesAppend(lines, others);
  }

  lemma Regroup(s: string, a: string, b: string, d: string, e: string, tail: string)
    ensures s + (a + (b + (d + (e + tail)))) == s + a + b + d + e + tail
  {
  }
}
