/** Lines, words and numbers of the text of a plot file header. */
module HeaderText {
  import opened Basics

  /** The characters at which Python splits and which it strips. */
  predicate IsSpace(c: char) {
    var n := c as int;
    || 0x09 <= n <= 0x0d || 0x1c <= n <= 0x20 || n == 0x85 || n == 0xa0 || n == 0x1680
    || 0x2000 <= n <= 0x200a || n == 0x2028 || n == 0x2029 || n == 0x202f || n == 0x205f || n == 0x3000
  }

  predicate IsPunctuation(c: char) { c == '(' || c == ')' || c == ',' }

  /** A word: not empty, no blanks, none of the marks that surround index vectors. */
  ghost predicate Word(s: string) { s != "" && forall i :: 0 <= i < |s| ==> !IsSpace(s[i]) && !IsPunctuation(s[i]) }

  ghost predicate Words(w: seq<string>) { forall i :: 0 <= i < |w| ==> Word(w[i]) }

  /** No end mark of a line; in text mode a carriage return is read as one. */
  ghost predicate OneLine(s: string) { '\n' !in s && '\r' !in s }

  // ------------------------------------------------------------------- lines

  /** Length of the first line, its end mark included. */
  function LineLength(s: string): (n: nat)
    ensures n <= |s| && (s != "" ==> n > 0)
  {
    if s == "" then 0 else if s[0] == '\n' then 1 else 1 + LineLength(s[1..])
  }

  function Line(s: string): string { s[..LineLength(s)] }

  function Rest(s: string): string { s[LineLength(s)..] }

  function Unlines(lines: seq<string>): string {
    if lines == [] then "" else lines[0] + "\n" + Unlines(lines[1..])
  }

  lemma {:induction false} LineOf(l: string, rest: string)
    requires OneLine(l)
    ensures LineLength(l + "\n" + rest) == |l| + 1
  {
    var s := l + "\n" + rest;
    if l != "" {
      assert s[1..] == l[1..] + "\n" + rest;
      LineOf(l[1..], rest);
    }
  }

  /** Reading a line gives the first line and leaves the others. */
  lemma NextLine(lines: seq<string>, pos: nat)
    requires pos < |lines| && OneLine(lines[pos])
    ensures Line(Unlines(lines[pos..])) == lines[pos] + "\n"
    ensures Rest(Unlines(lines[pos..])) == Unlines(lines[pos + 1..])
  {
    var l, rest := lines[pos], Unlines(lines[pos + 1..]);
    assert lines[pos..][1..] == lines[pos + 1..];
    assert Unlines(lines[pos..]) == l + "\n" + rest;
    LineOf(l, rest);
    assert (l + "\n" + rest)[..|l| + 1] == l + "\n" && (l + "\n" + rest)[|l| + 1..] == rest;
  }

  lemma {:induction false} UnlinesAppend(a: seq<string>, b: seq<string>)
    ensures Unlines(a + b) == Unlines(a) + Unlines(b)
  {
    if a == [] {
      assert a + b == b;
    } else {
      assert (a + b)[1..] == a[1..] + b;
      UnlinesAppend(a[1..], b);
    }
  }

  // ------------------------------------------------------------------- words

  function WordLength(s: string): (n: nat)
    ensures n <= |s|
  {
    if s == "" || IsSpace(s[0]) then 0 else 1 + WordLength(s[1..])
  }

  /** The words between blanks. */
  function Split(s: string): seq<string>
    decreases |s|
  {
    if s == "" then []
    else if IsSpace(s[0]) then Split(s[1..])
    else [s[..WordLength(s)]] + Split(s[WordLength(s)..])
  }

  lemma {:induction false} WordLengthOf(w: string, rest: string)
    requires forall i :: 0 <= i < |w| ==> !IsSpace(w[i])
    requires rest == "" || IsSpace(rest[0])
    ensures WordLength(w + rest) == |w|
  {
    if w == "" {
      assert w + rest == rest;
    } else {
      assert (w + rest)[1..] == w[1..] + rest;
      WordLengthOf(w[1..], rest);
    }
  }

  lemma SplitWord(w: string, rest: string)
    requires Word(w) && (rest == "" || IsSpace(rest[0]))
    ensures Split(w + rest) == [w] + Split(rest)
  {
    WordLengthOf(w, rest);
    assert (w + rest)[..|w|] == w && (w + rest)[|w|..] == rest;
  }

  /** Words with a blank after each. */
  function Spaced(words: seq<string>): string {
    if words == [] then "" else words[0] + " " + Spaced(words[1..])
  }

  lemma SplitBlank(c: char, rest: string)
    requires IsSpace(c)
    ensures Split([c] + rest) == Split(rest)
  {
    assert ([c] + rest)[1..] == rest;
  }

  lemma SplitWordBlank(w: string, tail: string)
    requires Word(w)
    ensures Split(w + " " + tail) == [w] + Split(tail)
  {
    assert w + " " + tail == w + ([' '] + tail);
    SplitWord(w, [' '] + tail);
    SplitBlank(' ', tail);
  }

  lemma SpacedFirst(words: seq<string>, rest: string)
    requires words != []
    ensures Spaced(words) + rest == words[0] + " " + (Spaced(words[1..]) + rest)
  {
  }

  lemma FirstAndRest<T>(s: seq<T>, t: seq<T>)
    requires s != []
    ensures [s[0]] + (s[1..] + t) == s + t
  {
  }

  lemma {:induction false} SplitSpaced(words: seq<string>, rest: string)
    requires Words(words)
    ensures Split(Spaced(words) + rest) == words + Split(rest)
  {
    if words == [] {
      assert Spaced(words) + rest == rest;
    } else {
      SpacedFirst(words, rest);
      SplitWordBlank(words[0], Spaced(words[1..]) + rest);
      SplitSpaced(words[1..], rest);
      FirstAndRest(words, Split(rest));
    }
  }

  /** Words joined by single blanks, as a list is written. */
  function Joined(words: seq<string>): string {
    if words == [] then "" else if |words| == 1 then words[0] else words[0] + " " + Joined(words[1..])
  }

  lemma {:induction false} JoinedIsSpaced(words: seq<string>)
    requires words != []
    ensures Joined(words) + " " == Spaced(words)
  {
    if |words| > 1 {
      JoinedIsSpaced(words[1..]);
    }
  }

  /** Splitting a written list, with blanks after it, gives its words. */
  lemma SplitJoined(words: seq<string>)
    requires Words(words)
    ensures Split(Joined(words) + " \n") == words
    ensures words != [] ==> Split(Joined(words) + "\n") == words
  {
    SplitBlank('\n', "");
    SplitBlank(' ', "\n");
    if words == [] {
      assert Joined(words) + " \n" == [' '] + "\n" && "\n" == ['\n'] + "";
    } else {
      JoinedIsSpaced(words);
      SplitSpaced(words, "\n");
      assert Joined(words) + " \n" == Spaced(words) + "\n" && "\n" == ['\n'] + "";
      SplitEnd(words);
    }
  }

  lemma {:induction false} SplitEnd(words: seq<string>)
    requires Words(words) && words != []
    ensures Split(Joined(words) + "\n") == words
  {
    if |words| == 1 {
      SplitWord(words[0], "\n");
      SplitBlank('\n', "");
      assert "\n" == ['\n'] + "";
    } else {
      var tail := Joined(words[1..]) + "\n";
      assert Joined(words) + "\n" == words[0] + " " + tail;
      SplitWordBlank(words[0], tail);
      SplitEnd(words[1..]);
      assert words == [words[0]] + words[1..];
    }
  }

  // ------------------------------------------------------ trailing blanks, marks

  /** A string without its trailing blanks. */
  function RStrip(s: string): string {
    if s == "" || !IsSpace(s[|s| - 1]) then s else RStrip(s[..|s| - 1])
  }

  ghost predicate NoTrailingBlank(s: string) { s == "" || !IsSpace(s[|s| - 1]) }

  lemma RStripLine(s: string)
    requires NoTrailingBlank(s)
    ensures RStrip(s + "\n") == s
  {
    assert (s + "\n")[..|s + "\n"| - 1] == s;
  }

  /** Parentheses and commas replaced by blanks. */
  function Blanked(s: string): (r: string)
    ensures |r| == |s| && forall i :: 0 <= i < |s| ==> r[i] == if IsPunctuation(s[i]) then ' ' else s[i]
  {
    seq(|s|, i requires 0 <= i < |s| => if IsPunctuation(s[i]) then ' ' else s[i])
  }

  lemma BlankedAppend(a: string, b: string)
    ensures Blanked(a + b) == Blanked(a) + Blanked(b)
  {
  }

  lemma BlankedWord(w: string)
    requires Word(w)
    ensures Blanked(w) == w
  {
  }

  // ------------------------------------------------------- text that reads as words

  /** Wherever it stands before other text, `s` reads as the words `w`. */
  ghost predicate Reads(s: string, w: seq<string>) { forall rest: string :: Split(s + rest) == w + Split(rest) }

  lemma NothingReads()
    ensures Reads("", [])
  {
    forall rest: string
      ensures Split("" + rest) == [] + Split(rest)
    {
      assert "" + rest == rest;
    }
  }

  lemma BlankReads(c: char)
    requires IsSpace(c)
    ensures Reads([c], [])
  {
    forall rest: string
      ensures Split([c] + rest) == [] + Split(rest)
    {
      SplitBlank(c, rest);
    }
  }

  lemma BlanksRead()
    ensures Reads("", []) && Reads(" ", []) && Reads("  ", []) && Reads(" \n", [])
  {
    NothingReads();
    BlankReads(' ');
    BlankReads('\n');
    assert [' '] == " " && " " + " " == "  " && ['\n'] == "\n" && " " + "\n" == " \n";
    ReadsAppend(" ", [], " ", []);
    ReadsAppend(" ", [], "\n", []);
  }

  lemma ReadsAppend(s: string, w: seq<string>, t: string, x: seq<string>)
    requires Reads(s, w) && Reads(t, x)
    ensures Reads(s + t, w + x)
  {
    forall rest: string
      ensures Split(s + t + rest) == w + x + Split(rest)
    {
      assert s + t + rest == s + (t + rest);
      assert Split(s + (t + rest)) == w + Split(t + rest);
    }
  }

  lemma ReadsBlanks(s: string, w: seq<string>, t: string)
    requires Reads(s, w) && Reads(t, [])
    ensures Reads(s + t, w) && Reads(t + s, w)
  {
    ReadsAppend(s, w, t, []);
    ReadsAppend(t, [], s, w);
    assert w + [] == w && [] + w == w;
  }

  lemma SpacedReads(words: seq<string>)
    requires Words(words)
    ensures Reads(Spaced(words), words)
  {
    forall rest: string
      ensures Split(Spaced(words) + rest) == words + Split(rest)
    {
      SplitSpaced(words, rest);
    }
  }

  lemma ReadsAlone(s: string, w: seq<string>)
    requires Reads(s, w)
    ensures Split(s) == w
  {
    assert s + "" == s;
    assert Split(s + "") == w + Split("");
  }

  lemma {:induction false} WordLengthBlank(t: string, c: char)
    requires IsSpace(c)
    ensures WordLength(t + [c]) == WordLength(t)
  {
    if t != "" && !IsSpace(t[0]) {
      assert (t + [c])[1..] == t[1..] + [c];
      WordLengthBlank(t[1..], c);
    }
  }

  lemma {:induction false} SplitTrailingBlank(t: string, c: char)
    requires IsSpace(c)
    ensures Split(t + [c]) == Split(t)
    decreases |t|
  {
    var s := t + [c];
    if t == "" {
      assert s == [c] + "";
      SplitBlank(c, "");
    } else if IsSpace(t[0]) {
      assert s[1..] == t[1..] + [c];
      SplitTrailingBlank(t[1..], c);
    } else {
      WordLengthBlank(t, c);
      var n := WordLength(t);
      assert s[..n] == t[..n] && s[n..] == t[n..] + [c];
      SplitTrailingBlank(t[n..], c);
    }
  }

  /** Trailing blanks do not matter to the words, marks blanked out or not. */
  lemma {:induction false} StripKeepsWords(s: string)
    ensures Split(Blanked(RStrip(s))) == Split(Blanked(s))
    decreases |s|
  {
    if s != "" && IsSpace(s[|s| - 1]) {
      var t, c := s[..|s| - 1], s[|s| - 1];
      StripKeepsWords(t);
      assert Blanked(s) == Blanked(t) + [c];
      SplitTrailingBlank(Blanked(t), c);
    }
  }
}
