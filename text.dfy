/** The report text seen as lines. The multiline anchors `^` and `$` of the
    pre-filter patterns split only at `'\n'`, so a line here is a maximal run
    of characters without `'\n'`, and joining the lines back with `'\n'`
    gives the text again. */
module Text {

  /** The lines of `s`: one more than the number of `'\n'` in it. */
  function Lines(s: string): (lines: seq<string>)
    ensures |lines| >= 1
    ensures forall i | 0 <= i < |lines| :: '\n' !in lines[i]
    decreases |s|
  {
    if s == [] then [""]
    else
      var rest := Lines(s[1..]);
      if s[0] == '\n' then [""] + rest
      else [[s[0]] + rest[0]] + rest[1..]
  }

  /** The lines joined with `'\n'`. */
  function Unlines(lines: seq<string>): string
    requires |lines| >= 1
    decreases |lines|
  {
    if |lines| == 1 then lines[0] else lines[0] + "\n" + Unlines(lines[1..])
  }

  /** Joining a first line onto the join of the rest. */
  lemma {:induction false} UnlinesCons(line: string, rest: seq<string>)
    requires |rest| >= 1
    ensures Unlines([line] + rest) == line + "\n" + Unlines(rest)
  {
    assert ([line] + rest)[1..] == rest;
  }

  /** A character glued to the front of the first line is glued to the
      front of the joined text. */
  lemma {:induction false} UnlinesGlue(c: char, rest: seq<string>)
    requires |rest| >= 1
    ensures Unlines([[c] + rest[0]] + rest[1..]) == [c] + Unlines(rest)
  {
    var first := [c] + rest[0];
    if |rest| == 1 {
      assert [first] + rest[1..] == [first];
    } else {
      var tail := Unlines(rest[1..]);
      UnlinesCons(first, rest[1..]);
      assert Unlines(rest) == rest[0] + "\n" + tail;
      assert first + "\n" + tail == [c] + (rest[0] + "\n" + tail);
    }
  }

  /** Splitting and joining gives the text back. */
  lemma {:induction false} UnlinesLines(s: string)
    ensures Unlines(Lines(s)) == s
    decreases |s|
  {
    if s != [] {
      var rest := Lines(s[1..]);
      UnlinesLines(s[1..]);
      if s[0] == '\n' {
        UnlinesCons("", rest);
      } else {
        UnlinesGlue(s[0], rest);
      }
      assert s == [s[0]] + s[1..];
    }
  }

  /** A line-free prefix glues onto the first line of what follows. */
  lemma {:induction false} LinesOfPrefix(a: string, t: string)
    requires '\n' !in a
    ensures Lines(a + t) == [a + Lines(t)[0]] + Lines(t)[1..]
    decreases |a|
  {
    if a != [] {
      LinesOfPrefix(a[1..], t);
      assert (a + t)[1..] == a[1..] + t;
      assert (a + t)[0] == a[0];
      assert [a[0]] + (a[1..] + Lines(t)[0]) == a + Lines(t)[0];
    } else {
      var lt := Lines(t);
      assert a + t == t && a + lt[0] == lt[0];
      assert lt == [lt[0]] + lt[1..];
    }
  }

  /** A leading `'\n'` ends an empty first line. */
  lemma {:induction false} LinesOfNewline(u: string)
    ensures Lines("\n" + u) == [""] + Lines(u)
  {
    var nl := "\n" + u;
    assert nl[0] == '\n' && nl[1..] == u;
  }

  /** Joining lines that hold no `'\n'` and splitting again gives the same
      lines. */
  lemma {:induction false} LinesUnlines(lines: seq<string>)
    requires |lines| >= 1
    requires forall i | 0 <= i < |lines| :: '\n' !in lines[i]
    ensures Lines(Unlines(lines)) == lines
    decreases |lines|
  {
    if |lines| == 1 {
      LinesOfPrefix(lines[0], "");
      assert lines[0] + "" == lines[0];
    } else {
      var u := Unlines(lines[1..]);
      LinesUnlines(lines[1..]);
      LinesOfNewline(u);
      LinesOfPrefix(lines[0], "\n" + u);
      var after := Lines("\n" + u);
      assert after[0] == "" && after[1..] == lines[1..];
      assert Unlines(lines) == lines[0] + ("\n" + u);
      assert lines[0] + "" == lines[0];
      assert lines == [lines[0]] + lines[1..];
    }
  }
}
