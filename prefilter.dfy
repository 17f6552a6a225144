/** The text pre-filter of `parse_minions_from_minions_data`: two fixed,
    line-anchored shapes pick out minions that never produced JSON, record
    them with a fixed status, and blank their lines before the rest of the
    text goes to the JSON decoder. */
module Prefilter {
  import opened Wrappers
  import opened Hosts
  import opened Text

  /** Unicode `White_Space`, the characters the pattern's `\S` excludes. */
  predicate IsWhitespace(c: char)
  {
    || ('\t' <= c <= '\r')
    || c == ' '
    || c == '\U{85}'
    || c == '\U{A0}'
    || c == '\U{1680}'
    || ('\U{2000}' <= c <= '\U{200A}')
    || c == '\U{2028}'
    || c == '\U{2029}'
    || c == '\U{202F}'
    || c == '\U{205F}'
    || c == '\U{3000}'
  }

  /** A run of `\S*`: possibly empty, no whitespace. */
  predicate NoWhitespace(s: string)
  {
    forall i | 0 <= i < |s| :: !IsWhitespace(s[i])
  }

  /** A line pattern `^<prefix>(\S*)<suffix>$` and the status its captures get. */
  datatype Shape = Shape(prefix: string, suffix: string, status: HostStatus)

  /** `Minion <name> did not respond. No job will be sent.` */
  const DidNotRespondShape: Shape :=
    Shape("Minion ", " did not respond. No job will be sent.", DidNotRespond)

  /** `minion <name> was already deleted from tracker, probably a duplicate key` */
  const DeletedMinionShape: Shape :=
    Shape("minion ", " was already deleted from tracker, probably a duplicate key", DeletedMinion)

  /** A whole line of the given shape, declaratively. */
  predicate LineHasShape(shape: Shape, line: string, name: string)
  {
    line == shape.prefix + name + shape.suffix && NoWhitespace(name)
  }

  /** The capture of `shape` on one line, if the line matches. */
  function MatchLine(shape: Shape, line: string): Option<string>
  {
    var p, s := |shape.prefix|, |shape.suffix|;
    if |line| >= p + s && line[..p] == shape.prefix && line[|line| - s..] == shape.suffix
       && NoWhitespace(line[p..|line| - s])
    then Some(line[p..|line| - s])
    else None
  }

  /** The matcher captures exactly the names of lines of the shape. */
  lemma {:induction false} MatchLineIff(shape: Shape, line: string, name: string)
    ensures MatchLine(shape, line) == Some(name) <==> LineHasShape(shape, line, name)
  {
    var p, s := |shape.prefix|, |shape.suffix|;
    if LineHasShape(shape, line, name) {
      assert line[..p] == shape.prefix;
      assert line[|line| - s..] == shape.suffix;
      assert line[p..|line| - s] == name;
    }
    if MatchLine(shape, line) == Some(name) {
      assert line == line[..p] + line[p..|line| - s] + line[|line| - s..];
    }
  }

  /** The names captured on a sequence of lines, in line order
      (`captures_iter`). */
  function Captures(shape: Shape, lines: seq<string>): seq<string>
    decreases |lines|
  {
    if lines == [] then []
    else
      var last := lines[|lines| - 1];
      Captures(shape, lines[..|lines| - 1])
        + (match MatchLine(shape, last) case Some(name) => [name] case None => [])
  }

  /** Some line of `lines` matches `shape` and captures `name`. */
  predicate Captured(shape: Shape, lines: seq<string>, name: string)
  {
    exists i | 0 <= i < |lines| :: MatchLine(shape, lines[i]) == Some(name)
  }

  /** A name is captured exactly when some line matches with that name. */
  lemma {:induction false} CapturesIff(shape: Shape, lines: seq<string>, name: string)
    ensures name in Captures(shape, lines) <==> Captured(shape, lines, name)
    decreases |lines|
  {
    if lines != [] {
      var init := lines[..|lines| - 1];
      CapturesIff(shape, init, name);
      if exists i | 0 <= i < |lines| :: MatchLine(shape, lines[i]) == Some(name) {
        var i :| 0 <= i < |lines| && MatchLine(shape, lines[i]) == Some(name);
        if i < |lines| - 1 {
          assert init[i] == lines[i];
        }
      }
      if exists i | 0 <= i < |init| :: MatchLine(shape, init[i]) == Some(name) {
        var i :| 0 <= i < |init| && MatchLine(shape, init[i]) == Some(name);
        assert lines[i] == init[i];
      }
    }
  }

  /** The lines after `replace_all(.., "")`: a matching line becomes empty,
      every other line is kept. */
  function Blanked(shape: Shape, lines: seq<string>): (out: seq<string>)
  {
    seq(|lines|, i requires 0 <= i < |lines| =>
      if MatchLine(shape, lines[i]).Some? then "" else lines[i])
  }

  /** `regex.replace_all(text, "")` for one shape: the line content goes, the
      `'\n'` stays. */
  function ReplaceAll(shape: Shape, text: string): string
  {
    Unlines(Blanked(shape, Lines(text)))
  }

  /** The records the pre-filter inserts for the captured names. */
  function FailedHosts(names: seq<string>, status: HostStatus): map<string, Host>
  {
    map name | name in names :: Host(name, None, status)
  }

  /** The text after both shapes are removed, as handed to the decoder. */
  function CleanedText(text: string): string
  {
    ReplaceAll(DeletedMinionShape, ReplaceAll(DidNotRespondShape, text))
  }

  /** The map after both passes: did-not-respond first, deleted second, so
      a name captured by both ends up `DeletedMinion`. */
  function PrefilterHosts(text: string): map<string, Host>
  {
    FailedHosts(Captures(DidNotRespondShape, Lines(text)), DidNotRespond)
      + FailedHosts(Captures(DeletedMinionShape, Lines(ReplaceAll(DidNotRespondShape, text))), DeletedMinion)
  }

  /** Replacing keeps the line structure: the lines of the result are the
      blanked lines of the input. */
  lemma {:induction false} ReplaceAllLines(shape: Shape, text: string)
    ensures Lines(ReplaceAll(shape, text)) == Blanked(shape, Lines(text))
  {
    var b := Blanked(shape, Lines(text));
    assert forall i | 0 <= i < |b| :: '\n' !in b[i];
    LinesUnlines(b);
  }

  /** No line matches both shapes: their first words differ in case. */
  lemma {:induction false} ShapesAreDisjoint(line: string)
    ensures !(MatchLine(DidNotRespondShape, line).Some? && MatchLine(DeletedMinionShape, line).Some?)
  {
  }

  /** An emptied line matches no shape. */
  lemma {:induction false} BlankLineMatchesNothing(shape: Shape)
    requires |shape.prefix| > 0
    ensures MatchLine(shape, "").None?
  {
  }

  /** Blanking the did-not-respond lines loses no deleted-minion line, so the
      second pass captures what it would have captured on the raw text: the
      order of the two passes only decides which status wins on a name
      captured by both. */
  lemma {:induction false} SecondPassSeesAllDeleted(lines: seq<string>)
    ensures Captures(DeletedMinionShape, Blanked(DidNotRespondShape, lines))
              == Captures(DeletedMinionShape, lines)
    decreases |lines|
  {
    if lines != [] {
      var init := lines[..|lines| - 1];
      var b := Blanked(DidNotRespondShape, lines);
      assert b[..|b| - 1] == Blanked(DidNotRespondShape, init);
      SecondPassSeesAllDeleted(init);
      ShapesAreDisjoint(lines[|lines| - 1]);
      var last := lines[|lines| - 1];
      if MatchLine(DidNotRespondShape, last).Some? {
        assert b[|b| - 1] == "";
        BlankLineMatchesNothing(DeletedMinionShape);
      }
    }
  }

  /** Both passes read the raw lines. */
  lemma {:induction false} PrefilterHostsOnRawLines(text: string)
    ensures PrefilterHosts(text)
              == FailedHosts(Captures(DidNotRespondShape, Lines(text)), DidNotRespond)
                 + FailedHosts(Captures(DeletedMinionShape, Lines(text)), DeletedMinion)
  {
    ReplaceAllLines(DidNotRespondShape, text);
    SecondPassSeesAllDeleted(Lines(text));
  }

  /** What the pre-filter records: every captured name, with the status of
      the last shape that captured it, no data, and its own name. */
  lemma {:induction false} PrefilterHostsSpec(text: string, name: string)
    ensures name in PrefilterHosts(text) <==>
              Captured(DidNotRespondShape, Lines(text), name) || Captured(DeletedMinionShape, Lines(text), name)
    ensures Captured(DeletedMinionShape, Lines(text), name) ==>
              PrefilterHosts(text)[name] == Host(name, None, DeletedMinion)
    ensures Captured(DidNotRespondShape, Lines(text), name) && !Captured(DeletedMinionShape, Lines(text), name) ==>
              PrefilterHosts(text)[name] == Host(name, None, DidNotRespond)
  {
    var lines := Lines(text);
    PrefilterHostsOnRawLines(text);
    CapturesIff(DidNotRespondShape, lines, name);
    CapturesIff(DeletedMinionShape, lines, name);
  }

  /** The decoder never sees a line of either shape; every other line reaches
      it unchanged and in place. */
  lemma {:induction false} CleanedTextSpec(text: string)
    ensures |Lines(CleanedText(text))| == |Lines(text)|
    ensures forall i | 0 <= i < |Lines(text)| ::
              && MatchLine(DidNotRespondShape, Lines(CleanedText(text))[i]).None?
              && MatchLine(DeletedMinionShape, Lines(CleanedText(text))[i]).None?
    ensures forall i | 0 <= i < |Lines(text)| ::
              Lines(CleanedText(text))[i] == (
                if MatchLine(DidNotRespondShape, Lines(text)[i]).Some?
                   || MatchLine(DeletedMinionShape, Lines(text)[i]).Some?
                then "" else Lines(text)[i])
  {
    var once := ReplaceAll(DidNotRespondShape, text);
    ReplaceAllLines(DidNotRespondShape, text);
    ReplaceAllLines(DeletedMinionShape, once);
    forall i | 0 <= i < |Lines(text)|
      ensures MatchLine(DidNotRespondShape, Lines(CleanedText(text))[i]).None?
      ensures MatchLine(DeletedMinionShape, Lines(CleanedText(text))[i]).None?
    {
      ShapesAreDisjoint(Lines(once)[i]);
      ShapesAreDisjoint(Lines(text)[i]);
    }
  }

  /** The `captures_iter` loop: the captured names, pushed in line order. */
  method CaptureNames(shape: Shape, text: string) returns (failed: seq<string>)
    ensures failed == Captures(shape, Lines(text))
  {
    var lines := Lines(text);
    failed := [];
    var i := 0;
    while i < |lines|
      invariant 0 <= i <= |lines|
      invariant failed == Captures(shape, lines[..i])
    {
      assert lines[..i + 1][..i] == lines[..i];
      match MatchLine(shape, lines[i]) {
        case Some(name) => failed := failed + [name];
        case None =>
      }
      i := i + 1;
    }
    assert lines[..|lines|] == lines;
  }

  /** Inserting one more captured name over a map that already holds the
      earlier ones. */
  lemma {:induction false} FailedHostsSnoc(minions: map<string, Host>, names: seq<string>, name: string, status: HostStatus)
    ensures minions + FailedHosts(names + [name], status)
              == (minions + FailedHosts(names, status))[name := Host(name, None, status)]
  {
    var lhs := minions + FailedHosts(names + [name], status);
    var rhs := (minions + FailedHosts(names, status))[name := Host(name, None, status)];
    assert forall n :: n in names + [name] <==> n in names || n == name;
    assert lhs.Keys == rhs.Keys;
  }

  /** The insertion loop: each captured name gets a record with the shape's
      status; a later insertion of the same key replaces the earlier one. */
  method InsertFailed(minions: map<string, Host>, failed: seq<string>, status: HostStatus)
    returns (result: map<string, Host>)
    ensures result == minions + FailedHosts(failed, status)
  {
    result := minions;
    var i := 0;
    while i < |failed|
      invariant 0 <= i <= |failed|
      invariant result == minions + FailedHosts(failed[..i], status)
    {
      var minion := failed[i];
      assert failed[..i + 1] == failed[..i] + [minion];
      FailedHostsSnoc(minions, failed[..i], minion, status);
      result := result[minion := Host(minion, None, status)];
      i := i + 1;
    }
    assert failed[..|failed|] == failed;
  }

  /** One block of the pre-filter: capture, blank, insert. */
  method StripShape(shape: Shape, minions: map<string, Host>, text: string)
    returns (result: map<string, Host>, data: string)
    ensures result == minions + FailedHosts(Captures(shape, Lines(text)), shape.status)
    ensures data == ReplaceAll(shape, text)
  {
    var failed := CaptureNames(shape, text);
    data := ReplaceAll(shape, text);
    result := InsertFailed(minions, failed, shape.status);
  }

  /** Both blocks, did-not-respond first, on a fresh map. */
  method RunPrefilter(text: string) returns (minions: map<string, Host>, data: string)
    ensures minions == PrefilterHosts(text)
    ensures data == CleanedText(text)
  {
    var once;
    minions, once := StripShape(DidNotRespondShape, map[], text);
    assert minions == FailedHosts(Captures(DidNotRespondShape, Lines(text)), DidNotRespond);
    minions, data := StripShape(DeletedMinionShape, minions, once);
  }
}
