/** Merging drained fragments into one turn input (always_listening_session.ts, util/format.ts). */
module TurnInput {
  import opened Options
  import opened Text

  datatype Fragment = Fragment(speaker: string, displayName: Option<string>, text: string)

  datatype Input = Input(speaker: string, displayName: Option<string>, text: string)

  function FormatSpeakerLine(f: Fragment): string
  {
    "[" + (if f.displayName.Some? then f.displayName.value else f.speaker) + "] " + f.text
  }

  function Lines(fragments: seq<Fragment>): seq<string>
  {
    if |fragments| == 0 then [] else [FormatSpeakerLine(fragments[0])] + Lines(fragments[1..])
  }

  function Merge(fragments: seq<Fragment>): Option<Input>
  {
    if |fragments| == 0 then None
    else
      var last := fragments[|fragments| - 1];
      if |fragments| == 1 then Some(Input(last.speaker, last.displayName, last.text))
      else Some(Input(last.speaker, last.displayName, Join(Lines(fragments), "\n")))
  }

  predicate OneLine(s: string)
  {
    forall i :: 0 <= i < |s| ==> s[i] != '\n'
  }

  /** Cuts a text at its newlines. */
  function SplitLines(text: string, current: string): seq<string>
    decreases |text|
  {
    if |text| == 0 then [current]
    else if text[0] == '\n' then [current] + SplitLines(text[1..], "")
    else SplitLines(text[1..], current + [text[0]])
  }

  lemma {:induction false} SplitFirst(line: string, rest: string, current: string)
    requires OneLine(line)
    ensures SplitLines(line, current) == [current + line]
    ensures SplitLines(line + "\n" + rest, current) == [current + line] + SplitLines(rest, "")
    decreases |line|
  {
    var all := line + "\n" + rest;
    if |line| == 0 {
      assert all == "\n" + rest && all[1..] == rest && current + line == current;
    } else {
      SplitFirst(line[1..], rest, current + [line[0]]);
      assert all[1..] == line[1..] + "\n" + rest;
      assert current + [line[0]] + line[1..] == current + line;
    }
  }

  lemma {:induction false} SplitJoin(lines: seq<string>)
    requires |lines| > 0 && forall i :: 0 <= i < |lines| ==> OneLine(lines[i])
    ensures SplitLines(Join(lines, "\n"), "") == lines
    decreases |lines|
  {
    assert "" + lines[0] == lines[0];
    if |lines| == 1 {
      SplitFirst(lines[0], "", "");
    } else {
      SplitFirst(lines[0], Join(lines[1..], "\n"), "");
      SplitJoin(lines[1..]);
    }
  }

  lemma {:induction false} PiecesAreOneLine(text: string, current: string)
    requires OneLine(current)
    ensures forall line :: line in SplitLines(text, current) ==> OneLine(line)
    decreases |text|
  {
    if |text| > 0 {
      PiecesAreOneLine(text[1..], if text[0] == '\n' then "" else current + [text[0]]);
    }
  }

  lemma {:induction false} LinesAt(fragments: seq<Fragment>)
    ensures |Lines(fragments)| == |fragments| && forall i :: 0 <= i < |fragments| ==> Lines(fragments)[i] == FormatSpeakerLine(fragments[i])
    decreases |fragments|
  {
    if |fragments| > 0 { LinesAt(fragments[1..]); }
  }

  /**
   * Overlapping speakers' lines can be read back one by one from the merged text exactly
   * when no name and no text among them holds a newline.
   */
  lemma MergeKeepsEverything(fragments: seq<Fragment>)
    requires |fragments| > 1
    ensures Merge(fragments).Some? && Merge(fragments).value.speaker == fragments[|fragments| - 1].speaker
    ensures Merge(fragments).value.displayName == fragments[|fragments| - 1].displayName
    ensures |Lines(fragments)| == |fragments| && forall i :: 0 <= i < |fragments| ==>
      Lines(fragments)[i] == match fragments[i].displayName
                             case Some(name) => "[" + name + "] " + fragments[i].text
                             case None => "[" + fragments[i].speaker + "] " + fragments[i].text
    ensures SplitLines(Merge(fragments).value.text, "") == Lines(fragments)
      <==> forall i :: 0 <= i < |fragments| ==> OneLine(FormatSpeakerLine(fragments[i]))
  {
    LinesAt(fragments);
    PiecesAreOneLine(Merge(fragments).value.text, "");
    if forall i :: 0 <= i < |fragments| ==> OneLine(FormatSpeakerLine(fragments[i])) {
      SplitJoin(Lines(fragments));
    } else {
      var i :| 0 <= i < |fragments| && !OneLine(FormatSpeakerLine(fragments[i]));
      assert Lines(fragments)[i] in Lines(fragments);
    }
  }

  /** One fragment is taken over as it is, and none gives no turn. */
  lemma FewFragments(f: Fragment)
    ensures Merge([]) == None && Merge([f]) == Some(Input(f.speaker, f.displayName, f.text))
  {
  }

  /** A line break in one fragment makes three lines of two. */
  lemma LineBreakIsAmbiguous()
    ensures var fragments := [Fragment("a", None, "x\ny"), Fragment("b", None, "z")];
      SplitLines(Merge(fragments).value.text, "") != Lines(fragments)
  {
    var fragments := [Fragment("a", None, "x\ny"), Fragment("b", None, "z")];
    assert FormatSpeakerLine(fragments[0]) == "[a] x\ny" && "[a] x\ny"[5] == '\n';
    MergeKeepsEverything(fragments);
  }
}
