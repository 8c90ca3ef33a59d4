/** The string operations of the host language that the narration code relies on. */
module Text {

  /** The characters matched by `\s` and removed by `trim`, as inclusive ranges. */
  const SPACES: seq<(char, char)> := [
    ('\U{0009}', '\U{000D}'), (' ', ' '), ('\U{00A0}', '\U{00A0}'), ('\U{1680}', '\U{1680}'),
    ('\U{2000}', '\U{200A}'), ('\U{2028}', '\U{2029}'), ('\U{202F}', '\U{202F}'),
    ('\U{205F}', '\U{205F}'), ('\U{3000}', '\U{3000}'), ('\U{FEFF}', '\U{FEFF}')]

  predicate InRanges(c: char, ranges: seq<(char, char)>)
  {
    ranges != [] && (ranges[0].0 <= c <= ranges[0].1 || InRanges(c, ranges[1..]))
  }

  predicate IsSpace(c: char)
  {
    InRanges(c, SPACES)
  }

  lemma {:induction false} OutsideRanges(c: char, ranges: seq<(char, char)>)
    requires forall i :: 0 <= i < |ranges| ==> !(ranges[i].0 <= c <= ranges[i].1)
    ensures !InRanges(c, ranges)
  {
    if ranges != [] { OutsideRanges(c, ranges[1..]); }
  }

  predicate Blank(s: string)
  {
    forall i :: 0 <= i < |s| ==> IsSpace(s[i])
  }

  /** Nothing to trim at either end. */
  predicate Tight(s: string)
  {
    s != [] ==> !IsSpace(s[0]) && !IsSpace(s[|s| - 1])
  }

  /** Index of the first character at or after `i` that is not a space. */
  function SkipSpaces(s: string, i: nat): (r: nat)
    requires i <= |s|
    ensures i <= r <= |s| && (r < |s| ==> !IsSpace(s[r]))
    ensures forall k :: i <= k < r ==> IsSpace(s[k])
    decreases |s| - i
  {
    if i < |s| && IsSpace(s[i]) then SkipSpaces(s, i + 1) else i
  }

  /** One past the last character between `lo` and `i` that is not a space. */
  function DropSpaces(s: string, lo: nat, i: nat): (r: nat)
    requires lo <= i <= |s|
    ensures lo <= r <= i && (lo < r ==> !IsSpace(s[r - 1]))
    ensures forall k :: r <= k < i ==> IsSpace(s[k])
    decreases i
  {
    if lo < i && IsSpace(s[i - 1]) then DropSpaces(s, lo, i - 1) else i
  }

  function Trim(s: string): string
  {
    var lo := SkipSpaces(s, 0);
    s[lo..DropSpaces(s, lo, |s|)]
  }

  /** What `trim` removes: blank text before and after, leaving a tight middle. */
  lemma TrimSplits(s: string) returns (pre: string, post: string)
    ensures s == pre + Trim(s) + post
    ensures Blank(pre) && Blank(post) && Tight(Trim(s))
    ensures Trim(s) == [] ==> Blank(s)
  {
    hide SkipSpaces, DropSpaces, IsSpace;
    var lo := SkipSpaces(s, 0);
    var hi := DropSpaces(s, lo, |s|);
    pre, post := s[..lo], s[hi..];
  }

  /** The tight middle is the only one: two such splits have the same middle. */
  lemma TrimUnique(s: string, pre: string, mid: string, post: string)
    requires s == pre + mid + post && Blank(pre) && Blank(post) && Tight(mid)
    ensures Trim(s) == mid
  {
    var pre', post' := TrimSplits(s);
    var mid' := Trim(s);
    Position(s, pre, mid, post);
    Position(s, pre', mid', post');
    if mid != [] && mid' != [] {
      var last, last' := |pre| + |mid| - 1, |pre'| + |mid'| - 1;
      assert |pre| == |pre'| && last == last';
      assert mid == s[|pre|..last + 1];
      assert mid' == s[|pre'|..last' + 1];
    }
  }

  /** Where a trim split puts its middle: at the first and the last character that is not a space. */
  lemma Position(s: string, pre: string, mid: string, post: string)
    requires s == pre + mid + post && Blank(pre) && Blank(post) && Tight(mid)
    ensures mid == [] ==> Blank(s)
    ensures mid != [] ==> !IsSpace(s[|pre|]) && !IsSpace(s[|pre| + |mid| - 1])
    ensures forall i :: 0 <= i < |pre| || |pre| + |mid| <= i < |s| ==> IsSpace(s[i])
  {
    forall i | 0 <= i < |pre| || |pre| + |mid| <= i < |s|
      ensures IsSpace(s[i])
    {
      if i < |pre| { assert s[i] == pre[i]; } else { assert s[i] == post[i - |pre| - |mid|]; }
    }
  }

  /** `replace(/\s+/g, " ")`. */
  function CollapseSpaces(s: string): string
  {
    if s == [] then []
    else if IsSpace(s[0]) then " " + CollapseSpaces(s[SkipSpaces(s, 0)..])
    else [s[0]] + CollapseSpaces(s[1..])
  }

  function Concat(parts: seq<string>): string
  {
    if parts == [] then [] else parts[0] + Concat(parts[1..])
  }

  predicate StartsWith(s: string, prefix: string)
  {
    |prefix| <= |s| && s[..|prefix|] == prefix
  }

  /** `parts.join(separator)`. */
  function Join(parts: seq<string>, separator: string): string
  {
    if |parts| == 0 then "" else if |parts| == 1 then parts[0] else parts[0] + separator + Join(parts[1..], separator)
  }

  /** Trimming what is trimmed already changes nothing. */
  lemma TrimTwice(s: string)
    ensures Trim(Trim(s)) == Trim(s)
  {
    hide Trim;
    var pre, post := TrimSplits(s);
    assert "" + Trim(s) + "" == Trim(s);
    TrimUnique(Trim(s), "", Trim(s), "");
  }

  // ---- what white space a text loses ----

  /** The characters of `s` that are not white space, in order. */
  function Ink(s: string): string
  {
    if |s| == 0 then "" else (if IsSpace(s[0]) then "" else [s[0]]) + Ink(s[1..])
  }

  lemma {:induction false} InkConcat(a: string, b: string)
    ensures Ink(a + b) == Ink(a) + Ink(b)
    decreases |a|
  {
    hide IsSpace;
    if |a| == 0 {
      assert a + b == b;
    } else {
      assert (a + b)[1..] == a[1..] + b;
      InkConcat(a[1..], b);
    }
  }

  lemma {:induction false} InkOfBlank(s: string)
    ensures Blank(s) <==> Ink(s) == ""
    decreases |s|
  {
    hide IsSpace;
    if |s| > 0 {
      InkOfBlank(s[1..]);
      assert Blank(s) <==> IsSpace(s[0]) && Blank(s[1..]) by {
        assert forall i :: 1 <= i < |s| ==> s[i] == s[1..][i - 1];
      }
    }
  }

  /** Trimming loses white space only. */
  lemma InkOfTrim(s: string)
    ensures Ink(Trim(s)) == Ink(s)
  {
    hide Trim, IsSpace;
    var pre, post := TrimSplits(s);
    InkConcat(pre + Trim(s), post);
    InkConcat(pre, Trim(s));
    InkOfBlank(pre);
    InkOfBlank(post);
  }

  function InkOf(parts: seq<string>): string
  {
    if |parts| == 0 then "" else Ink(parts[0]) + InkOf(parts[1..])
  }

  lemma {:induction false} InkOfJoin(parts: seq<string>, separator: string)
    requires Blank(separator)
    ensures Ink(Join(parts, separator)) == InkOf(parts)
    decreases |parts|
  {
    hide IsSpace;
    InkOfBlank(separator);
    if |parts| > 1 {
      InkOfJoin(parts[1..], separator);
      InkConcat(parts[0] + separator, Join(parts[1..], separator));
      InkConcat(parts[0], separator);
    } else if |parts| == 1 {
      assert InkOf(parts[1..]) == "";
    }
  }

  // ---- words ----

  /** The maximal runs of characters that are not white space. */
  function Words(s: string): (r: seq<string>)
    ensures |s| > 0 && !IsSpace(s[0]) ==> |r| > 0
  {
    if |s| == 0 then []
    else if IsSpace(s[0]) then Words(s[1..])
    else if |s| == 1 || IsSpace(s[1]) then [[s[0]]] + Words(s[1..])
    else
      var rest := Words(s[1..]);
      [[s[0]] + rest[0]] + rest[1..]
  }

  lemma {:induction false} WordsSkip(s: string, i: nat)
    requires i <= |s| && forall k :: 0 <= k < i ==> IsSpace(s[k])
    ensures Words(s[i..]) == Words(s)
    decreases i
  {
    hide IsSpace;
    if i == 0 {
      assert s[0..] == s;
    } else {
      assert s[1..][i - 1..] == s[i..];
      WordsSkip(s[1..], i - 1);
    }
  }

  /** Collapsed white space puts one space between the words, and may leave one at either end. */
  lemma {:induction false} CollapsedAround(s: string) returns (lead: string, trail: string)
    ensures CollapseSpaces(s) == lead + Join(Words(s), " ") + trail
    ensures (lead == "" || lead == " ") && Blank(trail) && (lead == " " <==> |s| > 0 && IsSpace(s[0]))
    ensures |s| > 0 && |Words(s)| == 0 ==> CollapseSpaces(s) == " "
    decreases |s|
  {
    hide IsSpace;
    lead, trail := "", "";
    if |s| > 0 && IsSpace(s[0]) {
      var k := SkipSpaces(s, 0);
      assert k > 0;
      WordsSkip(s, k);
      var lead', trail' := CollapsedAround(s[k..]);
      assert lead' == "";
      lead, trail := " ", trail';
      assert " " + ("" + Join(Words(s), " ") + trail') == " " + Join(Words(s), " ") + trail';
      if |Words(s)| == 0 { assert |s[k..]| == 0; }
    } else if |s| > 0 {
      var lead', trail' := CollapsedAround(s[1..]);
      var rest := Words(s[1..]);
      var c := [s[0]];
      if |s| == 1 || IsSpace(s[1]) {
        assert Words(s) == [c] + rest && ([c] + rest)[1..] == rest;
        if |rest| == 0 {
          trail := lead' + trail';
          SpaceIsBlank();
          assert c + (lead' + "" + trail') == "" + c + trail;
        } else {
          trail := trail';
          assert c + (" " + Join(rest, " ") + trail') == "" + (c + " " + Join(rest, " ")) + trail;
        }
      } else {
        trail := trail';
        assert Words(s) == [c + rest[0]] + rest[1..];
        JoinFirst(c, rest);
        assert c + ("" + Join(rest, " ") + trail') == "" + (c + Join(rest, " ")) + trail;
      }
    }
  }

  lemma SpaceIsBlank()
    ensures Blank(" ")
  {
  }

  lemma Regroup(a: string, b: string, c: string, d: string)
    ensures (a + b) + c + d == a + (b + c + d)
  {
  }

  lemma JoinFirst(c: string, words: seq<string>)
    requires |words| > 0
    ensures Join([c + words[0]] + words[1..], " ") == c + Join(words, " ")
  {
    var all, tail := [c + words[0]] + words[1..], words[1..];
    assert all[1..] == tail;
    Regroup(c, words[0], " ", Join(tail, " "));
  }

  /** Nonempty and without white space. */
  predicate IsWord(w: string)
  {
    |w| > 0 && forall i :: 0 <= i < |w| ==> !IsSpace(w[i])
  }

  lemma {:induction false} WordsAreWords(s: string)
    ensures forall i :: 0 <= i < |Words(s)| ==> IsWord(Words(s)[i])
    decreases |s|
  {
    hide IsSpace;
    if |s| > 0 { WordsAreWords(s[1..]); }
  }

  lemma {:induction false} JoinedWordsAreTight(words: seq<string>)
    requires forall i :: 0 <= i < |words| ==> IsWord(words[i])
    ensures Tight(Join(words, " ")) && (|words| > 0 ==> |Join(words, " ")| > 0 && !IsSpace(Join(words, " ")[0]))
    decreases |words|
  {
    hide IsSpace;
    if |words| > 1 {
      JoinedWordsAreTight(words[1..]);
      var rest := Join(words[1..], " ");
      var all := words[0] + " " + rest;
      assert IsWord(words[0]) && IsWord(words[1..][0]);
      assert all[0] == words[0][0] && all[|all| - 1] == rest[|rest| - 1];
    } else if |words| == 1 {
      assert IsWord(words[0]);
    }
  }

  /** Collapsing white space and trimming leaves the words, one space apart. */
  lemma TidyIsWords(s: string)
    ensures Trim(CollapseSpaces(s)) == Join(Words(s), " ")
  {
    hide Trim, IsSpace, CollapseSpaces;
    var lead, trail := CollapsedAround(s);
    WordsAreWords(s);
    JoinedWordsAreTight(Words(s));
    SpaceIsBlank();
    TrimUnique(CollapseSpaces(s), lead, Join(Words(s), " "), trail);
  }

  lemma {:induction false} WordThenRest(w: string, rest: string)
    requires IsWord(w)
    ensures Words(w) == [w] && Words(w + " " + rest) == [w] + Words(rest)
    decreases |w|
  {
    hide IsSpace;
    SpaceIsBlank();
    var all := w + " " + rest;
    assert IsSpace(" "[0]);
    if |w| == 1 {
      assert w[1..] == "" && all[1..] == " " + rest && (" " + rest)[1..] == rest && w == [w[0]];
    } else {
      WordThenRest(w[1..], rest);
      assert all[1..] == w[1..] + " " + rest;
      assert all[1] == w[1] && w == [w[0]] + w[1..];
      assert [[w[0]] + w[1..]] + Words(rest) == [w] + Words(rest);
    }
  }

  lemma {:induction false} WordsOfJoin(words: seq<string>)
    requires forall i :: 0 <= i < |words| ==> IsWord(words[i])
    ensures Words(Join(words, " ")) == words
    decreases |words|
  {
    hide IsSpace;
    if |words| > 0 {
      WordThenRest(words[0], Join(words[1..], " "));
      WordsOfJoin(words[1..]);
      assert words == [words[0]] + words[1..];
    }
  }

  lemma {:induction false} WordsAcross(a: string, space: char, b: string)
    requires IsSpace(space)
    ensures Words(a + [space] + b) == Words(a) + Words(b)
    decreases |a|
  {
    hide IsSpace;
    var all := a + [space] + b;
    if |a| == 0 {
      assert all[1..] == b;
    } else {
      assert all[1..] == a[1..] + [space] + b;
      WordsAcross(a[1..], space, b);
      if !IsSpace(a[0]) {
        var rest, more := Words(a[1..]), Words(b);
        if |a| == 1 {
          assert all[1] == space && rest == [];
        } else {
          assert all[1] == a[1];
          if IsSpace(a[1]) {
            assert [[a[0]]] + (rest + more) == [[a[0]]] + rest + more;
          } else {
            assert [[a[0]] + rest[0]] + (rest + more)[1..] == [[a[0]] + rest[0]] + rest[1..] + more;
          }
        }
      }
    }
  }

  function WordsOf(parts: seq<string>): seq<string>
  {
    if |parts| == 0 then [] else Words(parts[0]) + WordsOf(parts[1..])
  }

  /** Texts joined by a space keep their words, each whole and in order. */
  lemma {:induction false} WordsOfJoined(parts: seq<string>)
    ensures Words(Join(parts, " ")) == WordsOf(parts)
    decreases |parts|
  {
    hide IsSpace, Words;
    SpaceIsBlank();
    assert IsSpace(" "[0]);
    if |parts| > 1 {
      WordsOfJoined(parts[1..]);
      WordsAcross(parts[0], ' ', Join(parts[1..], " "));
    } else if |parts| == 1 {
      assert Words(parts[0]) + WordsOf(parts[1..]) == Words(parts[0]);
    } else {
      NoWords();
    }
  }

  lemma NoWords()
    ensures Words("") == []
  {
  }

  lemma {:induction false} WordsBeforeBlank(s: string, post: string)
    requires Blank(post)
    ensures Words(s + post) == Words(s)
    decreases |post|
  {
    hide IsSpace, Words;
    var n := |post|;
    if n == 0 {
      assert s + post == s;
    } else {
      WordsBeforeBlank(s, post[..n - 1]);
      WordsAcross(s + post[..n - 1], post[n - 1], "");
      NoWords();
      assert s + post == s + post[..n - 1] + [post[n - 1]] + "";
    }
  }

  lemma WordsOfTrim(s: string)
    ensures Words(Trim(s)) == Words(s)
  {
    hide Trim, IsSpace, Words;
    var pre, post := TrimSplits(s);
    WordsSkip(s, |pre|);
    assert s[|pre|..] == Trim(s) + post;
    WordsBeforeBlank(Trim(s), post);
  }

  /** Two texts tidy to the same one exactly when they have the same words. */
  lemma TidyAlikeExactly(a: string, b: string)
    ensures Trim(CollapseSpaces(a)) == Trim(CollapseSpaces(b)) <==> Words(a) == Words(b)
  {
    hide Trim, CollapseSpaces, Words, IsWord, Join;
    TidyIsWords(a);
    TidyIsWords(b);
    WordsAreWords(a);
    WordsAreWords(b);
    WordsOfJoin(Words(a));
    WordsOfJoin(Words(b));
  }

  lemma InkOfCons(w: string, rest: seq<string>)
    ensures InkOf([w] + rest) == Ink(w) + InkOf(rest)
  {
    hide IsSpace;
    assert ([w] + rest)[1..] == rest;
  }

  lemma InkOfChar(c: char)
    ensures Ink([c]) == if IsSpace(c) then "" else [c]
  {
    hide IsSpace;
    assert [c][1..] == "";
  }

  /** Every word of a text is written out in full, in order: only white space is lost. */
  lemma {:induction false} InkOfWords(s: string)
    ensures InkOf(Words(s)) == Ink(s)
    decreases |s|
  {
    if |s| > 0 {
      InkOfWords(s[1..]);
      hide IsSpace, InkOf;
      InkOfChar(s[0]);
      var rest := Words(s[1..]);
      if !IsSpace(s[0]) {
        if |s| == 1 || IsSpace(s[1]) {
          InkOfCons([s[0]], rest);
        } else {
          InkConcat([s[0]], rest[0]);
          InkOfCons([s[0]] + rest[0], rest[1..]);
          InkOfCons(rest[0], rest[1..]);
          assert rest == [rest[0]] + rest[1..];
          Regroup([s[0]], Ink(rest[0]), InkOf(rest[1..]), "");
        }
      }
    }
  }

  lemma {:induction false} InRangesExactly(c: char, ranges: seq<(char, char)>)
    ensures InRanges(c, ranges) <==> exists i :: 0 <= i < |ranges| && ranges[i].0 <= c <= ranges[i].1
  {
    if |ranges| > 0 {
      InRangesExactly(c, ranges[1..]);
      if i :| 0 < i < |ranges| && ranges[i].0 <= c <= ranges[i].1 {
        assert ranges[1..][i - 1] == ranges[i];
      }
    }
  }

  /** The white space characters, by code point. */
  lemma SpacesExactly(c: char)
    ensures IsSpace(c) <==>
      9 <= c as int <= 13 || c as int in {0x20, 0xA0, 0x1680, 0x2028, 0x2029, 0x202F, 0x205F, 0x3000, 0xFEFF}
      || 0x2000 <= c as int <= 0x200A
  {
    hide InRanges;
    InRangesExactly(c, SPACES);
    assert |SPACES| == 10;
    assert forall i :: 0 <= i < 10 && SPACES[i].0 <= c <= SPACES[i].1 ==>
      i == 0 || i == 1 || i == 2 || i == 3 || i == 4 || i == 5 || i == 6 || i == 7 || i == 8 || i == 9;
    assert SPACES[0] == ('\U{0009}', '\U{000D}') && SPACES[1] == (' ', ' ') && SPACES[2] == ('\U{00A0}', '\U{00A0}');
    assert SPACES[3] == ('\U{1680}', '\U{1680}') && SPACES[4] == ('\U{2000}', '\U{200A}') && SPACES[5] == ('\U{2028}', '\U{2029}');
    assert SPACES[6] == ('\U{202F}', '\U{202F}') && SPACES[7] == ('\U{205F}', '\U{205F}');
    assert SPACES[8] == ('\U{3000}', '\U{3000}') && SPACES[9] == ('\U{FEFF}', '\U{FEFF}');
  }
}
