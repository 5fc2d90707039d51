/** Names as the store types them: trimming, words and letter case, over ASCII. */
module Text {

  predicate IsSpace(c: char) {
    c == ' ' || '\t' <= c <= '\r'
  }

  function TrimLeft(s: string): string {
    if s != "" && IsSpace(s[0]) then TrimLeft(s[1..]) else s
  }

  function TrimRight(s: string): string {
    if s != "" && IsSpace(s[|s|-1]) then TrimRight(s[..|s|-1]) else s
  }

  function Trim(s: string): string {
    TrimRight(TrimLeft(s))
  }

  function LowerChar(c: char): char {
    if 'A' <= c <= 'Z' then c - 'A' + 'a' else c
  }

  function Lower(s: string): string {
    if s == "" then "" else Lower(s[..|s|-1]) + [LowerChar(s[|s|-1])]
  }

  /** Every run of white space becomes one blank. */
  function Squeezed(s: string): string {
    if s == "" then ""
    else
      var init, last := s[..|s|-1], s[|s|-1];
      if !IsSpace(last) then Squeezed(init) + [last]
      else if init != "" && IsSpace(init[|init|-1]) then Squeezed(init)
      else Squeezed(init) + " "
  }

  /** The key names match by: lower case, white space collapsed. */
  function Norm(s: string): string {
    Lower(Squeezed(Trim(s)))
  }

  lemma OneLetter(c: char)
    requires !IsSpace(c)
    ensures Trim([c]) == [c] && Lower([c]) == [LowerChar(c)] && Norm([c]) == [LowerChar(c)]
  {
    assert [c][..0] == "";
    assert TrimLeft([c]) == [c] && TrimRight([c]) == [c];
    assert Squeezed([c]) == [c];
  }

  /** Capitals become the small letters of the same place in the alphabet; nothing else changes. */
  lemma LowerIsLetterByLetter(c: char)
    ensures LowerChar(c) == if 'A' <= c <= 'Z' then (c as int + 32) as char else c
    ensures LowerChar('A') == 'a' && LowerChar('Z') == 'z' && LowerChar(LowerChar(c)) == LowerChar(c)
  {
  }

  /** A text in small letters is the text, letter for letter. */
  lemma {:induction false} EachLetterInItsPlace(s: string)
    ensures |Lower(s)| == |s| && forall i :: 0 <= i < |s| ==> Lower(s)[i] == LowerChar(s[i])
  {
    hide LowerChar;
    if s != "" { EachLetterInItsPlace(s[..|s|-1]); }
  }

  /** White space is the blank and the five control characters from tab to return. */
  lemma WhatIsBlank(c: char)
    ensures IsSpace(c) <==> c as int == 32 || c as int == 9 || c as int == 10 || c as int == 11 || c as int == 12 || c as int == 13
  {
  }

  predicate Blank(s: string) {
    forall c <- s :: IsSpace(c)
  }

  lemma {:induction false} LeftTrims(s: string) returns (a: string)
    ensures s == a + TrimLeft(s) && Blank(a) && (TrimLeft(s) != "" ==> !IsSpace(TrimLeft(s)[0]))
  {
    if s != "" && IsSpace(s[0]) {
      var b := LeftTrims(s[1..]);
      a := [s[0]] + b;
    } else {
      a := "";
    }
  }

  lemma {:induction false} RightTrims(s: string) returns (b: string)
    ensures s == TrimRight(s) + b && Blank(b) && (TrimRight(s) != "" ==> !IsSpace(TrimRight(s)[|TrimRight(s)|-1]))
  {
    if s != "" && IsSpace(s[|s|-1]) {
      var c := RightTrims(s[..|s|-1]);
      b := c + [s[|s|-1]];
      assert s == s[..|s|-1] + [s[|s|-1]];
    } else {
      b := "";
    }
  }

  /** Trimming takes the white space off both ends, and nothing else. */
  lemma WhatTrimmingLeaves(s: string)
    ensures var t := Trim(s);
      && (exists a, b :: s == a + t + b && Blank(a) && Blank(b))
      && (t != "" ==> !IsSpace(t[0]) && !IsSpace(t[|t|-1]))
  {
    hide IsSpace;
    var a := LeftTrims(s);
    var b := RightTrims(TrimLeft(s));
    assert s == a + Trim(s) + b;
    assert Trim(s) != "" ==> Trim(s)[0] == TrimLeft(s)[0];
  }

  /** The words of a text: its stretches without white space. */
  function Words(s: string): (ws: seq<string>)
    ensures s != "" && !IsSpace(s[|s|-1]) ==> ws != []
  {
    if s == "" then []
    else
      var init, last := s[..|s|-1], s[|s|-1];
      var before := Words(init);
      if IsSpace(last) then before
      else if init == "" || IsSpace(init[|init|-1]) then before + [[last]]
      else before[..|before|-1] + [before[|before|-1] + [last]]
  }

  function Joined(ws: seq<string>): string {
    if ws == [] then "" else if |ws| == 1 then ws[0] else Joined(ws[..|ws|-1]) + " " + ws[|ws|-1]
  }

  lemma {:induction false} SqueezingJoinsTheWords(s: string)
    requires s != "" && !IsSpace(s[0])
    ensures Words(s) != [] && Squeezed(s) == Joined(Words(s)) + if IsSpace(s[|s|-1]) then " " else ""
  {
    hide IsSpace, Joined;
    var init, last := s[..|s|-1], s[|s|-1];
    if init == "" {
      assert s == [last] && Words(init) + [[last]] == [[last]] && Squeezed(init) + [last] == [last];
      OneWord([last]);
      assert [last] + "" == [last];
    } else {
      SqueezingJoinsTheWords(init);
      if !IsSpace(last) && IsSpace(init[|init|-1]) {
        OneWordMore(Words(init), [last]);
      } else if !IsSpace(last) {
        LongerLast(Words(init), last);
      }
    }
  }

  lemma OneWord(w: string)
    ensures Joined([w]) == w
  {
  }

  lemma OneWordMore(ws: seq<string>, w: string)
    requires ws != []
    ensures Joined(ws + [w]) == Joined(ws) + " " + w
  {
    assert (ws + [w])[..|ws|] == ws;
  }

  lemma LongerLastWord(ws: seq<string>, w: string, c: char)
    ensures Joined(ws + [w + [c]]) == Joined(ws + [w]) + [c]
  {
    hide Joined;
    if ws == [] {
      OneWord(w);
      OneWord(w + [c]);
      assert ws + [w] == [w] && ws + [w + [c]] == [w + [c]];
    } else {
      OneWordMore(ws, w);
      OneWordMore(ws, w + [c]);
      Regroup(Joined(ws) + " ", w, [c]);
    }
  }

  lemma LongerLast(ws: seq<string>, c: char)
    requires ws != []
    ensures Joined(ws[..|ws|-1] + [ws[|ws|-1] + [c]]) == Joined(ws) + [c]
  {
    hide Joined;
    LongerLastWord(ws[..|ws|-1], ws[|ws|-1], c);
    assert ws == ws[..|ws|-1] + [ws[|ws|-1]];
  }

  lemma Regroup(a: string, b: string, c: string)
    ensures a + (b + c) == a + b + c
  {
  }

  lemma {:induction false} LeadingBlanksAreNoWords(s: string)
    requires s != "" && IsSpace(s[0])
    ensures Words(s) == Words(s[1..])
  {
    var init := s[..|s|-1];
    if |s| == 1 {
      assert init == "" && s[1..] == "";
    } else {
      LeadingBlanksAreNoWords(init);
      assert s[1..][..|s|-2] == init[1..];
      assert init[1..] == "" <==> |s| == 2;
    }
  }

  lemma {:induction false} TrimmingKeepsTheWords(s: string)
    ensures Words(TrimLeft(s)) == Words(s) && Words(TrimRight(s)) == Words(s)
  {
    hide IsSpace;
    LeftKeepsTheWords(s);
    RightKeepsTheWords(s);
  }

  lemma {:induction false} LeftKeepsTheWords(s: string)
    ensures Words(TrimLeft(s)) == Words(s)
  {
    hide IsSpace, Words;
    if s != "" && IsSpace(s[0]) {
      LeadingBlanksAreNoWords(s);
      LeftKeepsTheWords(s[1..]);
    }
  }

  lemma {:induction false} RightKeepsTheWords(s: string)
    ensures Words(TrimRight(s)) == Words(s)
  {
    hide IsSpace;
    if s != "" && IsSpace(s[|s|-1]) { RightKeepsTheWords(s[..|s|-1]); }
  }

  lemma TrimmedInTwoSteps(s: string)
    ensures Words(Trim(s)) == Words(s)
  {
    hide IsSpace, Words, TrimLeft, TrimRight;
    TrimmingKeepsTheWords(s);
    TrimmingKeepsTheWords(TrimLeft(s));
  }

  /** Two names are one when their words are, in small letters: a name's key is its words joined by single blanks. */
  lemma NamesGoByTheirWords(s: string)
    ensures Norm(s) == Lower(Joined(Words(s)))
  {
    hide IsSpace, Lower, Trim, Words, Joined, Squeezed;
    TrimmedInTwoSteps(s);
    WhatTrimmingLeaves(s);
    if Trim(s) == "" {
      NoWords();
    } else {
      SqueezingJoinsTheWords(Trim(s));
      assert Joined(Words(s)) + "" == Joined(Words(s));
    }
  }

  lemma NoWords()
    ensures Squeezed("") == Joined(Words(""))
  {
  }
}
