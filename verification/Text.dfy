/** Python's str.strip, str.rstrip and str.splitlines, and the normal form of a plan text. */
module Text {

  /** str.isspace for one character. */
  predicate IsSpace(c: char) {
    || '\U{0009}' <= c <= '\U{000D}'
    || '\U{001C}' <= c <= '\U{0020}'
    || c == '\U{0085}' || c == '\U{00A0}' || c == '\U{1680}' || c == '\U{2028}' || c == '\U{2029}'
    || c == '\U{202F}' || c == '\U{205F}' || c == '\U{3000}'
    || '\U{2000}' <= c <= '\U{200A}'
  }

  /** The characters at which str.splitlines breaks; every one of them is white space. */
  predicate IsBreak(c: char) {
    || '\U{000A}' <= c <= '\U{000D}'
    || '\U{001C}' <= c <= '\U{001E}'
    || c == '\U{0085}' || c == '\U{2028}' || c == '\U{2029}'
  }

  function LStrip(s: string): string
  {
    if s != "" && IsSpace(s[0]) then LStrip(s[1..]) else s
  }

  function RStrip(s: string): string
  {
    if s != "" && IsSpace(s[|s| - 1]) then RStrip(s[..|s| - 1]) else s
  }

  function Strip(s: string): string {
    RStrip(LStrip(s))
  }

  predicate Blank(s: string) {
    Strip(s) == ""
  }

  /** str.lower on ASCII letters. */
  function Lower(s: string): (r: string)
    ensures |r| == |s|
  {
    seq(|s|, i requires 0 <= i < |s| => if 'A' <= s[i] <= 'Z' then s[i] - 'A' + 'a' else s[i])
  }

  /** The position of the first line break, or the length when there is none. */
  function LineEnd(s: string): (n: nat)
    ensures n <= |s|
    ensures forall i :: 0 <= i < n ==> !IsBreak(s[i])
    ensures n < |s| ==> IsBreak(s[n])
  {
    if s == "" || IsBreak(s[0]) then 0 else 1 + LineEnd(s[1..])
  }

  /** "\r\n" is one break of width two; every other break is one character. */
  function BreakWidth(s: string, n: nat): (w: nat)
    requires n < |s|
    ensures 1 <= w <= 2 && n + w <= |s|
  {
    if s[n] == '\r' && n + 1 < |s| && s[n + 1] == '\n' then 2 else 1
  }

  function SplitLines(s: string): seq<string>
    decreases |s|
  {
    if s == "" then []
    else
      var n := LineEnd(s);
      if n == |s| then [s]
      else [s[..n]] + SplitLines(s[n + BreakWidth(s, n)..])
  }

  function JoinLines(lines: seq<string>): string {
    if lines == [] then ""
    else if |lines| == 1 then lines[0]
    else lines[0] + "\n" + JoinLines(lines[1..])
  }

  function RStripAll(lines: seq<string>): (r: seq<string>)
    ensures |r| == |lines|
    ensures forall i :: 0 <= i < |lines| ==> r[i] == RStrip(lines[i])
  {
    seq(|lines|, i requires 0 <= i < |lines| => RStrip(lines[i]))
  }

  /** The lines a plan text is compared by. */
  function PlanLines(content: string): seq<string> {
    RStripAll(SplitLines(Strip(content)))
  }

  function Normalized(content: string): string {
    JoinLines(PlanLines(content))
  }

  predicate BreakFree(line: string) {
    forall i :: 0 <= i < |line| ==> !IsBreak(line[i])
  }

  /** What the lines of any stripped text look like after trimming each of them. */
  predicate CanonicalLines(lines: seq<string>) {
    && (forall i :: 0 <= i < |lines| ==> BreakFree(lines[i]) && RStrip(lines[i]) == lines[i])
    && (lines != [] ==> lines[0] != "" && !IsSpace(lines[0][0]) && lines[|lines| - 1] != "")
  }

  lemma LStripFacts(s: string)
    ensures var r := LStrip(s); (r == "" || !IsSpace(r[0])) && |r| <= |s| && r == s[|s| - |r|..]
  {
  }

  lemma RStripFacts(s: string)
    ensures var r := RStrip(s); (r == "" || !IsSpace(r[|r| - 1])) && |r| <= |s| && r == s[..|r|]
  {
  }

  lemma Trimmed(s: string)
    requires s == "" || (!IsSpace(s[0]) && !IsSpace(s[|s| - 1]))
    ensures Strip(s) == s
  {
  }

  lemma {:induction false} StripEnds(s: string)
    ensures var t := Strip(s); t == "" || (!IsSpace(t[0]) && !IsSpace(t[|t| - 1]))
  {
    LStripFacts(s);
    RStripFacts(LStrip(s));
  }

  lemma BreakIsSpace(c: char)
    ensures IsBreak(c) ==> IsSpace(c)
    ensures IsBreak('\n')
  {
  }

  /** A text without blanks at its end goes on after each of its breaks. */
  lemma {:induction false} BreakNotLast(s: string, n: nat)
    requires s != "" && !IsSpace(s[|s| - 1]) && n < |s| && IsBreak(s[n])
    ensures var m := n + BreakWidth(s, n); m < |s| && s[m..] != "" && s[m..][|s[m..]| - 1] == s[|s| - 1]
  {
    hide IsSpace, IsBreak;
    BreakIsSpace(s[|s| - 1]);
  }

  /** The last line of such a text holds its last character. */
  lemma {:induction false} SplitLast(s: string)
    requires s != "" && !IsSpace(s[|s| - 1])
    ensures var lines := SplitLines(s);
            lines != [] && var last := lines[|lines| - 1]; last != "" && last[|last| - 1] == s[|s| - 1]
    decreases |s|
  {
    hide IsSpace, IsBreak, BreakWidth, LineEnd, SplitLines;
    SplitAtBreak(s);
    var n := LineEnd(s);
    if n < |s| {
      BreakNotLast(s, n);
      var rest := s[n + BreakWidth(s, n)..];
      SplitLast(rest);
      LastOfMore(s[..n], SplitLines(rest));
    }
  }

  lemma {:induction false} SplitAtBreak(s: string)
    requires s != ""
    ensures var n := LineEnd(s);
            SplitLines(s) == if n == |s| then [s] else [s[..n]] + SplitLines(s[n + BreakWidth(s, n)..])
  {
    hide IsBreak, BreakWidth, LineEnd;
  }

  lemma {:induction false} LastOfMore(first: string, more: seq<string>)
    requires more != []
    ensures ([first] + more)[|[first] + more| - 1] == more[|more| - 1]
  {
  }

  lemma UntrimmedEnd(s: string)
    requires s != "" && !IsSpace(s[|s| - 1])
    ensures RStrip(s) == s
  {
    hide IsSpace;
  }

  lemma {:induction false} RStripTwice(s: string)
    ensures RStrip(RStrip(s)) == RStrip(s)
  {
    hide IsSpace;
    RStripFacts(s);
  }

  lemma {:induction false} SplitFirst(s: string)
    requires s != "" && !IsSpace(s[0])
    ensures var lines := SplitLines(s); lines != [] && lines[0] != "" && lines[0][0] == s[0]
  {
    hide IsSpace, IsBreak, BreakWidth;
    BreakIsSpace(s[0]);
  }

  lemma {:induction false} SplitEnds(s: string)
    requires s != "" && !IsSpace(s[|s| - 1])
    ensures var lines := SplitLines(s);
            && lines != [] && lines[|lines| - 1] != "" && RStrip(lines[|lines| - 1]) == lines[|lines| - 1]
            && (!IsSpace(s[0]) ==> lines[0] != "" && lines[0][0] == s[0])
  {
    hide IsSpace, SplitLines, RStrip;
    SplitLast(s);
    var lines := SplitLines(s);
    UntrimmedEnd(lines[|lines| - 1]);
    if !IsSpace(s[0]) {
      SplitFirst(s);
    }
  }

  lemma {:induction false} SplitBreakFree(s: string)
    ensures forall line :: line in SplitLines(s) ==> BreakFree(line)
    decreases |s|
  {
    hide IsBreak, LineEnd, SplitLines, BreakWidth;
    SplitOfNone();
    var n := LineEnd(s);
    if s != "" && n == |s| {
      SplitAtBreak(s);
    } else if s != "" {
      SplitAtBreak(s);
      SplitBreakFree(s[n + BreakWidth(s, n)..]);
    }
  }

  lemma FirstKept(s: string)
    requires s != "" && !IsSpace(s[0])
    ensures RStrip(s) != "" && RStrip(s)[0] == s[0]
  {
  }

  lemma {:induction false} PlanLinesCanonical(content: string)
    ensures CanonicalLines(PlanLines(content))
  {
    hide IsSpace, IsBreak, LineEnd, RStrip, Strip;
    var t := Strip(content);
    StripEnds(content);
    SplitBreakFree(t);
    var lines := SplitLines(t);
    forall i | 0 <= i < |lines|
      ensures BreakFree(RStrip(lines[i])) && RStrip(RStrip(lines[i])) == RStrip(lines[i])
    {
      assert lines[i] in lines;
      RStripFacts(lines[i]);
      RStripTwice(lines[i]);
    }
    if t != "" {
      SplitEnds(t);
      RStripFacts(lines[0]);
      FirstKept(lines[0]);
    }
  }

  lemma LineEndAt(line: string, rest: string)
    requires BreakFree(line) && rest != "" && IsBreak(rest[0])
    ensures LineEnd(line + rest) == |line|
  {
    hide IsBreak;
    var s := line + rest;
    assert s[|line|] == rest[0];
    assert forall i :: 0 <= i < |line| ==> s[i] == line[i];
  }

  lemma {:induction false} SplitOfJoin(lines: seq<string>)
    requires forall i :: 0 <= i < |lines| ==> BreakFree(lines[i])
    requires lines != [] ==> lines[|lines| - 1] != ""
    ensures SplitLines(JoinLines(lines)) == lines
  {
    hide IsSpace, IsBreak, LineEnd, BreakFree, SplitLines;
    SplitOfNone();
    if |lines| == 1 {
      SplitAtBreak(lines[0]);
      BreakFreeEnd(lines[0]);
    } else if lines != [] {
      SplitOfJoin(lines[1..]);
      SplitOfTwo(lines[0], JoinLines(lines[1..]));
      assert lines[0] + "\n" + JoinLines(lines[1..]) == lines[0] + ("\n" + JoinLines(lines[1..]));
    }
  }

  lemma SplitOfNone()
    ensures SplitLines("") == []
  {
  }

  lemma {:induction false} BreakFreeEnd(line: string)
    requires BreakFree(line)
    ensures LineEnd(line) == |line|
  {
    hide IsBreak;
  }

  lemma {:induction false} SplitOfTwo(line: string, more: string)
    requires BreakFree(line)
    ensures SplitLines(line + ("\n" + more)) == [line] + SplitLines(more)
  {
    hide IsSpace, IsBreak, LineEnd, SplitLines, BreakFree;
    var s := line + ("\n" + more);
    BreakIsSpace('\n');
    LineEndAt(line, "\n" + more);
    SplitAtBreak(s);
    assert s[|line|] == '\n';
    assert s[|line| + 1..] == more;
    assert s[..|line|] == line;
  }

  lemma {:induction false} JoinEnds(lines: seq<string>)
    requires CanonicalLines(lines) && lines != []
    ensures var s := JoinLines(lines); s != "" && !IsSpace(s[0]) && !IsSpace(s[|s| - 1])
  {
    JoinLast(lines);
    RStripFacts(lines[|lines| - 1]);
  }

  lemma {:induction false} JoinLast(lines: seq<string>)
    requires lines != [] && lines[|lines| - 1] != ""
    ensures var s := JoinLines(lines); s != "" && s[|s| - 1] == lines[|lines| - 1][|lines[|lines| - 1]| - 1]
  {
    if |lines| > 1 {
      JoinLast(lines[1..]);
    }
  }

  /** The normal form keeps exactly the lines it was built from. */
  lemma {:induction false} LinesOfNormalized(content: string)
    ensures Strip(Normalized(content)) == Normalized(content)
    ensures SplitLines(Normalized(content)) == PlanLines(content)
    ensures PlanLines(Normalized(content)) == PlanLines(content)
  {
    hide IsSpace, IsBreak, LineEnd, SplitLines, LStrip, RStrip, Strip;
    var lines := PlanLines(content);
    PlanLinesCanonical(content);
    SplitOfJoin(lines);
    if lines != [] {
      JoinEnds(lines);
    }
    Trimmed(Normalized(content));
    assert RStripAll(lines) == lines;
  }

  /** Normalising is idempotent, and blanks around the input do not matter. */
  lemma NormalFormIdempotent(content: string)
    ensures Normalized(Normalized(content)) == Normalized(content)
    ensures Normalized(Strip(content)) == Normalized(content)
  {
    hide IsSpace, LStrip, RStrip, Strip;
    LinesOfNormalized(content);
    StripEnds(content);
    Trimmed(Strip(content));
  }

  /** The content gate compares lines: nothing but outer blanks, trailing blanks and break style is ignored. */
  lemma ContentGateIsLineEquality(a: string, b: string)
    ensures Normalized(a) == Normalized(b) <==> PlanLines(a) == PlanLines(b)
  {
    LinesOfNormalized(a);
    LinesOfNormalized(b);
  }
}
