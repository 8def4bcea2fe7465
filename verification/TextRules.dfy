/** What the text functions do to a text, stated on its characters. */
module TextRules {
  import opened Text
  import opened Progress

  /** The white space of str.isspace; the breaks of str.splitlines are among it. */
  const WHITE := {'\U{0009}', '\U{000A}', '\U{000B}', '\U{000C}', '\U{000D}', '\U{001C}', '\U{001D}', '\U{001E}',
                  '\U{001F}', '\U{0020}', '\U{0085}', '\U{00A0}', '\U{1680}', '\U{2000}', '\U{2001}', '\U{2002}',
                  '\U{2003}', '\U{2004}', '\U{2005}', '\U{2006}', '\U{2007}', '\U{2008}', '\U{2009}', '\U{200A}',
                  '\U{2028}', '\U{2029}', '\U{202F}', '\U{205F}', '\U{3000}'}
  const BREAKS := {'\U{000A}', '\U{000B}', '\U{000C}', '\U{000D}', '\U{001C}', '\U{001D}', '\U{001E}', '\U{0085}',
                   '\U{2028}', '\U{2029}'}

  lemma WhiteSpaceExactly(c: char)
    ensures IsSpace(c) <==> c in WHITE
    ensures IsBreak(c) <==> c in BREAKS
    ensures IsBreak(c) ==> IsSpace(c)
  {
  }

  predicate AllSpace(s: string) {
    forall i :: 0 <= i < |s| ==> IsSpace(s[i])
  }

  lemma {:induction false} LStripExactly(s: string) returns (n: nat)
    ensures n <= |s| && LStrip(s) == s[n..] && AllSpace(s[..n]) && (n < |s| ==> !IsSpace(s[n]))
  {
    hide IsSpace;
    if s != "" && IsSpace(s[0]) {
      var m := LStripExactly(s[1..]);
      n := m + 1;
      assert s[1..][m..] == s[n..];
      assert forall i :: 0 < i < n ==> s[..n][i] == s[1..][..m][i - 1];
    } else {
      n := 0;
    }
  }

  lemma {:induction false} RStripExactly(s: string) returns (n: nat)
    ensures n <= |s| && RStrip(s) == s[..n] && AllSpace(s[n..]) && (n > 0 ==> !IsSpace(s[n - 1]))
  {
    hide IsSpace;
    if s != "" && IsSpace(s[|s| - 1]) {
      var k := |s| - 1;
      n := RStripExactly(s[..k]);
      assert s[..k][..n] == s[..n];
      assert forall i :: 0 <= i < k - n ==> s[n..][i] == s[..k][n..][i];
    } else {
      n := |s|;
    }
  }

  /** Stripping removes white space at both ends, all of it, and nothing else. */
  lemma StripExactly(s: string) returns (i: nat, j: nat)
    ensures i <= j <= |s| && Strip(s) == s[i..j] && AllSpace(s[..i]) && AllSpace(s[j..])
    ensures i < j ==> !IsSpace(s[i]) && !IsSpace(s[j - 1])
  {
    hide IsSpace, LStrip, RStrip;
    i := LStripExactly(s);
    var n := RStripExactly(s[i..]);
    j := i + n;
    assert s[i..][..n] == s[i..j];
    assert s[i..][n..] == s[j..];
  }

  /** Lower-casing changes the letters A to Z, into the letters 32 places on, and nothing else. */
  lemma LowerExactly(s: string)
    ensures |Lower(s)| == |s|
    ensures forall i :: 0 <= i < |s| ==>
              && !('A' <= Lower(s)[i] <= 'Z')
              && Lower(s)[i] as int == s[i] as int + (if 'A' <= s[i] <= 'Z' then 32 else 0)
  {
  }

  /** One break: "\r\n", or a single break character. */
  predicate OneBreak(b: string) {
    b == "\r\n" || (|b| == 1 && IsBreak(b[0]))
  }

  /** Lines and breaks in turn; a last line without a break is allowed. */
  function Woven(lines: seq<string>, breaks: seq<string>): string
    requires |breaks| == |lines| || |breaks| + 1 == |lines|
  {
    if lines == [] then ""
    else if breaks == [] then lines[0]
    else lines[0] + breaks[0] + Woven(lines[1..], breaks[1..])
  }

  /** No carriage return ends a line whose continuation begins with its line feed. */
  predicate NotTorn(lines: seq<string>, breaks: seq<string>)
    requires |breaks| == |lines| || |breaks| + 1 == |lines|
  {
    breaks == []
    || (&& (breaks[0] == "\r" ==> var rest := Woven(lines[1..], breaks[1..]); rest == "" || rest[0] != '\n')
        && NotTorn(lines[1..], breaks[1..]))
  }

  /**
   Splitting loses nothing but the breaks: with them put back the text is there again, no line holds a break, and a
   carriage return is never torn from its line feed.
   */
  lemma {:induction false} SplitLinesExactly(s: string) returns (breaks: seq<string>)
    ensures |breaks| == |SplitLines(s)| || |breaks| + 1 == |SplitLines(s)|
    ensures Woven(SplitLines(s), breaks) == s && NotTorn(SplitLines(s), breaks)
    ensures forall b :: b in breaks ==> OneBreak(b)
    ensures forall line :: line in SplitLines(s) ==> BreakFree(line)
    decreases |s|
  {
    hide IsBreak;
    SplitBreakFree(s);
    if s == "" || LineEnd(s) == |s| {
      breaks := [];
    } else {
      var n := LineEnd(s);
      var w := BreakWidth(s, n);
      var more := SplitLinesExactly(s[n + w..]);
      breaks := [s[n..n + w]] + more;
      BreakAt(s, n);
      assert SplitLines(s) == [s[..n]] + SplitLines(s[n + w..]);
      hide SplitLines, LineEnd, BreakWidth, OneBreak;
      var lines := SplitLines(s);
      assert lines[1..] == SplitLines(s[n + w..]) && breaks[1..] == more;
      assert s[..n] + s[n..n + w] + s[n + w..] == s;
    }
  }

  /** The first break of a text, and what follows it. */
  lemma BreakAt(s: string, n: nat)
    requires n < |s| && IsBreak(s[n])
    ensures var b := s[n..n + BreakWidth(s, n)];
            && OneBreak(b)
            && (b == "\r" ==> var rest := s[n + BreakWidth(s, n)..]; rest == "" || rest[0] != '\n')
  {
    hide IsBreak;
    var b := s[n..n + BreakWidth(s, n)];
    assert b[0] == s[n];
    if |b| == 2 {
      assert b[1] == s[n + 1];
      assert b == "\r\n";
    }
  }

  function Flat(parts: seq<string>): string {
    if parts == [] then "" else parts[0] + Flat(parts[1..])
  }

  /** The characters of a text that are not white space. */
  function Ink(s: string): string {
    if s == "" then "" else (if IsSpace(s[0]) then "" else [s[0]]) + Ink(s[1..])
  }

  lemma {:induction false} InkOfStripped(s: string)
    ensures Ink(LStrip(s)) == Ink(s)
  {
    hide IsSpace;
    if s != "" && IsSpace(s[0]) {
      InkOfStripped(s[1..]);
    }
  }

  lemma {:induction false} WordEndExactly(s: string)
    ensures var n := WordEnd(s);
            && (forall i :: 0 <= i < n ==> !IsSpace(s[i])) && (n < |s| ==> IsSpace(s[n]))
            && Ink(s) == s[..n] + Ink(s[n..])
  {
    hide IsSpace;
    if s != "" && !IsSpace(s[0]) {
      WordEndExactly(s[1..]);
      var n := WordEnd(s);
      assert s[1..][..n - 1] == s[1..n];
      assert s[1..][n - 1..] == s[n..];
      assert [s[0]] + s[1..n] == s[..n];
    } else {
      assert s[0..] == s;
    }
  }

  predicate NoSpace(s: string) {
    forall i :: 0 <= i < |s| ==> !IsSpace(s[i])
  }

  /** str.split(): the words hold no white space, none is empty, and together they are all the rest of the text. */
  lemma {:induction false} WordsExactly(s: string)
    ensures forall w :: w in Words(s) ==> w != "" && NoSpace(w)
    ensures Flat(Words(s)) == Ink(s)
    decreases |s|
  {
    hide IsSpace;
    LStripFacts(s);
    InkOfStripped(s);
    var t := LStrip(s);
    if t != "" {
      var n := WordEnd(t);
      WordEndExactly(t);
      WordsExactly(t[n..]);
      assert Words(s)[1..] == Words(t[n..]);
    }
  }
}
