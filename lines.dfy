/**
 * Text as lines: Python's `"\n".join(lines)` and `text.split("\n")`, and
 * how splitting a text built piece by piece follows its pieces.
 */
module Lines {
  import opened Seqs

  /** `s` holds no newline. */
  predicate OneLine(s: string)
  {
    '\n' !in s
  }

  /**
   * `s.split("\n")`: the pieces between newlines, always at least one. A
   * newline starts a new empty piece; any other character joins the front
   * of the first piece.
   */
  function SplitLines(s: string): (pieces: seq<string>)
    ensures |pieces| >= 1
  {
    if s == [] then [""]
    else
      var rest := SplitLines(s[1..]);
      if s[0] == '\n' then [""] + rest else [[s[0]] + rest[0]] + rest[1..]
  }

  /** `"\n".join(lines)`. */
  function JoinLines(lines: seq<string>): string
  {
    if lines == [] then ""
    else if |lines| == 1 then lines[0]
    else lines[0] + "\n" + JoinLines(lines[1..])
  }

  /** The pieces of `a + b`: the last piece of `a` glued to the first piece of `b`. */
  function Glue(A: seq<string>, B: seq<string>): seq<string>
    requires A != [] && B != []
  {
    Init(A) + [Last(A) + B[0]] + B[1..]
  }

  /** Splitting a concatenation glues the last piece of the first text to the first piece of the second. */
  lemma {:induction false} SplitConcat(a: string, b: string)
    ensures SplitLines(a + b) == Glue(SplitLines(a), SplitLines(b))
    decreases |a|
  {
    if a == [] {
      assert a + b == b;
      EmptyGlue(SplitLines(b));
    } else {
      assert (a + b)[1..] == a[1..] + b;
      SplitConcat(a[1..], b);
      if a[0] == '\n' {
        NewlineGlue(SplitLines(a[1..]), SplitLines(b));
      } else {
        CharGlue(a[0], SplitLines(a[1..]), SplitLines(b));
      }
    }
  }

  lemma EmptyGlue(B: seq<string>)
    requires B != []
    ensures Glue([""], B) == B
  {
    assert "" + B[0] == B[0];
  }

  lemma NewlineGlue(A: seq<string>, B: seq<string>)
    requires A != [] && B != []
    ensures [""] + Glue(A, B) == Glue([""] + A, B)
  {
    assert Init([""] + A) == [""] + Init(A);
  }

  lemma CharGlue(c: char, A: seq<string>, B: seq<string>)
    requires A != [] && B != []
    ensures var G := Glue(A, B); [[c] + G[0]] + G[1..] == Glue([[c] + A[0]] + A[1..], B)
  {
    if |A| == 1 {
      assert [c] + (A[0] + B[0]) == ([c] + A[0]) + B[0];
    } else {
      assert Init([[c] + A[0]] + A[1..]) == [[c] + A[0]] + Init(A)[1..];
    }
  }

  /** A text without newlines is a single line. */
  lemma {:induction false} SplitOneLine(x: string)
    requires OneLine(x)
    ensures SplitLines(x) == [x]
  {
    if x != [] {
      assert x[0] in x;
      assert forall c :: c in x[1..] ==> c in x;
      SplitOneLine(x[1..]);
      assert [x[0]] + x[1..] == x;
    }
  }

  /** A newline-free line followed by a newline splits off as one piece. */
  lemma SplitLine(x: string, rest: string)
    requires OneLine(x)
    ensures SplitLines(x + "\n" + rest) == [x] + SplitLines(rest)
  {
    assert x + "\n" + rest == x + ("\n" + rest);
    assert ("\n" + rest)[1..] == rest;
    SplitConcat(x, "\n" + rest);
    SplitOneLine(x);
    assert x + "" == x;
  }

  /** Joining newline-free lines and splitting the text again gives back the lines. */
  lemma {:induction false} SplitJoined(lines: seq<string>)
    requires lines != []
    requires forall l :: l in lines ==> OneLine(l)
    ensures SplitLines(JoinLines(lines)) == lines
  {
    if |lines| == 1 {
      SplitOneLine(lines[0]);
    } else {
      var tail := lines[1..];
      assert forall l :: l in tail ==> l in lines;
      SplitJoined(tail);
      SplitLine(lines[0], JoinLines(tail));
      assert lines == [lines[0]] + tail;
    }
  }

  lemma AddText(p: string, x: string)
    requires OneLine(x)
    ensures SplitLines(p + x) == Init(SplitLines(p)) + [Last(SplitLines(p)) + x]
  {
    SplitConcat(p, x);
    SplitOneLine(x);
  }

  lemma AddNewline(p: string)
    ensures SplitLines(p + "\n") == SplitLines(p) + [""]
  {
    SplitConcat(p, "\n");
    assert SplitLines("\n") == ["", ""];
    var P := SplitLines(p);
    assert Last(P) + "" == Last(P);
    assert Init(P) + [Last(P)] == P;
  }

  /** A new line holding a heading and a one-line value. */
  lemma AddField(p: string, h: string, x: string)
    requires OneLine(h) && OneLine(x)
    ensures SplitLines(p + "\n" + h + x) == SplitLines(p) + [h + x]
  {
    AddNewline(p);
    AddText(p + "\n", h);
    AddText(p + "\n" + h, x);
    var P := SplitLines(p);
    assert Init(P + [""]) == P;
    assert "" + h == h;
    assert Init(P + [h]) == P;
  }

  /** A blank line, then a new line holding a heading and a one-line value. */
  lemma AddBlankField(p: string, h: string, x: string)
    requires OneLine(h) && OneLine(x)
    ensures SplitLines(p + "\n" + "\n" + h + x) == SplitLines(p) + ["", h + x]
  {
    var P := SplitLines(p);
    assert SplitLines(p + "\n") == P + [""] by {
      AddNewline(p);
    }
    AddField(p + "\n", h, x);
    assert P + [""] + [h + x] == P + ["", h + x];
  }

  lemma AddLines(p: string, lines: seq<string>)
    requires lines != [] && forall l :: l in lines ==> OneLine(l)
    requires Last(SplitLines(p)) == ""
    ensures SplitLines(p + JoinLines(lines)) == Init(SplitLines(p)) + lines
  {
    var J, P := JoinLines(lines), SplitLines(p);
    assert SplitLines(J) == lines by {
      SplitJoined(lines);
    }
    SplitConcat(p, J);
    GlueOntoEmpty(P, lines);
  }

  /** Gluing onto an empty last piece just appends. */
  lemma GlueOntoEmpty(P: seq<string>, L: seq<string>)
    requires P != [] && Last(P) == "" && L != []
    ensures Glue(P, L) == Init(P) + L
  {
    assert Last(P) + L[0] == L[0];
    assert [L[0]] + L[1..] == L;
  }

  /** A blank line, a heading line, then one line per entry. */
  lemma AddBlock(p: string, h: string, lines: seq<string>)
    requires OneLine(h) && lines != [] && forall l :: l in lines ==> OneLine(l)
    ensures SplitLines(p + "\n" + "\n" + h + "\n" + JoinLines(lines)) == SplitLines(p) + ["", h] + lines
  {
    var P := SplitLines(p);
    AddNewline(p);
    AddField(p + "\n", h, "");
    assert h + "" == h;
    var q := p + "\n" + "\n" + h;
    assert SplitLines(q) == P + ["", h] by {
      assert q + "" == q;
    }
    AddNewline(q);
    AddLines(p + "\n" + "\n" + h + "\n", lines);
    assert Init(P + ["", h, ""]) == P + ["", h];
  }

  /** Splitting a text and joining the pieces again gives back the text. */
  lemma {:induction false} JoinSplit(s: string)
    ensures JoinLines(SplitLines(s)) == s
  {
    if s != [] {
      var R := SplitLines(s[1..]);
      JoinSplit(s[1..]);
      if s[0] == '\n' {
        JoinAfterNewline(R);
      } else {
        JoinAfterChar(s[0], R);
      }
      assert s == [s[0]] + s[1..];
    }
  }

  lemma JoinAfterNewline(R: seq<string>)
    requires R != []
    ensures JoinLines([""] + R) == "\n" + JoinLines(R)
  {
    assert ([""] + R)[1..] == R;
  }

  lemma JoinAfterChar(c: char, R: seq<string>)
    requires R != []
    ensures JoinLines([[c] + R[0]] + R[1..]) == [c] + JoinLines(R)
  {
    if |R| == 1 {
      assert [[c] + R[0]] + R[1..] == [[c] + R[0]];
    } else {
      JoinAfterCharMany(c, R[0], R[1..]);
      assert [R[0]] + R[1..] == R;
    }
  }

  lemma JoinAfterCharMany(c: char, x: string, R: seq<string>)
    requires R != []
    ensures JoinLines([[c] + x] + R) == [c] + JoinLines([x] + R)
  {
    JoinCons([c] + x, R);
    JoinCons(x, R);
    PrependChar(c, x, "\n" + JoinLines(R));
  }

  lemma JoinCons(x: string, R: seq<string>)
    requires R != []
    ensures JoinLines([x] + R) == x + "\n" + JoinLines(R)
  {
    assert ([x] + R)[1..] == R;
  }

  lemma PrependChar(c: char, x: string, y: string)
    ensures ([c] + x) + y == [c] + (x + y)
  {
  }

}
