/** Strings as the generator builds them: joining, splitting into lines, trimming
    indentation, and the "code lines" of a text (its lines with the surrounding spaces
    removed and blank lines dropped). Contracts about rendered output are stated on code
    lines, so that they speak of the lines a reader sees and not of incidental indentation. */
module Text {

  /** The line break used both for os.EOL and for the breaks inside template literals. */
  const NL: string := "\n"

  /** Array.prototype.join: the elements separated by sep, "" for no elements. */
  function Join(sep: string, xs: seq<string>): string
  {
    if xs == [] then "" else if |xs| == 1 then xs[0] else xs[0] + sep + Join(sep, xs[1..])
  }

  predicate IsNameChar(c: char)
  {
    ('a' <= c <= 'z') || ('A' <= c <= 'Z') || ('0' <= c <= '9') || c == '_' || c == '$'
  }

  /** A GraphQL name or a TypeScript identifier: letters, digits, '_' and '$'. */
  predicate IsName(s: string)
  {
    |s| > 0 && forall i :: 0 <= i < |s| ==> IsNameChar(s[i])
  }

  predicate Blank(s: string)
  {
    forall i :: 0 <= i < |s| ==> s[i] == ' '
  }

  /** A single line of text that neither starts nor ends with a space. */
  predicate OneLine(s: string)
  {
    |s| > 0 && '\n' !in s && s[0] != ' ' && s[|s| - 1] != ' '
  }

  lemma NameIsOneLine(s: string)
    requires IsName(s)
    ensures OneLine(s)
  {
  }

  function EndsWith(s: string, suffix: string): bool
  {
    |suffix| <= |s| && s[|s| - |suffix|..] == suffix
  }

  /** The pieces of s between line breaks (String.prototype.split("\n")). */
  function Lines(s: string): (r: seq<string>)
    ensures |r| >= 1
  {
    if s == [] then [""]
    else if s[0] == '\n' then [""] + Lines(s[1..])
    else var rest := Lines(s[1..]); [[s[0]] + rest[0]] + rest[1..]
  }

  function TrimStart(s: string): string
  {
    if s != [] && s[0] == ' ' then TrimStart(s[1..]) else s
  }

  function TrimEnd(s: string): string
  {
    if s != [] && s[|s| - 1] == ' ' then TrimEnd(s[..|s| - 1]) else s
  }

  function Trim(s: string): string
  {
    TrimEnd(TrimStart(s))
  }

  /** The trimmed non-blank lines among ls, in order. */
  function Code(ls: seq<string>): seq<string>
  {
    if ls == [] then []
    else (if Trim(ls[0]) == "" then [] else [Trim(ls[0])]) + Code(ls[1..])
  }

  function CodeLines(s: string): seq<string>
  {
    Code(Lines(s))
  }

  /** The code lines of each text in turn. */
  function FlatCode(xs: seq<string>): seq<string>
  {
    if xs == [] then [] else CodeLines(xs[0]) + FlatCode(xs[1..])
  }

  // ---------------------------------------------------------------------------
  // Lines

  lemma {:induction false} LinesConcat(a: string, b: string)
    ensures Lines(a + NL + b) == Lines(a) + Lines(b)
    decreases |a|
  {
    var s := a + NL + b;
    if a == [] {
      assert s == ['\n'] + b;
      assert s[1..] == b;
    } else {
      assert s[0] == a[0];
      assert s[1..] == a[1..] + NL + b;
      LinesConcat(a[1..], b);
    }
  }

  lemma {:induction false} LinesSingle(s: string)
    requires '\n' !in s
    ensures Lines(s) == [s]
    decreases |s|
  {
    if s != [] {
      assert s[0] in s;
      assert forall c :: c in s[1..] ==> c in s;
      LinesSingle(s[1..]);
      assert [s[0]] + s[1..] == s;
    }
  }

  lemma {:induction false} LinesPrefix(p: string, s: string)
    requires '\n' !in p
    ensures Lines(p + s) == [p + Lines(s)[0]] + Lines(s)[1..]
    decreases |p|
  {
    if p == [] {
      assert p + s == s;
      assert p + Lines(s)[0] == Lines(s)[0];
      assert Lines(s) == [Lines(s)[0]] + Lines(s)[1..];
    } else {
      assert p[0] in p;
      assert forall c :: c in p[1..] ==> c in p;
      var t := p + s;
      assert t[0] == p[0];
      assert t[1..] == p[1..] + s;
      LinesPrefix(p[1..], s);
      assert [p[0]] + (p[1..] + Lines(s)[0]) == p + Lines(s)[0];
    }
  }

  lemma {:induction false} LinesSuffix(s: string, p: string)
    requires '\n' !in p
    ensures var l := Lines(s); Lines(s + p) == l[..|l| - 1] + [l[|l| - 1] + p]
    decreases |s|
  {
    var l := Lines(s);
    if s == [] {
      assert s + p == p;
      LinesSingle(p);
    } else {
      var t := s + p;
      assert t[0] == s[0];
      assert t[1..] == s[1..] + p;
      LinesSuffix(s[1..], p);
      var l' := Lines(s[1..]);
      if s[0] == '\n' {
        assert l == [""] + l';
      } else {
        var rest := Lines(s[1..] + p);
        assert rest == l'[..|l'| - 1] + [l'[|l'| - 1] + p];
        if |l'| == 1 {
          assert l == [[s[0]] + l'[0]];
          assert rest == [l'[0] + p];
          assert [s[0]] + (l'[0] + p) == [s[0]] + l'[0] + p;
        } else {
          assert rest[0] == l'[0];
          assert rest[1..] == l'[1..|l'| - 1] + [l'[|l'| - 1] + p];
          assert l == [[s[0]] + l'[0]] + l'[1..];
          assert l[..|l| - 1] == [[s[0]] + l'[0]] + l'[1..|l'| - 1];
        }
      }
    }
  }

  // ---------------------------------------------------------------------------
  // Trimming

  lemma {:induction false} TrimStartBlank(p: string, s: string)
    requires Blank(p)
    ensures TrimStart(p + s) == TrimStart(s)
    decreases |p|
  {
    if p == [] {
      assert p + s == s;
    } else {
      assert (p + s)[1..] == p[1..] + s;
      TrimStartBlank(p[1..], s);
    }
  }

  lemma {:induction false} TrimEndBlank(s: string, p: string)
    requires Blank(p)
    ensures TrimEnd(s + p) == TrimEnd(s)
    decreases |p|
  {
    if p == [] {
      assert s + p == s;
    } else {
      var q := p[..|p| - 1];
      assert (s + p)[..|s + p| - 1] == s + q;
      TrimEndBlank(s, q);
    }
  }

  lemma {:induction false} TrimStartAppend(x: string, p: string)
    requires Blank(p)
    ensures TrimStart(x + p) == if Blank(x) then "" else TrimStart(x) + p
    decreases |x|
  {
    if x == [] {
      assert x + p == p + "";
      TrimStartBlank(p, "");
    } else if x[0] == ' ' {
      assert (x + p)[1..] == x[1..] + p;
      TrimStartAppend(x[1..], p);
      assert Blank(x) == Blank(x[1..]);
    } else {
      assert !Blank(x);
    }
  }

  lemma TrimOneLine(s: string)
    requires OneLine(s)
    ensures Trim(s) == s
  {
  }

  lemma TrimBlank(s: string)
    requires Blank(s)
    ensures Trim(s) == ""
  {
    TrimStartBlank(s, "");
    assert s + "" == s;
  }

  lemma TrimIndent(p: string, s: string)
    requires Blank(p)
    ensures Trim(p + s) == Trim(s)
  {
    TrimStartBlank(p, s);
  }

  lemma TrimTrailing(s: string, p: string)
    requires Blank(p)
    ensures Trim(s + p) == Trim(s)
  {
    TrimStartAppend(s, p);
    if Blank(s) {
      TrimBlank(s);
    } else {
      TrimEndBlank(TrimStart(s), p);
    }
  }

  // ---------------------------------------------------------------------------
  // Code lines

  lemma {:induction false} CodeAppend(a: seq<string>, b: seq<string>)
    ensures Code(a + b) == Code(a) + Code(b)
    decreases |a|
  {
    if a == [] {
      assert a + b == b;
    } else {
      assert (a + b)[0] == a[0];
      assert (a + b)[1..] == a[1..] + b;
      CodeAppend(a[1..], b);
    }
  }

  /** Splitting at a line break splits the code lines. */
  lemma CodeLinesConcat(a: string, b: string)
    ensures CodeLines(a + NL + b) == CodeLines(a) + CodeLines(b)
  {
    LinesConcat(a, b);
    CodeAppend(Lines(a), Lines(b));
  }

  lemma CodeLinesEmpty()
    ensures CodeLines("") == []
  {
  }

  lemma CodeLinesOfBlank(s: string)
    requires Blank(s)
    ensures CodeLines(s) == []
  {
    assert '\n' !in s;
    LinesSingle(s);
    TrimBlank(s);
    assert [s][1..] == [];
  }

  lemma CodeLinesOfLine(s: string)
    requires OneLine(s)
    ensures CodeLines(s) == [s]
  {
    LinesSingle(s);
    TrimOneLine(s);
    assert Code([s]) == [s] + Code([]);
  }

  /** Indentation before a text changes none of its code lines. */
  lemma CodeLinesIndent(p: string, s: string)
    requires Blank(p)
    ensures CodeLines(p + s) == CodeLines(s)
  {
    assert '\n' !in p;
    LinesPrefix(p, s);
    var l := Lines(s);
    TrimIndent(p, l[0]);
    assert l == [l[0]] + l[1..];
    CodeAppend([p + l[0]], l[1..]);
    CodeAppend([l[0]], l[1..]);
  }

  /** Spaces after a text change none of its code lines. */
  lemma CodeLinesTrailing(s: string, p: string)
    requires Blank(p)
    ensures CodeLines(s + p) == CodeLines(s)
  {
    assert '\n' !in p;
    LinesSuffix(s, p);
    var l := Lines(s);
    var n := |l| - 1;
    TrimTrailing(l[n], p);
    assert l == l[..n] + [l[n]];
    CodeAppend(l[..n], [l[n] + p]);
    CodeAppend(l[..n], [l[n]]);
  }

  lemma CodeLinesIndentedLine(p: string, s: string)
    requires Blank(p) && OneLine(s)
    ensures CodeLines(p + s) == [s]
  {
    CodeLinesIndent(p, s);
    CodeLinesOfLine(s);
  }

  /** The code lines of texts joined by line breaks are the code lines of each text in turn. */
  lemma {:induction false} CodeLinesJoin(xs: seq<string>)
    ensures CodeLines(Join(NL, xs)) == FlatCode(xs)
    decreases |xs|
  {
    if xs == [] {
    } else if |xs| == 1 {
      assert FlatCode(xs) == CodeLines(xs[0]) + FlatCode([]);
    } else {
      CodeLinesConcat(xs[0], Join(NL, xs[1..]));
      CodeLinesJoin(xs[1..]);
    }
  }

  /** Single lines keep their own text as their code. */
  lemma {:induction false} FlatCodeOneLines(xs: seq<string>)
    requires forall i :: 0 <= i < |xs| ==> OneLine(xs[i])
    ensures FlatCode(xs) == xs
    decreases |xs|
  {
    if xs != [] {
      CodeLinesOfLine(xs[0]);
      FlatCodeOneLines(xs[1..]);
    }
  }

  /** Joining single lines with a separator that has no line break gives a single line. */
  lemma {:induction false} JoinOneLine(sep: string, xs: seq<string>)
    requires |xs| > 0 && '\n' !in sep
    requires forall i :: 0 <= i < |xs| ==> OneLine(xs[i])
    ensures OneLine(Join(sep, xs))
    decreases |xs|
  {
    if |xs| > 1 {
      JoinOneLine(sep, xs[1..]);
    }
  }

  /** The sequences of lines one after the other. */
  function Concat(xss: seq<seq<string>>): seq<string>
  {
    if xss == [] then [] else xss[0] + Concat(xss[1..])
  }

  /** Texts whose code lines are known, joined by line breaks: their code lines in turn. */
  lemma {:induction false} CodeLinesJoinEach(xs: seq<string>, yss: seq<seq<string>>)
    requires |xs| == |yss|
    requires forall i :: 0 <= i < |xs| ==> CodeLines(xs[i]) == yss[i]
    ensures CodeLines(Join(NL, xs)) == Concat(yss)
  {
    CodeLinesJoin(xs);
    FlatCodeEach(xs, yss);
  }

  lemma {:induction false} FlatCodeEach(xs: seq<string>, yss: seq<seq<string>>)
    requires |xs| == |yss|
    requires forall i :: 0 <= i < |xs| ==> CodeLines(xs[i]) == yss[i]
    ensures FlatCode(xs) == Concat(yss)
    decreases |xs|
  {
    if xs != [] {
      FlatCodeEach(xs[1..], yss[1..]);
    }
  }

  /** A template line: indentation p followed by the single line s. */
  lemma TemplateLine(full: string, p: string, s: string)
    requires full == p + s && Blank(p) && OneLine(s)
    ensures CodeLines(full) == [s]
  {
    CodeLinesIndentedLine(p, s);
  }

  /** The closing brace of a block indented by two spaces is the code line `}`. */
  lemma CloseBraceLine()
    ensures CodeLines("  }") == ["}"]
  {
    TemplateLine("  }", "  ", "}");
  }

  // ---------------------------------------------------------------------------
  // Templates: a template literal is its lines joined by line breaks, and its code lines are
  // those of each line in turn.

  lemma CodeLinesOf3(x1: string, x2: string, x3: string)
    ensures CodeLines(x1 + NL + x2 + NL + x3) ==
            CodeLines(x1) + CodeLines(x2) + CodeLines(x3)
  {
    CodeLinesConcat(x1 + NL + x2, x3);
    CodeLinesConcat(x1, x2);
  }

  /** A block: an opening line, a body and a closing line. */
  lemma BlockTemplate3(x1: string, x2: string, x3: string, open: string, body: seq<string>, close: string)
    requires CodeLines(x1) == [open] && CodeLines(x2) == body && CodeLines(x3) == [close]
    ensures CodeLines(x1 + NL + x2 + NL + x3) == [open] + body + [close]
  {
    assert CodeLines(x1 + NL + x2) == [open] + body by { CodeLinesConcat(x1, x2); }
    CodeLinesConcat(x1 + NL + x2, x3);
  }

  /** A block between a blank first and a blank last line. */
  lemma BlockTemplate5(x1: string, x2: string, x3: string, x4: string, x5: string,
                       open: string, body: seq<string>, close: string)
    requires CodeLines(x1) == [] && CodeLines(x5) == []
    requires CodeLines(x2) == [open] && CodeLines(x3) == body && CodeLines(x4) == [close]
    ensures CodeLines(x1 + NL + x2 + NL + x3 + NL + x4 + NL + x5) == [open] + body + [close]
  {
    var s2 := x1 + NL + x2;
    var s3 := s2 + NL + x3;
    var s4 := s3 + NL + x4;
    assert CodeLines(s2) == [open] by { CodeLinesConcat(x1, x2); }
    assert CodeLines(s3) == [open] + body by { CodeLinesConcat(s2, x3); }
    assert CodeLines(s4) == [open] + body + [close] by { CodeLinesConcat(s3, x4); }
    CodeLinesConcat(s4, x5);
  }

  /** Six single lines between a blank first and a blank last line. */
  lemma SixLineTemplate(x1: string, x2: string, x3: string, x4: string, x5: string, x6: string, x7: string, x8: string,
                        y: seq<string>)
    requires |y| == 6
    requires CodeLines(x1) == [] && CodeLines(x8) == []
    requires CodeLines(x2) == [y[0]] && CodeLines(x3) == [y[1]] && CodeLines(x4) == [y[2]]
    requires CodeLines(x5) == [y[3]] && CodeLines(x6) == [y[4]] && CodeLines(x7) == [y[5]]
    ensures CodeLines(x1 + NL + x2 + NL + x3 + NL + x4 + NL + x5 + NL + x6 + NL + x7 + NL + x8) == y
  {
    var s2 := x1 + NL + x2;
    var s3 := s2 + NL + x3;
    var s4 := s3 + NL + x4;
    var s5 := s4 + NL + x5;
    var s6 := s5 + NL + x6;
    var s7 := s6 + NL + x7;
    assert CodeLines(s2) == y[..1] by { CodeLinesConcat(x1, x2); }
    assert CodeLines(s3) == y[..2] by { CodeLinesConcat(s2, x3); }
    assert CodeLines(s4) == y[..3] by { CodeLinesConcat(s3, x4); }
    assert CodeLines(s5) == y[..4] by { CodeLinesConcat(s4, x5); }
    assert CodeLines(s6) == y[..5] by { CodeLinesConcat(s5, x6); }
    assert CodeLines(s7) == y by { CodeLinesConcat(s6, x7); }
    CodeLinesConcat(s7, x8);
  }

  /** A blank line, three single lines, a body and a blank line. */
  lemma ThreeLinesThenBody(x1: string, x2: string, x3: string, x4: string, x5: string, x6: string,
                           y: seq<string>, body: seq<string>)
    requires |y| == 3
    requires CodeLines(x1) == [] && CodeLines(x6) == []
    requires CodeLines(x2) == [y[0]] && CodeLines(x3) == [y[1]] && CodeLines(x4) == [y[2]]
    requires CodeLines(x5) == body
    ensures CodeLines(x1 + NL + x2 + NL + x3 + NL + x4 + NL + x5 + NL + x6) == y + body
  {
    var s2 := x1 + NL + x2;
    var s3 := s2 + NL + x3;
    var s4 := s3 + NL + x4;
    var s5 := s4 + NL + x5;
    assert CodeLines(s2) == y[..1] by { CodeLinesConcat(x1, x2); }
    assert CodeLines(s3) == y[..2] by { CodeLinesConcat(s2, x3); }
    assert CodeLines(s4) == y by { CodeLinesConcat(s3, x4); }
    assert CodeLines(s5) == y + body by { CodeLinesConcat(s4, x5); }
    CodeLinesConcat(s5, x6);
  }

  /** Three texts separated by blank lines, followed by blank lines. */
  lemma ThreeParts(x1: string, x2: string, x3: string, x4: string, x5: string, x6: string, x7: string,
                   a: seq<string>, b: seq<string>, c: seq<string>)
    requires CodeLines(x1) == a && CodeLines(x3) == b && CodeLines(x5) == c
    requires CodeLines(x2) == [] && CodeLines(x4) == [] && CodeLines(x6) == [] && CodeLines(x7) == []
    ensures CodeLines(x1 + NL + x2 + NL + x3 + NL + x4 + NL + x5 + NL + x6 + NL + x7) == a + b + c
  {
    var s2 := x1 + NL + x2;
    var s3 := s2 + NL + x3;
    var s4 := s3 + NL + x4;
    var s5 := s4 + NL + x5;
    var s6 := s5 + NL + x6;
    assert CodeLines(s2) == a by { CodeLinesConcat(x1, x2); }
    assert CodeLines(s3) == a + b by { CodeLinesConcat(s2, x3); }
    assert CodeLines(s4) == a + b by { CodeLinesConcat(s3, x4); }
    assert CodeLines(s5) == a + b + c by { CodeLinesConcat(s4, x5); }
    assert CodeLines(s6) == a + b + c by { CodeLinesConcat(s5, x6); }
    CodeLinesConcat(s6, x7);
  }

  /** An opening line, five texts separated by blank lines, a closing line and a blank line. */
  lemma FivePartsBlock(x1: string, x2: string, x3: string, x4: string, x5: string, x6: string, x7: string,
                       x8: string, x9: string, x10: string, x11: string, x12: string, x13: string,
                       open: string, b1: seq<string>, b2: seq<string>, b3: seq<string>, b4: seq<string>,
                       b5: seq<string>, close: string)
    requires CodeLines(x1) == [open] && CodeLines(x12) == [close]
    requires CodeLines(x3) == b1 && CodeLines(x5) == b2 && CodeLines(x7) == b3 && CodeLines(x9) == b4 && CodeLines(x11) == b5
    requires CodeLines(x2) == [] && CodeLines(x4) == [] && CodeLines(x6) == [] && CodeLines(x8) == []
    requires CodeLines(x10) == [] && CodeLines(x13) == []
    ensures CodeLines(x1 + NL + x2 + NL + x3 + NL + x4 + NL + x5 + NL + x6 + NL + x7 + NL + x8 + NL + x9 + NL +
                      x10 + NL + x11 + NL + x12 + NL + x13) ==
            [open] + b1 + b2 + b3 + b4 + b5 + [close]
  {
    var s2 := x1 + NL + x2;
    var s3 := s2 + NL + x3;
    var s4 := s3 + NL + x4;
    var s5 := s4 + NL + x5;
    var s6 := s5 + NL + x6;
    var s7 := s6 + NL + x7;
    var s8 := s7 + NL + x8;
    var s9 := s8 + NL + x9;
    var s10 := s9 + NL + x10;
    var s11 := s10 + NL + x11;
    var s12 := s11 + NL + x12;
    assert CodeLines(s2) == [open] by { CodeLinesConcat(x1, x2); }
    assert CodeLines(s3) == [open] + b1 by { CodeLinesConcat(s2, x3); }
    assert CodeLines(s4) == [open] + b1 by { CodeLinesConcat(s3, x4); }
    assert CodeLines(s5) == [open] + b1 + b2 by { CodeLinesConcat(s4, x5); }
    assert CodeLines(s6) == [open] + b1 + b2 by { CodeLinesConcat(s5, x6); }
    assert CodeLines(s7) == [open] + b1 + b2 + b3 by { CodeLinesConcat(s6, x7); }
    assert CodeLines(s8) == [open] + b1 + b2 + b3 by { CodeLinesConcat(s7, x8); }
    assert CodeLines(s9) == [open] + b1 + b2 + b3 + b4 by { CodeLinesConcat(s8, x9); }
    assert CodeLines(s10) == [open] + b1 + b2 + b3 + b4 by { CodeLinesConcat(s9, x10); }
    assert CodeLines(s11) == [open] + b1 + b2 + b3 + b4 + b5 by { CodeLinesConcat(s10, x11); }
    assert CodeLines(s12) == [open] + b1 + b2 + b3 + b4 + b5 + [close] by { CodeLinesConcat(s11, x12); }
    CodeLinesConcat(s12, x13);
  }
}
