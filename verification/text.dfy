/** String operations of the JavaScript standard library used by the relay,
    the page and the input box: `trim`, `split('\n')`, `startsWith` and
    string concatenation. */
module Text {

  /** Characters `String.prototype.trim` removes: the ECMAScript WhiteSpace
      and LineTerminator code points. */
  predicate IsWhitespace(c: char) {
    || c == '\t' || c == '\n' || c == '\U{B}' || c == '\U{C}' || c == '\r' || c == ' '
    || c == '\U{A0}' || c == '\U{1680}' || ('\U{2000}' <= c <= '\U{200A}')
    || c == '\U{2028}' || c == '\U{2029}' || c == '\U{202F}' || c == '\U{205F}'
    || c == '\U{3000}' || c == '\U{FEFF}'
  }

  /** Every character of `s` is whitespace (the empty string included). */
  predicate IsBlank(s: string) {
    forall i :: 0 <= i < |s| ==> IsWhitespace(s[i])
  }

  /** `s` with its leading whitespace removed. */
  function TrimStart(s: string): (r: string)
    ensures |r| <= |s| && r == s[|s| - |r|..]
    ensures forall i :: 0 <= i < |s| - |r| ==> IsWhitespace(s[i])
    ensures r == [] || !IsWhitespace(r[0])
  {
    if |s| > 0 && IsWhitespace(s[0]) then TrimStart(s[1..]) else s
  }

  /** `s` with its trailing whitespace removed. */
  function TrimEnd(s: string): (r: string)
    ensures |r| <= |s| && r == s[..|r|]
    ensures forall i :: |r| <= i < |s| ==> IsWhitespace(s[i])
    ensures r == [] || !IsWhitespace(r[|r| - 1])
  {
    if |s| > 0 && IsWhitespace(s[|s| - 1]) then TrimEnd(s[..|s| - 1]) else s
  }

  /** `s.trim()`: the longest infix of `s` that neither starts nor ends with
      whitespace, obtained by dropping only whitespace on both sides. */
  function Trim(s: string): (r: string)
    ensures r == "" <==> IsBlank(s)
    ensures r == "" || (!IsWhitespace(r[0]) && !IsWhitespace(r[|r| - 1]))
    ensures |r| <= |s|
  {
    TrimFacts(s);
    TrimEnd(TrimStart(s))
  }

  lemma TrimFacts(s: string)
    ensures TrimEnd(TrimStart(s)) == "" <==> IsBlank(s)
  {
    var t := TrimStart(s);
    var r := TrimEnd(t);
    if r == "" {
      // Trimming the end strips all of `t`, whose first character is not
      // whitespace unless `t` is empty: so only leading whitespace was there.
      assert t == [];
    } else {
      assert !IsWhitespace(s[|s| - |t|]);
    }
  }

  /** `prefix` is a prefix of `s` (`s.startsWith(prefix)`). */
  predicate StartsWith(s: string, prefix: string)
    ensures StartsWith(s, prefix) <==> |prefix| <= |s| && forall i :: 0 <= i < |prefix| ==> s[i] == prefix[i]
    ensures StartsWith(s, prefix) ==> s == prefix + s[|prefix|..]
  {
    |prefix| <= |s| && s[..|prefix|] == prefix
  }

  /** The concatenation of `parts`, in order. */
  function Concat(parts: seq<string>): string {
    if parts == [] then "" else parts[0] + Concat(parts[1..])
  }

  lemma {:induction false} ConcatAppend(a: seq<string>, b: seq<string>)
    ensures Concat(a + b) == Concat(a) + Concat(b)
  {
    if a == [] {
      assert a + b == b;
    } else {
      assert (a + b)[1..] == a[1..] + b;
      ConcatAppend(a[1..], b);
    }
  }

  /** `s.split('\n')`: the pieces of `s` between line feeds; there is always
      at least one, and none holds a line feed. */
  function Lines(s: string): (r: seq<string>)
    ensures |r| > 0
    ensures forall i :: 0 <= i < |r| ==> '\n' !in r[i]
  {
    if |s| == 0 then [""]
    else
      var rest := Lines(s[1..]);
      if s[0] == '\n' then [""] + rest
      else [[s[0]] + rest[0]] + rest[1..]
  }

  /** `parts.join('\n')`. */
  function JoinLines(parts: seq<string>): string {
    if |parts| == 0 then ""
    else if |parts| == 1 then parts[0]
    else parts[0] + "\n" + JoinLines(parts[1..])
  }

  /** Splitting at line feeds loses nothing: joining the pieces rebuilds `s`. */
  lemma {:induction false} JoinLinesOfLines(s: string)
    ensures JoinLines(Lines(s)) == s
  {
    if |s| > 0 {
      var rest := Lines(s[1..]);
      JoinLinesOfLines(s[1..]);
      if s[0] == '\n' {
        assert Lines(s) == [""] + rest;
        assert JoinLines(Lines(s)) == "" + "\n" + JoinLines(rest);
        assert s == [s[0]] + s[1..];
      } else {
        var r := Lines(s);
        assert r == [[s[0]] + rest[0]] + rest[1..];
        if |rest| == 1 {
          assert JoinLines(r) == [s[0]] + rest[0];
        } else {
          assert r[1..] == rest[1..];
          assert JoinLines(r) == [s[0]] + rest[0] + "\n" + JoinLines(rest[1..]);
          assert JoinLines(rest) == rest[0] + "\n" + JoinLines(rest[1..]);
        }
        assert s == [s[0]] + s[1..];
      }
    }
  }

  /** A piece without a line feed followed by a line feed splits off as one piece. */
  lemma {:induction false} LinesOfPieceThen(p: string, t: string)
    requires '\n' !in p
    ensures Lines(p + "\n" + t) == [p] + Lines(t)
  {
    if p == "" {
      assert p + "\n" + t == "\n" + t;
      assert ("\n" + t)[1..] == t;
    } else {
      var s := p + "\n" + t;
      assert s[1..] == p[1..] + "\n" + t;
      assert '\n' !in p[1..] by {
        forall k | 0 <= k < |p[1..]| ensures p[1..][k] != '\n' {
          assert p[1..][k] == p[k + 1];
        }
      }
      LinesOfPieceThen(p[1..], t);
      assert [p[0]] + p[1..] == p;
    }
  }

  /** A piece without a line feed splits into itself alone. */
  lemma {:induction false} LinesOfPiece(p: string)
    requires '\n' !in p
    ensures Lines(p) == [p]
  {
    if p != "" {
      assert '\n' !in p[1..] by {
        forall k | 0 <= k < |p[1..]| ensures p[1..][k] != '\n' {
          assert p[1..][k] == p[k + 1];
        }
      }
      LinesOfPiece(p[1..]);
      assert [p[0]] + p[1..] == p;
    }
  }

  /** Joining pieces that hold no line feed and splitting again gives the pieces back. */
  lemma {:induction false} LinesOfJoinLines(parts: seq<string>)
    requires |parts| > 0
    requires forall i :: 0 <= i < |parts| ==> '\n' !in parts[i]
    ensures Lines(JoinLines(parts)) == parts
  {
    if |parts| == 1 {
      LinesOfPiece(parts[0]);
    } else {
      LinesOfJoinLines(parts[1..]);
      LinesOfPieceThen(parts[0], JoinLines(parts[1..]));
      assert [parts[0]] + parts[1..] == parts;
    }
  }

  /** `lines.filter(line => line.trim())`: the lines that are not blank, in
      order. A line's trim is empty exactly when the line is blank (see
      `Trim`), so the filter is stated with `IsBlank`. */
  function KeepNonBlank(lines: seq<string>): (r: seq<string>)
    ensures |r| <= |lines|
    ensures forall i :: 0 <= i < |r| ==> !IsBlank(r[i])
  {
    if lines == [] then []
    else (if !IsBlank(lines[0]) then [lines[0]] else []) + KeepNonBlank(lines[1..])
  }

  /** `chunk.split('\n').filter(line => line.trim())`. */
  function NonBlankLines(chunk: string): (r: seq<string>)
    ensures forall i :: 0 <= i < |r| ==> !IsBlank(r[i]) && '\n' !in r[i]
  {
    var r := KeepNonBlank(Lines(chunk));
    assert forall i :: 0 <= i < |r| ==> '\n' !in r[i] by {
      KeptLinesAreLines(Lines(chunk));
    }
    r
  }

  /** Every kept line is one of the input lines. */
  lemma {:induction false} KeptLinesAreLines(lines: seq<string>)
    ensures forall i :: 0 <= i < |KeepNonBlank(lines)| ==> KeepNonBlank(lines)[i] in lines
  {
    if lines != [] {
      KeptLinesAreLines(lines[1..]);
      var r := KeepNonBlank(lines);
      var tail := KeepNonBlank(lines[1..]);
      forall i | 0 <= i < |r| ensures r[i] in lines {
        if !IsBlank(lines[0]) {
          if i > 0 { assert r[i] == tail[i - 1]; assert tail[i - 1] in lines[1..]; }
        } else {
          assert r[i] == tail[i];
          assert tail[i] in lines[1..];
        }
      }
    }
  }

  /** The filter keeps exactly the non-blank lines: a line is kept if and
      only if it is one of the input lines and is not blank. */
  lemma {:induction false} KeepNonBlankMembers(lines: seq<string>)
    ensures forall x :: x in KeepNonBlank(lines) <==> x in lines && !IsBlank(x)
  {
    if lines != [] {
      KeepNonBlankMembers(lines[1..]);
      assert lines == [lines[0]] + lines[1..];
    }
  }

  /** The non-blank lines of a chunk are exactly the non-blank pieces of its split. */
  lemma NonBlankLinesMembers(chunk: string)
    ensures forall x :: x in NonBlankLines(chunk) <==> x in Lines(chunk) && !IsBlank(x)
  {
    KeepNonBlankMembers(Lines(chunk));
  }

  /** Blank lines are filtered out wherever they are: filtering distributes over concatenation. */
  lemma {:induction false} KeepNonBlankAppend(a: seq<string>, b: seq<string>)
    ensures KeepNonBlank(a + b) == KeepNonBlank(a) + KeepNonBlank(b)
  {
    if a == [] {
      assert a + b == b;
    } else {
      assert (a + b)[1..] == a[1..] + b;
      KeepNonBlankAppend(a[1..], b);
    }
  }

  /** An event line and its blank line, then more text: the event line
      comes first among the non-blank lines, the rest follow. */
  lemma EventLinesThen(line: string, rest: string)
    requires '\n' !in line && !IsBlank(line)
    ensures NonBlankLines(line + "\n\n" + rest) == [line] + NonBlankLines(rest)
  {
    assert line + "\n\n" + rest == line + "\n" + ("" + "\n" + rest);
    LinesOfPieceThen(line, "" + "\n" + rest);
    LinesOfPieceThen("", rest);
    var pair := [line, ""];
    assert Lines(line + "\n\n" + rest) == pair + Lines(rest);
    KeepNonBlankAppend(pair, Lines(rest));
    assert pair[1..] == [""] && pair[1..][1..] == [];
    assert KeepNonBlank(pair) == [line];
  }

  /** A non-blank line followed by the blank line that ends an event: one line. */
  lemma EventLines(line: string)
    requires '\n' !in line && !IsBlank(line)
    ensures NonBlankLines(line + "\n\n") == [line]
  {
    var parts := [line, "", ""];
    assert JoinLines(parts[2..]) == "";
    assert JoinLines(parts[1..]) == "" + "\n" + "";
    assert JoinLines(parts) == line + "\n\n";
    LinesOfJoinLines(parts);
    KeepNonBlankAppend([line], ["", ""]);
    KeepNonBlankAppend([""], [""]);
    assert ["", ""] == [""] + [""];
    assert KeepNonBlank([""]) == [] by { assert [""][1..] == []; }
    assert KeepNonBlank([line]) == [line] by { assert [line][1..] == []; }
  }
}
