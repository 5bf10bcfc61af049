/** The test suite's text normaliser `normalizeCode`
    (examples/statemachine/test/util.ts): split at line feeds, trim every line,
    drop the lines left empty, join the rest with single line feeds. */
module Normalizer {

  /** The characters JavaScript's `String.prototype.trim` removes: the
      ECMAScript WhiteSpace (tab, vertical tab, form feed, space, no-break space,
      byte order mark, the Unicode space separators) and LineTerminator code points. */
  predicate IsWhitespace(c: char) {
    c == '\t' || c == '\n' || c == '\r' || c == ' ' || c == '\U{000B}' || c == '\U{000C}'
    || c == '\U{00A0}' || c == '\U{1680}' || ('\U{2000}' <= c <= '\U{200A}')
    || c == '\U{2028}' || c == '\U{2029}' || c == '\U{202F}' || c == '\U{205F}'
    || c == '\U{3000}' || c == '\U{FEFF}'
  }

  /** `s.split('\n')`: the pieces between line feeds; never empty, `""` splits to `[""]`. */
  function Split(s: string): (r: seq<string>)
    ensures |r| >= 1
    ensures forall i :: 0 <= i < |r| ==> '\n' !in r[i]
    decreases |s|
  {
    if s == [] then [""]
    else
      var rest := Split(s[1..]);
      if s[0] == '\n' then [""] + rest else [[s[0]] + rest[0]] + rest[1..]
  }

  /** `lines.join('\n')`. */
  function Join(lines: seq<string>): string
    decreases |lines|
  {
    if |lines| == 0 then ""
    else if |lines| == 1 then lines[0]
    else lines[0] + "\n" + Join(lines[1..])
  }

  function TrimStart(s: string): (r: string)
    ensures |r| <= |s| && r == s[|s| - |r|..]
    decreases |s|
  {
    if s != [] && IsWhitespace(s[0]) then TrimStart(s[1..]) else s
  }

  function TrimEnd(s: string): (r: string)
    ensures |r| <= |s| && r == s[..|r|]
    decreases |s|
  {
    if s != [] && IsWhitespace(s[|s| - 1]) then TrimEnd(s[..|s| - 1]) else s
  }

  /** `line.trim()`. */
  function Trim(s: string): string {
    TrimEnd(TrimStart(s))
  }

  /** A line that neither starts nor ends with whitespace (the empty line included). */
  predicate IsTrimmed(s: string) {
    s == [] || (!IsWhitespace(s[0]) && !IsWhitespace(s[|s| - 1]))
  }

  function TrimAll(lines: seq<string>): (r: seq<string>)
    ensures |r| == |lines|
    decreases |lines|
  {
    if lines == [] then [] else [Trim(lines[0])] + TrimAll(lines[1..])
  }

  function DropEmpty(lines: seq<string>): (r: seq<string>)
    ensures |r| <= |lines|
    decreases |lines|
  {
    if lines == [] then []
    else if |lines[0]| > 0 then [lines[0]] + DropEmpty(lines[1..])
    else DropEmpty(lines[1..])
  }

  /** The lines `normalizeCode` keeps, in order. */
  function NormalizedLines(code: string): seq<string> {
    DropEmpty(TrimAll(Split(code)))
  }

  /** `normalizeCode`. */
  function NormalizeCode(code: string): string {
    Join(NormalizedLines(code))
  }

  // ---------------------------------------------------------------------------
  // Split and Join are inverse

  lemma {:induction false} SplitThenJoin(s: string)
    ensures Join(Split(s)) == s
    decreases |s|
  {
    if s != [] {
      SplitThenJoin(s[1..]);
      var rest := Split(s[1..]);
      if s[0] != '\n' {
        var r := Split(s);
        assert r[0] == [s[0]] + rest[0] && r[1..] == rest[1..];
        if |rest| == 1 {
          assert Join(r) == r[0];
        } else {
          assert Join(r) == r[0] + "\n" + Join(r[1..]);
          assert Join(rest) == rest[0] + "\n" + Join(rest[1..]);
        }
      }
    }
  }

  /** Joining lines free of line feeds and splitting again gives the lines back. */
  lemma {:induction false} JoinThenSplit(lines: seq<string>)
    requires |lines| >= 1
    requires forall i :: 0 <= i < |lines| ==> '\n' !in lines[i]
    ensures Split(Join(lines)) == lines
    decreases |lines|, |lines[0]|
  {
    if lines[0] == [] {
      if |lines| == 1 {
        assert Join(lines) == "";
      } else {
        JoinThenSplit(lines[1..]);
        assert Join(lines) == "\n" + Join(lines[1..]);
        assert Join(lines)[1..] == Join(lines[1..]);
      }
    } else {
      var first := lines[0];
      var shorter := [first[1..]] + lines[1..];
      assert forall i :: 0 <= i < |shorter| ==> '\n' !in shorter[i] by {
        forall i | 0 <= i < |shorter| ensures '\n' !in shorter[i] {
          if i == 0 {
            assert forall k :: 0 <= k < |first[1..]| ==> first[1..][k] == first[k + 1];
          } else {
            assert shorter[i] == lines[i];
          }
        }
      }
      JoinThenSplit(shorter);
      assert first[0] != '\n';
      if |lines| == 1 {
        assert Join(lines) == first;
        assert Join(shorter) == first[1..];
      } else {
        assert Join(lines) == first + "\n" + Join(lines[1..]);
        assert shorter[1..] == lines[1..];
        assert Join(shorter) == first[1..] + "\n" + Join(lines[1..]);
      }
      assert Join(lines)[1..] == Join(shorter);
      assert Join(lines) == [first[0]] + Join(shorter);
      assert [first[0]] + first[1..] == first;
    }
  }

  // ---------------------------------------------------------------------------
  // Trimming

  lemma {:induction false} TrimStartSkipsWhitespace(s: string)
    ensures TrimStart(s) == [] || !IsWhitespace(TrimStart(s)[0])
    ensures forall k :: 0 <= k < |s| - |TrimStart(s)| ==> IsWhitespace(s[k])
    decreases |s|
  {
    if s != [] && IsWhitespace(s[0]) {
      TrimStartSkipsWhitespace(s[1..]);
    }
  }

  lemma {:induction false} TrimEndSkipsWhitespace(s: string)
    ensures TrimEnd(s) == [] || !IsWhitespace(TrimEnd(s)[|TrimEnd(s)| - 1])
    ensures forall k :: |TrimEnd(s)| <= k < |s| ==> IsWhitespace(s[k])
    decreases |s|
  {
    if s != [] && IsWhitespace(s[|s| - 1]) {
      TrimEndSkipsWhitespace(s[..|s| - 1]);
    }
  }

  lemma {:induction false} TrimEndKeepsStart(s: string)
    requires s == [] || !IsWhitespace(s[0])
    ensures TrimEnd(s) == [] || !IsWhitespace(TrimEnd(s)[0])
  {
    if TrimEnd(s) != [] {
      assert TrimEnd(s)[0] == s[0];
    }
  }

  /** Trim leaves no whitespace at either end, drops only whitespace, and keeps what lies between. */
  lemma TrimIsTrimmed(s: string)
    ensures IsTrimmed(Trim(s))
    ensures exists a, b :: 0 <= a <= b <= |s| && Trim(s) == s[a..b]
    ensures (forall k :: 0 <= k < |s| ==> IsWhitespace(s[k])) <==> Trim(s) == []
  {
    var t := TrimStart(s);
    TrimStartSkipsWhitespace(s);
    TrimEndKeepsStart(t);
    TrimEndSkipsWhitespace(t);
    var a := |s| - |t|;
    var b := a + |TrimEnd(t)|;
    assert Trim(s) == s[a..b];
    if Trim(s) == [] {
      assert |t| == 0;
    } else {
      assert !IsWhitespace(s[a]);
    }
  }

  lemma TrimOfTrimmed(s: string)
    requires IsTrimmed(s)
    ensures Trim(s) == s
  {
  }

  lemma TrimKeepsLineFeedFree(s: string)
    requires '\n' !in s
    ensures '\n' !in Trim(s)
  {
    TrimIsTrimmed(s);
    var a, b :| 0 <= a <= b <= |s| && Trim(s) == s[a..b];
  }

  // ---------------------------------------------------------------------------
  // normalizeCode

  /** Lines that are non-empty, trimmed and free of line feeds: the shape of normalised text. */
  predicate CleanLines(lines: seq<string>) {
    forall i :: 0 <= i < |lines| ==> |lines[i]| > 0 && IsTrimmed(lines[i]) && '\n' !in lines[i]
  }

  lemma {:induction false} TrimAllPieces(lines: seq<string>)
    requires forall i :: 0 <= i < |lines| ==> '\n' !in lines[i]
    ensures forall i :: 0 <= i < |lines| ==> TrimAll(lines)[i] == Trim(lines[i])
    ensures forall i :: 0 <= i < |lines| ==> IsTrimmed(TrimAll(lines)[i]) && '\n' !in TrimAll(lines)[i]
    decreases |lines|
  {
    if lines != [] {
      TrimAllPieces(lines[1..]);
      forall i | 0 < i < |lines| ensures TrimAll(lines)[i] == Trim(lines[i]) {
        assert TrimAll(lines)[i] == TrimAll(lines[1..])[i - 1];
      }
    }
    forall i | 0 <= i < |lines| ensures IsTrimmed(TrimAll(lines)[i]) && '\n' !in TrimAll(lines)[i] {
      TrimIsTrimmed(lines[i]);
      TrimKeepsLineFeedFree(lines[i]);
    }
  }

  lemma {:induction false} DropEmptyKeepsOthers(lines: seq<string>)
    requires forall i :: 0 <= i < |lines| ==> IsTrimmed(lines[i]) && '\n' !in lines[i]
    ensures CleanLines(DropEmpty(lines))
    ensures (forall i :: 0 <= i < |lines| ==> lines[i] == []) ==> DropEmpty(lines) == []
    decreases |lines|
  {
    if lines != [] {
      DropEmptyKeepsOthers(lines[1..]);
      var rest := DropEmpty(lines[1..]);
      if |lines[0]| > 0 {
        forall i | 0 <= i < |DropEmpty(lines)|
          ensures |DropEmpty(lines)[i]| > 0 && IsTrimmed(DropEmpty(lines)[i]) && '\n' !in DropEmpty(lines)[i]
        {
          if i > 0 {
            assert DropEmpty(lines)[i] == rest[i - 1];
          }
        }
      }
    }
  }

  lemma {:induction false} DropEmptyOfNonEmpty(lines: seq<string>)
    requires forall i :: 0 <= i < |lines| ==> |lines[i]| > 0
    ensures DropEmpty(lines) == lines
    decreases |lines|
  {
    if lines != [] {
      DropEmptyOfNonEmpty(lines[1..]);
      assert [lines[0]] + lines[1..] == lines;
    }
  }

  lemma {:induction false} TrimAllOfTrimmed(lines: seq<string>)
    requires forall i :: 0 <= i < |lines| ==> IsTrimmed(lines[i])
    ensures TrimAll(lines) == lines
    decreases |lines|
  {
    if lines != [] {
      assert forall i :: 0 <= i < |lines[1..]| ==> lines[1..][i] == lines[i + 1];
      TrimAllOfTrimmed(lines[1..]);
      TrimOfTrimmed(lines[0]);
      assert TrimAll(lines) == [lines[0]] + lines[1..];
    }
  }

  /** The normalised lines are the non-empty trimmed input lines: each non-empty, trimmed and free of line feeds. */
  lemma NormalizedLinesAreClean(code: string)
    ensures CleanLines(NormalizedLines(code))
  {
    TrimAllPieces(Split(code));
    DropEmptyKeepsOthers(TrimAll(Split(code)));
  }

  /** Splitting normalised text again yields exactly the kept lines (none, for the empty result). */
  lemma NormalizeCodeLines(code: string)
    ensures NormalizedLines(code) != [] ==> Split(NormalizeCode(code)) == NormalizedLines(code)
    ensures NormalizedLines(code) == [] <==> NormalizeCode(code) == ""
  {
    NormalizedLinesAreClean(code);
    CleanLinesRoundTrip(NormalizedLines(code));
  }

  /** Clean lines survive a join and a split; their join is empty only when there are none. */
  lemma CleanLinesRoundTrip(lines: seq<string>)
    requires CleanLines(lines)
    ensures lines != [] ==> Split(Join(lines)) == lines
    ensures lines == [] <==> Join(lines) == ""
  {
    if lines != [] {
      JoinThenSplit(lines);
      if |lines| > 1 {
        assert Join(lines) == lines[0] + "\n" + Join(lines[1..]);
      }
    }
  }

  /** Normalised text is a fixed point: normalising twice is normalising once. */
  lemma NormalizeCodeIdempotent(code: string)
    ensures NormalizeCode(NormalizeCode(code)) == NormalizeCode(code)
  {
    var lines := NormalizedLines(code);
    NormalizedLinesAreClean(code);
    NormalizeCodeLines(code);
    if lines == [] {
      assert NormalizeCode(code) == "";
      assert Split("") == [""];
      assert TrimAll([""]) == [Trim("")];
    } else {
      CleanTextIsNormal(lines);
    }
  }

  /** Joining clean lines gives text that `normalizeCode` leaves unchanged. */
  lemma CleanTextIsNormal(lines: seq<string>)
    requires CleanLines(lines)
    ensures NormalizeCode(Join(lines)) == Join(lines)
  {
    if lines == [] {
      assert Split("") == [""];
      assert TrimAll([""]) == [Trim("")];
    } else {
      JoinThenSplit(lines);
      TrimAllOfTrimmed(lines);
      DropEmptyOfNonEmpty(lines);
    }
  }

  /** Joining lines that are non-empty and free of line feeds never puts two line feeds side by side. */
  lemma {:induction false} JoinHasNoBlankLine(lines: seq<string>)
    requires forall i :: 0 <= i < |lines| ==> |lines[i]| > 0 && '\n' !in lines[i]
    ensures var s := Join(lines);
      (s != [] ==> s[0] != '\n' && s[|s| - 1] != '\n')
      && forall k :: 0 <= k < |s| - 1 ==> !(s[k] == '\n' && s[k + 1] == '\n')
    decreases |lines|
  {
    if |lines| > 1 {
      JoinHasNoBlankLine(lines[1..]);
      var s := Join(lines);
      var first := lines[0];
      var rest := Join(lines[1..]);
      assert s == first + "\n" + rest;
      forall k | 0 <= k < |s| - 1 ensures !(s[k] == '\n' && s[k + 1] == '\n') {
        if k < |first| {
          assert s[k] == first[k];
        } else if k > |first| {
          assert s[k] == rest[k - |first| - 1];
          assert s[k + 1] == rest[k - |first|];
        } else {
          assert s[k + 1] == rest[0];
        }
      }
    }
  }

  /** Normalised text has no empty line: no two consecutive line feeds, none at either end. */
  lemma NormalizeCodeHasNoBlankLine(code: string)
    ensures var s := NormalizeCode(code);
      (s != [] ==> s[0] != '\n' && s[|s| - 1] != '\n')
      && forall k :: 0 <= k < |s| - 1 ==> !(s[k] == '\n' && s[k + 1] == '\n')
  {
    NormalizedLinesAreClean(code);
    JoinHasNoBlankLine(NormalizedLines(code));
  }

  /** Input made only of whitespace and line breaks normalises to the empty string. */
  lemma BlankInputNormalizesToEmpty(code: string)
    requires forall k :: 0 <= k < |code| ==> IsWhitespace(code[k])
    ensures NormalizeCode(code) == ""
  {
    var pieces := Split(code);
    SplitThenJoin(code);
    TrimAllPieces(pieces);
    forall i | 0 <= i < |pieces| ensures TrimAll(pieces)[i] == [] {
      PieceOfBlankIsBlank(pieces, i);
      TrimIsTrimmed(pieces[i]);
    }
    DropEmptyKeepsOthers(TrimAll(pieces));
  }

  /** Every character of a joined piece is a character of the joined text. */
  lemma {:induction false} PieceOfBlankIsBlank(pieces: seq<string>, i: nat)
    requires i < |pieces|
    requires forall k :: 0 <= k < |Join(pieces)| ==> IsWhitespace(Join(pieces)[k])
    ensures forall k :: 0 <= k < |pieces[i]| ==> IsWhitespace(pieces[i][k])
    decreases |pieces|
  {
    if |pieces| > 1 {
      var s := Join(pieces);
      var rest := Join(pieces[1..]);
      assert s == pieces[0] + "\n" + rest;
      if i == 0 {
        forall k | 0 <= k < |pieces[0]| ensures IsWhitespace(pieces[0][k]) {
          assert s[k] == pieces[0][k];
        }
      } else {
        forall k | 0 <= k < |rest| ensures IsWhitespace(rest[k]) {
          assert rest[k] == s[|pieces[0]| + 1 + k];
        }
        PieceOfBlankIsBlank(pieces[1..], i - 1);
        assert pieces[1..][i - 1] == pieces[i];
      }
    } else {
      assert Join(pieces) == pieces[0];
    }
  }
}
