/**
 * `parseRandomNumbers` of src/components/SimulationConfig.tsx: the operator
 * types the random digits (integers 0..99) into a text area; the text is split
 * on runs of white space and commas, each piece is trimmed, empty pieces are
 * dropped, each piece goes through `parseInt`, and only results that are
 * numbers in 0..99 are kept. The text area shows the kept list with
 * `join(" ")` and parses it again on every change.
 */
module SimulationConfig {
  import opened Digits

  /** ECMAScript WhiteSpace and LineTerminator: what `\s` matches and `trim` removes. */
  predicate IsWhiteSpace(c: char)
  {
    c == '\t' || c == '\n' || c == '\U{000B}' || c == '\U{000C}' || c == '\r' || c == ' '
    || c == '\U{00A0}' || c == '\U{1680}' || ('\U{2000}' <= c <= '\U{200A}')
    || c == '\U{2028}' || c == '\U{2029}' || c == '\U{202F}' || c == '\U{205F}'
    || c == '\U{3000}' || c == '\U{FEFF}'
  }

  /** A character of the class `[\s,]`. */
  predicate IsSeparator(c: char)
  {
    c == ',' || IsWhiteSpace(c)
  }

  predicate SeparatorFree(s: string)
  {
    forall i :: 0 <= i < |s| ==> !IsSeparator(s[i])
  }

  // ---------------------------------------------------------------------------
  // Splitting the text on runs of white space and commas
  // ---------------------------------------------------------------------------

  /** Drops the run of separators that `s` starts with. */
  function SkipSeparators(s: string): (r: string)
    ensures |r| <= |s| && r == s[|s| - |r|..]
    ensures s != [] && IsSeparator(s[0]) ==> |r| < |s|
    ensures r == [] || !IsSeparator(r[0])
    ensures forall i :: 0 <= i < |s| - |r| ==> IsSeparator(s[i])
  {
    if s != [] && IsSeparator(s[0]) then
      var r := SkipSeparators(s[1..]);
      assert forall i :: 0 < i < |s| - |r| ==> s[i] == s[1..][i - 1];
      r
    else s
  }

  /**
   * Splitting on separators: the pieces between maximal runs of separators. A text
   * that starts (ends) with a separator gives an empty first (last) piece, and
   * the empty text gives one empty piece.
   */
  function Split(s: string): (parts: seq<string>)
    ensures |parts| >= 1
    ensures forall k :: 0 <= k < |parts| ==> SeparatorFree(parts[k])
    decreases |s|
  {
    if s == [] then [""]
    else if IsSeparator(s[0]) then [""] + Split(SkipSeparators(s))
    else
      var rest := Split(s[1..]);
      [[s[0]] + rest[0]] + rest[1..]
  }

  /** The characters of `s` that are not separators, in order. */
  function NonSeparators(s: string): string
  {
    if s == [] then [] else (if IsSeparator(s[0]) then [] else [s[0]]) + NonSeparators(s[1..])
  }

  function Concat(parts: seq<string>): string
  {
    if parts == [] then [] else parts[0] + Concat(parts[1..])
  }

  lemma {:induction false} SkipSeparatorsKeepsOthers(s: string)
    ensures NonSeparators(SkipSeparators(s)) == NonSeparators(s)
  {
    if s != [] && IsSeparator(s[0]) {
      SkipSeparatorsKeepsOthers(s[1..]);
    }
  }

  /** Splitting loses exactly the separators: the pieces, put back together, are the other characters in order. */
  lemma {:induction false} SplitLosesOnlySeparators(s: string)
    ensures Concat(Split(s)) == NonSeparators(s)
    decreases |s|
  {
    if s == [] {
    } else if IsSeparator(s[0]) {
      SplitLosesOnlySeparators(SkipSeparators(s));
      SkipSeparatorsKeepsOthers(s);
    } else {
      SplitLosesOnlySeparators(s[1..]);
      var rest := Split(s[1..]);
      assert Concat(rest) == rest[0] + Concat(rest[1..]);
    }
  }

  // ---------------------------------------------------------------------------
  // Trimming each piece
  // ---------------------------------------------------------------------------

  predicate NoWhiteSpace(s: string)
  {
    forall i :: 0 <= i < |s| ==> !IsWhiteSpace(s[i])
  }

  /** Drops the white space that `s` starts with. */
  function TrimStart(s: string): (r: string)
    ensures |r| <= |s| && r == s[|s| - |r|..]
    ensures r == [] || !IsWhiteSpace(r[0])
    ensures forall i :: 0 <= i < |s| - |r| ==> IsWhiteSpace(s[i])
    ensures NoWhiteSpace(s) ==> r == s
  {
    if s != [] && IsWhiteSpace(s[0]) then
      var r := TrimStart(s[1..]);
      assert forall i :: 0 < i < |s| - |r| ==> s[i] == s[1..][i - 1];
      r
    else s
  }

  /** Drops the white space that `s` ends with. */
  function TrimEnd(s: string): (r: string)
    ensures |r| <= |s| && r == s[..|r|]
    ensures r == [] || !IsWhiteSpace(r[|r| - 1])
    ensures forall i :: |r| <= i < |s| ==> IsWhiteSpace(s[i])
    ensures NoWhiteSpace(s) ==> r == s
  {
    if s != [] && IsWhiteSpace(s[|s| - 1]) then
      var r := TrimEnd(s[..|s| - 1]);
      assert forall i :: |r| <= i < |s| - 1 ==> s[i] == s[..|s| - 1][i];
      r
    else s
  }

  /** `r` is the slice of `s` from `i` on, and everything of `s` outside it is white space. */
  predicate InWhiteSpace(s: string, i: nat, r: string)
  {
    && i + |r| <= |s| && r == s[i..i + |r|]
    && (forall k :: 0 <= k < i ==> IsWhiteSpace(s[k]))
    && (forall k :: i + |r| <= k < |s| ==> IsWhiteSpace(s[k]))
  }

  /**
   * `s.trim()`: the slice of `s` left once the white space at both ends is
   * removed. Everything outside the slice is white space and the slice neither
   * starts nor ends with white space, so it is the only such slice.
   */
  function Trim(s: string): (r: string)
    ensures exists i: nat :: InWhiteSpace(s, i, r)
    ensures r == [] || (!IsWhiteSpace(r[0]) && !IsWhiteSpace(r[|r| - 1]))
    ensures NoWhiteSpace(s) ==> r == s
  {
    var t := TrimStart(s);
    var r := TrimEnd(t);
    TrimmedSlice(s, t, r);
    r
  }

  lemma TrimmedSlice(s: string, t: string, r: string)
    requires |t| <= |s| && t == s[|s| - |t|..] && (forall i :: 0 <= i < |s| - |t| ==> IsWhiteSpace(s[i]))
    requires |r| <= |t| && r == t[..|r|] && (forall i :: |r| <= i < |t| ==> IsWhiteSpace(t[i]))
    ensures InWhiteSpace(s, |s| - |t|, r)
  {
    var i := |s| - |t|;
    assert forall k :: i + |r| <= k < |s| ==> s[k] == t[k - i];
  }

  function TrimAll(parts: seq<string>): (r: seq<string>)
    ensures |r| == |parts|
    ensures forall k :: 0 <= k < |r| ==> r[k] == Trim(parts[k])
  {
    if parts == [] then [] else [Trim(parts[0])] + TrimAll(parts[1..])
  }

  // ---------------------------------------------------------------------------
  // Dropping the empty pieces
  // ---------------------------------------------------------------------------

  /** The non-empty pieces, in order: see also `DropEmptyConcat`. */
  function DropEmpty(parts: seq<string>): (r: seq<string>)
    ensures |r| <= |parts|
    ensures forall k :: 0 <= k < |r| ==> r[k] != "" && r[k] in parts
    ensures forall k :: 0 <= k < |parts| && parts[k] != "" ==> parts[k] in r
    ensures (forall k :: 0 <= k < |parts| ==> parts[k] != "") ==> r == parts
  {
    if parts == [] then []
    else (if parts[0] == "" then [] else [parts[0]]) + DropEmpty(parts[1..])
  }

  /**
   * Dropping the empty pieces of two lists one after the other is dropping
   * them from each list: with `DropEmpty([""]) == []` and `DropEmpty([p]) ==
   * [p]` for a non-empty `p`, every non-empty piece is kept, in order.
   */
  lemma {:induction false} DropEmptyConcat(a: seq<string>, b: seq<string>)
    ensures DropEmpty(a + b) == DropEmpty(a) + DropEmpty(b)
  {
    if a == [] {
      assert a + b == b;
    } else {
      assert (a + b)[0] == a[0];
      assert (a + b)[1..] == a[1..] + b;
      DropEmptyConcat(a[1..], b);
    }
  }

  /** The tokens of the text: the pieces of the split, trimmed, without the empty ones. */
  function Tokens(text: string): seq<string>
  {
    DropEmpty(TrimAll(Split(text)))
  }

  lemma {:induction false} TrimAllSeparatorFree(parts: seq<string>)
    requires forall k :: 0 <= k < |parts| ==> SeparatorFree(parts[k])
    ensures TrimAll(parts) == parts
  {
    forall k | 0 <= k < |parts|
      ensures TrimAll(parts)[k] == parts[k]
    {
      assert NoWhiteSpace(parts[k]);
    }
  }

  /** Every token is non-empty and holds no separator; trimming the split pieces changes none of them. */
  lemma TokensShape(text: string)
    ensures Tokens(text) == DropEmpty(Split(text))
    ensures forall k :: 0 <= k < |Tokens(text)| ==> |Tokens(text)[k]| > 0 && SeparatorFree(Tokens(text)[k])
  {
    TrimAllSeparatorFree(Split(text));
  }

  // ---------------------------------------------------------------------------
  // The tokens of any text: its words between runs of separators
  // ---------------------------------------------------------------------------

  predicate SeparatorRun(r: string)
  {
    forall i :: 0 <= i < |r| ==> IsSeparator(r[i])
  }

  /** Each word followed by its gap. */
  function Spaced(ws: seq<string>, gaps: seq<string>): string
    requires |gaps| == |ws|
  {
    if ws == [] then "" else ws[0] + (gaps[0] + Spaced(ws[1..], gaps[1..]))
  }

  /** Non-empty words without separators, each followed by a run of separators that only the last word may leave empty. */
  predicate WellSpaced(ws: seq<string>, gaps: seq<string>)
  {
    && Words(ws) && |gaps| == |ws|
    && (forall k :: 0 <= k < |gaps| ==> SeparatorRun(gaps[k]))
    && (forall k :: 0 <= k < |gaps| - 1 ==> gaps[k] != "")
  }

  lemma {:induction false} SkipRun(r: string, s: string)
    requires SeparatorRun(r) && (s == [] || !IsSeparator(s[0]))
    ensures SkipSeparators(r + s) == s
  {
    if r == [] {
      assert r + s == s;
    } else {
      assert (r + s)[0] == r[0];
      assert (r + s)[1..] == r[1..] + s;
      SkipRun(r[1..], s);
    }
  }

  /** A non-empty run of separators ends a piece; the next piece starts after the whole run. */
  lemma SplitAfterRun(r: string, s: string)
    requires r != [] && SeparatorRun(r) && (s == [] || !IsSeparator(s[0]))
    ensures Split(r + s) == [""] + Split(s)
  {
    SkipRun(r, s);
    assert (r + s)[0] == r[0];
  }

  lemma WellSpacedTail(ws: seq<string>, gaps: seq<string>)
    requires WellSpaced(ws, gaps) && ws != []
    ensures WellSpaced(ws[1..], gaps[1..])
    ensures |ws[0]| > 0 && SeparatorFree(ws[0]) && SeparatorRun(gaps[0])
    ensures |ws| > 1 ==> gaps[0] != ""
    ensures Spaced(ws, gaps) == ws[0] + (gaps[0] + Spaced(ws[1..], gaps[1..]))
  {
    forall k | 0 <= k < |ws| - 1
      ensures |ws[1..][k]| > 0 && SeparatorFree(ws[1..][k])
    {
      assert ws[1..][k] == ws[k + 1];
    }
    forall k | 0 <= k < |gaps| - 1
      ensures SeparatorRun(gaps[1..][k])
    {
      assert gaps[1..][k] == gaps[k + 1];
    }
    forall k | 0 <= k < |gaps| - 2
      ensures gaps[1..][k] != ""
    {
      assert gaps[1..][k] == gaps[k + 1];
    }
  }

  lemma WellSpacedCons(w: string, g: string, ws: seq<string>, gaps: seq<string>)
    requires WellSpaced(ws, gaps) && |w| > 0 && SeparatorFree(w) && SeparatorRun(g) && (ws != [] ==> g != "")
    ensures WellSpaced([w] + ws, [g] + gaps)
    ensures Spaced([w] + ws, [g] + gaps) == w + (g + Spaced(ws, gaps))
  {
    assert ([w] + ws)[1..] == ws && ([g] + gaps)[1..] == gaps;
  }

  lemma SpacedStart(ws: seq<string>, gaps: seq<string>)
    requires WellSpaced(ws, gaps)
    ensures Spaced(ws, gaps) == [] <==> ws == []
    ensures Spaced(ws, gaps) == [] || !IsSeparator(Spaced(ws, gaps)[0])
  {
    if ws != [] {
      WellSpacedTail(ws, gaps);
      assert Spaced(ws, gaps)[0] == ws[0][0];
    }
  }

  /** Splitting a word, its run of separators and what follows gives the word, then the pieces of what follows. */
  lemma SplitWordRun(w: string, g: string, rest: string)
    requires |w| > 0 && SeparatorFree(w) && g != [] && SeparatorRun(g) && (rest == [] || !IsSeparator(rest[0]))
    ensures Split(w + (g + rest)) == [w] + Split(rest)
  {
    SplitAfterRun(g, rest);
    SplitAfterWord(w, g + rest);
    assert w + "" == w;
  }

  lemma {:induction false} SpacedSplit(ws: seq<string>, gaps: seq<string>)
    requires WellSpaced(ws, gaps)
    ensures DropEmpty(Split(Spaced(ws, gaps))) == ws
  {
    if ws == [] {
      assert Split("") == [""];
    } else {
      WellSpacedTail(ws, gaps);
      var rest := Spaced(ws[1..], gaps[1..]);
      if gaps[0] == [] {
        assert ws[0] + (gaps[0] + rest) == ws[0];
        SplitWord(ws[0]);
      } else {
        SpacedStart(ws[1..], gaps[1..]);
        SpacedSplit(ws[1..], gaps[1..]);
        SplitWordRun(ws[0], gaps[0], rest);
        DropEmptyConcat([ws[0]], Split(rest));
      }
    }
  }

  /**
   * A text made of a run of separators, then words each followed by a run of
   * separators (every run but the first and the last non-empty), has exactly
   * those words as its tokens.
   */
  lemma TokensOfSpaced(lead: string, ws: seq<string>, gaps: seq<string>)
    requires SeparatorRun(lead) && WellSpaced(ws, gaps)
    ensures Tokens(lead + Spaced(ws, gaps)) == ws
  {
    var body := Spaced(ws, gaps);
    SpacedStart(ws, gaps);
    SpacedSplit(ws, gaps);
    TokensShape(lead + body);
    if lead == [] {
      assert lead + body == body;
    } else {
      SplitAfterRun(lead, body);
      DropEmptyConcat([""], Split(body));
    }
  }

  /** The longest prefix of `s` without separators. */
  function WordPrefix(s: string): (w: string)
    ensures |w| <= |s| && w == s[..|w|]
    ensures SeparatorFree(w)
    ensures |w| < |s| ==> IsSeparator(s[|w|])
    ensures s != [] && !IsSeparator(s[0]) ==> |w| > 0
  {
    if s == [] || IsSeparator(s[0]) then "" else [s[0]] + WordPrefix(s[1..])
  }

  /** The words of a text that is empty or starts with a word, and the run of separators after each. */
  function WordsAndGaps(body: string): (wg: (seq<string>, seq<string>))
    requires body == [] || !IsSeparator(body[0])
    ensures |wg.0| == |wg.1|
    decreases |body|
  {
    if body == [] then ([], [])
    else
      var w := WordPrefix(body);
      var after := body[|w|..];
      var rest := SkipSeparators(after);
      var next := WordsAndGaps(rest);
      ([w] + next.0, [after[..|after| - |rest|]] + next.1)
  }

  /** The words of a text: its maximal runs of characters other than separators, in order. */
  function TextWords(s: string): seq<string>
  {
    WordsAndGaps(SkipSeparators(s)).0
  }

  lemma SliceJoin(s: string, n: nat)
    requires n <= |s|
    ensures s[..n] + s[n..] == s
  {
  }

  /** A word, the run of separators after it, and the rest of the text. */
  lemma WordThenRun(body: string)
    requires body != [] && !IsSeparator(body[0])
    ensures var w := WordPrefix(body); var after := body[|w|..]; var rest := SkipSeparators(after);
      var g := after[..|after| - |rest|];
      && |w| > 0 && SeparatorRun(g) && body == w + (g + rest)
      && (rest != [] ==> g != [])
  {
    var w := WordPrefix(body);
    var after := body[|w|..];
    var rest := SkipSeparators(after);
    var g := after[..|after| - |rest|];
    SliceJoin(body, |w|);
    SliceJoin(after, |after| - |rest|);
    assert SeparatorRun(g) by {
      forall i | 0 <= i < |g|
        ensures IsSeparator(g[i])
      {
        assert g[i] == after[i];
      }
    }
    if rest != [] {
      assert |w| < |body| && after[0] == body[|w|];
    }
  }

  lemma {:induction false} WordsAndGapsSpaced(body: string)
    requires body == [] || !IsSeparator(body[0])
    ensures WellSpaced(WordsAndGaps(body).0, WordsAndGaps(body).1)
    ensures Spaced(WordsAndGaps(body).0, WordsAndGaps(body).1) == body
    decreases |body|
  {
    if body != [] {
      var w := WordPrefix(body);
      var after := body[|w|..];
      var rest := SkipSeparators(after);
      var g := after[..|after| - |rest|];
      WordThenRun(body);
      WordsAndGapsSpaced(rest);
      var ws, gaps := WordsAndGaps(rest).0, WordsAndGaps(rest).1;
      SpacedStart(ws, gaps);
      WellSpacedCons(w, g, ws, gaps);
    }
  }

  /** The run of separators a text starts with, and the rest. */
  lemma LeadingRun(s: string)
    ensures var body := SkipSeparators(s); var lead := s[..|s| - |body|];
      SeparatorRun(lead) && s == lead + body
  {
  }

  /** Every text is a run of separators followed by its words, each with the run of separators after it. */
  lemma TextIsSpaced(s: string)
    ensures var body := SkipSeparators(s); var lead := s[..|s| - |body|];
      && SeparatorRun(lead) && WellSpaced(TextWords(s), WordsAndGaps(body).1)
      && s == lead + Spaced(TextWords(s), WordsAndGaps(body).1)
  {
    LeadingRun(s);
    WordsAndGapsSpaced(SkipSeparators(s));
  }

  /** The tokens of every text are its words. */
  lemma TokensAreTextWords(s: string)
    ensures Tokens(s) == TextWords(s)
  {
    TextIsSpaced(s);
    var body := SkipSeparators(s);
    TokensOfSpaced(s[..|s| - |body|], TextWords(s), WordsAndGaps(body).1);
  }

  // ---------------------------------------------------------------------------
  // Reading each token as an integer
  // ---------------------------------------------------------------------------

  /** A `parseInt` result: `NaN`, or an integer (negative zero is read as 0). */
  datatype ParseResult = NaN | Num(n: int)

  /**
   * ECMAScript `parseInt(s)` with no radix: leading white space is skipped, one
   * sign is taken, a `0x`/`0X` prefix selects radix 16 (else 10), and the
   * longest digit prefix is read; no digits gives `NaN`.
   */
  function ParseInt(s: string): (p: ParseResult)
    ensures s == [] ==> p == NaN
    ensures (var t := TrimStart(s); t != [] && t[0] != '-' && t[0] != '+' && !('0' <= t[0] <= '9')) ==> p == NaN
  {
    ParseSigned(TrimStart(s))
  }

  /** After the white space: one optional sign, then the magnitude. */
  function ParseSigned(t: string): ParseResult
  {
    var negative := t != [] && t[0] == '-';
    var u := if t != [] && (t[0] == '-' || t[0] == '+') then t[1..] else t;
    ParseMagnitude(u, negative)
  }

  /** After the sign: a `0x`/`0X` prefix selects radix 16, else 10; the longest digit prefix is read. */
  function ParseMagnitude(u: string, negative: bool): ParseResult
  {
    var hex := |u| >= 2 && u[0] == '0' && (u[1] == 'x' || u[1] == 'X');
    var z := if hex then DigitPrefix(u[2..], 16) else DigitPrefix(u, 10);
    var v := if hex then Value(z, 16) else Value(z, 10);
    if z == [] then NaN
    else Num(if negative then -(v as int) else v as int)
  }

  predicate DecimalDigits(s: string)
  {
    forall i :: 0 <= i < |s| ==> '0' <= s[i] <= '9'
  }

  lemma {:induction false} DigitPrefixAll(s: string)
    requires DecimalDigits(s)
    ensures DigitPrefix(s, 10) == s
  {
    if s != [] {
      DigitPrefixAll(s[1..]);
    }
  }

  /** A non-empty string of decimal digits reads as its decimal value. */
  lemma ParseIntDecimal(s: string)
    requires |s| > 0 && DecimalDigits(s)
    ensures ParseInt(s) == Num(Value(s, 10))
  {
    assert '0' <= s[0] <= '9';
    assert !IsWhiteSpace(s[0]);
    assert TrimStart(s) == s;
    assert ParseSigned(s) == ParseMagnitude(s, false);
    assert |s| >= 2 ==> '0' <= s[1] <= '9';
    DigitPrefixAll(s);
  }

  lemma {:induction false} TrimStartRun(lead: string, rest: string)
    requires forall i :: 0 <= i < |lead| ==> IsWhiteSpace(lead[i])
    requires rest == [] || !IsWhiteSpace(rest[0])
    ensures TrimStart(lead + rest) == rest
  {
    if lead == [] {
      assert lead + rest == rest;
    } else {
      assert (lead + rest)[0] == lead[0];
      assert (lead + rest)[1..] == lead[1..] + rest;
      TrimStartRun(lead[1..], rest);
    }
  }

  /** White space, then at most one sign, then the magnitude `u`, which starts with neither white space nor a sign when there is no sign. */
  predicate SignedText(lead: string, sign: string, u: string)
  {
    && (forall i :: 0 <= i < |lead| ==> IsWhiteSpace(lead[i]))
    && (sign == "" || sign == "-" || sign == "+")
    && (sign == "" ==> u == [] || (!IsWhiteSpace(u[0]) && u[0] != '-' && u[0] != '+'))
  }

  lemma ParseIntSigned(lead: string, sign: string, u: string)
    requires SignedText(lead, sign, u)
    ensures ParseInt(lead + (sign + u)) == ParseMagnitude(u, sign == "-")
  {
    if sign == "" {
      assert sign + u == u;
    } else {
      assert (sign + u)[0] == sign[0] && (sign + u)[1..] == u;
    }
    TrimStartRun(lead, sign + u);
  }

  /**
   * A text of white space, at most one sign and a magnitude that does not start
   * with `0x`/`0X` reads as the longest decimal digit prefix of the magnitude,
   * negated after a minus, or as `NaN` when that prefix is empty.
   */
  lemma ParseIntDecimalPrefix(lead: string, sign: string, u: string)
    requires SignedText(lead, sign, u)
    requires !(|u| >= 2 && u[0] == '0' && (u[1] == 'x' || u[1] == 'X'))
    ensures var z := DigitPrefix(u, 10);
      ParseInt(lead + (sign + u))
      == if z == [] then NaN else Num(if sign == "-" then -(Value(z, 10) as int) else Value(z, 10) as int)
  {
    ParseIntSigned(lead, sign, u);
    MagnitudeDecimal(u, sign == "-");
  }

  lemma MagnitudeDecimal(u: string, negative: bool)
    requires !(|u| >= 2 && u[0] == '0' && (u[1] == 'x' || u[1] == 'X'))
    ensures var z := DigitPrefix(u, 10);
      ParseMagnitude(u, negative) == if z == [] then NaN else Num(if negative then -(Value(z, 10) as int) else Value(z, 10) as int)
  {
  }

  /**
   * With a `0x`/`0X` prefix after the sign, the text reads as the longest
   * hexadecimal digit prefix after it, negated after a minus, or as `NaN` when
   * no hexadecimal digit follows.
   */
  lemma ParseIntHexPrefix(lead: string, sign: string, u: string)
    requires SignedText(lead, sign, u)
    requires |u| >= 2 && u[0] == '0' && (u[1] == 'x' || u[1] == 'X')
    ensures var z := DigitPrefix(u[2..], 16);
      ParseInt(lead + (sign + u))
      == if z == [] then NaN else Num(if sign == "-" then -(Value(z, 16) as int) else Value(z, 16) as int)
  {
    ParseIntSigned(lead, sign, u);
  }

  function ParseAll(toks: seq<string>): (ps: seq<ParseResult>)
    ensures |ps| == |toks|
    ensures forall k :: 0 <= k < |ps| ==> ps[k] == ParseInt(toks[k])
  {
    seq(|toks|, k requires 0 <= k < |toks| => ParseInt(toks[k]))
  }

  // ---------------------------------------------------------------------------
  // Keeping the numbers in 0..99
  // ---------------------------------------------------------------------------

  predicate InRange(p: ParseResult)
  {
    p.Num? && 0 <= p.n <= 99
  }

  function KeepInRange(ps: seq<ParseResult>): (r: seq<int>)
    ensures |r| <= |ps|
    ensures forall k :: 0 <= k < |r| ==> 0 <= r[k] <= 99
  {
    if ps == [] then []
    else (if InRange(ps[0]) then [ps[0].n] else []) + KeepInRange(ps[1..])
  }

  /** `parseRandomNumbers(text)`: at most one number per token, each in 0..99. */
  function ParseRandomNumbers(text: string): (r: seq<int>)
    ensures forall k :: 0 <= k < |r| ==> 0 <= r[k] <= 99
    ensures |r| <= |Tokens(text)|
  {
    KeepInRange(ParseAll(Tokens(text)))
  }

  // ---------------------------------------------------------------------------
  // Which tokens the numbers come from
  // ---------------------------------------------------------------------------

  /** The positions from `from` on of the parse results that the range filter keeps, in increasing order. */
  function KeptFrom(ps: seq<ParseResult>, from: nat): (idx: seq<nat>)
    requires from <= |ps|
    ensures forall k :: 0 <= k < |idx| ==> from <= idx[k] < |ps|
    ensures forall k, l :: 0 <= k < l < |idx| ==> idx[k] < idx[l]
    ensures forall i :: from <= i < |ps| ==> (InRange(ps[i]) <==> i in idx)
    decreases |ps| - from
  {
    if from == |ps| then []
    else (if InRange(ps[from]) then [from] else []) + KeptFrom(ps, from + 1)
  }

  function Kept(ps: seq<ParseResult>): seq<nat>
  {
    KeptFrom(ps, 0)
  }

  lemma {:induction false} KeepInRangeIsKeptFrom(ps: seq<ParseResult>, from: nat)
    requires from <= |ps|
    ensures |KeepInRange(ps[from..])| == |KeptFrom(ps, from)|
    ensures forall k :: 0 <= k < |KeptFrom(ps, from)| ==> KeepInRange(ps[from..])[k] == ps[KeptFrom(ps, from)[k]].n
    decreases |ps| - from
  {
    if from < |ps| {
      KeepInRangeIsKeptFrom(ps, from + 1);
      assert ps[from..][1..] == ps[from + 1..];
    }
  }

  /**
   * The numbers keep the left-to-right order of the tokens: there are strictly
   * increasing token positions, one per number, such that each number is what
   * `parseInt` reads from its token, and every token at no such position reads
   * as `NaN` or as a number outside 0..99.
   */
  lemma ParseRandomNumbersFollowsTokens(text: string)
    ensures var toks := Tokens(text);
      var idx := Kept(ParseAll(toks));
      var r := ParseRandomNumbers(text);
      && |r| == |idx|
      && (forall k, l :: 0 <= k < l < |idx| ==> idx[k] < idx[l])
      && (forall k :: 0 <= k < |idx| ==> idx[k] < |toks| && ParseInt(toks[idx[k]]) == Num(r[k]))
      && (forall i :: 0 <= i < |toks| && i !in idx ==> !InRange(ParseInt(toks[i])))
  {
    var toks := Tokens(text);
    var ps := ParseAll(toks);
    var idx := Kept(ps);
    var r := ParseRandomNumbers(text);
    KeepInRangeIsKeptFrom(ps, 0);
    assert ps[0..] == ps;
    assert r == KeepInRange(ps);
    forall k | 0 <= k < |idx|
      ensures idx[k] < |toks| && ParseInt(toks[idx[k]]) == Num(r[k])
    {
      assert idx[k] in idx;
      assert InRange(ps[idx[k]]);
    }
    forall i | 0 <= i < |toks| && i !in idx
      ensures !InRange(ParseInt(toks[i]))
    {
      assert ps[i] == ParseInt(toks[i]);
    }
  }

  // ---------------------------------------------------------------------------
  // Round trip with the text the field shows
  // ---------------------------------------------------------------------------

  /** `String(n)` for an integer. */
  function NumberText(n: int): string
  {
    if n < 0 then "-" + Show(-n) else Show(n)
  }

  function Texts(xs: seq<int>): (ts: seq<string>)
    ensures |ts| == |xs|
  {
    if xs == [] then [] else [NumberText(xs[0])] + Texts(xs[1..])
  }

  /** The words with one space between each two. */
  function JoinWords(ws: seq<string>): string
  {
    if ws == [] then "" else if |ws| == 1 then ws[0] else ws[0] + " " + JoinWords(ws[1..])
  }

  /** `xs.join(" ")`: every element written with `String`, one space between each two. */
  function Join(xs: seq<int>): string
  {
    JoinWords(Texts(xs))
  }

  /** Non-empty pieces without separators. */
  predicate Words(ws: seq<string>)
  {
    forall k :: 0 <= k < |ws| ==> |ws[k]| > 0 && SeparatorFree(ws[k])
  }

  lemma {:induction false} SplitAfterWord(t: string, s: string)
    requires SeparatorFree(t)
    ensures Split(t + s) == [t + Split(s)[0]] + Split(s)[1..]
  {
    var parts := Split(s);
    if t == [] {
      assert t + s == s;
      assert t + parts[0] == parts[0];
      assert [parts[0]] + parts[1..] == parts;
    } else {
      var ts := t + s;
      assert ts[0] == t[0] && !IsSeparator(ts[0]);
      assert ts[1..] == t[1..] + s;
      SplitAfterWord(t[1..], s);
      var rest := Split(ts[1..]);
      assert rest == [t[1..] + parts[0]] + parts[1..];
      assert rest[0] == t[1..] + parts[0];
      assert rest[1..] == parts[1..];
      assert Split(ts) == [[ts[0]] + rest[0]] + rest[1..];
      assert [ts[0]] + rest[0] == t + parts[0];
    }
  }

  lemma SplitAfterSpace(s: string)
    requires s == [] || !IsSeparator(s[0])
    ensures Split(" " + s) == [""] + Split(s)
  {
    assert (" " + s)[1..] == s;
  }

  lemma DigitsSeparatorFree(s: string)
    requires DecimalDigits(s)
    ensures SeparatorFree(s)
  {
    forall i | 0 <= i < |s|
      ensures !IsSeparator(s[i])
    {
      assert '0' <= s[i] <= '9';
    }
  }

  /** The text of a non-negative number is its decimal text. */
  lemma NumberTextNatural(n: int)
    requires 0 <= n
    ensures |NumberText(n)| > 0 && SeparatorFree(NumberText(n))
  {
    assert NumberText(n) == Show(n);
    DigitsSeparatorFree(Show(n));
  }

  /** Joined words start with a character that is not a separator. */
  lemma JoinWordsStart(ws: seq<string>)
    requires |ws| >= 1 && Words(ws)
    ensures JoinWords(ws) != [] && !IsSeparator(JoinWords(ws)[0])
  {
    if |ws| > 1 {
      assert JoinWords(ws) == ws[0] + " " + JoinWords(ws[1..]);
    }
    assert JoinWords(ws)[0] == ws[0][0];
  }

  lemma SplitWord(w: string)
    requires SeparatorFree(w)
    ensures Split(w) == [w]
  {
    SplitAfterWord(w, "");
    assert w + "" == w;
    assert Split("") == [""];
  }

  lemma SplitWordSpace(w: string, rest: string)
    requires SeparatorFree(w) && rest != [] && !IsSeparator(rest[0])
    ensures Split(w + (" " + rest)) == [w] + Split(rest)
  {
    SplitAfterSpace(rest);
    SplitAfterWord(w, " " + rest);
    assert w + "" == w;
  }

  /** Splitting joined words gives the words back. */
  lemma {:induction false} SplitJoinWords(ws: seq<string>)
    requires |ws| >= 1 && Words(ws)
    ensures Split(JoinWords(ws)) == ws
  {
    if |ws| == 1 {
      SplitWord(ws[0]);
    } else {
      var rest := JoinWords(ws[1..]);
      SplitJoinWords(ws[1..]);
      JoinWordsStart(ws[1..]);
      calc {
        Split(JoinWords(ws));
        { assert JoinWords(ws) == ws[0] + (" " + rest); }
        Split(ws[0] + (" " + rest));
        { SplitWordSpace(ws[0], rest); }
        [ws[0]] + ws[1..];
        ws;
      }
    }
  }

  /** The texts of non-negative numbers are words. */
  lemma TextsWords(xs: seq<int>)
    requires forall k :: 0 <= k < |xs| ==> 0 <= xs[k]
    ensures Words(Texts(xs))
  {
    forall k | 0 <= k < |xs|
      ensures |Texts(xs)[k]| > 0 && SeparatorFree(Texts(xs)[k])
    {
      TextsAt(xs, k);
      NumberTextNatural(xs[k]);
    }
  }

  /** `parseInt(String(n))` is `n` for a non-negative `n`. */
  lemma ParseNumberText(n: int)
    requires 0 <= n
    ensures ParseInt(NumberText(n)) == Num(n)
  {
    assert NumberText(n) == Show(n);
    ParseIntDecimal(Show(n));
    ValueOfShow(n);
  }

  lemma {:induction false} ParseAllTexts(xs: seq<int>)
    requires forall k :: 0 <= k < |xs| ==> 0 <= xs[k]
    ensures ParseAll(Texts(xs)) == seq(|xs|, k requires 0 <= k < |xs| => Num(xs[k]))
  {
    var ts := Texts(xs);
    forall k | 0 <= k < |xs|
      ensures ParseAll(ts)[k] == Num(xs[k])
    {
      TextsAt(xs, k);
      ParseNumberText(xs[k]);
    }
  }

  lemma {:induction false} TextsAt(xs: seq<int>, k: nat)
    requires k < |xs|
    ensures Texts(xs)[k] == NumberText(xs[k])
  {
    if k > 0 {
      TextsAt(xs[1..], k - 1);
    }
  }

  lemma {:induction false} KeepInRangeAll(xs: seq<int>)
    requires forall k :: 0 <= k < |xs| ==> 0 <= xs[k] <= 99
    ensures KeepInRange(seq(|xs|, k requires 0 <= k < |xs| => Num(xs[k]))) == xs
  {
    if xs != [] {
      KeepInRangeAll(xs[1..]);
      var ps := seq(|xs|, k requires 0 <= k < |xs| => Num(xs[k]));
      assert ps[1..] == seq(|xs[1..]|, k requires 0 <= k < |xs[1..]| => Num(xs[1..][k]));
    }
  }

  lemma TokensOfJoin(xs: seq<int>)
    requires forall k :: 0 <= k < |xs| ==> 0 <= xs[k]
    ensures Tokens(Join(xs)) == Texts(xs)
  {
    if xs == [] {
      assert Split("") == [""];
      assert TrimAll([""]) == [""];
      assert DropEmpty([""]) == [];
    } else {
      TextsWords(xs);
      SplitJoinWords(Texts(xs));
      TokensShape(Join(xs));
    }
  }

  /** What the text area shows, parsed again, is the list it showed. */
  lemma ParseJoinRoundTrip(xs: seq<int>)
    requires forall k :: 0 <= k < |xs| ==> 0 <= xs[k] <= 99
    ensures ParseRandomNumbers(Join(xs)) == xs
  {
    TokensOfJoin(xs);
    ParseAllTexts(xs);
    KeepInRangeAll(xs);
  }
}
