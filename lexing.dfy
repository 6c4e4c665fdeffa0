/** How the dispatch loop reads one input line: Python's `str.strip()`,
    `str.split()`, `str.split(maxsplit=1)` and the `quit` shortcut test. */
module Lexing {

  /** Python's `str.isspace()` for one character: the characters that
      `strip()` and `split()` without arguments treat as whitespace. */
  predicate IsSpace(c: char)
  {
    c == ' ' || ('\t' <= c <= '\r') || ('\U{1c}' <= c <= '\U{1f}')
    || c == '\U{85}' || c == '\U{a0}' || c == '\U{1680}'
    || ('\U{2000}' <= c <= '\U{200a}') || c == '\U{2028}' || c == '\U{2029}'
    || c == '\U{202f}' || c == '\U{205f}' || c == '\U{3000}'
  }

  predicate AllSpace(s: string)
  {
    forall i :: 0 <= i < |s| ==> IsSpace(s[i])
  }

  predicate NoSpace(s: string)
  {
    forall i :: 0 <= i < |s| ==> !IsSpace(s[i])
  }

  /** `s.lstrip()` */
  function TrimStart(s: string): (r: string)
    ensures |r| <= |s|
    ensures r == [] || !IsSpace(r[0])
  {
    if |s| > 0 && IsSpace(s[0]) then TrimStart(s[1..]) else s
  }

  /** `lstrip()` removes a whitespace prefix and keeps the rest. */
  lemma {:induction false} TrimStartSuffix(s: string)
    ensures var r := TrimStart(s); r == s[|s| - |r|..] && AllSpace(s[..|s| - |r|])
    decreases |s|
  {
    if |s| > 0 && IsSpace(s[0]) {
      TrimStartSuffix(s[1..]);
      var r := TrimStart(s);
      assert s[1..][|s| - 1 - |r|..] == s[|s| - |r|..];
      var pad, pad' := s[..|s| - |r|], s[1..][..|s| - 1 - |r|];
      assert forall i :: 0 < i < |pad| ==> pad[i] == pad'[i - 1];
    }
  }

  /** `s.rstrip()` */
  function TrimEnd(s: string): (r: string)
    ensures |r| <= |s|
    ensures r == [] || !IsSpace(r[|r| - 1])
  {
    if |s| > 0 && IsSpace(s[|s| - 1]) then TrimEnd(s[..|s| - 1]) else s
  }

  /** `rstrip()` removes a whitespace suffix and keeps the rest. */
  lemma {:induction false} TrimEndPrefix(s: string)
    ensures var r := TrimEnd(s); r == s[..|r|] && AllSpace(s[|r|..])
    decreases |s|
  {
    if |s| > 0 && IsSpace(s[|s| - 1]) {
      var s' := s[..|s| - 1];
      TrimEndPrefix(s');
      var r := TrimEnd(s);
      assert s'[..|r|] == s[..|r|];
      assert forall i :: 0 <= i < |s| - |r| - 1 ==> s[|r|..][i] == s'[|r|..][i];
    }
  }

  /** `s.strip()` */
  function Strip(s: string): (r: string)
    ensures |r| <= |s|
    ensures r == [] || !IsSpace(r[|r| - 1])
  {
    TrimEnd(TrimStart(s))
  }

  /** The run of non-whitespace characters that `s` starts with. */
  function Word(s: string): (w: string)
    ensures |w| <= |s|
    ensures NoSpace(w)
    ensures |w| == |s| || IsSpace(s[|w|])
  {
    if |s| == 0 || IsSpace(s[0]) then [] else [s[0]] + Word(s[1..])
  }

  /** A token of `split()`: a non-empty run of non-whitespace characters. */
  predicate IsWord(w: string)
  {
    w != [] && NoSpace(w)
  }

  /** The run is a prefix of `s`. */
  lemma {:induction false} WordPrefix(s: string)
    ensures Word(s) == s[..|Word(s)|]
    decreases |s|
  {
    if |s| > 0 && !IsSpace(s[0]) {
      WordPrefix(s[1..]);
    }
  }

  /** `s.split()`: the maximal runs of non-whitespace characters, in order. */
  function Tokens(s: string): (ts: seq<string>)
    ensures forall k :: 0 <= k < |ts| ==> IsWord(ts[k])
    decreases |s|
  {
    var t := TrimStart(s);
    if |t| == 0 then []
    else
      var w := Word(t);
      [w] + Tokens(t[|w|..])
  }

  /** `s.split(maxsplit=1)`: the first token and, when anything follows it,
      the rest of the line with its leading whitespace removed. */
  function SplitOnce(s: string): (parts: seq<string>)
    ensures |parts| <= 2
  {
    var t := TrimStart(s);
    if t == [] then []
    else
      var w := Word(t);
      var rest := TrimStart(t[|w|..]);
      if rest == [] then [w] else [w, rest]
  }

  /** `s.lower() == "quit"`. The only characters whose lower-case form is
      the single character q, u, i or t are that letter and its capital
      (U+0130 lowers to two characters), so the test is letter by letter. */
  predicate IsQuitWord(s: string)
    ensures IsQuitWord(s) ==> IsWord(s)
  {
    |s| == 4 && (s[0] == 'q' || s[0] == 'Q') && (s[1] == 'u' || s[1] == 'U')
    && (s[2] == 'i' || s[2] == 'I') && (s[3] == 't' || s[3] == 'T')
  }

  /** What the loop does with one line. */
  datatype Parsed =
    | QuitLine
    | BlankLine
    | CommandLine(name: string, args: seq<string>)

  /** The per-line rules of the loop: strip, the `quit` shortcut, split off
      the command name, split the rest into arguments, reject a blank line. */
  function ParseLine(raw: string): (p: Parsed)
    ensures p.QuitLine? <==> IsQuitWord(Strip(raw))
    ensures p.CommandLine? ==> IsWord(p.name) && forall k :: 0 <= k < |p.args| ==> IsWord(p.args[k])
  {
    var line := Strip(raw);
    if IsQuitWord(line) then QuitLine
    else
      var parts := SplitOnce(line);
      var name := if |parts| > 0 then parts[0] else "";
      var args := if |parts| > 1 then Tokens(parts[1]) else [];
      if name != "" then CommandLine(name, args) else BlankLine
  }

  // ----- lemmas -----

  lemma StripSlice(s: string)
    ensures var i := |s| - |TrimStart(s)|;
            var r := Strip(s);
            i + |r| <= |s| && r == s[i..i + |r|]
  {
    var t := TrimStart(s);
    var r := TrimEnd(t);
    var i := |s| - |t|;
    TrimStartSuffix(s);
    TrimEndPrefix(t);
    forall k | 0 <= k < |r| ensures r[k] == s[i + k] {
      assert r[k] == t[k] == s[i..][k];
    }
  }

  lemma StripPadding(s: string)
    ensures var i := |s| - |TrimStart(s)|;
            var r := Strip(s);
            i + |r| <= |s| && AllSpace(s[..i]) && AllSpace(s[i + |r|..])
  {
    var t := TrimStart(s);
    var r := TrimEnd(t);
    var i := |s| - |t|;
    TrimStartSuffix(s);
    TrimEndPrefix(t);
    var tail := s[i + |r|..];
    forall k | 0 <= k < |tail| ensures IsSpace(tail[k]) {
      assert tail[k] == t[|r|..][k];
    }
  }

  /** `strip()` removes whitespace from both ends and nothing else: the
      result is a slice of the line with only whitespace around it, and it
      neither starts nor ends with whitespace. */
  lemma StripSpec(s: string)
    ensures var i := |s| - |TrimStart(s)|;
            var r := Strip(s);
            && i + |r| <= |s| && r == s[i..i + |r|]
            && AllSpace(s[..i]) && AllSpace(s[i + |r|..])
            && (r == [] || (!IsSpace(r[0]) && !IsSpace(r[|r| - 1])))
  {
    StripSlice(s);
    StripPadding(s);
    var t := TrimStart(s);
    var r := TrimEnd(t);
    if r != [] {
      TrimEndPrefix(t);
      assert r[0] == t[0];
    }
  }

  lemma TokensOfTrimStart(s: string)
    ensures Tokens(TrimStart(s)) == Tokens(s)
  {
    assert TrimStart(TrimStart(s)) == TrimStart(s);
  }

  /** A line has no tokens exactly when it is all whitespace. */
  lemma {:induction false} TokensEmptyIff(s: string)
    ensures Tokens(s) == [] <==> AllSpace(s)
  {
    var t := TrimStart(s);
    TrimStartSuffix(s);
    if t == [] {
      assert s[..|s|] == s;
    } else {
      assert !IsSpace(s[|s| - |t|]);
    }
  }

  lemma {:induction false} TrimStartAppend(a: string, b: string)
    requires !AllSpace(a)
    ensures TrimStart(a + b) == TrimStart(a) + b
    decreases |a|
  {
    if IsSpace(a[0]) {
      assert (a + b)[1..] == a[1..] + b;
      assert !AllSpace(a[1..]) by {
        var i :| 0 <= i < |a| && !IsSpace(a[i]);
        assert a[1..][i - 1] == a[i];
      }
      TrimStartAppend(a[1..], b);
    }
  }

  lemma {:induction false} WordAppendSpace(a: string, b: string)
    requires b == [] || IsSpace(b[0])
    ensures Word(a + b) == Word(a)
    decreases |a|
  {
    if |a| > 0 && !IsSpace(a[0]) {
      assert (a + b)[1..] == a[1..] + b;
      WordAppendSpace(a[1..], b);
    } else if |a| == 0 {
      assert a + b == b;
    }
  }

  lemma AllSpaceAppend(a: string, b: string)
    requires AllSpace(a) && AllSpace(b)
    ensures AllSpace(a + b)
  {
    forall i | 0 <= i < |a + b| ensures IsSpace((a + b)[i]) {
      if i < |a| {
        assert (a + b)[i] == a[i];
      } else {
        assert (a + b)[i] == b[i - |a|];
      }
    }
  }

  /** Trailing whitespace does not change the tokens. */
  lemma {:induction false} TokensAppendSpace(s: string, sp: string)
    requires AllSpace(sp)
    ensures Tokens(s + sp) == Tokens(s)
    decreases |s|, 1
  {
    if AllSpace(s) {
      TokensEmptyIff(s);
      AllSpaceAppend(s, sp);
      TokensEmptyIff(s + sp);
    } else {
      TokensAppendSpaceAfterWord(s, sp);
    }
  }

  lemma {:induction false} TokensAppendSpaceAfterWord(s: string, sp: string)
    requires AllSpace(sp) && !AllSpace(s)
    ensures Tokens(s + sp) == Tokens(s)
    decreases |s|, 0
  {
    var t := TrimStart(s);
    TrimStartAppend(s, sp);
    assert t != [] by { TokensEmptyIff(s); }
    var w := Word(t);
    WordAppendSpace(t, sp);
    var rest := t[|w|..];
    assert (t + sp)[|w|..] == rest + sp;
    TokensAppendSpace(rest, sp);
  }

  /** Stripping a line does not change its tokens. */
  lemma TokensOfStrip(raw: string)
    ensures Tokens(Strip(raw)) == Tokens(raw)
  {
    var t := TrimStart(raw);
    var r := TrimEnd(t);
    TrimEndPrefix(t);
    assert t == r + t[|r|..];
    TokensAppendSpace(r, t[|r|..]);
    TokensOfTrimStart(raw);
  }

  /** `split(maxsplit=1)` followed by `split()` of the rest gives the same
      name and arguments as one full `split()`: head and tail. */
  lemma SplitOnceThenSplit(s: string)
    ensures var parts := SplitOnce(s);
            var ts := Tokens(s);
            (parts == [] <==> ts == [])
            && (parts != [] ==> parts[0] == ts[0])
            && (if |parts| > 1 then Tokens(parts[1]) else []) == (if ts == [] then [] else ts[1..])
  {
    var t := TrimStart(s);
    if t != [] {
      var w := Word(t);
      TokensOfTrimStart(t[|w|..]);
      TokensEmptyIff(TrimStart(t[|w|..]));
    }
  }

  /** The loop's reading of a line in terms of its full tokenisation: the
      shortcut, else blank exactly when there are no tokens, else the first
      token is the command name and the others, in order, its arguments. */
  lemma ParseLineByTokens(raw: string)
    ensures var ts := Tokens(raw);
            ParseLine(raw) == if IsQuitWord(Strip(raw)) then QuitLine
                              else if ts == [] then BlankLine
                              else CommandLine(ts[0], ts[1..])
  {
    TokensOfStrip(raw);
    SplitOnceThenSplit(Strip(raw));
  }

  /** A blank or whitespace-only line, and only such a line, is rejected. */
  lemma BlankIffAllSpace(raw: string)
    ensures ParseLine(raw) == BlankLine <==> AllSpace(raw)
  {
    ParseLineByTokens(raw);
    TokensEmptyIff(raw);
    if AllSpace(raw) {
      assert TrimStart(raw) == [];
    }
  }

  /** `" ".join(words)` */
  function Join(words: seq<string>): string
  {
    if |words| == 0 then ""
    else if |words| == 1 then words[0]
    else words[0] + " " + Join(words[1..])
  }

  lemma {:induction false} JoinEnds(words: seq<string>)
    requires |words| > 0 && forall k :: 0 <= k < |words| ==> IsWord(words[k])
    ensures Join(words) != []
    ensures !IsSpace(Join(words)[0]) && !IsSpace(Join(words)[|Join(words)| - 1])
  {
    assert IsWord(words[0]);
    if |words| > 1 {
      JoinEnds(words[1..]);
      var rest := Join(words[1..]);
      assert Join(words)[|Join(words)| - 1] == rest[|rest| - 1];
    }
  }

  /** A word followed by a space and more text splits into the word and the
      tokens of that text. */
  lemma TokensOfWordThen(w: string, rest: string)
    requires IsWord(w)
    ensures Tokens(w + " " + rest) == [w] + Tokens(rest)
  {
    var s := w + " " + rest;
    assert TrimStart(s) == s;
    assert Word(s) == w by {
      assert s == w + (" " + rest);
      WordAppendSpace(w, " " + rest);
      WordPrefix(w);
    }
    assert s[|w|..] == " " + rest;
    assert TrimStart(" " + rest) == TrimStart(rest) by {
      assert (" " + rest)[1..] == rest;
    }
    TokensOfTrimStart(rest);
    TokensOfTrimStart(" " + rest);
  }

  /** Splitting words joined by single spaces gives the words back. */
  lemma {:induction false} TokensOfJoin(words: seq<string>)
    requires forall k :: 0 <= k < |words| ==> IsWord(words[k])
    ensures Tokens(Join(words)) == words
  {
    if |words| == 1 {
      var w := words[0];
      assert IsWord(w);
      assert TrimStart(w) == w;
      assert Word(w) == w by { WordPrefix(w); }
      assert w[|w|..] == [];
    } else if |words| > 1 {
      assert IsWord(words[0]);
      TokensOfWordThen(words[0], Join(words[1..]));
      TokensOfJoin(words[1..]);
      assert words == [words[0]] + words[1..];
    }
  }

  /** A line of words separated by single spaces is read as the first word
      called with the others as its arguments, unless it is `quit`. */
  lemma ParseJoinedWords(words: seq<string>)
    requires |words| > 0 && forall k :: 0 <= k < |words| ==> IsWord(words[k])
    requires !IsQuitWord(Join(words))
    ensures ParseLine(Join(words)) == CommandLine(words[0], words[1..])
  {
    var s := Join(words);
    JoinEnds(words);
    assert TrimStart(s) == s;
    assert TrimEnd(s) == s;
    ParseLineByTokens(s);
    TokensOfJoin(words);
  }

  /** `add 10 5` is the command `add` with the arguments `10` and `5`. */
  lemma ParseAddExample()
    ensures ParseLine("add 10 5") == CommandLine("add", ["10", "5"])
  {
    var ws := ["add", "10", "5"];
    assert IsWord(ws[0]) && IsWord(ws[1]) && IsWord(ws[2]);
    assert Join(ws) == "add 10 5";
    ParseJoinedWords(ws);
  }

  /** `quit now` is not the shortcut: it calls the command `quit` with the
      argument `now`. */
  lemma ParseQuitWithArgument()
    ensures ParseLine("quit now") == CommandLine("quit", ["now"])
  {
    var ws := ["quit", "now"];
    assert IsWord(ws[0]) && IsWord(ws[1]);
    assert Join(ws) == "quit now";
    ParseJoinedWords(ws);
  }

  lemma {:induction false} TrimStartPadding(sp: string, w: string)
    requires AllSpace(sp) && (w == [] || !IsSpace(w[0]))
    ensures TrimStart(sp + w) == w
    decreases |sp|
  {
    if |sp| == 0 {
      assert sp + w == w;
    } else {
      assert (sp + w)[0] == sp[0];
      assert (sp + w)[1..] == sp[1..] + w;
      TrimStartPadding(sp[1..], w);
    }
  }

  lemma {:induction false} TrimEndPadding(w: string, sp: string)
    requires AllSpace(sp) && (w == [] || !IsSpace(w[|w| - 1]))
    ensures TrimEnd(w + sp) == w
    decreases |sp|
  {
    if |sp| == 0 {
      assert w + sp == w;
    } else {
      var sp' := sp[..|sp| - 1];
      assert (w + sp)[|w + sp| - 1] == sp[|sp| - 1];
      assert (w + sp)[..|w + sp| - 1] == w + sp';
      TrimEndPadding(w, sp');
    }
  }

  /** Whitespace around a word is what `strip()` removes, and only that. */
  lemma StripPadded(sp: string, w: string, sp2: string)
    requires AllSpace(sp) && AllSpace(sp2) && w != [] && !IsSpace(w[0]) && !IsSpace(w[|w| - 1])
    ensures Strip(sp + w + sp2) == w
  {
    assert sp + w + sp2 == sp + (w + sp2);
    TrimStartPadding(sp, w + sp2);
    TrimEndPadding(w, sp2);
  }

  /** The shortcut ignores case and surrounding whitespace. */
  lemma ParseShortcutExample()
    ensures ParseLine("  QUIT ") == QuitLine
  {
    var w := "QUIT";
    assert !IsSpace(w[0]) && !IsSpace(w[3]);
    assert AllSpace("  ") && AllSpace(" ");
    assert "  QUIT " == "  " + w + " ";
    StripPadded("  ", w, " ");
    assert IsQuitWord(w);
  }
}
