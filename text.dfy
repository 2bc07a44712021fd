/**
 * The Python string operations the core relies on: `str.isspace`,
 * `str.strip()`, `str.split()` with no separator, `sep.join(...)`, and the
 * `text += piece + " "` accumulation of the transcriber worker.
 */
module Text {

  /** `c.isspace()` for Python 3 `str`: exactly the characters `str.split()` and `str.strip()` treat as whitespace. */
  predicate IsSpace(c: char)
  {
    var n := c as int;
    (9 <= n <= 13) || (28 <= n <= 32) || n == 0x85 || n == 0xA0 || n == 0x1680
    || (0x2000 <= n <= 0x200A) || n == 0x2028 || n == 0x2029 || n == 0x202F
    || n == 0x205F || n == 0x3000
  }

  predicate NoSpace(s: string)
  {
    forall i | 0 <= i < |s| :: !IsSpace(s[i])
  }

  predicate AllSpace(s: string)
  {
    forall i | 0 <= i < |s| :: IsSpace(s[i])
  }

  /** `s.lstrip()` */
  function TrimStart(s: string): (r: string)
    ensures |r| <= |s|
    ensures r == [] || !IsSpace(r[0])
  {
    if s != [] && IsSpace(s[0]) then TrimStart(s[1..]) else s
  }

  /** What `lstrip` removes is a whitespace prefix; what it keeps is the rest. */
  lemma {:induction false} TrimStartSpec(s: string)
    ensures var r := TrimStart(s);
      r == s[|s| - |r|..] && AllSpace(s[..|s| - |r|])
    decreases |s|
  {
    if s != [] && IsSpace(s[0]) {
      TrimStartSpec(s[1..]);
      var r := TrimStart(s);
      assert s[..|s| - |r|] == [s[0]] + s[1..][..|s| - 1 - |r|];
    }
  }

  /** `s.rstrip()` */
  function TrimEnd(s: string): (r: string)
    ensures |r| <= |s|
    ensures r == [] || !IsSpace(r[|r| - 1])
  {
    if s != [] && IsSpace(s[|s| - 1]) then TrimEnd(s[..|s| - 1]) else s
  }

  /** What `rstrip` removes is a whitespace suffix; what it keeps is the rest. */
  lemma {:induction false} TrimEndSpec(s: string)
    ensures var r := TrimEnd(s);
      r == s[..|r|] && AllSpace(s[|r|..])
    decreases |s|
  {
    if s != [] && IsSpace(s[|s| - 1]) {
      var u := s[..|s| - 1];
      TrimEndSpec(u);
      var r := TrimEnd(s);
      assert s[|r|..] == u[|r|..] + [s[|s| - 1]];
    }
  }

  /** `s.strip()`: whitespace removed from both ends, one character at a time. */
  function Strip(s: string): string
    decreases |s|
  {
    if s != [] && IsSpace(s[0]) then Strip(s[1..])
    else if s != [] && IsSpace(s[|s| - 1]) then Strip(s[..|s| - 1])
    else s
  }

  /** Stripping both ends at once is stripping the start and then the end. */
  lemma {:induction false} StripIsTrimBoth(s: string)
    ensures Strip(s) == TrimEnd(TrimStart(s))
    decreases |s|
  {
    if s != [] && IsSpace(s[0]) {
      StripIsTrimBoth(s[1..]);
    } else if s != [] && IsSpace(s[|s| - 1]) {
      var u := s[..|s| - 1];
      StripIsTrimBoth(u);
      assert u != [] && u[0] == s[0];
      assert TrimStart(u) == u && TrimStart(s) == s;
    }
  }

  /**
   * `s.strip()` is the middle part of `s`: what it removes on either side is
   * whitespace, and it neither starts nor ends with whitespace.
   */
  lemma StripSpec(s: string)
    ensures var r := Strip(s);
      exists a: nat, b: nat :: a <= b <= |s| && r == s[a..b]
        && AllSpace(s[..a]) && AllSpace(s[b..])
        && (r == [] || (!IsSpace(r[0]) && !IsSpace(r[|r| - 1])))
  {
    StripIsTrimBoth(s);
    var t := TrimStart(s);
    var r := TrimEnd(t);
    TrimStartSpec(s);
    TrimEndSpec(t);
    var a := |s| - |t|;
    var b := a + |r|;
    assert r == s[a..b];
    assert s[b..] == t[|r|..];
    assert AllSpace(s[..a]) && AllSpace(s[b..]);
  }

  /** The longest prefix of `s` holding no whitespace. */
  function Word(s: string): (w: string)
    ensures |w| <= |s| && w == s[..|w|] && NoSpace(w)
    ensures |w| < |s| ==> IsSpace(s[|w|])
  {
    if s == [] || IsSpace(s[0]) then [] else [s[0]] + Word(s[1..])
  }

  /** `s.split()`: the maximal runs of non-whitespace characters, in order. */
  function Split(s: string): (ws: seq<string>)
    ensures forall i | 0 <= i < |ws| :: ws[i] != [] && NoSpace(ws[i])
    decreases |s|
  {
    var t := TrimStart(s);
    if t == [] then [] else
    var w := Word(t);
    [w] + Split(t[|w|..])
  }

  /** `sep.join(ws)` */
  function Join(sep: string, ws: seq<string>): string
  {
    if ws == [] then "" else if |ws| == 1 then ws[0] else ws[0] + sep + Join(sep, ws[1..])
  }

  /** The worker's accumulation: every piece followed by one space, concatenated. */
  function SpacedConcat(pieces: seq<string>): string
  {
    if pieces == [] then "" else pieces[0] + " " + SpacedConcat(pieces[1..])
  }

  /** Appending whitespace after a string changes nothing once it is stripped. */
  lemma {:induction false} StripIgnoresTrailingSpace(s: string, t: string)
    requires AllSpace(t)
    ensures Strip(s + t) == Strip(s)
  {
    StripIsTrimBoth(s + t);
    StripIsTrimBoth(s);
    StripAppend(s, t);
    if TrimStart(s) == [] {
      TrimStartAllSpace(t);
    } else {
      TrimEndAppendSpace(TrimStart(s), t);
    }
  }

  lemma {:induction false} StripAppend(s: string, t: string)
    ensures TrimStart(s) != [] ==> TrimStart(s + t) == TrimStart(s) + t
    ensures TrimStart(s) == [] ==> TrimStart(s + t) == TrimStart(t)
    decreases |s|
  {
    if s == [] {
      assert s + t == t;
    } else if IsSpace(s[0]) {
      assert (s + t)[1..] == s[1..] + t;
      StripAppend(s[1..], t);
    }
  }

  lemma TrimStartAllSpace(t: string)
    requires AllSpace(t)
    ensures TrimStart(t) == []
  {
  }

  lemma {:induction false} TrimEndAppendSpace(a: string, t: string)
    requires AllSpace(t)
    ensures TrimEnd(a + t) == TrimEnd(a)
    decreases |t|
  {
    if t == [] {
      assert a + t == a;
    } else {
      var u := t[..|t| - 1];
      assert (a + t)[..|a + t| - 1] == a + u;
      TrimEndAppendSpace(a, u);
    }
  }

  /**
   * The two rewrites build a transcript differently (`text += seg + " "` then
   * strip, against `" ".join(segs).strip()`); the two agree on every input.
   */
  lemma {:induction false} SpacedConcatStripsLikeJoin(pieces: seq<string>)
    ensures Strip(SpacedConcat(pieces)) == Strip(Join(" ", pieces))
  {
    if pieces == [] {
    } else {
      SpacedConcatIsJoinPlusSpace(pieces);
      StripIgnoresTrailingSpace(Join(" ", pieces), " ");
    }
  }

  lemma {:induction false} SpacedConcatIsJoinPlusSpace(pieces: seq<string>)
    requires pieces != []
    ensures SpacedConcat(pieces) == Join(" ", pieces) + " "
    decreases |pieces|
  {
    if |pieces| == 1 {
      assert SpacedConcat(pieces[1..]) == "";
    } else {
      SpacedConcatIsJoinPlusSpace(pieces[1..]);
    }
  }

  /** One more loop step of the accumulation appends the piece and its space. */
  lemma {:induction false} SpacedConcatSnoc(pieces: seq<string>, x: string)
    ensures SpacedConcat(pieces + [x]) == SpacedConcat(pieces) + x + " "
    decreases |pieces|
  {
    if pieces == [] {
      assert [x][1..] == [];
    } else {
      assert (pieces + [x])[1..] == pieces[1..] + [x];
      SpacedConcatSnoc(pieces[1..], x);
    }
  }

  /** Splitting words that were joined with single spaces gives the words back. */
  lemma {:induction false} SplitJoin(ws: seq<string>)
    requires forall i | 0 <= i < |ws| :: ws[i] != [] && NoSpace(ws[i])
    ensures Split(Join(" ", ws)) == ws
    decreases |ws|
  {
    if ws == [] {
    } else if |ws| == 1 {
      SplitWord(ws[0], "");
      assert ws[0] + "" == ws[0];
      assert Split("") == [];
    } else {
      var rest := Join(" ", ws[1..]);
      assert Join(" ", ws) == ws[0] + (" " + rest);
      SplitWord(ws[0], " " + rest);
      SplitLeadingSpace(rest);
      SplitJoin(ws[1..]);
    }
  }

  /** A word followed by text starting with whitespace (or nothing) splits off as the first word. */
  lemma {:induction false} SplitWord(w: string, rest: string)
    requires w != [] && NoSpace(w)
    requires rest == [] || IsSpace(rest[0])
    ensures Split(w + rest) == [w] + Split(rest)
  {
    var s := w + rest;
    assert TrimStart(s) == s;
    WordOf(w, rest);
    assert s[|w|..] == rest;
    SplitTrimmed(rest);
  }

  lemma {:induction false} WordOf(w: string, rest: string)
    requires NoSpace(w)
    requires rest == [] || IsSpace(rest[0])
    ensures Word(w + rest) == w
    decreases |w|
  {
    if w == [] {
      assert w + rest == rest;
    } else {
      assert (w + rest)[1..] == w[1..] + rest;
      WordOf(w[1..], rest);
    }
  }

  /** Text appended after a join sticks to the last word. */
  lemma {:induction false} JoinSuffix(ws: seq<string>, suffix: string)
    requires ws != []
    ensures Join(" ", ws) + suffix == Join(" ", ws[..|ws| - 1] + [ws[|ws| - 1] + suffix])
    decreases |ws|
  {
    var v := ws[..|ws| - 1] + [ws[|ws| - 1] + suffix];
    if |ws| == 1 {
      assert v == [ws[0] + suffix];
    } else {
      JoinSuffix(ws[1..], suffix);
      assert v[1..] == ws[1..][..|ws| - 2] + [ws[|ws| - 1] + suffix];
      var rest := Join(" ", ws[1..]);
      assert Join(" ", ws) + suffix == ws[0] + " " + (rest + suffix);
    }
  }

  /** Leading whitespace does not change the split. */
  lemma SplitTrimmed(s: string)
    ensures Split(TrimStart(s)) == Split(s)
  {
    TrimStartIdempotent(s);
  }

  lemma SplitLeadingSpace(s: string)
    ensures Split(" " + s) == Split(s)
  {
    assert (" " + s)[1..] == s;
    assert TrimStart(" " + s) == TrimStart(s);
  }

  lemma {:induction false} TrimStartIdempotent(s: string)
    ensures TrimStart(TrimStart(s)) == TrimStart(s)
  {
  }
}
