/**
 * pkg/logging/logger.go: turning a LOG_LEVEL string into a slog level, and
 * the rule that source locations are logged only at debug level.
 */
module Logger {
  /** slog's level values. */
  const LevelDebug: int := -4
  const LevelInfo: int := 0
  const LevelWarn: int := 4
  const LevelError: int := 8

  /** unicode.IsSpace, the test strings.TrimSpace trims by. */
  predicate IsSpace(c: char)
  {
    ('\t' <= c <= '\r') || c == ' ' || c == '\U{85}' || c == '\U{A0}' || c == '\U{1680}'
    || ('\U{2000}' <= c <= '\U{200A}') || c == '\U{2028}' || c == '\U{2029}' || c == '\U{202F}'
    || c == '\U{205F}' || c == '\U{3000}'
  }

  predicate AllSpace(s: string)
  {
    forall i :: 0 <= i < |s| ==> IsSpace(s[i])
  }

  /** No white space at either end. */
  predicate Trimmed(s: string)
  {
    |s| == 0 || (!IsSpace(s[0]) && !IsSpace(s[|s| - 1]))
  }

  /** Drops leading white space: what is left is a suffix not starting with a space. */
  function TrimLeft(s: string): (r: string)
    ensures |r| <= |s| && r == s[|s| - |r|..]
    ensures forall i :: 0 <= i < |s| - |r| ==> IsSpace(s[i])
    ensures |r| == 0 || !IsSpace(r[0])
  {
    if |s| > 0 && IsSpace(s[0]) then TrimLeft(s[1..]) else s
  }

  /** Drops trailing white space: what is left is a prefix not ending in a space. */
  function TrimRight(s: string): (r: string)
    ensures |r| <= |s| && r == s[..|r|]
    ensures forall i :: |r| <= i < |s| ==> IsSpace(s[i])
    ensures |r| == 0 || !IsSpace(r[|r| - 1])
  {
    if |s| > 0 && IsSpace(s[|s| - 1]) then TrimRight(s[..|s| - 1]) else s
  }

  /**
   * strings.TrimSpace: white space cut away on either side (TrimLeft and
   * TrimRight say that only white space goes), none left at the ends.
   */
  function TrimSpace(s: string): (r: string)
    ensures Trimmed(r)
  {
    TrimRight(TrimLeft(s))
  }

  /**
   * unicode.ToLower on the characters whose lower-case form is ASCII: A-Z,
   * U+0130 (capital I with dot above, lowered to 'i') and U+212A (the Kelvin
   * sign, lowered to 'k'). Every other character is kept.
   */
  function LowerChar(c: char): (l: char)
    ensures 'A' <= c <= 'Z' ==> 'a' <= l <= 'z' && l as int == c as int + 32
    ensures c == '\U{0130}' ==> l == 'i'
    ensures c == '\U{212A}' ==> l == 'k'
    ensures !('A' <= c <= 'Z') && c != '\U{0130}' && c != '\U{212A}' ==> l == c
  {
    if 'A' <= c <= 'Z' then (c as int + 32) as char
    else if c == '\U{0130}' then 'i'
    else if c == '\U{212A}' then 'k'
    else c
  }

  /** strings.ToLower, as far as it can produce ASCII (see LowerChar). */
  function ToLower(s: string): string
  {
    seq(|s|, i requires 0 <= i < |s| => LowerChar(s[i]))
  }

  /** The form ParseLogLevel matches on. */
  function Normalize(s: string): string
  {
    ToLower(TrimSpace(s))
  }

  /**
   * ParseLogLevel: "debug", "warn"/"warning" and "error", in any case and
   * with surrounding white space, select their level; everything else,
   * the empty string included, is Info.
   */
  function ParseLogLevel(level: string): (lev: int)
    ensures lev == LevelDebug <==> Normalize(level) == "debug"
    ensures lev == LevelWarn <==> Normalize(level) == "warn" || Normalize(level) == "warning"
    ensures lev == LevelError <==> Normalize(level) == "error"
    ensures lev == LevelInfo <==> !(Normalize(level) in ["debug", "warn", "warning", "error"])
  {
    var n := Normalize(level);
    if n == "debug" then LevelDebug
    else if n == "warn" || n == "warning" then LevelWarn
    else if n == "error" then LevelError
    else LevelInfo
  }

  /** The addSource rule of the logger constructors: on exactly for debug. */
  function AddSource(level: string): (on: bool)
    ensures on <==> Normalize(level) == "debug"
  {
    ParseLogLevel(level) <= LevelDebug
  }

  /** The levels are ordered Debug < Info < Warn < Error. */
  lemma LevelsOrdered()
    ensures LevelDebug < LevelInfo < LevelWarn < LevelError
  {
  }

  lemma {:induction false} TrimLeftOfTrimmed(s: string)
    requires Trimmed(s)
    ensures TrimLeft(s) == s
  {
  }

  lemma {:induction false} TrimRightOfTrimmed(s: string)
    requires Trimmed(s)
    ensures TrimRight(s) == s
  {
  }

  /** Lowering never turns a space into a non-space or back. */
  lemma LowerKeepsTrimmed(s: string)
    requires Trimmed(s)
    ensures Trimmed(ToLower(s))
  {
  }

  lemma LowerIdempotent(s: string)
    ensures ToLower(ToLower(s)) == ToLower(s)
  {
  }

  /** Normalizing twice is normalizing once. */
  lemma NormalizeIdempotent(s: string)
    ensures Normalize(Normalize(s)) == Normalize(s)
  {
    var t := TrimSpace(s);
    LowerKeepsTrimmed(t);
    var n := ToLower(t);
    TrimLeftOfTrimmed(n);
    TrimRightOfTrimmed(n);
    assert TrimSpace(n) == n;
    LowerIdempotent(t);
  }

  /** The parsed level depends only on the normalized input. */
  lemma ParseDependsOnNormalForm(s: string, t: string)
    requires Normalize(s) == Normalize(t)
    ensures ParseLogLevel(s) == ParseLogLevel(t)
  {
  }

  /** Parsing the normalized form gives the same level as the raw input. */
  lemma ParseOfNormalForm(s: string)
    ensures ParseLogLevel(Normalize(s)) == ParseLogLevel(s)
  {
    NormalizeIdempotent(s);
  }

  lemma {:induction false} TrimLeftSkipsSpace(pre: string, s: string)
    requires AllSpace(pre)
    ensures TrimLeft(pre + s) == TrimLeft(s)
  {
    if |pre| > 0 {
      assert (pre + s)[1..] == pre[1..] + s;
      TrimLeftSkipsSpace(pre[1..], s);
    } else {
      assert pre + s == s;
    }
  }

  lemma {:induction false} TrimRightSkipsSpace(s: string, post: string)
    requires AllSpace(post)
    ensures TrimRight(s + post) == TrimRight(s)
  {
    if |post| > 0 {
      assert (s + post)[..|s + post| - 1] == s + post[..|post| - 1];
      TrimRightSkipsSpace(s, post[..|post| - 1]);
    } else {
      assert s + post == s;
    }
  }

  /** White space around a word is cut away, and only that. */
  lemma TrimSurrounding(pre: string, w: string, post: string)
    requires AllSpace(pre) && AllSpace(post) && Trimmed(w)
    ensures TrimSpace(pre + w + post) == w
  {
    if |w| == 0 {
      TrimAllSpace(pre, post);
      assert pre + w + post == pre + post;
    } else {
      TrimSurroundingWord(pre, w, post);
    }
  }

  lemma TrimSurroundingWord(pre: string, w: string, post: string)
    requires AllSpace(pre) && AllSpace(post) && Trimmed(w) && |w| > 0
    ensures TrimSpace(pre + w + post) == w
  {
    var s := pre + w + post;
    assert s == pre + (w + post);
    TrimLeftSkipsSpace(pre, w + post);
    TrimLeftOfWord(w, post);
    var left := TrimLeft(s);
    assert left == w + post;
    TrimRightSkipsSpace(w, post);
    TrimRightOfTrimmed(w);
    assert TrimRight(left) == w;
  }

  /** Nothing is left of white space alone. */
  lemma TrimAllSpace(pre: string, post: string)
    requires AllSpace(pre) && AllSpace(post)
    ensures TrimSpace(pre + post) == ""
  {
    TrimLeftSkipsSpace(pre + post, "");
    assert pre + post + "" == pre + post;
  }

  /** A word starting with a non-space is not trimmed on the left. */
  lemma TrimLeftOfWord(w: string, post: string)
    requires |w| > 0 && !IsSpace(w[0])
    ensures TrimLeft(w + post) == w + post
  {
    assert (w + post)[0] == w[0];
  }

  /** White space around a trimmed word does not change the level it parses to. */
  lemma ParseIgnoresSurroundingSpace(pre: string, w: string, post: string)
    requires AllSpace(pre) && AllSpace(post) && Trimmed(w)
    ensures ParseLogLevel(pre + w + post) == ParseLogLevel(w)
  {
    TrimSurrounding(pre, w, post);
    TrimLeftOfTrimmed(w);
    TrimRightOfTrimmed(w);
  }

  /** White space alone, like the empty string, is Info. */
  lemma OnlySpaceIsInfo(s: string)
    requires AllSpace(s)
    ensures ParseLogLevel(s) == LevelInfo
  {
    TrimAllSpace(s, "");
    assert s + "" == s;
  }

  /** Lower-casing keeps white space and non-white space apart. */
  lemma LowerCharKeepsSpace(c: char)
    ensures IsSpace(LowerChar(c)) <==> IsSpace(c)
  {
  }

  lemma {:induction false} TrimLeftOfLower(s: string)
    ensures TrimLeft(ToLower(s)) == ToLower(TrimLeft(s))
  {
    if |s| > 0 {
      LowerCharKeepsSpace(s[0]);
      if IsSpace(s[0]) {
        assert ToLower(s)[1..] == ToLower(s[1..]);
        TrimLeftOfLower(s[1..]);
      }
    }
  }

  lemma {:induction false} TrimRightOfLower(s: string)
    ensures TrimRight(ToLower(s)) == ToLower(TrimRight(s))
  {
    if |s| > 0 {
      LowerCharKeepsSpace(s[|s| - 1]);
      if IsSpace(s[|s| - 1]) {
        assert ToLower(s)[..|s| - 1] == ToLower(s[..|s| - 1]);
        TrimRightOfLower(s[..|s| - 1]);
      }
    }
  }

  /** Parsing ignores case: a lower-cased input parses to the same level. */
  lemma ParseIgnoresCase(s: string)
    ensures ParseLogLevel(ToLower(s)) == ParseLogLevel(s)
  {
    TrimLeftOfLower(s);
    TrimRightOfLower(TrimLeft(s));
    assert TrimSpace(ToLower(s)) == ToLower(TrimSpace(s));
    LowerIdempotent(TrimSpace(s));
  }

  /** A dotted capital I lowers to 'i', so "WARN\U{0130}NG" is a warning level. */
  lemma DottedCapitalIParses()
    ensures ParseLogLevel("WARN\U{0130}NG") == LevelWarn
  {
    ParseIgnoresSurroundingSpace("", "WARN\U{0130}NG", "");
    assert "" + "WARN\U{0130}NG" + "" == "WARN\U{0130}NG";
    assert ToLower("WARN\U{0130}NG") == "warning";
  }
}
