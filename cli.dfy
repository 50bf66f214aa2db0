/**
 * pkg/logging/cli.go: the slog handler behind the command line's output. It
 * prints one coloured line per enabled record, "[prefix] message: k=v ...".
 */
module Cli {
  import Strings
  import Logger

  /** ANSI colour escapes. */
  const ColorGreen: string := "\U{1B}[32m"
  const ColorReset: string := "\U{1B}[0m"
  const ColorRed: string := "\U{1B}[31m"

  /** The prefix used when REPUTER_LOG_PREFIX is unset or empty. */
  const DefaultPrefix: string := "cli"

  /** getLogPrefix, given the value of REPUTER_LOG_PREFIX ("" when unset). */
  function GetLogPrefix(env: string): (prefix: string)
    ensures prefix != ""
    ensures env != "" ==> prefix == env
    ensures env == "" ==> prefix == DefaultPrefix
  {
    if env != "" then env else DefaultPrefix
  }

  /** A record attribute, its value already formatted as %v prints it. */
  datatype Attr = Attr(key: string, value: string)

  /** The parts of a slog record the handler reads. */
  datatype Record = Record(level: int, message: string, attrs: seq<Attr>)

  function AttrText(a: Attr): string
  {
    a.key + "=" + a.value
  }

  /** The key=value texts of attrs, in record order. */
  function AttrTexts(attrs: seq<Attr>): (texts: seq<string>)
    ensures |texts| == |attrs|
    ensures forall i :: 0 <= i < |attrs| ==> texts[i] == AttrText(attrs[i])
  {
    if |attrs| == 0 then [] else [AttrText(attrs[0])] + AttrTexts(attrs[1..])
  }

  /** "[prefix] message", the start of every line. */
  function Head(prefix: string, r: Record): string
  {
    "[" + prefix + "] " + r.message
  }

  /** ": " and the attributes, or nothing for a record without attributes. */
  function AttrsSuffix(r: Record): string
  {
    if |r.attrs| > 0 then ": " + Strings.Join(AttrTexts(r.attrs), " ") else ""
  }

  /** The uncoloured text. */
  function Body(prefix: string, r: Record): string
  {
    Head(prefix, r) + AttrsSuffix(r)
  }

  /** The colour of a record's line: red from Error up, green below. */
  function Color(level: int): string
  {
    if level >= Logger.LevelError then ColorRed else ColorGreen
  }

  /** The line Handle writes, without its newline. */
  function Line(prefix: string, r: Record): string
  {
    Color(r.level) + Body(prefix, r) + ColorReset
  }

  /** An output stream: what has been written so far. */
  class Writer {
    var text: string

    constructor ()
      ensures text == ""
    {
      text := "";
    }

    /** fmt.Fprintln: s followed by a newline. */
    method WriteLine(s: string)
      modifies this
      ensures text == old(text) + s + "\n"
    {
      text := text + s + "\n";
    }
  }

  class CLIHandler {
    const writer: Writer
    const level: int

    constructor (w: Writer, level: int)
      ensures writer == w && this.level == level
    {
      writer := w;
      this.level := level;
    }

    /** Enabled: records at or above the handler's level pass. */
    function Enabled(l: int): (on: bool)
      ensures on <==> l >= level
    {
      l >= level
    }

    /**
     * Handle: gathers the attributes one by one, assembles the line and
     * writes it with a newline; nothing but the writer changes.
     */
    method Handle(prefixEnv: string, r: Record)
      modifies writer
      ensures writer.text == old(writer.text) + Line(GetLogPrefix(prefixEnv), r) + "\n"
    {
      var msg := "[" + GetLogPrefix(prefixEnv) + "] " + r.message;
      if |r.attrs| > 0 {
        var attrs: seq<string> := [];
        var i := 0;
        while i < |r.attrs|
          invariant 0 <= i <= |r.attrs|
          invariant attrs == AttrTexts(r.attrs[..i])
        {
          assert AttrTexts(r.attrs[..i + 1]) == AttrTexts(r.attrs[..i]) + [AttrText(r.attrs[i])];
          attrs := attrs + [AttrText(r.attrs[i])];
          i := i + 1;
        }
        assert r.attrs[..i] == r.attrs;
        if |attrs| > 0 {
          msg := msg + ": " + Strings.Join(attrs, " ");
        }
      }
      if r.level >= Logger.LevelError {
        msg := ColorRed + msg + ColorReset;
      } else {
        msg := ColorGreen + msg + ColorReset;
      }
      writer.WriteLine(msg);
    }

    /** WithAttrs ignores the attributes and returns this very handler. */
    function WithAttrs(attrs: seq<Attr>): (h: CLIHandler)
      ensures h == this
    {
      this
    }

    /** WithGroup ignores the group and returns this very handler. */
    function WithGroup(name: string): (h: CLIHandler)
      ensures h == this
    {
      this
    }
  }

  /**
   * Every line opens with its colour and "[prefix] message" and closes with
   * the reset code; without attributes nothing else is in it, no ": " either.
   */
  lemma LineShape(prefix: string, r: Record)
    ensures var line := Line(prefix, r);
      var head := Color(r.level) + Head(prefix, r);
      |line| >= |head| + |ColorReset|
      && line[..|head|] == head
      && line[|line| - |ColorReset|..] == ColorReset
      && (|r.attrs| == 0 ==> line == head + ColorReset)
      && (|r.attrs| > 0 ==> line == head + (": " + Strings.Join(AttrTexts(r.attrs), " ")) + ColorReset)
  {
    var head := Color(r.level) + Head(prefix, r);
    var mid := AttrsSuffix(r);
    assert Line(prefix, r) == head + mid + ColorReset by {
      assert Color(r.level) + (Head(prefix, r) + mid) == head + mid;
    }
    Framed(head, mid, ColorReset);
    if |r.attrs| == 0 {
      assert head + mid == head;
    }
  }

  /** A string built as head + mid + tail starts with head and ends with tail. */
  lemma Framed(head: string, mid: string, tail: string)
    ensures var s := head + mid + tail;
      |s| >= |head| + |tail| && s[..|head|] == head && s[|s| - |tail|..] == tail
  {
    var s := head + mid + tail;
    assert s == head + (mid + tail);
  }

  /** A line is red exactly when the record is at Error level or above. */
  lemma RedIffError(prefix: string, r: Record)
    ensures Line(prefix, r)[..|ColorRed|] == ColorRed <==> r.level >= Logger.LevelError
    ensures Line(prefix, r)[..|ColorGreen|] == ColorGreen <==> r.level < Logger.LevelError
  {
    var line := Line(prefix, r);
    assert line == Color(r.level) + (Body(prefix, r) + ColorReset);
    assert ColorRed[3] != ColorGreen[3];
  }

  /** No newline in any of the record's texts or the prefix. */
  predicate SingleLineTexts(prefix: string, r: Record)
  {
    '\n' !in prefix && '\n' !in r.message
    && forall i :: 0 <= i < |r.attrs| ==> '\n' !in r.attrs[i].key && '\n' !in r.attrs[i].value
  }

  /** Handle then writes exactly one newline: one line per record. */
  lemma {:induction false} OneLinePerRecord(prefix: string, r: Record)
    requires SingleLineTexts(prefix, r)
    ensures Strings.Count(Line(prefix, r) + "\n", '\n') == 1
  {
    var texts := AttrTexts(r.attrs);
    Strings.JoinAvoids(texts, " ", '\n');
    var line := Line(prefix, r);
    assert '\n' !in line;
    Strings.CountAbsent(line, '\n');
    Strings.CountAppend(line, "\n", '\n');
  }

  /**
   * A handler set up from a LOG_LEVEL string always lets errors through,
   * and lets debug records through exactly when the string names debug.
   */
  lemma ParsedLevelFilters(h: CLIHandler, s: string)
    requires h.level == Logger.ParseLogLevel(s)
    ensures h.Enabled(Logger.LevelError)
    ensures h.Enabled(Logger.LevelDebug) <==> Logger.Normalize(s) == "debug"
  {
  }
}
