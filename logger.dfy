/** The error-log record `append_error` writes (logger.rs): the context with its line
    breaks blanked, the message with its line breaks escaped, and the line
    `<ts> [error] <context>: <message>`.  The timestamp is an input; resolving the log
    directory, opening and appending to the file are not part of this model, and the
    file's text is the concatenation of the lines appended to it. */
module Logger {
  import opened Text

  predicate IsLineBreak(c: char)
  {
    c == '\r' || c == '\n'
  }

  /** `context.replace(['\r', '\n'], " ")`. */
  function BlankLineBreaks(s: string): string
  {
    if s == [] then [] else [if IsLineBreak(s[0]) then ' ' else s[0]] + BlankLineBreaks(s[1..])
  }

  /** `message.replace('\r', "\\r").replace('\n', "\\n")`. */
  function EscapeLineBreaks(s: string): string
  {
    Replace(Replace(s, "\r", "\\r"), "\n", "\\n")
  }

  /** One call of `append_error`. */
  datatype Entry = Entry(ts: string, context: string, message: string)

  /** The record `writeln!` writes, without its newline. */
  function Record(e: Entry): string
  {
    e.ts + " [error] " + BlankLineBreaks(e.context) + ": " + EscapeLineBreaks(e.message)
  }

  /** The line `writeln!` appends. */
  function LogLine(e: Entry): string
  {
    Record(e) + "\n"
  }

  /** The text the calls append to the log file, in order. */
  function LogText(entries: seq<Entry>): string
  {
    if entries == [] then [] else LogLine(entries[0]) + LogText(entries[1..])
  }

  // ---------------------------------------------------------------------------
  // The context

  /** The sanitised context has the input's length, a space for each CR or LF and
      every other character as it was. */
  lemma {:induction false} ContextSanitized(s: string)
    ensures |BlankLineBreaks(s)| == |s|
    ensures forall i :: 0 <= i < |s| ==> BlankLineBreaks(s)[i] == (if IsLineBreak(s[i]) then ' ' else s[i])
  {
    if s != [] {
      ContextSanitized(s[1..]);
      assert forall i :: 1 <= i < |s| ==> BlankLineBreaks(s)[i] == BlankLineBreaks(s[1..])[i - 1];
    }
  }

  /** The sanitised context holds no CR or LF, and a context without them is kept. */
  lemma {:induction false} ContextClean(s: string)
    ensures '\r' !in BlankLineBreaks(s) && '\n' !in BlankLineBreaks(s)
    ensures '\r' !in s && '\n' !in s ==> BlankLineBreaks(s) == s
  {
    ContextSanitized(s);
  }

  // ---------------------------------------------------------------------------
  // The message

  /** How one message character is written. */
  function EscapeChar(c: char): string
  {
    if c == '\r' then "\\r" else if c == '\n' then "\\n" else [c]
  }

  /** Every character written as `EscapeChar` says, in one pass. */
  function EscapeAll(s: string): string
  {
    if s == [] then [] else EscapeChar(s[0]) + EscapeAll(s[1..])
  }

  lemma {:induction false} ReplaceCharCons(x: char, s: string, c: char, rep: string)
    ensures Replace([x] + s, [c], rep) == (if x == c then rep else [x]) + Replace(s, [c], rep)
  {
    var t := [x] + s;
    assert t[..1] == [x] && t[1..] == s;
  }

  lemma {:induction false} ReplaceCharAppend(a: string, b: string, c: char, rep: string)
    ensures Replace(a + b, [c], rep) == Replace(a, [c], rep) + Replace(b, [c], rep)
    decreases |a|
  {
    if a == [] {
      assert a + b == b;
    } else {
      assert a + b == [a[0]] + (a[1..] + b);
      assert a == [a[0]] + a[1..];
      ReplaceCharCons(a[0], a[1..] + b, c, rep);
      ReplaceCharCons(a[0], a[1..], c, rep);
      ReplaceCharAppend(a[1..], b, c, rep);
    }
  }

  /** The two chained replacements escape each character on its own: each CR becomes
      the two characters `\` `r`, each LF `\` `n`, the rest is kept, and the `\r`
      written by the first replacement is not touched by the second. */
  lemma {:induction false} MessageEscapesEachBreak(s: string)
    ensures EscapeLineBreaks(s) == EscapeAll(s)
    decreases |s|
  {
    if s != [] {
      var x, t := s[0], s[1..];
      assert s == [x] + t;
      ReplaceCharCons(x, t, '\r', "\\r");
      var h := if x == '\r' then "\\r" else [x];
      ReplaceCharAppend(h, Replace(t, "\r", "\\r"), '\n', "\\n");
      if x == '\r' {
        assert h == ['\\'] + ['r'];
        ReplaceCharCons('\\', ['r'], '\n', "\\n");
        assert ['r'] == ['r'] + [];
        ReplaceCharCons('r', [], '\n', "\\n");
      } else {
        assert h == [x] + [];
        ReplaceCharCons(x, [], '\n', "\\n");
      }
      MessageEscapesEachBreak(t);
    }
  }

  /** The escaped message holds no CR or LF, grows by one character per line break,
      and a message without line breaks is kept. */
  lemma {:induction false} EscapeAllClean(s: string)
    ensures '\r' !in EscapeAll(s) && '\n' !in EscapeAll(s)
    ensures |EscapeAll(s)| == |s| + CountChar(s, '\r') + CountChar(s, '\n')
    ensures '\r' !in s && '\n' !in s ==> EscapeAll(s) == s
    decreases |s|
  {
    if s != [] {
      EscapeAllClean(s[1..]);
      assert s == [s[0]] + s[1..];
    }
  }

  /** The sanitised message holds no CR or LF, has one more character per line break,
      and a message without line breaks is kept. */
  lemma {:induction false} MessageClean(s: string)
    ensures '\r' !in EscapeLineBreaks(s) && '\n' !in EscapeLineBreaks(s)
    ensures |EscapeLineBreaks(s)| == |s| + CountChar(s, '\r') + CountChar(s, '\n')
    ensures '\r' !in s && '\n' !in s ==> EscapeLineBreaks(s) == s
  {
    MessageEscapesEachBreak(s);
    EscapeAllClean(s);
  }

  /** The escape is not reversible: a carriage return and a backslash followed by `r`
      are logged alike. */
  lemma {:induction false} EscapeLossy()
    ensures EscapeLineBreaks("\r") == EscapeLineBreaks("\\r") == "\\r"
  {
    MessageEscapesEachBreak("\r");
    MessageEscapesEachBreak("\\r");
    assert "\\r"[1..] == "r" && "r"[1..] == [];
  }

  // ---------------------------------------------------------------------------
  // Lines

  /** A record holds no line break of its own when the timestamp holds none, and it
      starts with the timestamp and ` [error] `. */
  lemma {:induction false} RecordClean(e: Entry)
    requires '\r' !in e.ts && '\n' !in e.ts
    ensures '\r' !in Record(e) && '\n' !in Record(e)
    ensures Record(e)[..|e.ts| + 9] == e.ts + " [error] "
  {
    ContextClean(e.context);
    MessageClean(e.message);
  }

  lemma {:induction false} SplitAfterLine(a: string, b: string, sep: char)
    requires sep !in a
    ensures Split(a + [sep] + b, sep) == [a] + Split(b, sep)
    decreases |a|
  {
    var s := a + [sep] + b;
    if a == [] {
      assert s == [sep] + b && s[1..] == b;
    } else {
      assert s[0] == a[0] && s[1..] == a[1..] + [sep] + b;
      SplitAfterLine(a[1..], b, sep);
      assert [a[0]] + a[1..] == a;
    }
  }

  /** Each call adds exactly one line: the log file's text, split at its newlines, is the
      calls' records in order followed by the empty text after the last newline. */
  lemma {:induction false} OneLinePerEntry(entries: seq<Entry>)
    requires forall k :: 0 <= k < |entries| ==> '\r' !in entries[k].ts && '\n' !in entries[k].ts
    ensures Split(LogText(entries), '\n') == seq(|entries|, k requires 0 <= k < |entries| => Record(entries[k])) + [[]]
    decreases |entries|
  {
    if entries != [] {
      RecordClean(entries[0]);
      OneLinePerEntry(entries[1..]);
      SplitAfterLine(Record(entries[0]), LogText(entries[1..]), '\n');
      assert LogLine(entries[0]) + LogText(entries[1..]) == Record(entries[0]) + ['\n'] + LogText(entries[1..]);
    }
  }
}
