/** Quoting of a job's argument vector for `/bin/sh`, against a reader that follows the quoting rules of sections
    2.2.1 (escape character) and 2.2.2 (single-quotes) of the POSIX Shell Command Language. */
module ShellQuote {
  import opened Common

  // ---- The printer ----

  /** `value.replace('\'', "'\\''")` */
  function Escape(value: string): string {
    if value == "" then ""
    else (if value[0] == '\'' then "'\\''" else [value[0]]) + Escape(value[1..])
  }

  function Quote(value: string): string { "'" + Escape(value) + "'" }

  function CommandLine(args: seq<string>): string {
    if args == [] then ""
    else if |args| == 1 then Quote(args[0])
    else Quote(args[0]) + " " + CommandLine(args[1..])
  }

  // ---- The reader ----

  const NUL: char := '\0'

  /** Characters with a meaning of their own outside quotes (section 2.2); a reader of plain words stops there. */
  predicate Special(c: char) {
    c in {'|', '&', ';', '<', '>', '(', ')', '$', '`', '"', '*', '?', '[', '#', '~', '=', '%'}
  }

  function Complete(word: Option<string>, words: seq<string>): seq<string> {
    if word.Some? then words + [word.value] else words
  }

  /** Reads one command up to an unquoted newline or the end of the input. Yields its words and the unread rest,
      or None where the text is not a list of plain and quoted words (or contains a NUL, which no script may). */
  function Read(quoted: bool, text: string, word: Option<string>, words: seq<string>): Option<(seq<string>, string)>
    decreases |text|
  {
    var current := if word.Some? then word.value else "";
    if text == "" then
      if quoted then None else Some((Complete(word, words), ""))
    else if text[0] == NUL then None
    else if quoted then
      if text[0] == '\'' then Read(false, text[1..], Some(current), words)
      else Read(true, text[1..], Some(current + [text[0]]), words)
    else if text[0] == '\'' then Read(true, text[1..], Some(current), words)
    else if text[0] == '\\' then
      if |text| == 1 || text[1] == NUL then None
      else if text[1] == '\n' then Read(false, text[2..], word, words)
      else Read(false, text[2..], Some(current + [text[1]]), words)
    else if text[0] == '\n' then Some((Complete(word, words), text[1..]))
    else if text[0] == ' ' || text[0] == '\t' then Read(false, text[1..], None, Complete(word, words))
    else if Special(text[0]) then None
    else Read(false, text[1..], Some(current + [text[0]]), words)
  }

  function ReadCommand(text: string): Option<(seq<string>, string)> { Read(false, text, None, []) }

  predicate NulFree(args: seq<string>) { forall i :: 0 <= i < |args| ==> NUL !in args[i] }

  // ---- Round trip ----

  /** Leaving the quotes, an escaped apostrophe and re-entering them reads as the apostrophe. */
  lemma ApostropheReads(rest: string, prefix: string, words: seq<string>)
    ensures Read(true, "'\\''" + rest, Some(prefix), words) == Read(true, rest, Some(prefix + "'"), words)
  {
    var text := "'\\''" + rest;
    assert text[1..] == "\\''" + rest;
    assert text[1..][2..] == "'" + rest;
    assert text[1..][2..][1..] == rest;
    assert Read(true, text, Some(prefix), words) == Read(false, "\\''" + rest, Some(prefix), words);
    assert Read(false, "\\''" + rest, Some(prefix), words) == Read(false, "'" + rest, Some(prefix + "'"), words);
  }

  lemma PlainReads(c: char, rest: string, prefix: string, words: seq<string>)
    requires c != '\''
    ensures Read(true, [c] + rest, Some(prefix), words)
         == if c == NUL then None else Read(true, rest, Some(prefix + [c]), words)
  {
    assert ([c] + rest)[1..] == rest;
  }

  lemma EscapeSplit(value: string, tail: string)
    requires value != ""
    ensures Escape(value) + "'" + tail
         == (if value[0] == '\'' then "'\\''" else [value[0]]) + (Escape(value[1..]) + "'" + tail)
    ensures NUL in value <==> value[0] == NUL || NUL in value[1..]
  {
  }

  /** Inside quotes, an escaped word followed by its closing quote reads as the word itself. */
  lemma {:induction false} EscapeReads(value: string, tail: string, prefix: string, words: seq<string>)
    ensures Read(true, Escape(value) + "'" + tail, Some(prefix), words)
         == if NUL in value then None else Read(false, tail, Some(prefix + value), words)
    decreases |value|
  {
    if value == "" {
      assert ("'" + tail)[1..] == tail;
      assert Escape(value) + "'" + tail == "'" + tail;
      assert prefix + value == prefix;
    } else {
      var c, rest := value[0], Escape(value[1..]) + "'" + tail;
      EscapeSplit(value, tail);
      if c == '\'' {
        ApostropheReads(rest, prefix, words);
      } else {
        PlainReads(c, rest, prefix, words);
      }
      Rejoin(prefix, value);
      EscapeReads(value[1..], tail, prefix + [c], words);
    }
  }

  lemma QuoteReads(value: string, tail: string, words: seq<string>)
    ensures Read(false, Quote(value) + tail, None, words)
         == if NUL in value then None else Read(false, tail, Some(value), words)
  {
    var text := Quote(value) + tail;
    assert text[1..] == Escape(value) + "'" + tail;
    EscapeReads(value, tail, "", words);
    assert "" + value == value;
  }

  lemma BlankReads(value: string, rest: string, words: seq<string>)
    ensures Read(false, " " + rest, Some(value), words) == Read(false, rest, None, words + [value])
  {
    assert (" " + rest)[1..] == rest;
  }

  lemma Regroup(a: string, b: string, c: string, d: string)
    ensures (a + b + c) + d == a + (b + (c + d))
  {
  }

  lemma CommandLineSplit(args: seq<string>, tail: string)
    requires |args| > 1
    ensures CommandLine(args) + tail == Quote(args[0]) + (" " + (CommandLine(args[1..]) + tail))
  {
    Regroup(Quote(args[0]), " ", CommandLine(args[1..]), tail);
  }

  lemma NulFreeSplit(args: seq<string>)
    requires args != []
    ensures NulFree(args) <==> NUL !in args[0] && NulFree(args[1..])
  {
    assert args == [args[0]] + args[1..];
  }

  lemma NewlineReads(word: Option<string>, rest: string, words: seq<string>)
    ensures Read(false, "\n" + rest, word, words) == Some((Complete(word, words), rest))
  {
    assert ("\n" + rest)[1..] == rest;
  }

  lemma FirstWordReads(value: string, more: string, words: seq<string>)
    ensures Read(false, Quote(value) + (" " + more), None, words)
         == if NUL in value then None else Read(false, more, None, words + [value])
  {
    QuoteReads(value, " " + more, words);
    BlankReads(value, more, words);
  }

  lemma OnlyWordReads(value: string, rest: string, words: seq<string>)
    ensures Read(false, Quote(value) + ("\n" + rest), None, words)
         == if NUL in value then None else Some((words + [value], rest))
  {
    QuoteReads(value, "\n" + rest, words);
    NewlineReads(Some(value), rest, words);
  }

  lemma {:induction false} CommandLineReads(args: seq<string>, rest: string, words: seq<string>)
    ensures Read(false, CommandLine(args) + ("\n" + rest), None, words)
         == if NulFree(args) then Some((words + args, rest)) else None
    decreases |args|
  {
    if args == [] {
      NewlineReads(None, rest, words);
      assert CommandLine(args) + ("\n" + rest) == "\n" + rest;
      assert words + args == words;
    } else {
      NulFreeSplit(args);
      if |args| == 1 {
        OnlyWordReads(args[0], rest, words);
        assert args == [args[0]];
      } else {
        FirstWordReads(args[0], CommandLine(args[1..]) + ("\n" + rest), words);
        CommandLineSplit(args, "\n" + rest);
        CommandLineReads(args[1..], rest, words + [args[0]]);
        Rejoin(words, args);
      }
    }
  }

  lemma Rejoin<T>(words: seq<T>, args: seq<T>)
    requires args != []
    ensures words + [args[0]] + args[1..] == words + args
  {
  }

  /** The shell reads the command line of a job script back as exactly the argument vector, and leaves the rest of
      the script untouched, whatever quotes, backslashes, newlines, blanks or empty words the arguments hold. It
      does so exactly for the vectors without a NUL. */
  lemma CommandLineRoundTrip(args: seq<string>, rest: string)
    ensures ReadCommand(CommandLine(args) + "\n" + rest) == Some((args, rest)) <==> NulFree(args)
  {
    CommandLineReads(args, rest, []);
    assert CommandLine(args) + "\n" + rest == CommandLine(args) + ("\n" + rest);
    assert [] + args == args;
  }

  /** Different argument vectors give different command lines. */
  lemma CommandLineInjective(a: seq<string>, b: seq<string>)
    requires NulFree(a) && NulFree(b) && CommandLine(a) == CommandLine(b)
    ensures a == b
  {
    CommandLineRoundTrip(a, "");
    CommandLineRoundTrip(b, "");
  }
}
