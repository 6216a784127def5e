/** Quoting a string as one shell word (examples/weather/x402-gno/main.go:192-201), and a lexer for
    the quoting of sections 2.2.1 and 2.2.2 of the POSIX.1-2017 Shell Command Language. */
module ShellWord {
  import opened Options

  predicate PlainChar(c: char) {
    || 'a' <= c <= 'z' || 'A' <= c <= 'Z' || '0' <= c <= '9' || c == '_'
    || c == '@' || c == '%' || c == '+' || c == '=' || c == ':' || c == ',' || c == '.' || c == '/' || c == '-'
  }

  predicate PlainWord(s: string) {
    s != "" && forall c :: c in s ==> PlainChar(c)
  }

  const QUOTE := '\''
  const BACKSLASH := '\\'

  /** strings.ReplaceAll(s, "'", `'\''`). */
  function EscapeQuotes(s: string): string {
    if s == "" then ""
    else (if s[0] == QUOTE then [QUOTE, BACKSLASH, QUOTE, QUOTE] else [s[0]]) + EscapeQuotes(s[1..])
  }

  function Word(s: string): string {
    if PlainWord(s) then s else [QUOTE] + EscapeQuotes(s) + [QUOTE]
  }

  // ---- the lexer

  /** Between words; inside an unquoted stretch of one; inside single quotes; after a backslash. */
  datatype Mode = Between | Unquoted | SingleQuoted | Escaped

  predicate Blank(c: char) {
    c == ' ' || c == '\t' || c == '\n'
  }

  /** What section 2.2 says to quote for it to stand for itself, and what it says may need quoting.
      The other two it lists as sometimes special stand for themselves in an argument: = assigns only
      before a command's name, and % names a job only to the commands that take one. */
  const MUST_QUOTE := "|&;<>()$`\\\"' \t\n"
  const MAY_NEED_QUOTING := "*?[#~"

  predicate Special(c: char) {
    c in MUST_QUOTE || c in MAY_NEED_QUOTING
  }

  /** Reads input from one mode, with the words read so far and the one being read. None for input
      that ends inside a quote or after a backslash, or that holds, unquoted, any other character
      that is special to a shell; every character that is not stands for itself. */
  function Lex(input: string, mode: Mode, words: seq<string>, word: string): Option<seq<string>>
    decreases |input|
  {
    if input == "" then
      match mode
      case Between => Some(words)
      case Unquoted => Some(words + [word])
      case SingleQuoted | Escaped => None
    else
      var c, rest := input[0], input[1..];
      match mode
      case SingleQuoted =>
        if c == QUOTE then Lex(rest, Unquoted, words, word) else Lex(rest, SingleQuoted, words, word + [c])
      case Escaped =>
        if c == '\n' then Lex(rest, Unquoted, words, word) else Lex(rest, Unquoted, words, word + [c])
      case Between | Unquoted =>
        if Blank(c) then
          if mode == Between then Lex(rest, Between, words, "") else Lex(rest, Between, words + [word], "")
        else if c == QUOTE then Lex(rest, SingleQuoted, words, word)
        else if c == BACKSLASH then Lex(rest, Escaped, words, word)
        else if Special(c) then None
        else Lex(rest, Unquoted, words, word + [c])
  }

  /** The words a shell reads from a line. */
  function Words(line: string): Option<seq<string>> {
    Lex(line, Between, [], "")
  }

  // ---- a written word reads back

  /** The characters a word is left unquoted for are none of a shell's own. */
  lemma PlainIsNotSpecial(c: char)
    requires PlainChar(c)
    ensures !Special(c)
  {
  }

  lemma {:induction false} PlainStretch(s: string, rest: string, mode: Mode, words: seq<string>, word: string)
    requires (forall c :: c in s ==> PlainChar(c)) && s != "" && (mode == Between || mode == Unquoted)
    ensures Lex(s + rest, mode, words, word) == Lex(rest, Unquoted, words, word + s)
    decreases |s|
  {
    assert (s + rest)[0] == s[0] && (s + rest)[1..] == s[1..] + rest;
    PlainIsNotSpecial(s[0]);
    assert (word + [s[0]]) + s[1..] == word + s;
    if s[1..] == "" {
      assert s[1..] + rest == rest;
      assert word + [s[0]] == word + s;
    } else {
      PlainStretch(s[1..], rest, Unquoted, words, word + [s[0]]);
    }
  }

  /** Inside single quotes, the escaped form reads as the string itself: each quote in it closes the
      quotes, escapes one, and opens them again. */
  lemma {:induction false} QuotedStretch(s: string, rest: string, words: seq<string>, word: string)
    ensures Lex(EscapeQuotes(s) + rest, SingleQuoted, words, word) == Lex(rest, SingleQuoted, words, word + s)
    decreases |s|
  {
    if s == "" {
      assert EscapeQuotes(s) + rest == rest && word + s == word;
    } else {
      var tail := EscapeQuotes(s[1..]) + rest;
      assert (word + [s[0]]) + s[1..] == word + s;
      if s[0] == QUOTE {
        assert EscapeQuotes(s) + rest == [QUOTE, BACKSLASH, QUOTE, QUOTE] + tail;
        QuoteInQuotes(tail, words, word);
      } else {
        assert EscapeQuotes(s) + rest == [s[0]] + tail;
        assert ([s[0]] + tail)[1..] == tail;
      }
      QuotedStretch(s[1..], rest, words, word + [s[0]]);
    }
  }

  lemma {:induction false} QuoteInQuotes(tail: string, words: seq<string>, word: string)
    ensures Lex([QUOTE, BACKSLASH, QUOTE, QUOTE] + tail, SingleQuoted, words, word)
         == Lex(tail, SingleQuoted, words, word + [QUOTE])
  {
    var s0 := [QUOTE, BACKSLASH, QUOTE, QUOTE] + tail;
    var s1, s2, s3 := s0[1..], s0[2..], s0[3..];
    assert s0[0] == QUOTE && s1[0] == BACKSLASH && s2[0] == QUOTE && s3[0] == QUOTE;
    assert s1[1..] == s2 && s2[1..] == s3 && s3[1..] == tail;
    calc {
      Lex(s0, SingleQuoted, words, word);
      Lex(s1, Unquoted, words, word);
      Lex(s2, Escaped, words, word);
      Lex(s3, Unquoted, words, word + [QUOTE]);
      Lex(tail, SingleQuoted, words, word + [QUOTE]);
    }
  }

  /** Wherever a word may start, a written word reads as exactly the string it was written for. */
  lemma {:induction false} WrittenWordReadsBack(s: string, rest: string, words: seq<string>)
    ensures Lex(Word(s) + rest, Between, words, "") == Lex(rest, Unquoted, words, s)
  {
    if PlainWord(s) {
      PlainStretch(s, rest, Between, words, "");
      assert "" + s == s;
    } else {
      var body := EscapeQuotes(s) + ([QUOTE] + rest);
      assert Word(s) + rest == [QUOTE] + body;
      assert Lex([QUOTE] + body, Between, words, "") == Lex(body, SingleQuoted, words, "") by {
        assert ([QUOTE] + body)[1..] == body;
      }
      assert Lex(body, SingleQuoted, words, "") == Lex([QUOTE] + rest, SingleQuoted, words, s) by {
        QuotedStretch(s, [QUOTE] + rest, words, "");
        assert "" + s == s;
      }
      assert ([QUOTE] + rest)[1..] == rest;
    }
  }

  /** A regular expression's word character, in ASCII codes, or one of @%+=:,./- */
  predicate Unread(c: char) {
    || 0x30 <= c as int <= 0x39 || 0x41 <= c as int <= 0x5A || 0x61 <= c as int <= 0x7A
    || c in "_@%+=:,./-"
  }

  /** Only what holds a character outside those, or nothing at all, is quoted. */
  lemma {:induction false} WrittenAsItIs(s: string)
    ensures Word(s) == s <==> s != "" && forall c :: c in s ==> Unread(c)
  {
    forall c
      ensures PlainChar(c) <==> Unread(c)
    {
    }
    if !PlainWord(s) {
      EscapingShortensNothing(s);
      assert |Word(s)| > |s|;
    }
  }

  lemma {:induction false} EscapingShortensNothing(s: string)
    ensures |EscapeQuotes(s)| >= |s|
  {
    if s != "" {
      EscapingShortensNothing(s[1..]);
    }
  }

  /** Every string, the empty one and one full of quotes included, is read back as one word. */
  lemma OneWordBack(s: string)
    ensures Words(Word(s)) == Some([s])
  {
    WordThenEnd(s, []);
    assert [] + [s] == [s];
  }

  /** A command line of written words. */
  function Line(args: seq<string>): string {
    if args == [] then ""
    else if |args| == 1 then Word(args[0])
    else Word(args[0]) + " " + Line(args[1..])
  }

  lemma {:induction false} WordThenBlank(s: string, tail: string, words: seq<string>)
    ensures Lex(Word(s) + (" " + tail), Between, words, "") == Lex(tail, Between, words + [s], "")
  {
    WrittenWordReadsBack(s, " " + tail, words);
    assert (" " + tail)[0] == ' ' && (" " + tail)[1..] == tail;
  }

  lemma {:induction false} WordThenEnd(s: string, words: seq<string>)
    ensures Lex(Word(s), Between, words, "") == Some(words + [s])
  {
    WrittenWordReadsBack(s, "", words);
    assert Word(s) + "" == Word(s);
  }

  lemma {:induction false} LineFrom(args: seq<string>, words: seq<string>)
    ensures Lex(Line(args), Between, words, "") == Some(words + args)
    decreases |args|
  {
    if args == [] {
      assert words + args == words;
    } else if |args| == 1 {
      WordThenEnd(args[0], words);
      assert words + [args[0]] == words + args;
    } else {
      assert Line(args) == Word(args[0]) + (" " + Line(args[1..]));
      WordThenBlank(args[0], Line(args[1..]), words);
      LineFrom(args[1..], words + [args[0]]);
      assert (words + [args[0]]) + args[1..] == words + args;
    }
  }

  /** Any number of written words, one blank apart, are read back as exactly those words. */
  lemma {:induction false} EveryWordBack(args: seq<string>)
    ensures Words(Line(args)) == Some(args)
  {
    LineFrom(args, []);
    assert [] + args == args;
  }

  /** So no two strings are written alike. */
  lemma WordsDistinguish(a: string, b: string)
    requires Word(a) == Word(b)
    ensures a == b
  {
    OneWordBack(a);
    OneWordBack(b);
    assert [a][0] == [b][0];
  }
}
