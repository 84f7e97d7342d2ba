/**
 * Quoting a command for a shell (internal/patroni/config.go) and how a shell splits it into
 * words, as sections 2.2 and 2.3 of the POSIX Shell Command Language say.
 */
module ShellWords {
  import opened Options

  // ----- The shell -----

  // Between words, in one outside quotes, or inside single or double quotes.
  datatype Mode = Between | Unquoted | InSingle | InDouble

  predicate Blank(c: char) { c == ' ' || c == '\t' }

  /** Characters that mean something else to a shell: operators, expansions, patterns, comments and newlines. */
  predicate Special(c: char) { c in "|&;<>()$`\n*?[#~=%!{}" }

  /** The words of a simple command; None when it is anything else, or a quote stays open. */
  function Scan(s: string, mode: Mode, word: string): Option<seq<string>>
    decreases |s|
  {
    if s == "" then
      match mode
      case Between => Some([])
      case Unquoted => Some([word])
      case _ => None
    else
      var c, rest := s[0], s[1..];
      match mode
      case InSingle => if c == '\'' then Scan(rest, Unquoted, word) else Scan(rest, InSingle, word + [c])
      case InDouble =>
        if c == '"' then Scan(rest, Unquoted, word)
        else if c == '$' || c == '`' || c == '\\' then None
        else Scan(rest, InDouble, word + [c])
      case _ =>
        if c == '\'' then Scan(rest, InSingle, word)
        else if c == '"' then Scan(rest, InDouble, word)
        else if c == '\\' then (if rest == "" then None else Scan(rest[1..], Unquoted, word + [rest[0]]))
        else if Blank(c) then
          if mode.Between? then Scan(rest, Between, "")
          else Then(word, Scan(rest, Between, ""))
        else if Special(c) then None
        else Scan(rest, Unquoted, word + [c])
  }

  function Then(word: string, rest: Option<seq<string>>): Option<seq<string>> {
    if rest.None? then None else Some([word] + rest.value)
  }

  function Words(s: string): Option<seq<string>> { Scan(s, Between, "") }

  // ----- Quoting -----

  /** Every single quote becomes: close, a double-quoted single quote, open. */
  function Requoted(s: string): string {
    if s == "" then "" else (if s[0] == '\'' then ['\'', '"', '\'', '"', '\''] else [s[0]]) + Requoted(s[1..])
  }

  function QuoteShellWord(s: string): string { ['\''] + Requoted(s) + ['\''] }

  function CommandLine(command: seq<string>): string {
    if command == [] then ""
    else if |command| == 1 then QuoteShellWord(command[0])
    else QuoteShellWord(command[0]) + ([' '] + CommandLine(command[1..]))
  }

  lemma Step(c: char, rest: string, mode: Mode, word: string)
    ensures mode.InSingle? ==>
              Scan([c] + rest, mode, word) == if c == '\'' then Scan(rest, Unquoted, word)
                  else Scan(rest, InSingle, word + [c])
    ensures mode.InDouble? && c == '\'' ==> Scan([c] + rest, mode, word) == Scan(rest, InDouble, word + [c])
    ensures mode.InDouble? && c == '"' ==> Scan([c] + rest, mode, word) == Scan(rest, Unquoted, word)
    ensures (mode.Between? || mode.Unquoted?) && c == '\'' ==>
            Scan([c] + rest, mode, word) == Scan(rest, InSingle, word)
    ensures mode.Unquoted? && c == '"' ==> Scan([c] + rest, mode, word) == Scan(rest, InDouble, word)
    ensures mode.Unquoted? && c == ' ' ==> Scan([c] + rest, mode, word) == Then(word, Scan(rest, Between, ""))
  {
    assert ([c] + rest)[1..] == rest;
  }

  lemma {:induction false} ScanRequoted(s: string, tail: string, word: string)
    ensures Scan(Requoted(s) + (['\''] + tail), InSingle, word) == Scan(tail, Unquoted, word + s)
    decreases |s|
  {
    hide Scan;
    if s == "" {
      assert Requoted(s) + (['\''] + tail) == ['\''] + tail && word + s == word;
      Step('\'', tail, InSingle, word);
    } else {
      var rest := Requoted(s[1..]) + (['\''] + tail);
      var next := word + [s[0]];
      assert next + s[1..] == word + s;
      ScanRequoted(s[1..], tail, next);
      if s[0] == '\'' {
        assert Requoted(s) + (['\''] + tail) == ['\''] + (['"'] + (['\''] + (['"'] + (['\''] + rest))));
        Step('\'', ['"'] + (['\''] + (['"'] + (['\''] + rest))), InSingle, word);
        Step('"', ['\''] + (['"'] + (['\''] + rest)), Unquoted, word);
        Step('\'', ['"'] + (['\''] + rest), InDouble, word);
        Step('"', ['\''] + rest, InDouble, next);
        Step('\'', rest, Unquoted, next);
      } else {
        assert Requoted(s) + (['\''] + tail) == [s[0]] + rest;
        Step(s[0], rest, InSingle, word);
      }
    }
  }

  lemma ScanQuoted(s: string, tail: string)
    ensures Scan(QuoteShellWord(s) + tail, Between, "") == Scan(tail, Unquoted, s)
  {
    hide Scan, Requoted;
    assert QuoteShellWord(s) + tail == ['\''] + (Requoted(s) + (['\''] + tail));
    Step('\'', Requoted(s) + (['\''] + tail), Between, "");
    ScanRequoted(s, tail, "");
    assert "" + s == s;
  }

  lemma AtTheEnd(word: string)
    ensures Scan("", Unquoted, word) == Some([word]) && Scan("", Between, word) == Some([])
  {
  }

  /** Whatever the words, empty ones and those with quotes or newlines among them, a shell sees exactly them. */
  lemma {:induction false} ShellSeesTheWords(command: seq<string>)
    ensures Words(CommandLine(command)) == Some(command)
  {
    hide Scan, QuoteShellWord;
    if command == [] {
      AtTheEnd("");
    } else if |command| == 1 {
      ScanQuoted(command[0], "");
      assert QuoteShellWord(command[0]) + "" == QuoteShellWord(command[0]);
      AtTheEnd(command[0]);
      assert [command[0]] == command;
    } else {
      var rest := CommandLine(command[1..]);
      ScanQuoted(command[0], [' '] + rest);
      Step(' ', rest, Unquoted, command[0]);
      ShellSeesTheWords(command[1..]);
      assert [command[0]] + command[1..] == command;
    }
  }

  /** Quotes each word of a command and joins them with spaces. */
  method JoinCommand(command: seq<string>) returns (line: string)
    ensures Words(line) == Some(command)
  {
    hide QuoteShellWord, Words;
    line := "";
    assert command[0..] == command;
    ghost var all := CommandLine(command);
    for i := 0 to |command|
      invariant i == 0 ==> line == ""
      invariant 0 < i < |command| ==> line + ([' '] + CommandLine(command[i..])) == all
      invariant 0 < i == |command| ==> line == all
    {
      assert command[i..][0] == command[i] && command[i..][1..] == command[i + 1..];
      var quoted := QuoteShellWord(command[i]);
      ghost var before := line;
      line := if i == 0 then quoted else line + [' '] + quoted;
      if i > 0 && i + 1 < |command| {
        assert before + ([' '] + (quoted + ([' '] + CommandLine(command[i + 1..]))))
            == line + ([' '] + CommandLine(command[i + 1..]));
      }
    }
    ShellSeesTheWords(command);
  }
}
