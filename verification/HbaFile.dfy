/** From records to the lines of pg_hba.conf and back. */
module HbaFile {
  import opened Options
  import opened HbaSyntax
  import opened HbaRecord
  import opened HbaRoundTrip

  /** One entry per line. An entry may itself contain newlines. */
  function File(entries: seq<string>): string {
    if entries == [] then "" else entries[0] + (['\n'] + File(entries[1..]))
  }

  function UpToNewline(s: string): (r: string)
    ensures r <= s
    ensures |r| < |s| ==> s[|r|] == '\n'
  {
    if s == "" || s[0] == '\n' then "" else [s[0]] + UpToNewline(s[1..])
  }

  function StripReturns(s: string): string {
    if s != "" && s[|s| - 1] == '\r' then StripReturns(s[..|s| - 1]) else s
  }

  /** One line and what follows it. A backslash at the end of a line continues it on the next. */
  function ReadLine(s: string): (r: (string, string))
    requires s != ""
    ensures |r.1| < |s|
    decreases |s|
  {
    var raw := UpToNewline(s);
    var rest := if |raw| < |s| then s[|raw| + 1..] else "";
    var line := StripReturns(raw);
    if line != "" && line[|line| - 1] == '\\' && rest != "" then
      var next := ReadLine(rest);
      (line[..|line| - 1] + next.0, next.1)
    else
      (line, rest)
  }

  function Lines(s: string): seq<string>
    decreases |s|
  {
    if s == "" then [] else [ReadLine(s).0] + Lines(ReadLine(s).1)
  }

  function ParseLines(lines: seq<string>): seq<Line> {
    if lines == [] then [] else [ParseLine(lines[0])] + ParseLines(lines[1..])
  }

  function ParseFile(s: string): seq<Line> { ParseLines(Lines(s)) }

  /** An entry that is one line on its own. */
  predicate IsLine(s: string) { s != "" && '\n' !in s && s[|s| - 1] != '\r' && s[|s| - 1] != '\\' }

  lemma {:induction false} UpToFirstNewline(a: string, b: string)
    requires '\n' !in a
    ensures UpToNewline(a + (['\n'] + b)) == a
  {
    var s := a + (['\n'] + b);
    if a == "" {
      assert s == ['\n'] + b;
    } else {
      assert s[1..] == a[1..] + (['\n'] + b);
      UpToFirstNewline(a[1..], b);
    }
  }

  lemma LineThenFile(entry: string, more: string)
    requires IsLine(entry)
    ensures ParseFile(entry + (['\n'] + more)) == [ParseLine(entry)] + ParseFile(more)
  {
    hide ParseLine, UpToNewline;
    var s := entry + (['\n'] + more);
    UpToFirstNewline(entry, more);
    assert s[|entry| + 1..] == more;
    assert ReadLine(s) == (entry, more);
    assert Lines(s) == [entry] + Lines(more);
    assert ([entry] + Lines(more))[1..] == Lines(more);
  }

  /** The texts and newlines of nothing in the rule. */
  predicate OneLine(rule: Rule) {
    && (rule.databases.Only? ==> forall i :: 0 <= i < |rule.databases.names| ==> '\n' !in rule.databases.names[i])
    && (rule.users.Only? ==> forall i :: 0 <= i < |rule.users.names| ==> '\n' !in rule.users.names[i])
    && (!rule.origin.Local? && rule.address.Block? ==> '\n' !in rule.address.cidr)
    && forall i :: 0 <= i < |rule.options| ==> '\n' !in rule.options[i].0 && '\n' !in rule.options[i].1
  }

  lemma {:induction false} QuotesAddNoNewline(value: string)
    requires '\n' !in value
    ensures '\n' !in DoubleQuotes(value)
  {
    if value != "" { QuotesAddNoNewline(value[1..]); }
  }

  lemma {:induction false} BracketsAddNoNewline(name: string)
    requires '\n' !in name
    ensures '\n' !in Bracketed(name)
  {
    if name != "" { BracketsAddNoNewline(name[1..]); }
  }

  lemma NameHasNoNewline(name: string)
    requires '\n' !in name
    ensures '\n' !in QuoteName(name)
  {
    BracketsAddNoNewline(name);
    QuotesAddNoNewline(Named(name));
  }

  lemma {:induction false} NamesHaveNoNewline(names: seq<string>)
    requires names != [] && forall i :: 0 <= i < |names| ==> '\n' !in names[i]
    ensures '\n' !in QuoteNames(names)
    decreases |names|
  {
    hide QuoteName;
    NameHasNoNewline(names[|names| - 1]);
    if |names| > 1 { NamesHaveNoNewline(names[..|names| - 1]); }
  }

  lemma {:induction false} OptionsHaveNoNewline(options: seq<(string, string)>)
    requires forall i :: 0 <= i < |options| ==> '\n' !in options[i].0 && '\n' !in options[i].1
    ensures '\n' !in OptionsText(options)
    decreases |options|
  {
    if options != [] {
      QuotesAddNoNewline(options[|options| - 1].0);
      QuotesAddNoNewline(options[|options| - 1].1);
      OptionsHaveNoNewline(options[..|options| - 1]);
    }
  }

  lemma WhoHasNoNewline(who: Who)
    requires who.Only? ==> who.names != [] && forall i :: 0 <= i < |who.names| ==> '\n' !in who.names[i]
    ensures '\n' !in WhoText(who)
  {
    if who.Only? { NamesHaveNoNewline(who.names); }
  }

  /** A record whose names have no newline is one line of the file. */
  lemma TextIsLine(rule: Rule)
    requires Typed(rule) && OneLine(rule)
    ensures IsLine(Text(rule))
  {
    TextIsTrimmed(rule);
    NoNewlineInText(rule);
    LastOfText(rule);
  }

  lemma LastOfText(rule: Rule)
    requires Typed(rule)
    ensures var s := Trimmed(rule); s != "" && s[|s| - 1] != '\r' && s[|s| - 1] != '\\'
  {
    hide WhoText, WhereText, OptionsText, OriginText;
    var s, tail := Trimmed(rule), [' '] + rule.auth + Rest(rule);
    assert s[|s| - 1] == tail[|tail| - 1];
    if rule.options != [] { LastOfOptions(rule.options); }
  }

  lemma JoinedHasNoNewline(a: string, b: string)
    requires '\n' !in a && '\n' !in b
    ensures '\n' !in [' '] + a + b && '\n' !in [' '] + a
    ensures '\n' !in a + b
  {
  }

  lemma NoNewlineInText(rule: Rule)
    requires Typed(rule) && OneLine(rule)
    ensures '\n' !in Trimmed(rule)
  {
    hide WhoText, OptionsText, WhereText, OriginText, Rest;
    RestHasNoNewline(rule);
    var tail := [' '] + rule.auth + Rest(rule);
    JoinedHasNoNewline(rule.auth, Rest(rule));
    if !rule.origin.Local? {
      WhereHasNoNewline(rule.address);
      JoinedHasNoNewline(WhereText(rule.address), tail);
    }
    OriginHasNoNewline(rule.origin);
    var middle := if rule.origin.Local? then tail else [' '] + WhereText(rule.address) + tail;
    WhoHasNoNewline(rule.users);
    JoinedHasNoNewline(WhoText(rule.users), middle);
    WhoHasNoNewline(rule.databases);
    JoinedHasNoNewline(WhoText(rule.databases), [' '] + WhoText(rule.users) + middle);
    JoinedHasNoNewline(OriginText(rule.origin),
        [' '] + WhoText(rule.databases) + ([' '] + WhoText(rule.users) + middle));
  }

  lemma RestHasNoNewline(rule: Rule)
    requires OneLine(rule)
    ensures '\n' !in Rest(rule)
  {
    OptionsHaveNoNewline(rule.options);
  }

  lemma WhereHasNoNewline(address: Where)
    requires address.Block? ==> '\n' !in address.cidr
    ensures '\n' !in WhereText(address)
  {
    if address.Block? { QuotesAddNoNewline(address.cidr); }
  }

  lemma OriginHasNoNewline(origin: Origin)
    ensures '\n' !in OriginText(origin)
  {
  }

  function Texts(rules: seq<Rule>): seq<string>
    requires forall i :: 0 <= i < |rules| ==> WellNamed(rules[i])
  {
    if rules == [] then [] else [Text(rules[0])] + Texts(rules[1..])
  }

  function Records(rules: seq<Rule>): seq<Line> {
    if rules == [] then [] else [RecordOf(rules[0])] + Records(rules[1..])
  }

  /** Whatever entries follow, the file begins with the records of the rules. */
  lemma {:induction false} FileBeginsWithRecords(rules: seq<Rule>, more: seq<string>)
    requires forall i :: 0 <= i < |rules| ==> WellNamed(rules[i]) && Typed(rules[i]) && OneLine(rules[i])
    ensures ParseFile(File(Texts(rules) + more)) == Records(rules) + ParseFile(File(more))
  {
    hide ParseLine, Text, RecordOf, ParseFile;
    if rules == [] {
      assert Texts(rules) + more == more;
    } else {
      var rest := Texts(rules[1..]) + more;
      assert (Texts(rules) + more)[0] == Text(rules[0]) && (Texts(rules) + more)[1..] == rest;
      TextIsLine(rules[0]);
      RecordRoundTrip(rules[0]);
      LineThenFile(Text(rules[0]), File(rest));
      FileBeginsWithRecords(rules[1..], more);
    }
  }

  // ----- Names with a newline -----

  lemma {:induction false} UpToNewlineHasNone(s: string)
    ensures '\n' !in UpToNewline(s)
  {
    if s != "" && s[0] != '\n' { UpToNewlineHasNone(s[1..]); }
  }

  lemma {:induction false} StrippedHasNone(s: string)
    requires '\n' !in s
    ensures '\n' !in StripReturns(s)
    decreases |s|
  {
    if s != "" && s[|s| - 1] == '\r' { StrippedHasNone(s[..|s| - 1]); }
  }

  lemma {:induction false} LineHasNoNewline(s: string)
    requires s != ""
    ensures '\n' !in ReadLine(s).0
    decreases |s|
  {
    hide UpToNewline, StripReturns;
    var raw := UpToNewline(s);
    var rest := if |raw| < |s| then s[|raw| + 1..] else "";
    UpToNewlineHasNone(s);
    StrippedHasNone(raw);
    if rest != "" { LineHasNoNewline(rest); }
  }

  /** Reading makes no newlines: not in the token, and not in the rest of the line. */
  lemma {:induction false} TokenHasNoNewline(s: string, t: Scan)
    requires '\n' !in s && '\n' !in t.text
    ensures var r := ReadToken(s, t); '\n' !in r.rest && (r.token.Some? ==> '\n' !in r.token.value.text)
    decreases |s|
  {
    if s != "" { TokenHasNoNewline(s[1..], Advance(t, s[0])); }
  }

  lemma {:induction false} SkippingHasNoNewline(s: string)
    requires '\n' !in s
    ensures '\n' !in SkipBlanksAndCommas(s)
  {
    if s != "" { SkippingHasNoNewline(s[1..]); }
  }

  predicate NoneHasNewline(tokens: seq<Token>) { forall i :: 0 <= i < |tokens| ==> '\n' !in tokens[i].text }

  lemma {:induction false} FieldHasNoNewline(s: string)
    requires '\n' !in s
    ensures NoneHasNewline(ReadField(s).0) && '\n' !in ReadField(s).1
    decreases |s|
  {
    hide ReadToken, SkipBlanksAndCommas;
    SkippingHasNoNewline(s);
    TokenHasNoNewline(SkipBlanksAndCommas(s), NOTHING_READ);
    var lexeme := NextToken(s);
    if lexeme.token.Some? { FieldHasNoNewline(lexeme.rest); }
  }

  lemma {:induction false} FieldsHaveNoNewline(s: string)
    requires '\n' !in s
    ensures forall i :: 0 <= i < |Fields(s)| ==> NoneHasNewline(Fields(s)[i])
    decreases |s|
  {
    hide ReadField;
    FieldHasNoNewline(s);
    if ReadField(s).0 != [] { FieldsHaveNoNewline(ReadField(s).1); }
  }

  lemma {:induction false} FlattenedHasNoNewline(fields: seq<seq<Token>>)
    requires forall i :: 0 <= i < |fields| ==> NoneHasNewline(fields[i])
    ensures NoneHasNewline(Flatten(fields))
  {
    if fields != [] { FlattenedHasNoNewline(fields[1..]); }
  }

  predicate NoOptionHasNewline(options: seq<(string, string)>) {
    forall i :: 0 <= i < |options| ==> '\n' !in options[i].0 && '\n' !in options[i].1
  }

  lemma {:induction false} OptionHasNoNewline(text: string)
    requires '\n' !in text && SplitOption(text).Some?
    ensures '\n' !in SplitOption(text).value.0 && '\n' !in SplitOption(text).value.1
  {
    if text[0] != '=' { OptionHasNoNewline(text[1..]); }
  }

  lemma {:induction false} SplitHasNoNewline(tokens: seq<Token>)
    requires NoneHasNewline(tokens) && SplitOptions(tokens).Some?
    ensures NoOptionHasNewline(SplitOptions(tokens).value)
  {
    hide SplitOption;
    if tokens != [] {
      OptionHasNoNewline(tokens[0].text);
      SplitHasNoNewline(tokens[1..]);
    }
  }

  /** A record of a file has no newlines in it. */
  lemma ParsedHasNoNewline(line: string)
    requires '\n' !in line && ParseLine(line).Record?
    ensures var r := ParseLine(line);
            && NoneHasNewline(r.databases) && NoneHasNewline(r.users) && NoOptionHasNewline(r.options)
            && (r.address.Some? ==> '\n' !in r.address.value.text)
  {
    hide Fields, Flatten, SplitOptions;
    FieldsHaveNoNewline(line);
    var fields := Fields(line);
    var auth := if ParseLine(line).origin.Local? then 3 else 4;
    FlattenedHasNoNewline(fields[auth + 1..]);
    SplitHasNoNewline(Flatten(fields[auth + 1..]));
  }

  lemma {:induction false} BracketsKeepNewline(name: string)
    requires '\n' in name
    ensures '\n' in Bracketed(name)
  {
    if name[0] != '\n' { BracketsKeepNewline(name[1..]); }
  }

  lemma NamedKeepsNewline(name: string)
    requires '\n' !in Named(name)
    ensures '\n' !in name
  {
    hide Bracketed;
    if '\n' in name { BracketsKeepNewline(name); }
  }

  lemma RecordHasNoNewline(rule: Rule)
    requires NoneHasNewline(RecordOf(rule).databases) && NoneHasNewline(RecordOf(rule).users)
    requires NoOptionHasNewline(rule.options)
    requires !rule.origin.Local? ==> '\n' !in WhereToken(rule.address).text
    ensures OneLine(rule)
  {
    hide Named;
    if rule.databases.Only? { NamesKeepNewline(rule.databases.names); }
    if rule.users.Only? { NamesKeepNewline(rule.users.names); }
  }

  lemma {:induction false} NamesKeepNewline(names: seq<string>)
    requires NoneHasNewline(NameTokens(names))
    ensures forall i :: 0 <= i < |names| ==> '\n' !in names[i]
  {
    hide Named;
    if names != [] {
      assert NameTokens(names)[0] == Token(Named(names[0]), true) && NameTokens(names)[1..] == NameTokens(names[1..]);
      NamedKeepsNewline(names[0]);
      NamesKeepNewline(names[1..]);
      assert names == [names[0]] + names[1..];
    }
  }

  /**
   * Quotes do not span lines: a rule is the first record of a file that begins with its text
   * exactly if no name, address or option of it has a newline.
   */
  lemma ReadBackExactlyWhenOneLine(rule: Rule, more: seq<string>)
    requires WellNamed(rule) && Typed(rule)
    ensures var lines := ParseFile(File([Text(rule)] + more));
            lines != [] && lines[0] == RecordOf(rule) <==> OneLine(rule)
  {
    hide ParseLine, Text, RecordOf, ReadLine, OneLine, Typed;
    var file := File([Text(rule)] + more);
    if OneLine(rule) {
      assert Texts([rule]) == [Text(rule)] && Records([rule]) == [RecordOf(rule)];
      FileBeginsWithRecords([rule], more);
    } else {
      assert file != "";
      assert ParseFile(file)[0] == ParseLine(ReadLine(file).0);
      LineHasNoNewline(file);
      if ParseFile(file)[0] == RecordOf(rule) {
        assert RecordOf(rule).Record? by { RecordIsRecord(rule); }
        ParsedHasNoNewline(ReadLine(file).0);
        RecordIsRecord(rule);
        RecordHasNoNewline(rule);
      }
    }
  }

  lemma RecordIsRecord(rule: Rule)
    ensures RecordOf(rule).Record? && RecordOf(rule).options == rule.options
    ensures !rule.origin.Local? ==> RecordOf(rule).address == Some(WhereToken(rule.address))
  {
  }
}
