/** PostgreSQL reads back from a rendered record what the record says. */
module HbaRoundTrip {
  import opened Options
  import opened HbaSyntax
  import opened HbaRecord

  function NameTokens(names: seq<string>): seq<Token> {
    if names == [] then [] else [Token(Named(names[0]), true)] + NameTokens(names[1..])
  }

  function WhoTokens(who: Who): seq<Token> {
    match who
    case All => [Token("all", false)]
    case ReplicationKeyword => [Token("replication", false)]
    case Only(names) => NameTokens(names)
  }

  function WhereToken(address: Where): Token {
    match address
    case AllNetworks => Token("all", false)
    case SameNetwork => Token("samenet", false)
    case Block(cidr) => Token(cidr, true)
  }

  function RecordOf(rule: Rule): Line {
    Record(rule.origin, WhoTokens(rule.databases), WhoTokens(rule.users),
           if rule.origin.Local? then None else Some(WhereToken(rule.address)), rule.auth, rule.options)
  }

  /** Method names are bare identifiers. */
  predicate IsMethod(name: string) {
    name != "" && forall i :: 0 <= i < |name| ==> 'a' <= name[i] <= 'z' || '0' <= name[i] <= '9' || name[i] == '-'
  }

  /** What the builder methods can say. */
  predicate Typed(rule: Rule) {
    && WellNamed(rule) && IsMethod(rule.auth)
    && !rule.users.ReplicationKeyword?
    && !rule.origin.HostGSSEnc? && !rule.origin.HostNoGSSEnc?
    && forall i :: 0 <= i < |rule.options| ==> '=' !in rule.options[i].0
  }

  // ----- Fields -----

  predicate EndsField(tail: string) { tail == "" || Blank(tail[0]) }

  /** Text that is read as one field, whatever comes after the blank behind it. */
  ghost predicate IsField(text: string, tokens: seq<Token>) {
    && text != "" && !Blank(text[0]) && text[0] != ',' && tokens != []
    && forall tail: string :: EndsField(tail) ==> ReadField(text + tail) == (tokens, tail)
  }

  lemma WordIsField(word: string)
    requires IsWord(word)
    ensures IsField(word, [Token(word, false)])
  {
    hide NextToken, ReadField;
    forall tail: string | EndsField(tail) ensures ReadField(word + tail) == ([Token(word, false)], tail) {
      WordRoundTrip(word, tail);
      OneTokenField(word + tail);
    }
  }

  lemma OneTokenField(s: string)
    requires NextToken(s).token.Some? && !NextToken(s).comma
    ensures ReadField(s) == ([NextToken(s).token.value], NextToken(s).rest)
  {
  }

  lemma CommaField(s: string)
    requires NextToken(s).token.Some? && NextToken(s).comma
    ensures ReadField(s) == ([NextToken(s).token.value] + ReadField(NextToken(s).rest).0,
            ReadField(NextToken(s).rest).1)
  {
  }

  lemma SkipOne(c: char, s: string)
    requires Blank(c) || c == ','
    ensures ReadField([c] + s) == ReadField(s)
  {
    assert ([c] + s)[1..] == s;
    assert NextToken([c] + s) == NextToken(s);
  }

  lemma QuotedIsField(value: string)
    ensures IsField(Quote(value), [Token(value, true)])
  {
    hide NextToken, ReadField, DoubleQuotes;
    forall tail: string | EndsField(tail) ensures ReadField(Quote(value) + tail) == ([Token(value, true)], tail) {
      QuoteRoundTrip(value, tail);
      OneTokenField(Quote(value) + tail);
    }
  }

  lemma OptionIsField(option: (string, string))
    ensures IsField(OptionText(option), [Token(option.0 + ['='] + option.1, true)])
  {
    hide NextToken, ReadField, DoubleQuotes;
    var text := OptionText(option);
    assert text[0] == '"';
    forall tail: string | EndsField(tail)
      ensures ReadField(text + tail) == ([Token(option.0 + ['='] + option.1, true)], tail)
    {
      assert text + tail == Quote(option.0) + (['='] + (Quote(option.1) + tail));
      OptionRoundTrip(option.0, option.1, tail);
      OneTokenField(text + tail);
    }
  }

  lemma {:induction false} QuoteNamesFront(names: seq<string>)
    requires |names| > 1
    ensures QuoteNames(names) == QuoteName(names[0]) + ([','] + QuoteNames(names[1..]))
    decreases |names|
  {
    hide QuoteName;
    var rest := names[1..];
    if |names| == 2 {
      assert QuoteNames(rest) == QuoteName(names[1]);
      assert QuoteNames(names[..1]) == QuoteName(names[0]);
    } else {
      QuoteNamesFront(names[..|names| - 1]);
      assert names[..|names| - 1][1..] == rest[..|rest| - 1];
    }
  }

  lemma {:induction false} NamesAreField(names: seq<string>)
    requires names != []
    ensures IsField(QuoteNames(names), NameTokens(names))
    decreases |names|
  {
    hide NextToken, ReadField, Named, Quote;
    QuotedIsField(Named(names[0]));
    if |names| == 1 {
      assert names[1..] == [];
      assert NameTokens(names) == [Token(Named(names[0]), true)];
    } else {
      QuoteNamesFront(names);
      NamesAreField(names[1..]);
      var first, more := QuoteName(names[0]), QuoteNames(names[1..]);
      forall tail: string | EndsField(tail) ensures ReadField(QuoteNames(names) + tail) == (NameTokens(names), tail) {
        var rest := [','] + (more + tail);
        assert QuoteNames(names) + tail == first + rest;
        QuoteRoundTrip(Named(names[0]), rest);
        CommaField(first + rest);
        SkipOne(',', more + tail);
      }
    }
  }

  lemma WhoIsField(who: Who)
    requires who.Only? ==> who.names != []
    ensures IsField(WhoText(who), WhoTokens(who))
  {
    hide ReadField;
    match who
    case All => WordIsField("all");
    case ReplicationKeyword => WordIsField("replication");
    case Only(names) => NamesAreField(names);
  }

  lemma WhereIsField(address: Where)
    ensures IsField(WhereText(address), [WhereToken(address)])
  {
    hide ReadField;
    match address
    case AllNetworks => WordIsField("all");
    case SameNetwork => WordIsField("samenet");
    case Block(cidr) => QuotedIsField(cidr);
  }

  lemma OriginIsField(origin: Origin)
    ensures IsField(OriginText(origin), [Token(OriginText(origin), false)])
    ensures OriginOf(OriginText(origin)) == Some(origin)
  {
    hide ReadField;
    WordIsField(OriginText(origin));
  }

  // ----- Lines -----

  lemma FieldThenMore(text: string, tokens: seq<Token>, more: string)
    requires IsField(text, tokens) && EndsField(more)
    ensures Fields(text + more) == [tokens] + Fields(more)
  {
    hide ReadField;
  }

  lemma SkipBlankBefore(s: string)
    ensures Fields([' '] + s) == Fields(s)
  {
    SkipOne(' ', s);
  }

  lemma NextField(text: string, tokens: seq<Token>, more: string)
    requires IsField(text, tokens) && EndsField(more)
    ensures Fields([' '] + text + more) == [tokens] + Fields(more)
  {
    hide Fields, ReadField;
    FieldThenMore(text, tokens, more);
    assert [' '] + text + more == [' '] + (text + more);
    SkipBlankBefore(text + more);
  }

  function OptionFields(options: seq<(string, string)>): seq<seq<Token>> {
    if options == [] then []
    else [[Token(options[0].0 + ['='] + options[0].1, true)]] + OptionFields(options[1..])
  }

  lemma OptionsLast(options: seq<(string, string)>)
    requires options != []
    ensures OptionsText(options) == OptionsText(options[..|options| - 1]) + ([' '] + OptionText(options[|options| - 1]))
  {
    hide OptionText;
  }

  lemma OneOption(option: (string, string))
    ensures OptionsText([option]) == [' '] + OptionText(option)
    ensures OptionsText([]) == ""
  {
    hide OptionText;
    assert [option][..0] == [];
  }

  lemma {:induction false} OptionsFront(options: seq<(string, string)>)
    requires options != []
    ensures OptionsText(options) == [' '] + OptionText(options[0]) + OptionsText(options[1..])
    decreases |options|
  {
    hide OptionText, OptionsText;
    OneOption(options[0]);
    if |options| == 1 {
      assert options == [options[0]] && options[1..] == [];
    } else {
      var init, last := options[..|options| - 1], options[|options| - 1];
      OptionsLast(options);
      OptionsFront(init);
      OptionsLast(options[1..]);
      assert init[1..] == options[1..][..|options| - 2];
      Reassociate([' '] + OptionText(options[0]), OptionsText(init[1..]), [' '] + OptionText(last));
    }
  }

  lemma Reassociate(a: string, b: string, c: string)
    ensures (a + b) + c == a + (b + c)
  {
  }

  lemma {:induction false} OptionsAreFields(options: seq<(string, string)>)
    ensures Fields(OptionsText(options)) == OptionFields(options)
    decreases |options|
  {
    hide ReadField, OptionText, Fields;
    if options == [] {
      NoFields();
    } else {
      OptionsFront(options);
      OptionsAreFields(options[1..]);
      OptionIsField(options[0]);
      if options[1..] != [] { OptionsFront(options[1..]); }
      NextField(OptionText(options[0]), [Token(options[0].0 + ['='] + options[0].1, true)], OptionsText(options[1..]));
    }
  }

  lemma NoFields()
    ensures Fields("") == []
  {
  }

  lemma {:induction false} OptionsAreRead(options: seq<(string, string)>)
    requires forall i :: 0 <= i < |options| ==> '=' !in options[i].0
    ensures SplitOptions(Flatten(OptionFields(options))) == Some(options)
  {
    if options != [] {
      OptionsAreRead(options[1..]);
      SplitAtEqual(options[0].0, options[0].1);
      var fields := OptionFields(options);
      assert fields[1..] == OptionFields(options[1..]);
      assert Flatten(fields) == fields[0] + Flatten(fields[1..]);
      assert Flatten(fields)[1..] == Flatten(fields[1..]);
      assert [options[0]] + options[1..] == options;
    }
  }

  /** The text of the options, with the blank in front of it that is trimmed when there are none. */
  function Rest(rule: Rule): string {
    if rule.options == [] then "" else [' '] + OptionsText(rule.options)
  }

  function Trimmed(rule: Rule): string
    requires WellNamed(rule)
  {
    var tail := [' '] + rule.auth + Rest(rule);
    var middle := if rule.origin.Local? then tail else [' '] + WhereText(rule.address) + tail;
    OriginText(rule.origin) + ([' '] + WhoText(rule.databases) + ([' '] + WhoText(rule.users) + middle))
  }

  lemma NothingToTrim(s: string)
    requires s != "" && !Space(s[0]) && !Space(s[|s| - 1])
    ensures TrimSpace(s) == s && TrimSpace(s + [' ']) == s
  {
    assert (s + [' '])[..|s|] == s;
    assert TrimRight(s) == s;
    assert TrimRight(s + [' ']) == TrimRight(s);
  }

  lemma TextIsTrimmed(rule: Rule)
    requires Typed(rule)
    ensures Text(rule) == Trimmed(rule)
  {
    hide WhoText, WhereText, TrimSpace, OptionsText, OriginText;
    var s := Trimmed(rule);
    FirstAndLast(rule);
    NothingToTrim(s);
    NoOptions();
    if rule.options != [] { LastOfOptions(rule.options); }
    var origin, databases, users := OriginText(rule.origin), WhoText(rule.databases), WhoText(rule.users);
    var options := OptionsText(rule.options);
    if rule.origin.Local? {
      Regroup(origin, databases, users, rule.auth, Rest(rule), options);
    } else {
      RegroupAddress(origin, databases, users, WhereText(rule.address), rule.auth, Rest(rule), options);
    }
  }

  lemma Regroup(origin: string, databases: string, users: string, auth: string, rest: string, options: string)
    requires if options == "" then rest == "" else rest == [' '] + options
    ensures var long := origin + [' '] + databases + [' '] + users + [' '] + auth + [' '] + options;
            var grouped := origin + ([' '] + databases + ([' '] + users + ([' '] + auth + rest)));
            if options == "" then long == grouped + [' '] else long == grouped
  {
  }

  lemma RegroupAddress(origin: string, databases: string, users: string, address: string, auth: string, rest: string,
                       options: string)
    requires if options == "" then rest == "" else rest == [' '] + options
    ensures var long := origin + [' '] + databases + [' '] + users + [' '] + address + [' '] + auth + [' '] + options;
            var grouped := origin + ([' '] + databases + ([' '] + users + ([' '] + address + ([' '] + auth + rest))));
            if options == "" then long == grouped + [' '] else long == grouped
  {
  }

  lemma NoOptions()
    ensures OptionsText([]) == ""
    ensures OriginText(Local) == "local"
  {
  }

  lemma FirstAndLast(rule: Rule)
    requires Typed(rule)
    ensures var s := Trimmed(rule); s != "" && !Space(s[0]) && !Space(s[|s| - 1])
  {
    hide WhoText, WhereText, OptionsText;
    var s := Trimmed(rule);
    assert s[0] == OriginText(rule.origin)[0];
    var tail := [' '] + rule.auth + Rest(rule);
    assert s[|s| - 1] == tail[|tail| - 1];
    if rule.options == [] {
      assert tail[|tail| - 1] == rule.auth[|rule.auth| - 1];
    } else {
      LastOfOptions(rule.options);
      assert tail[|tail| - 1] == OptionsText(rule.options)[|OptionsText(rule.options)| - 1] == '"';
    }
  }

  lemma LastOfOptions(options: seq<(string, string)>)
    requires options != []
    ensures OptionsText(options) != "" && OptionsText(options)[|OptionsText(options)| - 1] == '"'
  {
    hide DoubleQuotes;
    var last := Quote(options[|options| - 1].1);
    assert last[|last| - 1] == '"';
    assert OptionText(options[|options| - 1]) == Quote(options[|options| - 1].0) + ['='] + last;
    assert OptionsText(options)[|OptionsText(options)| - 1] == last[|last| - 1];
  }

  lemma TailFields(rule: Rule)
    requires Typed(rule)
    ensures Fields([' '] + rule.auth + Rest(rule)) == [[Token(rule.auth, false)]] + OptionFields(rule.options)
  {
    hide Fields, ReadField, OptionsText;
    WordIsField(rule.auth);
    NextField(rule.auth, [Token(rule.auth, false)], Rest(rule));
    if rule.options == [] {
      NoFields();
    } else {
      SkipBlankBefore(OptionsText(rule.options));
      OptionsAreFields(rule.options);
    }
  }

  lemma TrimmedFields(rule: Rule)
    requires Typed(rule)
    ensures Fields(Trimmed(rule))
            == [[Token(OriginText(rule.origin), false)], WhoTokens(rule.databases), WhoTokens(rule.users)]
               + (if rule.origin.Local? then [] else [[WhereToken(rule.address)]])
               + [[Token(rule.auth, false)]] + OptionFields(rule.options)
  {
    hide Fields, ReadField, WhoText, WhereText, OriginText, WhoTokens, WhereToken, Rest, OptionFields, IsField;
    var tail := [' '] + rule.auth + Rest(rule);
    TailFields(rule);
    WhereIsField(rule.address);
    var middle := if rule.origin.Local? then tail else [' '] + WhereText(rule.address) + tail;
    NextField(WhereText(rule.address), [WhereToken(rule.address)], tail);
    WhoIsField(rule.users);
    var users := [' '] + WhoText(rule.users) + middle;
    NextField(WhoText(rule.users), WhoTokens(rule.users), middle);
    WhoIsField(rule.databases);
    NextField(WhoText(rule.databases), WhoTokens(rule.databases), users);
    OriginIsField(rule.origin);
    FieldThenMore(OriginText(rule.origin), [Token(OriginText(rule.origin), false)],
        [' '] + WhoText(rule.databases) + users);
  }

  /** A record built by calls of the builder methods. */
  method Build(rule: Rule) returns (hba: HostBasedAuthentication)
    requires Typed(rule)
    ensures fresh(hba) && hba.Says(rule)
  {
    hide QuoteNames, OptionsText, Quote;
    hba := new HostBasedAuthentication();
    hba.From(rule.origin);
    match rule.databases {
      case All => hba.AllDatabases();
      case ReplicationKeyword => hba.Replication();
      case Only(names) =>
        assert [names[0]] + names[1..] == names;
        hba.Databases(names[0], names[1..]);
    }
    if rule.users.Only? {
      assert [rule.users.names[0]] + rule.users.names[1..] == rule.users.names;
      hba.Users(rule.users.names[0], rule.users.names[1..]);
    }
    match rule.address {
      case AllNetworks =>
      case SameNetwork => hba.SameNet();
      case Block(cidr) => hba.Network(cidr);
    }
    hba.Method(rule.auth);
    hba.Options(rule.options);
  }

  /** Building, rendering and parsing a record gives what it was built from. */
  method BuildAndRender(rule: Rule, tlsOnly: bool) returns (text: string)
    requires Typed(rule)
    ensures text == Text(if tlsOnly then Strict(rule) else rule)
    ensures ParseLine(text) == RecordOf(if tlsOnly then Strict(rule) else rule)
  {
    hide Text, ParseLine, RecordOf;
    var hba := Build(rule);
    if tlsOnly {
      hba.TLSOnly();
    }
    text := hba.String();
    RecordRoundTrip(if tlsOnly then Strict(rule) else rule);
  }

  /**
   * Whatever names a record made by the typed methods has, reading its text gives its origin,
   * names, address, method and options back. Every given name is a quoted token, so none is
   * taken for a keyword or a group.
   */
  lemma RecordRoundTrip(rule: Rule)
    requires Typed(rule)
    ensures ParseLine(Text(rule)) == RecordOf(rule)
  {
    hide Fields, OptionFields, WhoTokens, WhereToken, SplitOptions, Flatten, OriginOf, OriginText, Text, Trimmed;
    TextIsTrimmed(rule);
    TrimmedFields(rule);
    OriginIsField(rule.origin);
    OptionsAreRead(rule.options);
    var fields := Fields(Trimmed(rule));
    var auth := if rule.origin.Local? then 3 else 4;
    assert fields[auth + 1..] == OptionFields(rule.options);
  }
}
