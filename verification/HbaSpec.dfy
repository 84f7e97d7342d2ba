/** Records for spec.authentication.rules (internal/patroni/config.go). */
module HbaSpec {
  import opened Options
  import opened HbaSyntax
  import opened HbaRecord
  import opened HbaRoundTrip

  /** The structured fields of a rule, with its options in the order of their names. */
  datatype SpecRule = SpecRule(connection: string, auth: string, databases: seq<string>, users: seq<string>,
                               options: seq<(string, string)>)

  function AuthOf(spec: SpecRule): string { if spec.auth == "password" then "scram-sha-256" else spec.auth }

  function WhoOf(names: seq<string>): Who { if names == [] then All else Only(names) }

  /** The same rule without its origin. */
  function Body(spec: SpecRule): Rule {
    Rule(Host, WhoOf(spec.databases), WhoOf(spec.users), AllNetworks, AuthOf(spec), spec.options)
  }

  function SpecText(spec: SpecRule): string {
    TrimSpace(Quote(spec.connection) + [' '] + WhoText(WhoOf(spec.databases)) + [' '] + WhoText(WhoOf(spec.users))
              + [' '] + "all" + [' '] + AuthOf(spec) + [' '] + OptionsText(spec.options))
  }

  method FromSpec(spec: SpecRule) returns (hba: HostBasedAuthentication, text: string)
    ensures text == SpecText(spec)
  {
    hide TrimSpace, WhoText, OptionsText;
    AllIsAll();
    hba := new HostBasedAuthentication();
    hba.QuotedOrigin(spec.connection);
    if spec.auth == "password" {
      hba.Method("scram-sha-256");
    } else {
      hba.Method(spec.auth);
    }
    if |spec.databases| > 0 {
      hba.Databases(spec.databases[0], spec.databases[1..]);
      assert [spec.databases[0]] + spec.databases[1..] == spec.databases;
    }
    if |spec.users| > 0 {
      hba.Users(spec.users[0], spec.users[1..]);
      assert [spec.users[0]] + spec.users[1..] == spec.users;
    }
    if |spec.options| > 0 {
      hba.Options(spec.options);
    }
    assert hba.origin[0] == '"';
    text := hba.String();
  }

  lemma AllIsAll()
    ensures WhoText(All) == "all" && OptionsText([]) == ""
  {
  }

  function SpecTrimmed(spec: SpecRule): string {
    Quote(spec.connection)
    + ([' '] + WhoText(WhoOf(spec.databases))
       + ([' '] + WhoText(WhoOf(spec.users)) + ([' '] + "all" + ([' '] + AuthOf(spec) + Rest(Body(spec))))))
  }

  lemma SpecTextIsTrimmed(spec: SpecRule)
    requires Typed(Body(spec))
    ensures SpecText(spec) == SpecTrimmed(spec)
  {
    hide WhoText, OptionsText, TrimSpace, Quote;
    NoOptions();
    if spec.options != [] { LastOfOptions(spec.options); }
    RegroupAddress(Quote(spec.connection), WhoText(WhoOf(spec.databases)), WhoText(WhoOf(spec.users)), "all",
                   AuthOf(spec), Rest(Body(spec)), OptionsText(spec.options));
    SpecEnds(spec);
    NothingToTrim(SpecTrimmed(spec));
  }

  lemma SpecEnds(spec: SpecRule)
    requires Typed(Body(spec))
    ensures var s := SpecTrimmed(spec); s != "" && !Space(s[0]) && !Space(s[|s| - 1])
  {
    hide WhoText, OptionsText;
    var s, tail := SpecTrimmed(spec), [' '] + AuthOf(spec) + Rest(Body(spec));
    assert s[0] == Quote(spec.connection)[0] == '"';
    assert s[|s| - 1] == tail[|tail| - 1];
    if spec.options == [] {
      assert tail[|tail| - 1] == AuthOf(spec)[|AuthOf(spec)| - 1];
    } else {
      LastOfOptions(spec.options);
    }
  }

  lemma SpecFields(spec: SpecRule)
    requires Typed(Body(spec))
    ensures Fields(SpecText(spec))
            == [[Token(spec.connection, true)], WhoTokens(WhoOf(spec.databases)), WhoTokens(WhoOf(spec.users)),
                [Token("all", false)], [Token(AuthOf(spec), false)]] + OptionFields(spec.options)
  {
    hide Fields, ReadField, WhoText, WhoTokens, Rest, OptionFields, IsField, SpecText, Quote, AuthOf;
    SpecTextIsTrimmed(spec);
    var tail := [' '] + AuthOf(spec) + Rest(Body(spec));
    TailFields(Body(spec));
    WordIsField("all");
    var middle := [' '] + "all" + tail;
    NextField("all", [Token("all", false)], tail);
    WhoIsField(WhoOf(spec.users));
    var users := [' '] + WhoText(WhoOf(spec.users)) + middle;
    NextField(WhoText(WhoOf(spec.users)), WhoTokens(WhoOf(spec.users)), middle);
    WhoIsField(WhoOf(spec.databases));
    NextField(WhoText(WhoOf(spec.databases)), WhoTokens(WhoOf(spec.databases)), users);
    QuotedIsField(spec.connection);
    FieldThenMore(Quote(spec.connection), [Token(spec.connection, true)],
                  [' '] + WhoText(WhoOf(spec.databases)) + users);
  }

  /**
   * A rule of the spec is read back as what it says exactly if its connection is one of the
   * network kinds. A "local" rule is documented too, but its quoted origin is rendered with an
   * address, so PostgreSQL takes the address for the method and refuses the line.
   */
  lemma SpecRuleIsRead(spec: SpecRule)
    requires Typed(Body(spec))
    ensures var origin := OriginOf(spec.connection);
            ParseLine(SpecText(spec))
            == if origin.None? || origin.value.Local? then Bad
               else Record(origin.value, WhoTokens(WhoOf(spec.databases)), WhoTokens(WhoOf(spec.users)),
                           Some(Token("all", false)), AuthOf(spec), spec.options)
  {
    hide Fields, OptionFields, WhoTokens, SplitOptions, Flatten, OriginOf, SpecText, AuthOf;
    SpecFields(spec);
    OptionsAreRead(spec.options);
    var fields := Fields(SpecText(spec));
    assert fields[5..] == OptionFields(spec.options);
    if OriginOf(spec.connection) == Some(Local) {
      assert fields[4..] == [[Token(AuthOf(spec), false)]] + fields[5..];
      MethodIsNoOption(AuthOf(spec), fields[5..]);
    }
  }

  lemma MethodIsNoOption(auth: string, fields: seq<seq<Token>>)
    requires IsMethod(auth)
    ensures SplitOptions(Flatten([[Token(auth, false)]] + fields)).None?
  {
    var all := [[Token(auth, false)]] + fields;
    assert all[1..] == fields;
    assert Flatten(all)[0] == Token(auth, false);
    NoEqual(auth);
  }

  lemma {:induction false} NoEqual(text: string)
    requires '=' !in text
    ensures SplitOption(text).None?
  {
    if text != "" { NoEqual(text[1..]); }
  }
}
