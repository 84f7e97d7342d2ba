/**
 * Which rule decides a connection: the mandatory rules of each service, and first-match
 * evaluation (internal/postgres/hba.go, internal/pmm/hba.go, internal/pgmonitor/postgres.go,
 * internal/pgbouncer/postgres.go, internal/logicalreplica/postgres.go).
 */
module HbaRules {
  import opened Options
  import opened HbaSyntax
  import opened HbaRecord
  import opened HbaRegex
  import opened HbaRoundTrip
  import opened HbaFile

  // ----- How PostgreSQL matches -----

  /**
   * A connection attempt. A physical replication connection names no database. `from` holds the
   * address tokens that contain the client's address.
   */
  datatype Connection = Connection(network: bool, tls: bool, database: Option<string>, user: string,
                                   roles: set<string>, from: set<Token>)

  predicate MatchesOrigin(origin: Origin, c: Connection) {
    match origin
    case Local => !c.network
    case Host => c.network
    case HostSSL => c.network && c.tls
    case HostNoSSL => c.network && !c.tls
    case HostGSSEnc => false
    case HostNoGSSEnc => c.network
  }

  predicate IsKeyword(t: Token, word: string) { !t.quoted && t.text == word }

  /** "all" does not match a physical replication connection; only "replication" does. */
  predicate MatchesDatabase(t: Token, c: Connection) {
    if c.database.None? then IsKeyword(t, "replication")
    else
      var database := c.database.value;
      if IsKeyword(t, "all") then true
      else if IsKeyword(t, "sameuser") then database == c.user
      else if IsKeyword(t, "samegroup") || IsKeyword(t, "samerole") then database in c.roles
      else if IsKeyword(t, "replication") then false
      else if t.text != "" && t.text[0] == '/' then TokenMatches(t.text, database)
      else t.text == database
  }

  predicate MatchesUser(t: Token, c: Connection) {
    if !t.quoted && t.text != "" && t.text[0] == '+' then t.text[1..] in c.roles
    else if IsKeyword(t, "all") then true
    else if t.text != "" && t.text[0] == '/' then TokenMatches(t.text, c.user)
    else t.text == c.user
  }

  predicate MatchesAddress(address: Option<Token>, c: Connection) {
    address.None? || IsKeyword(address.value, "all") || address.value in c.from
  }

  predicate MatchesLine(line: Line, c: Connection) {
    && line.Record?
    && MatchesOrigin(line.origin, c)
    && MatchesAddress(line.address, c)
    && (exists i :: 0 <= i < |line.databases| && MatchesDatabase(line.databases[i], c))
    && (exists i :: 0 <= i < |line.users| && MatchesUser(line.users[i], c))
  }

  /** The method of the first record that matches; None when no record does. */
  function FirstMatch(lines: seq<Line>, c: Connection): Option<string> {
    if lines == [] then None
    else if MatchesLine(lines[0], c) then Some(lines[0].auth)
    else FirstMatch(lines[1..], c)
  }

  lemma {:induction false} FirstMatchOfConcat(a: seq<Line>, b: seq<Line>, c: Connection)
    ensures FirstMatch(a + b, c) == if FirstMatch(a, c).Some? then FirstMatch(a, c) else FirstMatch(b, c)
  {
    if a == [] {
      assert a + b == b;
    } else {
      assert (a + b)[1..] == a[1..] + b;
      FirstMatchOfConcat(a[1..], b, c);
    }
  }

  // ----- The mandatory rules -----

  datatype Service = Superuser | Replicator | Monitor | Exporter | Bouncer | LogicalReplicator

  function UserOf(s: Service): (r: string)
    ensures r != "" && r[0] != '/' && '\n' !in r
  {
    match s
    case Superuser => "postgres"
    case Replicator => "_crunchyrepl"
    case Monitor => "monitor"
    case Exporter => "ccp_monitoring"
    case Bouncer => "_crunchypgbouncer"
    case LogicalReplicator => "logicalrepl"
  }

  // A rule for one service user.
  datatype ServiceRule = ServiceRule(service: Service, origin: Origin, databases: Who, address: Where, auth: string)

  function AsRule(r: ServiceRule): Rule {
    Rule(r.origin, r.databases, Only([UserOf(r.service)]), r.address, r.auth, [])
  }

  const SCRAM := "scram-sha-256"
  const REJECT := "reject"

  const LOOPBACK4 := "127.0.0.0/8"
  const LOOPBACK6 := "::1/128"

  function LoopbackOnly(s: Service): seq<ServiceRule> {
    [ServiceRule(s, Host, All, Block(LOOPBACK4), SCRAM),
     ServiceRule(s, Host, All, Block(LOOPBACK6), SCRAM),
     ServiceRule(s, Host, All, AllNetworks, REJECT)]
  }

  /** The rules of one service. */
  function GroupOf(s: Service): seq<ServiceRule> {
    match s
    case Superuser => [ServiceRule(s, Local, All, AllNetworks, "peer")]
    case Replicator =>
      [ServiceRule(s, HostSSL, ReplicationKeyword, AllNetworks, "cert"),
       ServiceRule(s, HostSSL, Only(["postgres"]), AllNetworks, "cert"),
       ServiceRule(s, Host, All, AllNetworks, REJECT)]
    case Monitor => LoopbackOnly(s)
    case Exporter => LoopbackOnly(s)
    case Bouncer =>
      [ServiceRule(s, HostSSL, All, AllNetworks, SCRAM),
       ServiceRule(s, Host, All, AllNetworks, REJECT)]
    case LogicalReplicator =>
      [ServiceRule(s, HostSSL, ReplicationKeyword, AllNetworks, SCRAM),
       ServiceRule(s, HostSSL, All, AllNetworks, SCRAM),
       ServiceRule(s, Host, All, AllNetworks, REJECT)]
  }

  datatype Config = Config(exporter: bool, bouncer: bool, logicalReplica: bool, tlsOnly: bool)

  predicate Enabled(cfg: Config, s: Service) {
    match s
    case Exporter => cfg.exporter
    case Bouncer => cfg.bouncer
    case LogicalReplicator => cfg.logicalReplica
    case _ => true
  }

  function Groups(cfg: Config, services: seq<Service>): seq<ServiceRule> {
    if services == [] then []
    else (if Enabled(cfg, services[0]) then GroupOf(services[0]) else []) + Groups(cfg, services[1..])
  }

  /** In the order the controller appends the groups. */
  const APPENDED := [Superuser, Replicator, Monitor, Exporter, Bouncer, LogicalReplicator]

  function Final(cfg: Config, rules: seq<ServiceRule>): (r: seq<Rule>)
    ensures |r| == |rules|
    ensures forall i :: 0 <= i < |r| ==> r[i] == if cfg.tlsOnly then Strict(AsRule(rules[i])) else AsRule(rules[i])
  {
    if rules == [] then []
    else [if cfg.tlsOnly then Strict(AsRule(rules[0])) else AsRule(rules[0])] + Final(cfg, rules[1..])
  }

  /** The mandatory rules, with the groups of the enabled services in this order. */
  function Mandatory(cfg: Config, order: seq<Service>): seq<Rule> { Final(cfg, Groups(cfg, order)) }

  // ----- Only a user's own rules matter -----

  function Own(rules: seq<ServiceRule>, s: Service): seq<ServiceRule> {
    if rules == [] then []
    else (if rules[0].service == s then [rules[0]] else []) + Own(rules[1..], s)
  }

  lemma UsersDiffer(s: Service, t: Service)
    ensures UserOf(s) == UserOf(t) ==> s == t
  {
    assert "postgres"[0] == 'p' && "monitor"[0] == 'm' && "ccp_monitoring"[0] == 'c' && "logicalrepl"[0] == 'l';
    assert "_crunchyrepl"[0] == '_' && "_crunchypgbouncer"[0] == '_';
    assert "_crunchyrepl"[8] == 'r' && "_crunchypgbouncer"[8] == 'p';
  }

  /** A record that names one user matches only connections of that user. */
  lemma OthersDoNotMatch(rule: Rule, r: ServiceRule, c: Connection)
    requires rule == AsRule(r) || rule == Strict(AsRule(r))
    ensures MatchesLine(RecordOf(rule), c) ==> c.user == UserOf(r.service)
  {
    hide WhoTokens, MatchesAddress, MatchesOrigin, MatchesDatabase;
    UserTokens(r.service);
  }

  lemma UserTokens(s: Service)
    ensures WhoTokens(Only([UserOf(s)])) == [Token(UserOf(s), true)]
  {
    hide UserOf;
    assert NameTokens([UserOf(s)]) == [Token(Named(UserOf(s)), true)] + NameTokens([]);
  }

  lemma {:induction false} OnlyOwnRulesMatter(cfg: Config, rules: seq<ServiceRule>, s: Service, c: Connection)
    requires c.user == UserOf(s)
    ensures FirstMatch(Records(Final(cfg, rules)), c) == FirstMatch(Records(Final(cfg, Own(rules, s))), c)
  {
    hide MatchesLine, RecordOf, UserOf;
    if rules != [] {
      OnlyOwnRulesMatter(cfg, rules[1..], s, c);
      var first := Final(cfg, rules)[0];
      assert Records(Final(cfg, rules)) == [RecordOf(first)] + Records(Final(cfg, rules[1..]));
      assert ([RecordOf(first)] + Records(Final(cfg, rules[1..])))[1..] == Records(Final(cfg, rules[1..]));
      if rules[0].service == s {
        var own := Own(rules, s);
        assert own[0] == rules[0] && own[1..] == Own(rules[1..], s);
        assert Records(Final(cfg, own)) == [RecordOf(first)] + Records(Final(cfg, own[1..]));
        assert ([RecordOf(first)] + Records(Final(cfg, own[1..])))[1..] == Records(Final(cfg, own[1..]));
      } else {
        OthersDoNotMatch(first, rules[0], c);
        UsersDiffer(rules[0].service, s);
        assert Own(rules, s) == Own(rules[1..], s);
      }
    }
  }

  lemma {:induction false} OwnOfConcat(a: seq<ServiceRule>, b: seq<ServiceRule>, s: Service)
    ensures Own(a + b, s) == Own(a, s) + Own(b, s)
  {
    if a == [] {
      assert a + b == b;
    } else {
      assert (a + b)[1..] == a[1..] + b;
      OwnOfConcat(a[1..], b, s);
    }
  }

  lemma OwnOfGroup(s: Service, t: Service)
    ensures Own(GroupOf(s), t) == if s == t then GroupOf(s) else []
  {
    var g := GroupOf(s);
    assert Own(g, t) == (if s == t then [g[0]] else []) + Own(g[1..], t);
    if |g| > 1 {
      assert Own(g[1..], t) == (if s == t then [g[1]] else []) + Own(g[2..], t);
      if |g| > 2 {
        assert Own(g[2..], t) == (if s == t then [g[2]] else []) + Own(g[3..], t);
      }
    }
  }

  function Times(order: seq<Service>, s: Service): nat {
    if order == [] then 0 else (if order[0] == s then 1 else 0) + Times(order[1..], s)
  }

  /** The controller appends each group once. */
  lemma AppendedOnce(s: Service)
    ensures Times(APPENDED, s) == 1
  {
    hide Times;
    NoneOfNothing(s);
    assert APPENDED == [Superuser] + [Replicator, Monitor, Exporter, Bouncer, LogicalReplicator];
    assert [Replicator, Monitor, Exporter, Bouncer, LogicalReplicator]
        == [Replicator] + [Monitor, Exporter, Bouncer, LogicalReplicator];
    assert [Monitor, Exporter, Bouncer, LogicalReplicator] == [Monitor] + [Exporter, Bouncer, LogicalReplicator];
    assert [Exporter, Bouncer, LogicalReplicator] == [Exporter] + [Bouncer, LogicalReplicator];
    assert [Bouncer, LogicalReplicator] == [Bouncer] + [LogicalReplicator];
    assert [LogicalReplicator] == [LogicalReplicator] + [];
    TimesStep(Superuser, [Replicator, Monitor, Exporter, Bouncer, LogicalReplicator], s);
    TimesStep(Replicator, [Monitor, Exporter, Bouncer, LogicalReplicator], s);
    TimesStep(Monitor, [Exporter, Bouncer, LogicalReplicator], s);
    TimesStep(Exporter, [Bouncer, LogicalReplicator], s);
    TimesStep(Bouncer, [LogicalReplicator], s);
    TimesStep(LogicalReplicator, [], s);
  }

  lemma NoneOfNothing(s: Service)
    ensures Times([], s) == 0
  {
  }

  lemma TimesStep(first: Service, rest: seq<Service>, s: Service)
    ensures Times([first] + rest, s) == (if first == s then 1 else 0) + Times(rest, s)
  {
    assert ([first] + rest)[1..] == rest;
  }

  /** However the groups are ordered, the own rules of a service are its group. */
  lemma {:induction false} OwnOfGroups(cfg: Config, order: seq<Service>, s: Service)
    requires Enabled(cfg, s) && Times(order, s) == 1
    ensures Own(Groups(cfg, order), s) == GroupOf(s)
  {
    hide GroupOf;
    var t, rest := order[0], order[1..];
    var g := if Enabled(cfg, t) then GroupOf(t) else [];
    OwnOfConcat(g, Groups(cfg, rest), s);
    OwnOfGroup(t, s);
    if t == s {
      NoOwn(cfg, rest, s);
    } else {
      OwnOfGroups(cfg, rest, s);
    }
  }

  lemma {:induction false} NoOwn(cfg: Config, order: seq<Service>, s: Service)
    requires Times(order, s) == 0
    ensures Own(Groups(cfg, order), s) == []
  {
    hide GroupOf;
    if order != [] {
      var t, rest := order[0], order[1..];
      OwnOfConcat(if Enabled(cfg, t) then GroupOf(t) else [], Groups(cfg, rest), s);
      OwnOfGroup(t, s);
      NoOwn(cfg, rest, s);
    }
  }

  // ----- What is decided -----

  /** The connections that the rules of a service decide. */
  predicate Covered(cfg: Config, s: Service, c: Connection) {
    match s
    case Superuser => !c.network && c.database.Some?
    case Replicator => c.network && (c.tls || (c.database.Some? && !cfg.tlsOnly))
    case LogicalReplicator => c.network && (c.tls || (c.database.Some? && !cfg.tlsOnly))
    case _ => c.network && c.database.Some? && (c.tls || !cfg.tlsOnly)
  }

  function Guard(s: Service, c: Connection): string {
    match s
    case Superuser => "peer"
    case Replicator => if c.tls && (c.database.None? || c.database.value == "postgres") then "cert" else REJECT
    case Monitor => if Token(LOOPBACK4, true) in c.from || Token(LOOPBACK6, true) in c.from then SCRAM else REJECT
    case Exporter => if Token(LOOPBACK4, true) in c.from || Token(LOOPBACK6, true) in c.from then SCRAM else REJECT
    case Bouncer => if c.tls then SCRAM else REJECT
    case LogicalReplicator => if c.tls then SCRAM else REJECT
  }

  /** The rules of a service use these forms and no others. */
  predicate Shaped(r: ServiceRule) {
    && (r.origin.Local? || r.origin.Host? || r.origin.HostSSL?)
    && !r.address.SameNetwork?
    && (r.databases.Only? ==> r.databases == Only(["postgres"]))
    && (r.address.Block? ==> r.address.cidr == LOOPBACK4 || r.address.cidr == LOOPBACK6)
    && (r.auth == SCRAM || r.auth == REJECT || r.auth == "cert" || r.auth == "peer")
  }

  /** One rule of a service, matched against a connection of its user. */
  predicate RuleApplies(cfg: Config, r: ServiceRule, c: Connection) {
    && (if r.origin.Local? then !c.network
        else c.network && (c.tls || (r.origin.Host? && !cfg.tlsOnly)))
    && (match r.databases
        case All => c.database.Some?
        case ReplicationKeyword => c.database.None?
        case Only(names) => c.database == Some("postgres"))
    && (r.address.Block? && !r.origin.Local? ==> Token(r.address.cidr, true) in c.from)
  }

  function FirstRule(cfg: Config, rules: seq<ServiceRule>, c: Connection): Option<string> {
    if rules == [] then None
    else if RuleApplies(cfg, rules[0], c) then Some(rules[0].auth)
    else FirstRule(cfg, rules[1..], c)
  }

  lemma DatabasesMatch(r: ServiceRule, c: Connection)
    requires Shaped(r)
    ensures (exists i :: 0 <= i < |WhoTokens(r.databases)| && MatchesDatabase(WhoTokens(r.databases)[i], c))
            <==> match r.databases
                 case All => c.database.Some?
                 case ReplicationKeyword => c.database.None?
                 case Only(_) => c.database == Some("postgres")
  {
    match r.databases
    case All => assert WhoTokens(All)[0] == Token("all", false);
    case ReplicationKeyword => assert WhoTokens(ReplicationKeyword)[0] == Token("replication", false);
    case Only(_) =>
      assert WhoTokens(r.databases) == [Token("postgres", true)] + NameTokens([]);
      assert WhoTokens(r.databases)[0] == Token("postgres", true);
  }

  lemma UserMatches(s: Service, c: Connection)
    requires c.user == UserOf(s)
    ensures exists i :: 0 <= i < |WhoTokens(Only([UserOf(s)]))| && MatchesUser(WhoTokens(Only([UserOf(s)]))[i], c)
  {
    UserTokens(s);
    assert MatchesUser(WhoTokens(Only([UserOf(s)]))[0], c);
  }

  lemma RuleIsItsRecord(cfg: Config, r: ServiceRule, c: Connection)
    requires Shaped(r) && c.user == UserOf(r.service)
    ensures MatchesLine(RecordOf(if cfg.tlsOnly then Strict(AsRule(r)) else AsRule(r)), c) <==> RuleApplies(cfg, r, c)
  {
    hide WhoTokens, MatchesDatabase, MatchesUser, UserOf;
    DatabasesMatch(r, c);
    UserMatches(r.service, c);
  }

  lemma {:induction false} FirstRuleIsFirstMatch(cfg: Config, rules: seq<ServiceRule>, s: Service, c: Connection)
    requires c.user == UserOf(s) && forall i :: 0 <= i < |rules| ==> Shaped(rules[i]) && rules[i].service == s
    ensures FirstMatch(Records(Final(cfg, rules)), c) == FirstRule(cfg, rules, c)
  {
    hide MatchesLine, RecordOf, UserOf, RuleApplies, Shaped;
    if rules != [] {
      FirstRuleIsFirstMatch(cfg, rules[1..], s, c);
      RuleIsItsRecord(cfg, rules[0], c);
      RecordHasMethod(cfg, rules[0]);
      var first, rest := RecordOf(Final(cfg, rules)[0]), Records(Final(cfg, rules[1..]));
      assert Records(Final(cfg, rules)) == [first] + rest;
      assert ([first] + rest)[1..] == rest;
    }
  }

  lemma RecordHasMethod(cfg: Config, r: ServiceRule)
    ensures var line := RecordOf(if cfg.tlsOnly then Strict(AsRule(r)) else AsRule(r));
            line.Record? && line.auth == r.auth
  {
  }

  lemma GroupIsShaped(s: Service)
    ensures forall i :: 0 <= i < |GroupOf(s)| ==> Shaped(GroupOf(s)[i]) && GroupOf(s)[i].service == s
  {
  }

  /** A service's own rules decide the covered connections and say nothing about the others. */
  lemma GroupDecides(cfg: Config, s: Service, c: Connection)
    ensures FirstRule(cfg, GroupOf(s), c) == if Covered(cfg, s, c) then Some(Guard(s, c)) else None
  {
    var g := GroupOf(s);
    assert FirstRule(cfg, g, c) == if RuleApplies(cfg, g[0], c) then Some(g[0].auth) else FirstRule(cfg, g[1..], c);
    if |g| > 1 {
      assert FirstRule(cfg, g[1..], c) == if RuleApplies(cfg, g[1], c) then Some(g[1].auth)
          else FirstRule(cfg, g[2..], c);
      if |g| > 2 {
        assert FirstRule(cfg, g[2..], c) == if RuleApplies(cfg, g[2], c) then Some(g[2].auth)
            else FirstRule(cfg, g[3..], c);
      }
    }
  }

  // ----- The file -----

  lemma MethodsAreMethods()
    ensures IsMethod(SCRAM) && IsMethod(REJECT) && IsMethod("cert") && IsMethod("peer") && IsMethod("trust")
  {
  }

  lemma ShapedIsTyped(cfg: Config, r: ServiceRule)
    requires Shaped(r)
    ensures var rule := if cfg.tlsOnly then Strict(AsRule(r)) else AsRule(r);
            WellNamed(rule) && Typed(rule) && OneLine(rule)
  {
    hide IsMethod, UserOf;
    MethodsAreMethods();
  }

  lemma {:induction false} GroupsAreShaped(cfg: Config, order: seq<Service>)
    ensures forall i :: 0 <= i < |Groups(cfg, order)| ==> Shaped(Groups(cfg, order)[i])
  {
    hide Shaped, GroupOf;
    if order != [] {
      GroupIsShaped(order[0]);
      GroupsAreShaped(cfg, order[1..]);
    }
  }

  lemma MandatoryIsTyped(cfg: Config, order: seq<Service>)
    ensures var rules := Mandatory(cfg, order);
            forall i :: 0 <= i < |rules| ==> WellNamed(rules[i]) && Typed(rules[i]) && OneLine(rules[i])
  {
    hide Shaped, Typed, OneLine, WellNamed, AsRule, Strict;
    GroupsAreShaped(cfg, order);
    var rules := Mandatory(cfg, order);
    forall i | 0 <= i < |rules| ensures WellNamed(rules[i]) && Typed(rules[i]) && OneLine(rules[i]) {
      ShapedIsTyped(cfg, Groups(cfg, order)[i]);
    }
  }

  /** pg_hba.conf: the mandatory rules, then whatever entries follow. */
  function FileWith(cfg: Config, order: seq<Service>, more: seq<string>): string {
    MandatoryIsTyped(cfg, order);
    File(Texts(Mandatory(cfg, order)) + more)
  }

  function FinalRule(cfg: Config, r: ServiceRule): (rule: Rule)
    requires Shaped(r)
    ensures WellNamed(rule)
  {
    if cfg.tlsOnly then Strict(AsRule(r)) else AsRule(r)
  }

  method RenderRules(cfg: Config, groups: seq<ServiceRule>) returns (texts: seq<string>)
    requires forall i :: 0 <= i < |groups| ==> Shaped(groups[i])
    ensures |texts| == |groups|
    ensures forall i :: 0 <= i < |groups| ==> texts[i] == Text(FinalRule(cfg, groups[i]))
  {
    hide Text, AsRule, Shaped, Strict, Typed;
    texts := [];
    for i := 0 to |groups|
      invariant |texts| == i
      invariant forall j :: 0 <= j < i ==> texts[j] == Text(FinalRule(cfg, groups[j]))
    {
      ShapedIsTyped(cfg.(tlsOnly := false), groups[i]);
      var text := BuildAndRender(AsRule(groups[i]), cfg.tlsOnly);
      texts := texts + [text];
    }
  }

  lemma {:induction false} RenderedAreTexts(cfg: Config, groups: seq<ServiceRule>, texts: seq<string>)
    requires |texts| == |groups| && forall i :: 0 <= i < |groups| ==> Shaped(groups[i])
    requires forall i :: 0 <= i < |groups| ==> texts[i] == Text(FinalRule(cfg, groups[i]))
    ensures forall i :: 0 <= i < |Final(cfg, groups)| ==> WellNamed(Final(cfg, groups)[i])
    ensures texts == Texts(Final(cfg, groups))
  {
    hide Text, AsRule, Shaped, Strict;
    if groups != [] {
      RenderedAreTexts(cfg, groups[1..], texts[1..]);
      var rules := Final(cfg, groups);
      assert rules[0] == FinalRule(cfg, groups[0]);
      assert rules[1..] == Final(cfg, groups[1..]);
      assert texts == [texts[0]] + texts[1..];
    }
  }

  /** The mandatory entries, built, restricted to TLS and rendered one by one in the controller's order. */
  method MandatoryTexts(cfg: Config) returns (texts: seq<string>)
    ensures File(texts) == FileWith(cfg, APPENDED, [])
  {
    hide Text, AsRule, WellNamed, Typed, OneLine, Strict, Groups, Shaped, Texts, Final, File;
    var groups := Groups(cfg, APPENDED);
    GroupsAreShaped(cfg, APPENDED);
    texts := RenderRules(cfg, groups);
    RenderedAreTexts(cfg, groups, texts);
    MandatoryIsTyped(cfg, APPENDED);
    assert texts + [] == texts;
  }

  /**
   * Whatever entries the user adds, and however the groups are ordered, a covered connection of
   * a service user is decided by the rules of that service. Any other connection of that user
   * is left to the entries of the user.
   */
  lemma ServiceDecision(cfg: Config, order: seq<Service>, s: Service, more: seq<string>, c: Connection)
    requires Enabled(cfg, s) && Times(order, s) == 1 && c.user == UserOf(s)
    ensures FirstMatch(ParseFile(FileWith(cfg, order, more)), c)
            == if Covered(cfg, s, c) then Some(Guard(s, c)) else FirstMatch(ParseFile(File(more)), c)
  {
    hide Covered, Guard, GroupOf, UserOf, FirstMatch, Records, ParseFile, Shaped, FirstRule, Final, Own;
    MandatoryIsTyped(cfg, order);
    FileBeginsWithRecords(Mandatory(cfg, order), more);
    FirstMatchOfConcat(Records(Mandatory(cfg, order)), ParseFile(File(more)), c);
    OnlyOwnRulesMatter(cfg, Groups(cfg, order), s, c);
    OwnOfGroups(cfg, order, s);
    GroupIsShaped(s);
    FirstRuleIsFirstMatch(cfg, GroupOf(s), s, c);
    GroupDecides(cfg, s, c);
  }

  /** A rule that lets anyone in, of the kind this connection is. */
  function Trusting(c: Connection): Rule {
    Rule(if c.network then Host else Local, if c.database.None? then ReplicationKeyword
        else All, All, AllNetworks, "trust", [])
  }

  lemma TrustingIsTyped(c: Connection)
    ensures Typed(Trusting(c)) && OneLine(Trusting(c))
  {
    hide IsMethod;
    MethodsAreMethods();
  }

  lemma TrustingMatches(c: Connection)
    ensures FirstMatch(Records([Trusting(c)]), c) == Some("trust")
  {
    var line := RecordOf(Trusting(c));
    assert line.databases[0] == if c.database.None? then Token("replication", false) else Token("all", false);
    assert line.users[0] == Token("all", false);
    assert MatchesDatabase(line.databases[0], c) && MatchesUser(line.users[0], c);
    assert MatchesLine(line, c);
    assert Records([Trusting(c)])[0] == line;
  }

  lemma GuardIsStrict(s: Service, c: Connection)
    ensures Guard(s, c) != "trust"
  {
    assert "trust"[0] == 't' && "peer"[0] == 'p' && "cert"[0] == 'c' && REJECT[0] == 'r' && SCRAM[0] == 's';
  }

  /**
   * The rules of a service hold against every entry of the user exactly for the covered
   * connections. Not covered are physical replication without TLS, which no rule for "all"
   * databases matches, and with spec.tlsOnly every connection without TLS, because that makes
   * "hostssl" of the rule that rejects.
   */
  lemma GuardedExactlyWhenCovered(cfg: Config, order: seq<Service>, s: Service, c: Connection)
    requires Enabled(cfg, s) && Times(order, s) == 1 && c.user == UserOf(s)
    ensures (forall more: seq<string> :: FirstMatch(ParseFile(FileWith(cfg, order, more)), c) == Some(Guard(s, c)))
            <==> Covered(cfg, s, c)
  {
    hide Covered, Guard, FirstMatch, ParseFile, FileWith, UserOf, Records;
    forall more: seq<string> {
      ServiceDecision(cfg, order, s, more, c);
    }
    if !Covered(cfg, s, c) {
      TrustingIsTyped(c);
      var more := Texts([Trusting(c)]);
      assert more + [] == more;
      FileBeginsWithRecords([Trusting(c)], []);
      FirstMatchOfConcat(Records([Trusting(c)]), ParseFile(File([])), c);
      TrustingMatches(c);
      GuardIsStrict(s, c);
      ServiceDecision(cfg, order, s, more, c);
      assert FirstMatch(ParseFile(FileWith(cfg, order, more)), c) != Some(Guard(s, c));
    }
  }
}
