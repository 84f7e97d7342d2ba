/** Building pg_hba.conf records (internal/postgres/hba.go). */
module HbaRecord {
  import opened Options
  import opened HbaSyntax

  // ----- Names -----

  /** Letters, digits and underscores stand for themselves in a regular expression; so do letters beyond ASCII. */
  predicate Plain(c: char) {
    'a' <= c <= 'z' || 'A' <= c <= 'Z' || '0' <= c <= '9' || c == '_' || c as int >= 128
  }

  /** Every other character goes into a bracket expression of its own. */
  function Bracketed(name: string): string {
    if name == "" then ""
    else (if Plain(name[0]) then [name[0]] else ['[', name[0], ']']) + Bracketed(name[1..])
  }

  /** A name that begins with a slash would be a regular expression, so it becomes one that matches the name. */
  function Named(name: string): string {
    if name != "" && name[0] == '/' then ['/', '^'] + Bracketed(name) + ['$'] else name
  }

  function QuoteName(name: string): string { Quote(Named(name)) }

  function QuoteNames(names: seq<string>): string
    requires names != []
  {
    if |names| == 1 then QuoteName(names[0])
        else QuoteNames(names[..|names| - 1]) + [','] + QuoteName(names[|names| - 1])
  }

  // ----- What a record says -----

  datatype Who = All | ReplicationKeyword | Only(names: seq<string>)

  datatype Where = AllNetworks | SameNetwork | Block(cidr: string)

  datatype Rule = Rule(origin: Origin, databases: Who, users: Who, address: Where, auth: string,
                       options: seq<(string, string)>)

  function WhoText(who: Who): string
    requires who.Only? ==> who.names != []
  {
    match who
    case All => "all"
    case ReplicationKeyword => "replication"
    case Only(names) => QuoteNames(names)
  }

  function WhereText(address: Where): string {
    match address
    case AllNetworks => "all"
    case SameNetwork => "samenet"
    case Block(cidr) => Quote(cidr)
  }

  function OriginText(origin: Origin): string {
    match origin
    case Local => "local"
    case Host => "host"
    case HostSSL => "hostssl"
    case HostNoSSL => "hostnossl"
    case HostGSSEnc => "hostgssenc"
    case HostNoGSSEnc => "hostnogssenc"
  }

  function OptionText(option: (string, string)): string { Quote(option.0) + ['='] + Quote(option.1) }

  function OptionsText(options: seq<(string, string)>): string {
    if options == [] then ""
    else OptionsText(options[..|options| - 1]) + [' '] + OptionText(options[|options| - 1])
  }

  // ----- Trimming -----

  predicate Space(c: char) { '\t' <= c <= '\r' || c == ' ' || c as int == 0x85 || c as int == 0xA0 }

  function TrimRight(s: string): string {
    if s != "" && Space(s[|s| - 1]) then TrimRight(s[..|s| - 1]) else s
  }

  function TrimLeft(s: string): string {
    if s != "" && Space(s[0]) then TrimLeft(s[1..]) else s
  }

  function TrimSpace(s: string): string { TrimLeft(TrimRight(s)) }

  /** The text of a record, before it is trimmed. */
  function Untrimmed(rule: Rule): string
    requires WellNamed(rule)
  {
    if rule.origin.Local? then
      "local" + [' '] + WhoText(rule.databases) + [' '] + WhoText(rule.users)
      + [' '] + rule.auth + [' '] + OptionsText(rule.options)
    else
      OriginText(rule.origin) + [' '] + WhoText(rule.databases) + [' '] + WhoText(rule.users)
      + [' '] + WhereText(rule.address) + [' '] + rule.auth + [' '] + OptionsText(rule.options)
  }

  predicate WellNamed(rule: Rule) {
    && (rule.databases.Only? ==> rule.databases.names != [])
    && (rule.users.Only? ==> rule.users.names != [])
  }

  function Text(rule: Rule): string
    requires WellNamed(rule)
  {
    TrimSpace(Untrimmed(rule))
  }

  /** The record that requires TLS. */
  function Strict(rule: Rule): Rule {
    if rule.origin.Host? || rule.origin.HostNoSSL? then rule.(origin := HostSSL) else rule
  }

  class HostBasedAuthentication {
    var origin: string
    var database: string
    var user: string
    var address: string
    var auth: string
    var options: string

    /** The fields are the ones of this rule. */
    predicate Says(rule: Rule)
      requires WellNamed(rule)
      reads this
    {
      && origin == OriginText(rule.origin) && database == WhoText(rule.databases) && user == WhoText(rule.users)
      && address == WhereText(rule.address) && auth == rule.auth && options == OptionsText(rule.options)
    }

    /** Matches all databases, networks, and users. */
    constructor ()
      ensures origin == auth == options == "" && database == user == address == "all"
    {
      origin, auth, options := "", "", "";
      database, user, address := "all", "all", "all";
    }

    method AllDatabases()
      modifies `database
      ensures database == WhoText(All)
    {
      database := "all";
    }

    method Replication()
      modifies `database
      ensures database == WhoText(ReplicationKeyword)
    {
      database := "replication";
    }

    method Databases(name: string, names: seq<string>)
      modifies `database
      ensures database == WhoText(Only([name] + names))
    {
      database := ListNames(name, names);
    }

    method Users(name: string, names: seq<string>)
      modifies `user
      ensures user == WhoText(Only([name] + names))
    {
      user := ListNames(name, names);
    }

    method Network(block: string)
      modifies `address
      ensures address == WhereText(Block(block))
    {
      address := Quote(block);
    }

    method SameNet()
      modifies `address
      ensures address == WhereText(SameNetwork)
    {
      address := "samenet";
    }

    /** Local, TCP, TLS and NoSSL. */
    method From(kind: Origin)
      requires kind.Local? || kind.Host? || kind.HostSSL? || kind.HostNoSSL?
      modifies `origin
      ensures origin == OriginText(kind)
    {
      match kind {
        case Local => origin := "local";
        case Host => origin := "host";
        case HostSSL => origin := "hostssl";
        case HostNoSSL => origin := "hostnossl";
      }
    }

    method Method(name: string)
      modifies `auth
      ensures auth == name
    {
      auth := name;
    }

    /** The options come in the order of their names. */
    method Options(opts: seq<(string, string)>)
      modifies `options
      ensures options == OptionsText(opts)
    {
      options := "";
      for i := 0 to |opts|
        invariant options == OptionsText(opts[..i])
      {
        assert opts[..i + 1][..i] == opts[..i];
        options := options + [' '] + (Quote(opts[i].0) + ['='] + Quote(opts[i].1));
      }
      assert opts[..|opts|] == opts;
    }

    method TLSOnly()
      modifies `origin
      ensures forall rule: Rule :: WellNamed(rule) && old(Says(rule)) ==> Says(Strict(rule))
    {
      hide WhoText, WhereText, OptionsText;
      OnlyHostIsHost();
      if origin == "host" || origin == "hostnossl" {
        origin := "hostssl";
      }
    }

    /** Origin adds quotes to the word it is given. */
    method QuotedOrigin(name: string)
      modifies `origin
      ensures origin == Quote(name)
    {
      origin := Quote(name);
    }

    method String() returns (s: string)
      ensures origin != "local" ==>
                s == TrimSpace(origin + [' '] + database + [' '] + user + [' '] + address + [' '] + auth + [' ']
                    + options)
      ensures forall rule: Rule :: WellNamed(rule) && Says(rule) ==> s == Text(rule)
    {
      hide WhoText, WhereText, OptionsText, TrimSpace;
      OnlyLocalIsLocal();
      if origin == "local" {
        s := TrimSpace("local" + [' '] + database + [' '] + user + [' '] + auth + [' '] + options);
      } else {
        s := TrimSpace(origin + [' '] + database + [' '] + user + [' '] + address + [' '] + auth + [' '] + options);
      }
    }
  }

  lemma OnlyLocalIsLocal()
    ensures forall origin: Origin :: OriginText(origin) == "local" <==> origin.Local?
  {
    assert "local"[0] == 'l' && "host"[0] == 'h' && "hostssl"[0] == 'h' && "hostnossl"[0] == 'h';
    assert "hostgssenc"[0] == 'h' && "hostnogssenc"[0] == 'h';
  }

  lemma OnlyHostIsHost()
    ensures forall origin: Origin :: OriginText(origin) == "host" <==> origin.Host?
    ensures forall origin: Origin :: OriginText(origin) == "hostnossl" <==> origin.HostNoSSL?
  {
    assert "hostssl"[4] == 's' && "hostnossl"[6] == 's' && "hostgssenc"[4] == 'g' && "hostnogssenc"[6] == 'g';
    assert "local"[0] == 'l' && "host"[0] == 'h' && "hostnossl"[0] == 'h' && "hostnossl"[4] == 'n';
  }

  method ListNames(name: string, names: seq<string>) returns (s: string)
    ensures s == QuoteNames([name] + names)
  {
    hide QuoteName;
    s := QuoteName(name);
    assert [name] + names[..0] == [name];
    for i := 0 to |names|
      invariant s == QuoteNames([name] + names[..i])
    {
      var listed := [name] + names[..i + 1];
      assert listed[..|listed| - 1] == [name] + names[..i] && listed[|listed| - 1] == names[i];
      s := s + [','] + QuoteName(names[i]);
    }
    assert names[..|names|] == names;
  }
}
