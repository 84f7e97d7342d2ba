/**
 * Combining the user's Patroni configuration with what the operator requires
 * (internal/patroni/config.go). Sections are mutable maps that the caller keeps using.
 */
module DynamicConfig {
  import opened Options

  datatype Value = Text(text: string) | Number(n: int) | Flag(b: bool) | Items(list: List) | Dict(section: Section)

  /** A map[string]any. */
  class Section {
    var entries: map<string, Value>

    constructor (entries: map<string, Value>)
      ensures this.entries == entries
    {
      this.entries := entries;
    }
  }

  /** A []any. */
  class List {
    var items: seq<Value>

    constructor (items: seq<Value>)
      ensures this.items == items
    {
      this.items := items;
    }
  }

  /** A nested section; no entries when the value is missing or of another type. */
  function EntriesAt(entries: map<string, Value>, key: string): map<string, Value>
    reads if key in entries && entries[key].Dict? then {entries[key].section} else {}
  {
    if key in entries && entries[key].Dict? then entries[key].section.entries else map[]
  }

  function ItemsAt(entries: map<string, Value>, key: string): seq<Value>
    reads if key in entries && entries[key].Items? then {entries[key].list} else {}
  {
    if key in entries && entries[key].Items? then entries[key].list.items else []
  }

  // ----- Parameters -----

  predicate Contains(s: string, part: string) {
    |part| <= |s| && (s[..|part|] == part || (s != "" && Contains(s[1..], part)))
  }

  const LIBRARIES := "shared_preload_libraries"

  function TextAt(entries: map<string, Value>, key: string): string {
    if key in entries && entries[key].Text? then entries[key].text else ""
  }

  /** The value of a mandatory parameter, when the configuration has its own text for it. */
  function MandatoryValue(key: string, value: string, own: string): string {
    if key != LIBRARIES then value
    else
      var all := if own != "" then own + "," + value else value;
      if Contains(all, "citus") then "citus," + all else all
  }

  function Texts(m: map<string, string>): (r: map<string, Value>)
    ensures r.Keys == m.Keys
  {
    map k | k in m :: Text(m[k])
  }

  function ParameterEntries(defaults: map<string, string>, user: map<string, Value>, mandatory: map<string, string>)
    : (r: map<string, Value>)
    ensures r.Keys == defaults.Keys + user.Keys + mandatory.Keys
    ensures forall k :: k in r ==>
              var before := Texts(defaults) + user;
              r[k] == if k in mandatory then Text(MandatoryValue(k, mandatory[k], TextAt(before, k))) else before[k]
  {
    var before := Texts(defaults) + user;
    before + map k | k in mandatory :: Text(MandatoryValue(k, mandatory[k], TextAt(before, k)))
  }

  lemma SameEntries(a: map<string, Value>, b: map<string, Value>)
    requires a.Keys == b.Keys && forall k :: k in a ==> a[k] == b[k]
    ensures a == b
  {
  }

  method CombineMandatory(entries: map<string, Value>, key: string, value: string) returns (v: string)
    ensures v == MandatoryValue(key, value, TextAt(entries, key))
  {
    v := value;
    if key == LIBRARIES {
      if key in entries && entries[key].Text? && |entries[key].text| > 0 {
        v := entries[key].text + "," + v;
      }
      if Contains(v, "citus") {
        v := "citus," + v;
      }
    }
  }

  /** The parameters that were done are overridden, and no others. */
  ghost predicate Overridden(entries: map<string, Value>, before: map<string, Value>, mandatory: map<string, string>,
                             done: set<string>)
    requires done <= mandatory.Keys
  {
    && (forall k :: k in entries <==> k in before || k in done)
    && (forall k :: k in entries ==>
          entries[k] == if k in done then Text(MandatoryValue(k, mandatory[k], TextAt(before, k))) else before[k])
  }

  lemma OverrideOne(entries: map<string, Value>, before: map<string, Value>, mandatory: map<string, string>,
                    done: set<string>, k: string)
    requires done <= mandatory.Keys && k in mandatory && k !in done && Overridden(entries, before, mandatory, done)
    ensures Overridden(entries[k := Text(MandatoryValue(k, mandatory[k], TextAt(entries, k)))], before, mandatory,
            done + {k})
  {
    hide MandatoryValue;
  }

  method Override(before: map<string, Value>, mandatory: map<string, string>) returns (entries: map<string, Value>)
    ensures Overridden(entries, before, mandatory, mandatory.Keys)
  {
    hide MandatoryValue, TextAt, Overridden;
    NothingOverridden(before, mandatory);
    entries := before;
    var done: set<string> := {};
    while done != mandatory.Keys
      invariant done <= mandatory.Keys && Overridden(entries, before, mandatory, done)
      decreases mandatory.Keys - done
    {
      assert exists k :: k in mandatory.Keys && k !in done;
      var k :| k in mandatory.Keys && k !in done;
      OverrideOne(entries, before, mandatory, done, k);
      var v := CombineMandatory(entries, k, mandatory[k]);
      entries := entries[k := Text(v)];
      done := done + {k};
    }
  }

  lemma NothingOverridden(before: map<string, Value>, mandatory: map<string, string>)
    ensures Overridden(before, before, mandatory, {})
  {
  }

  method MergeParameters(defaults: map<string, string>, user: map<string, Value>, mandatory: map<string, string>)
    returns (parameters: Section)
    ensures fresh(parameters) && parameters.entries == ParameterEntries(defaults, user, mandatory)
  {
    hide MandatoryValue, TextAt, Texts, ParameterEntries;
    var entries := Override(Texts(defaults) + user, mandatory);
    assert entries.Keys == ParameterEntries(defaults, user, mandatory).Keys;
    SameEntries(entries, ParameterEntries(defaults, user, mandatory));
    parameters := new Section(entries);
  }

  // ----- pg_hba -----

  function TextsOf(items: seq<Value>): seq<string> {
    if items == [] then []
    else (if items[0].Text? then [items[0].text] else []) + TextsOf(items[1..])
  }

  function HbaEntries(mandatory: seq<string>, rules: seq<string>, user: seq<Value>,
      defaults: seq<string>): seq<string> {
    if rules == [] && TextsOf(user) == [] then mandatory + defaults else mandatory + rules + TextsOf(user)
  }

  method MergeHba(mandatory: seq<string>, rules: seq<string>, user: seq<Value>, defaults: seq<string>)
    returns (hba: seq<string>)
    ensures hba == HbaEntries(mandatory, rules, user, defaults)
  {
    hba := mandatory + rules;
    assert user[0..] == user;
    for i := 0 to |user|
      invariant hba + TextsOf(user[i..]) == mandatory + rules + TextsOf(user)
    {
      assert user[i..][0] == user[i] && user[i..][1..] == user[i + 1..];
      if user[i].Text? {
        hba := hba + [user[i].text];
      }
    }
    assert user[|user|..] == [] && hba + [] == hba;
    assert hba == mandatory + (rules + TextsOf(user));
    if |hba| == |mandatory| {
      hba := hba + defaults;
    }
  }

  function AsValues(texts: seq<string>): (r: seq<Value>)
    ensures |r| == |texts| && forall i :: 0 <= i < |r| ==> r[i] == Text(texts[i])
  {
    if texts == [] then [] else [Text(texts[0])] + AsValues(texts[1..])
  }

  // ----- Standby -----

  datatype Standby = Standby(host: string, port: Option<int>, repoName: string)

  const PGBACKREST := "pgbackrest"
  const BASEBACKUP := "basebackup"

  function StandbyMethods(spec: Standby): seq<string> {
    (if spec.repoName != "" then [PGBACKREST] else []) + (if spec.host != "" then [BASEBACKUP] else [])
  }

  function StandbyEntries(user: map<string, Value>, spec: Standby, restore: string, methods: List): map<string, Value> {
    var kept := user - {"restore_command"};
    var hosted := if spec.host == "" then kept
                  else if spec.port.None? then kept["host" := Text(spec.host)]
                  else kept["host" := Text(spec.host)]["port" := Number(spec.port.value)];
    var restored := if spec.repoName == "" then hosted else hosted["restore_command" := Text(restore)];
    restored["create_replica_methods" := Items(methods)]
  }

  method MergeStandby(user: map<string, Value>, spec: Standby, restore: string) returns (standby: Section,
      methods: List)
    ensures fresh(standby) && fresh(methods)
    ensures methods.items == AsValues(StandbyMethods(spec))
    ensures standby.entries == StandbyEntries(user, spec, restore, methods)
  {
    standby := new Section(user);
    standby.entries := standby.entries - {"restore_command"};
    var names: seq<string> := [];
    if spec.host != "" {
      standby.entries := standby.entries["host" := Text(spec.host)];
      if spec.port.Some? {
        standby.entries := standby.entries["port" := Number(spec.port.value)];
      }
      names := [BASEBACKUP] + names;
    }
    if spec.repoName != "" {
      names := [PGBACKREST] + names;
      standby.entries := standby.entries["restore_command" := Text(restore)];
    }
    assert names == StandbyMethods(spec);
    methods := new List(AsValues(names));
    standby.entries := standby.entries["create_replica_methods" := Items(methods)];
  }

  // ----- The whole configuration -----

  datatype Cluster = Cluster(ttl: int, loopWait: int, postgresVersion: int, rules: seq<string>,
      standby: Option<Standby>,
                             slotMatchers: seq<Value>)

  datatype Required = Required(mandatoryHba: seq<string>, defaultHba: seq<string>,
                               defaultParameters: map<string, string>, mandatoryParameters: map<string, string>)

  function PostgresqlEntries(user: map<string, Value>, parameters: Section, hba: List, rewind: bool): map<string,
      Value> {
    (map["use_slots" := Flag(false)] + user)
    ["parameters" := Dict(parameters)]["pg_hba" := Items(hba)]["use_pg_rewind" := Flag(rewind)]
  }

  function RootEntries(user: map<string, Value>, cluster: Cluster, postgresql: Section, standby: Option<Section>,
                       slots: Option<List>): map<string, Value>
  {
    var timed := user["ttl" := Number(cluster.ttl)]["loop_wait" := Number(cluster.loopWait)];
    var root := timed["postgresql" := Dict(postgresql)];
    var stood := if standby.Some? then root["standby_cluster" := Dict(standby.value)] else root;
    if slots.Some? then stood["ignore_slots" := Items(slots.value)] else stood
  }

  function UserParameters(user: map<string, Value>): map<string, Value>
    reads *
  {
    EntriesAt(EntriesAt(user, "postgresql"), "parameters")
  }

  function UserHba(user: map<string, Value>): seq<Value>
    reads *
  {
    ItemsAt(EntriesAt(user, "postgresql"), "pg_hba")
  }

  function RestoreCommand(mandatory: map<string, string>): string {
    if "restore_command" in mandatory then mandatory["restore_command"] else ""
  }

  lemma KeysDiffer()
    ensures "postgresql" != "ttl" && "postgresql" != "loop_wait"
    ensures "standby_cluster" !in {"ttl", "loop_wait", "postgresql"}
    ensures "ignore_slots" !in {"ttl", "loop_wait", "postgresql", "standby_cluster"}
    ensures "pg_hba" != "parameters" && "parameters" != "use_slots" && "pg_hba" != "use_slots"
  {
    assert "postgresql"[0] == 'p' && "ttl"[0] == 't' && "loop_wait"[0] == 'l' && "standby_cluster"[0] == 's';
    assert "ignore_slots"[0] == 'i' && "pg_hba"[1] == 'g' && "parameters"[1] == 'a' && "use_slots"[0] == 'u'
        && "pg_hba"[0] == 'p';
  }

  method MergePostgresql(section: map<string, Value>, cluster: Cluster, required: Required)
    returns (postgresql: Section, parameters: Section, hba: List)
    ensures fresh(postgresql) && fresh(parameters) && fresh(hba)
    ensures postgresql.entries == PostgresqlEntries(section, parameters, hba, cluster.postgresVersion > 10)
    ensures parameters.entries
            == ParameterEntries(required.defaultParameters, old(EntriesAt(section, "parameters")),
                required.mandatoryParameters)
    ensures hba.items
            == AsValues(HbaEntries(required.mandatoryHba, cluster.rules, old(ItemsAt(section, "pg_hba")),
                required.defaultHba))
  {
    hide ParameterEntries, HbaEntries, AsValues;
    KeysDiffer();
    ghost var userParameters, userHba := EntriesAt(section, "parameters"), ItemsAt(section, "pg_hba");
    postgresql := new Section(map["use_slots" := Flag(false)] + section);
    assert EntriesAt(postgresql.entries, "parameters") == userParameters;
    parameters := MergeParameters(required.defaultParameters, EntriesAt(postgresql.entries, "parameters"),
                                  required.mandatoryParameters);
    postgresql.entries := postgresql.entries["parameters" := Dict(parameters)];
    assert ItemsAt(postgresql.entries, "pg_hba") == userHba;
    var lines := MergeHba(required.mandatoryHba, cluster.rules, ItemsAt(postgresql.entries, "pg_hba"),
        required.defaultHba);
    hba := new List(AsValues(lines));
    postgresql.entries := postgresql.entries["pg_hba" := Items(hba)];
    postgresql.entries := postgresql.entries["use_pg_rewind" := Flag(cluster.postgresVersion > 10)];
  }

  method MergeStandbyAndSlots(root: Section, cluster: Cluster, restore: string)
    returns (standby: Option<Section>, methods: Option<List>, slots: Option<List>)
    modifies root
    ensures root.entries
            == (var stood := if standby.Some? then old(root.entries)["standby_cluster" := Dict(standby.value)]
                else old(root.entries);
                if slots.Some? then stood["ignore_slots" := Items(slots.value)] else stood)
    ensures standby.Some? == methods.Some? == cluster.standby.Some?
    ensures standby.Some? ==>
              && fresh(standby.value) && fresh(methods.value)
              && standby.value.entries
                 == StandbyEntries(old(EntriesAt(root.entries, "standby_cluster")), cluster.standby.value, restore,
                     methods.value)
              && methods.value.items == AsValues(StandbyMethods(cluster.standby.value))
    ensures slots.Some? <==> cluster.slotMatchers != []
    ensures slots.Some? ==>
              fresh(slots.value) && slots.value.items
                  == old(ItemsAt(root.entries, "ignore_slots")) + cluster.slotMatchers
  {
    hide StandbyEntries, AsValues, StandbyMethods;
    KeysDiffer();
    ghost var userSlots := ItemsAt(root.entries, "ignore_slots");
    standby, methods, slots := None, None, None;
    if cluster.standby.Some? {
      var s, m := MergeStandby(EntriesAt(root.entries, "standby_cluster"), cluster.standby.value, restore);
      root.entries := root.entries["standby_cluster" := Dict(s)];
      standby, methods := Some(s), Some(m);
    }
    if |cluster.slotMatchers| > 0 {
      assert ItemsAt(root.entries, "ignore_slots") == userSlots;
      var list := new List(ItemsAt(root.entries, "ignore_slots") + cluster.slotMatchers);
      root.entries := root.entries["ignore_slots" := Items(list)];
      slots := Some(list);
    }
  }

  /** The copy of the user's configuration, with the settings that come first. */
  method CopyConfiguration(cluster: Cluster, configuration: Section) returns (root: Section)
    ensures fresh(root)
    ensures root.entries == configuration.entries["ttl" := Number(cluster.ttl)]["loop_wait" := Number(cluster.loopWait)]
    ensures forall key :: key !in {"ttl", "loop_wait"} ==>
              && (key in root.entries <==> key in configuration.entries)
              && (key in root.entries ==> root.entries[key] == configuration.entries[key])
  {
    root := new Section(configuration.entries);
    root.entries := root.entries["ttl" := Number(cluster.ttl)];
    root.entries := root.entries["loop_wait" := Number(cluster.loopWait)];
  }

  /**
   * Everything that is returned is new. The caller's sections and lists stay as they were: this
   * method modifies nothing that existed before.
   */
  method DynamicConfiguration(cluster: Cluster, configuration: Section, required: Required)
    returns (root: Section, postgresql: Section, parameters: Section, hba: List,
             standby: Option<Section>, methods: Option<List>, slots: Option<List>)
    ensures fresh(root) && fresh(postgresql) && fresh(parameters) && fresh(hba)
    ensures root.entries == RootEntries(old(configuration.entries), cluster, postgresql, standby, slots)
    ensures postgresql.entries
            == PostgresqlEntries(old(EntriesAt(configuration.entries, "postgresql")), parameters, hba,
                                 cluster.postgresVersion > 10)
    ensures parameters.entries
            == ParameterEntries(required.defaultParameters, old(UserParameters(configuration.entries)),
                                required.mandatoryParameters)
    ensures hba.items
            == AsValues(HbaEntries(required.mandatoryHba, cluster.rules, old(UserHba(configuration.entries)),
                required.defaultHba))
    ensures standby.Some? <==> cluster.standby.Some?
    ensures standby.Some? ==>
              && fresh(standby.value) && methods.Some? && fresh(methods.value)
              && standby.value.entries
                 == StandbyEntries(old(EntriesAt(configuration.entries, "standby_cluster")), cluster.standby.value,
                                   RestoreCommand(required.mandatoryParameters), methods.value)
              && methods.value.items == AsValues(StandbyMethods(cluster.standby.value))
    ensures slots.Some? <==> cluster.slotMatchers != []
    ensures slots.Some? ==>
              && fresh(slots.value)
              && slots.value.items == old(ItemsAt(configuration.entries, "ignore_slots")) + cluster.slotMatchers
  {
    hide ParameterEntries, HbaEntries, StandbyEntries, AsValues, PostgresqlEntries, StandbyMethods, RestoreCommand;
    KeysDiffer();
    ghost var section := EntriesAt(configuration.entries, "postgresql");
    ghost var userParameters, userHba := UserParameters(configuration.entries), UserHba(configuration.entries);
    root := CopyConfiguration(cluster, configuration);
    assert EntriesAt(root.entries, "postgresql") == section;
    assert EntriesAt(section, "parameters") == userParameters && ItemsAt(section, "pg_hba") == userHba;
    postgresql, parameters, hba := MergePostgresql(EntriesAt(root.entries, "postgresql"), cluster, required);
    root.entries := root.entries["postgresql" := Dict(postgresql)];
    standby, methods, slots := MergeStandbyAndSlots(root, cluster, RestoreCommand(required.mandatoryParameters));
  }

  // ----- What the layers mean -----

  /** The comma-separated elements of a list parameter. */
  function Elements(s: string): (r: seq<string>)
    ensures |r| > 0
  {
    if s == "" then [""]
    else if s[0] == ',' then [""] + Elements(s[1..])
    else
      var rest := Elements(s[1..]);
      [[s[0]] + rest[0]] + rest[1..]
  }

  lemma {:induction false} ElementsJoined(a: string, b: string)
    ensures Elements(a + "," + b) == Elements(a) + Elements(b)
  {
    if a == "" {
      assert a + "," + b == [','] + b;
    } else {
      assert (a + "," + b)[1..] == a[1..] + "," + b;
      ElementsJoined(a[1..], b);
      var rest := Elements(a[1..]);
      if a[0] != ',' {
        assert (rest + Elements(b))[0] == rest[0] && (rest + Elements(b))[1..] == rest[1..] + Elements(b);
      }
    }
  }

  lemma {:induction false} WithoutCommaOneElement(s: string)
    requires ',' !in s
    ensures Elements(s) == [s]
  {
    if s != "" {
      WithoutCommaOneElement(s[1..]);
      assert [s[0]] + s[1..] == s;
    }
  }

  /**
   * Every library that the configuration lists comes in its own order before the mandatory
   * ones, and "citus" comes before all of them when any name contains it.
   */
  lemma LibrariesKeepTheirOrder(value: string, own: string)
    ensures var all := (if own == "" then [] else Elements(own)) + Elements(value);
            var text := if own == "" then value else own + "," + value;
            Elements(MandatoryValue(LIBRARIES, value, own))
            == if Contains(text, "citus") then ["citus"] + all else all
  {
    hide Elements, Contains;
    var text := if own == "" then value else own + "," + value;
    ElementsJoined(own, value);
    ElementsJoined("citus", text);
    WithoutCommaOneElement("citus");
    assert "citus," + text == "citus" + "," + text;
  }

  /** For each exact name: mandatory over user over default, except for the list of libraries. */
  lemma ParametersAreLayered(defaults: map<string, string>, user: map<string, Value>, mandatory: map<string, string>,
      k: string)
    ensures var r := ParameterEntries(defaults, user, mandatory);
            && (k in r <==> k in mandatory || k in user || k in defaults)
            && (k in mandatory && k != LIBRARIES ==> r[k] == Text(mandatory[k]))
            && (k !in mandatory && k in user ==> r[k] == user[k])
            && (k !in mandatory && k !in user && k in defaults ==> r[k] == Text(defaults[k]))
            && (k in mandatory && k == LIBRARIES ==>
                  r[k] == Text(MandatoryValue(k, mandatory[k],
                                              if k in user then TextAt(user, k) else if k in defaults
                                                  then defaults[k] else "")))
  {
    var before := Texts(defaults) + user;
    assert k in user ==> before[k] == user[k];
    assert k !in user && k in defaults ==> before[k] == Text(defaults[k]);
    assert k in before <==> k in user || k in defaults;
  }

  /** The recommended rules are there exactly if neither the spec nor the configuration brings any. */
  lemma DefaultRulesStandIn(mandatory: seq<string>, rules: seq<string>, user: seq<Value>, defaults: seq<string>)
    ensures var hba := HbaEntries(mandatory, rules, user, defaults);
            && mandatory <= hba
            && (hba[|mandatory|..] == if rules == [] && (forall i :: 0 <= i < |user| ==> !user[i].Text?) then defaults
                                      else rules + TextsOf(user))
  {
    hide TextsOf;
    NoTexts(user);
    var added := rules + TextsOf(user);
    assert added == [] <==> rules == [] && TextsOf(user) == [];
    assert mandatory + rules + TextsOf(user) == mandatory + added;
    assert (mandatory + added)[|mandatory|..] == added && (mandatory + defaults)[|mandatory|..] == defaults;
  }

  lemma {:induction false} NoTexts(items: seq<Value>)
    ensures TextsOf(items) == [] <==> forall i :: 0 <= i < |items| ==> !items[i].Text?
  {
    if items != [] {
      NoTexts(items[1..]);
      assert forall i :: 0 < i < |items| ==> items[i] == items[1..][i - 1];
    }
  }

  // ----- Letter case -----

  function Lower(s: string): string {
    if s == "" then ""
    else [if 'A' <= s[0] <= 'Z' then (s[0] as int + 32) as char else s[0]] + Lower(s[1..])
  }

  /** PostgreSQL takes parameter names in any case. Nothing says otherwise about a mandatory parameter. */
  ghost predicate Undisputed(r: map<string, Value>, mandatory: map<string, string>) {
    forall k :: k in r && Lower(k) in mandatory ==> k in mandatory
  }

  /**
   * Mandatory parameters are stored in lower case, and they replace exactly that spelling. The
   * result has no second spelling of one exactly if the user's section has none.
   */
  lemma OtherSpellingsSurvive(defaults: map<string, string>, user: map<string, Value>, mandatory: map<string, string>)
    requires forall k :: k in defaults || k in mandatory ==> Lower(k) == k
    ensures Undisputed(ParameterEntries(defaults, user, mandatory), mandatory)
            <==> forall k :: k in user && Lower(k) in mandatory ==> Lower(k) == k
  {
    hide ParameterEntries, MandatoryValue, Lower;
    var r := ParameterEntries(defaults, user, mandatory);
    assert forall k :: k in r <==> k in r.Keys;
    if Undisputed(r, mandatory) {
      forall k | k in user && Lower(k) in mandatory ensures Lower(k) == k {
        assert k in r;
      }
    }
  }
}
