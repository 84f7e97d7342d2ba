/** The user database of PgBouncer (internal/pgbouncer/config.go) and how PgBouncer reads it. */
module AuthFile {
  import opened Options
  import opened HbaSyntax

  datatype User = User(name: string, password: string)

  const OPERATOR_USER := "_crunchypgbouncer"
  const REPLICATION_USER := "logicalrepl"
  const ADMIN_USER := "_crunchypgbounceradmin"

  predicate Reserved(name: string, adminPassword: string) {
    name == OPERATOR_USER || name == REPLICATION_USER || (adminPassword != "" && name == ADMIN_USER)
  }

  predicate HasNewline(s: string) { '\n' in s || '\r' in s }

  predicate Conflicts(u: User, adminPassword: string) { Reserved(u.name, adminPassword) || HasNewline(u.password) }

  function Entries(password: string, adminPassword: string, users: seq<User>): seq<User> {
    [User(OPERATOR_USER, password)] + (if adminPassword != "" then [User(ADMIN_USER, adminPassword)] + users else users)
  }

  function Text(users: seq<User>): string {
    if users == [] then ""
    else Quote(users[0].name) + ([' '] + (Quote(users[0].password) + (['\n'] + Text(users[1..]))))
  }

  method CheckUsers(adminPassword: string, users: seq<User>) returns (ok: bool)
    ensures ok <==> forall i :: 0 <= i < |users| ==> !Conflicts(users[i], adminPassword)
  {
    for i := 0 to |users|
      invariant forall j :: 0 <= j < i ==> !Conflicts(users[j], adminPassword)
    {
      if Reserved(users[i].name, adminPassword) {
        return false;
      }
      if HasNewline(users[i].password) {
        return false;
      }
    }
    return true;
  }

  /** The users of the Secret come in the order of their names. */
  method AuthFileContents(password: string, adminPassword: string, users: seq<User>) returns (r: Option<string>)
    ensures r.None? <==> exists i :: 0 <= i < |users| && Conflicts(users[i], adminPassword)
    ensures r.Some? ==> r.value == Text(Entries(password, adminPassword, users))
  {
    hide Conflicts, Line, Text, Entries;
    var ok := CheckUsers(adminPassword, users);
    if !ok {
      return None;
    }
    var b := Line(User(OPERATOR_USER, password));
    if adminPassword != "" {
      b := b + Line(User(ADMIN_USER, adminPassword));
    }
    var lines := WriteUsers(users);
    EntriesText(password, adminPassword, users);
    return Some(b + lines);
  }

  lemma EntriesText(password: string, adminPassword: string, users: seq<User>)
    ensures Text(Entries(password, adminPassword, users))
            == if adminPassword != ""
               then Line(User(OPERATOR_USER, password)) + Line(User(ADMIN_USER, adminPassword)) + Text(users)
               else Line(User(OPERATOR_USER, password)) + Text(users)
  {
    hide Line, Text;
    var operator, admin := User(OPERATOR_USER, password), User(ADMIN_USER, adminPassword);
    if adminPassword != "" {
      TwoFirst(operator, admin, users);
    } else {
      TextFirst(operator, users);
    }
  }

  lemma TwoFirst(a: User, b: User, rest: seq<User>)
    ensures Text([a] + ([b] + rest)) == Line(a) + Line(b) + Text(rest)
  {
    hide Line, Text;
    TextFirst(a, [b] + rest);
    TextFirst(b, rest);
  }

  function Line(u: User): string { Quote(u.name) + ([' '] + (Quote(u.password) + ['\n'])) }

  method WriteUsers(users: seq<User>) returns (b: string)
    ensures b == Text(users)
  {
    hide Line, Text;
    NobodyIsNothing();
    b := "";
    assert users[0..] == users && b + Text(users) == Text(users);
    for i := 0 to |users|
      invariant b + Text(users[i..]) == Text(users)
    {
      assert users[i..] == [users[i]] + users[i + 1..];
      TextFirst(users[i], users[i + 1..]);
      ghost var before := b;
      b := b + Line(users[i]);
      assert b + Text(users[i + 1..]) == before + Text(users[i..]);
    }
    assert users[|users|..] == [] && b + "" == b;
  }

  lemma NobodyIsNothing()
    ensures Text([]) == ""
  {
  }

  lemma TextFirst(u: User, rest: seq<User>)
    ensures Text([u] + rest) == Quote(u.name) + ([' '] + (Quote(u.password) + (['\n'] + Text(rest))))
    ensures Text([u] + rest) == Line(u) + Text(rest)
  {
    hide Quote;
    assert ([u] + rest)[1..] == rest;
  }

  // ----- PgBouncer -----

  /** A quoted field after its opening quote, and what follows its closing one. Two quotes stand for one. */
  function ReadField(s: string): (r: Option<(string, string)>)
    ensures r.Some? ==> |r.value.1| < |s|
    decreases |s|
  {
    if s == "" then None
    else if s[0] != '"' then Prepend(s[0], ReadField(s[1..]))
    else if |s| > 1 && s[1] == '"' then Prepend('"', ReadField(s[2..]))
    else Some(("", s[1..]))
  }

  function Prepend(c: char, r: Option<(string, string)>): Option<(string, string)> {
    if r.None? then None else Some(([c] + r.value.0, r.value.1))
  }

  /** Lines of two quoted fields with a blank between them. */
  function Read(s: string): Option<seq<User>>
    decreases |s|
  {
    if s == "" then Some([])
    else if s[0] != '"' then None
    else
      var name := ReadField(s[1..]);
      if name.None? || |name.value.1| < 2 || name.value.1[0] != ' ' || name.value.1[1] != '"' then None
      else
        var password := ReadField(name.value.1[2..]);
        if password.None? || password.value.1 == "" || password.value.1[0] != '\n' then None
        else
          var rest := Read(password.value.1[1..]);
          if rest.None? then None else Some([User(name.value.0, password.value.0)] + rest.value)
  }

  lemma ReadStep(c: char, rest: string)
    ensures c != '"' ==> ReadField([c] + rest) == Prepend(c, ReadField(rest))
    ensures ReadField(['"', '"'] + rest) == Prepend('"', ReadField(rest))
    ensures rest != "" && rest[0] != '"' ==> ReadField(['"'] + rest) == Some(("", rest))
  {
    assert ([c] + rest)[1..] == rest && (['"', '"'] + rest)[2..] == rest && (['"'] + rest)[1..] == rest;
  }

  lemma {:induction false} FieldIsRead(value: string, tail: string)
    requires tail != "" && tail[0] != '"'
    ensures ReadField(DoubleQuotes(value) + (['"'] + tail)) == Some((value, tail))
    decreases |value|
  {
    hide ReadField;
    if value == "" {
      assert DoubleQuotes(value) + (['"'] + tail) == ['"'] + tail;
      ReadStep('"', tail);
    } else {
      FieldIsRead(value[1..], tail);
      var rest := DoubleQuotes(value[1..]) + (['"'] + tail);
      ReadStep(value[0], rest);
      assert [value[0]] + value[1..] == value;
      if value[0] == '"' {
        assert DoubleQuotes(value) + (['"'] + tail) == ['"', '"'] + rest;
      } else {
        assert DoubleQuotes(value) + (['"'] + tail) == [value[0]] + rest;
      }
    }
  }

  /** Reading gives exactly the users that were written, with the quotes and spaces in their fields. */
  lemma {:induction false} UsersAreRead(users: seq<User>)
    ensures Read(Text(users)) == Some(users)
  {
    hide ReadField, DoubleQuotes;
    if users != [] {
      var u, rest := users[0], Text(users[1..]);
      UsersAreRead(users[1..]);
      var afterPassword := ['\n'] + rest;
      var afterName := [' '] + (Quote(u.password) + afterPassword);
      FieldIsRead(u.name, afterName);
      FieldIsRead(u.password, afterPassword);
      var s := Text(users);
      assert s == ['"'] + (DoubleQuotes(u.name) + (['"'] + afterName));
      assert s[1..] == DoubleQuotes(u.name) + (['"'] + afterName);
      assert afterName[2..] == DoubleQuotes(u.password) + (['"'] + afterPassword);
      assert afterPassword[1..] == rest;
      assert [u] + users[1..] == users;
    }
  }

  /** When the file is written, no user of the Secret stands for one of the operator's. */
  lemma OperatorUsersAreTheirOwn(password: string, adminPassword: string, users: seq<User>, i: nat)
    requires forall j :: 0 <= j < |users| ==> !Conflicts(users[j], adminPassword)
    requires i < |Entries(password, adminPassword, users)|
    ensures var e := Entries(password, adminPassword, users);
            && (e[i].name == OPERATOR_USER <==> i == 0) && e[0].password == password
            && (adminPassword != "" ==> (e[i].name == ADMIN_USER <==> i == 1) && e[1].password == adminPassword)
            && e[i].name != REPLICATION_USER
  {
    assert OPERATOR_USER[0] == '_' && ADMIN_USER[0] == '_' && REPLICATION_USER[0] == 'l';
    assert |ADMIN_USER| != |OPERATOR_USER|;
  }
}
