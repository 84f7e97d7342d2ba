/** Resolving the "log_directory" of Postgres (internal/postgres/validation.go) over lexically cleaned paths. */
module LogDirectory {
  // The components of a path. No components are "/" or ".".
  datatype Path = Path(rooted: bool, parts: seq<string>)

  // ----- Cleaning, as path.Clean and path.Join do -----

  /** The text between slashes. */
  function Split(s: string): (r: seq<string>)
    ensures |r| > 0
    ensures forall i :: 0 <= i < |r| ==> '/' !in r[i]
  {
    if s == "" then [""]
    else if s[0] == '/' then [""] + Split(s[1..])
    else
      var rest := Split(s[1..]);
      [[s[0]] + rest[0]] + rest[1..]
  }

  function Push(p: Path, part: string): Path {
    if part == "" || part == "." then p
    else if part != ".." then p.(parts := p.parts + [part])
    else if p.parts != [] && p.parts[|p.parts| - 1] != ".." then p.(parts := p.parts[..|p.parts| - 1])
    else if p.rooted then p
    else p.(parts := p.parts + [".."])
  }

  function PushAll(p: Path, parts: seq<string>): Path
    decreases |parts|
  {
    if parts == [] then p else PushAll(Push(p, parts[0]), parts[1..])
  }

  function Clean(s: string): Path { PushAll(Path(s != "" && s[0] == '/', []), Split(s)) }

  function Join(p: Path, parts: seq<string>): Path { PushAll(p, parts) }

  predicate IsName(part: string) { part != "" && part != "." && part != ".." && '/' !in part }

  /** Names only, after steps to parent directories that only a relative path can have. */
  ghost predicate IsClean(p: Path) {
    exists n: nat :: n <= |p.parts| && (p.rooted ==> n == 0) && UpThenDown(p.parts, n)
  }

  predicate UpThenDown(parts: seq<string>, n: nat)
    requires n <= |parts|
  {
    (forall i :: 0 <= i < n ==> parts[i] == "..") && forall i :: n <= i < |parts| ==> IsName(parts[i])
  }

  lemma PushKeepsClean(p: Path, part: string, n: nat) returns (m: nat)
    requires n <= |p.parts| && (p.rooted ==> n == 0) && UpThenDown(p.parts, n) && '/' !in part
    ensures var q := Push(p, part);
            && q.rooted == p.rooted && m <= |q.parts| && (p.rooted ==> m == 0)
            && UpThenDown(q.parts, m)
    ensures n <= m
  {
    m := if part == ".." && n == |p.parts| && !p.rooted then n + 1 else n;
  }

  lemma {:induction false} PushAllKeepsClean(p: Path, parts: seq<string>, n: nat) returns (m: nat)
    requires n <= |p.parts| && (p.rooted ==> n == 0) && UpThenDown(p.parts, n)
    requires forall i :: 0 <= i < |parts| ==> '/' !in parts[i]
    ensures var q := PushAll(p, parts);
            && q.rooted == p.rooted && m <= |q.parts| && (p.rooted ==> m == 0)
            && UpThenDown(q.parts, m)
    decreases |parts|
  {
    hide Push, UpThenDown;
    m := n;
    if parts != [] {
      m := PushKeepsClean(p, parts[0], n);
      m := PushAllKeepsClean(Push(p, parts[0]), parts[1..], m);
    }
  }

  lemma CleanIsClean(s: string)
    ensures IsClean(Clean(s)) && Clean(s).rooted == (s != "" && s[0] == '/')
  {
    hide PushAll;
    var n := PushAllKeepsClean(Path(s != "" && s[0] == '/', []), Split(s), 0);
  }

  lemma {:induction false} PushNames(p: Path, names: seq<string>)
    requires forall i :: 0 <= i < |names| ==> IsName(names[i])
    ensures PushAll(p, names) == p.(parts := p.parts + names)
    decreases |names|
  {
    if names == [] {
      assert p.parts + names == p.parts;
    } else {
      PushNames(Push(p, names[0]), names[1..]);
      assert (p.parts + [names[0]]) + names[1..] == p.parts + names;
    }
  }

  // ----- Text -----

  function Slashed(parts: seq<string>): string
    requires parts != []
  {
    if |parts| == 1 then parts[0] else parts[0] + (['/'] + Slashed(parts[1..]))
  }

  function Text(p: Path): string {
    if p.parts == [] then (if p.rooted then "/" else ".")
    else if p.rooted then ['/'] + Slashed(p.parts)
    else Slashed(p.parts)
  }

  lemma {:induction false} SplitPart(part: string, rest: string)
    requires '/' !in part
    ensures Split(part) == [part]
    ensures Split(part + (['/'] + rest)) == [part] + Split(rest)
  {
    if part == "" {
      assert part + (['/'] + rest) == ['/'] + rest;
    } else {
      SplitPart(part[1..], rest);
      assert (part + (['/'] + rest))[1..] == part[1..] + (['/'] + rest);
      assert [part[0]] + part[1..] == part;
      assert ([part[1..]] + Split(rest))[1..] == Split(rest);
    }
  }

  lemma {:induction false} SplitSlashed(parts: seq<string>)
    requires parts != [] && forall i :: 0 <= i < |parts| ==> '/' !in parts[i]
    ensures Split(Slashed(parts)) == parts
  {
    hide Split;
    if |parts| == 1 {
      SplitPart(parts[0], "");
    } else {
      SplitSlashed(parts[1..]);
      SplitPart(parts[0], Slashed(parts[1..]));
    }
  }

  lemma {:induction false} PushUps(n: nat, parts: seq<string>)
    requires n <= |parts| && UpThenDown(parts, n)
    ensures PushAll(Path(false, parts[..n]), parts[n..]) == Path(false, parts)
    ensures PushAll(Path(false, []), parts) == Path(false, parts)
  {
    PushNames(Path(false, parts[..n]), parts[n..]);
    assert parts[..n] + parts[n..] == parts;
    PushUpsFrom(0, n, parts);
    assert parts[..0] == [] && parts[0..] == parts;
  }

  lemma {:induction false} PushUpsFrom(i: nat, n: nat, parts: seq<string>)
    requires i <= n <= |parts| && UpThenDown(parts, n)
    ensures PushAll(Path(false, parts[..i]), parts[i..]) == PushAll(Path(false, parts[..n]), parts[n..])
    decreases n - i
  {
    if i < n {
      assert parts[i..][0] == parts[i] && parts[i..][1..] == parts[i + 1..]
          && parts[..i] + [parts[i]] == parts[..i + 1];
      PushUpsFrom(i + 1, n, parts);
    }
  }

  /** A clean path keeps its meaning as text, so cleaning is idempotent. */
  lemma TextRoundTrip(p: Path)
    requires IsClean(p)
    ensures Clean(Text(p)) == p
  {
    var n: nat :| n <= |p.parts| && (p.rooted ==> n == 0) && UpThenDown(p.parts, n);
    if p.parts == [] {
      SplitPart(".", "");
      assert Split("/") == ["", ""];
    } else {
      var body := Slashed(p.parts);
      SplitSlashed(p.parts);
      FirstOfSlashed(p.parts);
      if p.rooted {
        assert (['/'] + body)[1..] == body;
        assert Split(['/'] + body) == [""] + p.parts && ([""] + p.parts)[1..] == p.parts;
        PushNames(Path(true, []), p.parts);
      } else {
        PushUps(n, p.parts);
      }
    }
  }

  lemma FirstOfSlashed(parts: seq<string>)
    requires parts != [] && parts[0] != "" && '/' !in parts[0]
    ensures Slashed(parts) != "" && Slashed(parts)[0] != '/'
  {
    assert Slashed(parts)[0] == parts[0][0];
  }

  // ----- What Postgres owns -----

  const DATA := "pgdata"
  const TMP := "pgtmp"
  const WAL := "pgwal"

  predicate Digits(s: string) { s != "" && forall i :: 0 <= i < |s| ==> '0' <= s[i] <= '9' }

  predicate StartsWith(s: string, prefix: string) { prefix <= s }

  predicate EndsWith(s: string, suffix: string) { |suffix| <= |s| && s[|s| - |suffix|..] == suffix }

  /** pg17, pgsql_tmp or pg17_wal */
  predicate IsPostgresDirectory(name: string) {
    || name == "pgsql_tmp"
    || (StartsWith(name, "pg") && Digits(name[2..]))
    || (StartsWith(name, "pg") && EndsWith(name, "_wal") && |name| > 6 && Digits(name[2..|name| - 4]))
  }

  /** The expression for absolute paths: the first directory on one of the volumes is one of Postgres. */
  predicate SensitiveAbsolute(p: Path) {
    p.rooted && |p.parts| > 1 && (p.parts[0] == DATA || p.parts[0] == TMP || p.parts[0] == WAL)
        && IsPostgresDirectory(p.parts[1])
  }

  predicate IsHex(c: char) { '0' <= c <= '9' || 'a' <= c <= 'f' || 'A' <= c <= 'F' }

  predicate SensitiveName(name: string) {
    || StartsWith(name, "archive") || StartsWith(name, "base") || StartsWith(name, "current")
        || StartsWith(name, "global")
    || StartsWith(name, "patroni") || StartsWith(name, "pg_") || StartsWith(name, "PG_")
        || StartsWith(name, "postgresql")
    || StartsWith(name, "postmaster")
    || (|name| >= 24 && forall i :: 0 <= i < 24 ==> IsHex(name[i]))
  }

  /** The expression for relative paths. Its second half looks at the end of any path. */
  predicate SensitiveRelative(p: Path) {
    && p.parts != []
    && (|| (!p.rooted && SensitiveName(p.parts[0]))
        || EndsWith(p.parts[|p.parts| - 1], ".history") || EndsWith(p.parts[|p.parts| - 1], ".partial"))
  }

  // ----- Resolving -----

  /** A path without the steps up in front of anything else. */
  function WithoutUps(p: Path): Path
    decreases |p.parts|
  {
    if !p.rooted && |p.parts| > 1 && p.parts[0] == ".." then WithoutUps(p.(parts := p.parts[1..])) else p
  }

  predicate IsUnsafe(p: Path) { p.parts == [] || SensitiveAbsolute(p) || SensitiveRelative(p) }

  function Replacement(p: Path): Path {
    var volume := if p.rooted && p.parts != [] && StartsWith(p.parts[0], TMP) then TMP
                  else if p.rooted && p.parts != [] && StartsWith(p.parts[0], WAL) then WAL
                  else DATA;
    Path(true, [volume, "logs", "postgres"])
  }

  // The resolved path, and why it is not the input.
  datatype Resolved = Resolved(directory: Path, unsafe: bool, relative: bool)

  function Resolve(dataDir: Path, input: Path): Resolved {
    var p := WithoutUps(input);
    if p == Path(false, ["log"]) then Resolved(Join(dataDir, ["log"]), false, false)
    else if IsUnsafe(p) then Resolved(Replacement(p), true, false)
    else if !p.rooted then Resolved(Join(dataDir, p.parts), false, true)
    else Resolved(p, false, false)
  }

  method ResolveLogDirectory(dataDir: Path, input: string) returns (r: Resolved)
    ensures r == Resolve(dataDir, Clean(input))
  {
    var directory := Clean(input);
    while !directory.rooted && |directory.parts| > 1 && directory.parts[0] == ".."
      invariant WithoutUps(directory) == WithoutUps(Clean(input))
      decreases |directory.parts|
    {
      directory := directory.(parts := directory.parts[1..]);
    }
    if directory == Path(false, ["log"]) {
      return Resolved(Join(dataDir, ["log"]), false, false);
    } else if directory.parts == [] || SensitiveAbsolute(directory) || SensitiveRelative(directory) {
      if directory.rooted && directory.parts != [] && StartsWith(directory.parts[0], TMP) {
        return Resolved(Path(true, [TMP, "logs", "postgres"]), true, false);
      }
      if directory.rooted && directory.parts != [] && StartsWith(directory.parts[0], WAL) {
        return Resolved(Path(true, [WAL, "logs", "postgres"]), true, false);
      }
      return Resolved(Path(true, [DATA, "logs", "postgres"]), true, false);
    } else if !directory.rooted {
      return Resolved(Join(dataDir, directory.parts), false, true);
    }
    return Resolved(directory, false, false);
  }

  // ----- What is resolved -----

  /** The path is the directory or lies below it. */
  predicate Inside(p: Path, directory: Path) { p.rooted == directory.rooted && directory.parts <= p.parts }

  predicate IsAbsolute(p: Path) { p.rooted && forall i :: 0 <= i < |p.parts| ==> IsName(p.parts[i]) }

  lemma {:induction false} WithoutUpsIsNames(p: Path, n: nat)
    requires n <= |p.parts| && (p.rooted ==> n == 0) && UpThenDown(p.parts, n)
    ensures var q := WithoutUps(p);
            q.rooted == p.rooted && (q == Path(false, [".."]) || forall i :: 0 <= i < |q.parts| ==> IsName(q.parts[i]))
    decreases n
  {
    if !p.rooted && |p.parts| > 1 && p.parts[0] == ".." {
      assert n > 0;
      WithoutUpsIsNames(p.(parts := p.parts[1..]), n - 1);
    }
  }

  lemma StrippedIsNames(p: Path)
    requires IsClean(p)
    ensures var q := WithoutUps(p);
            q.rooted == p.rooted && (q == Path(false, [".."]) || forall i :: 0 <= i < |q.parts| ==> IsName(q.parts[i]))
  {
    var n: nat :| n <= |p.parts| && (p.rooted ==> n == 0) && UpThenDown(p.parts, n);
    WithoutUpsIsNames(p, n);
  }

  lemma LogsIsAbsolute(p: Path)
    ensures IsAbsolute(Replacement(p)) && !IsUnsafe(Replacement(p))
  {
    var r := Replacement(p).parts;
    assert r[1] == "logs" && r[2] == "postgres";
    assert "logs"[0] == 'l' && "postgres"[0] == 'p' && "postgres"[|"postgres"| - 1] == 's';
    assert r[0][0] == 'p' && |r[0]| > 2;
    assert ".history"[|".history"| - 1] == 'y' && ".partial"[|".partial"| - 1] == 'l';
  }

  /** Whatever the input, the result is an absolute clean path. */
  lemma ResultIsAbsolute(dataDir: Path, input: Path)
    requires IsAbsolute(dataDir) && IsClean(input)
    ensures IsAbsolute(Resolve(dataDir, input).directory)
  {
    hide IsUnsafe, WithoutUps, Replacement, IsName;
    StrippedIsNames(input);
    var p := WithoutUps(input);
    LogsIsAbsolute(p);
    LogIsName();
    PushNames(dataDir, ["log"]);
    if p == Path(false, [".."]) {
      JoinUp(dataDir);
    } else {
      PushNames(dataDir, p.parts);
    }
  }

  lemma LogIsName()
    ensures IsName("log")
  {
    assert "log"[0] == 'l';
  }

  lemma JoinUp(dataDir: Path)
    requires IsAbsolute(dataDir)
    ensures Join(dataDir, [".."]) == Path(true, if dataDir.parts == [] then []
            else dataDir.parts[..|dataDir.parts| - 1])
  {
    assert PushAll(Push(dataDir, ".."), [".."][1..]) == Push(dataDir, "..");
  }

  /** An accepted absolute path is the one that was asked for, and not inside a directory of Postgres. */
  lemma AcceptedAbsoluteIsNotSensitive(dataDir: Path, input: Path)
    requires IsClean(input) && input.rooted
    ensures var r := Resolve(dataDir, input);
            && (r.unsafe <==> IsUnsafe(input)) && !r.relative
            && (!r.unsafe ==> r.directory == input)
            && !SensitiveAbsolute(r.directory)
  {
    hide IsPostgresDirectory, SensitiveRelative;
    LogsIsAbsolute(input);
  }

  /**
   * A relative path that is accepted ends up under the data directory exactly if something other
   * than ".." is left of it. A bare step up is not stripped, so it resolves to the directory that
   * holds the data directory.
   */
  lemma AcceptedRelativeStaysInside(dataDir: Path, input: Path)
    requires IsAbsolute(dataDir) && dataDir.parts != [] && IsClean(input) && !input.rooted
    requires !Resolve(dataDir, input).unsafe
    ensures Inside(Resolve(dataDir, input).directory, dataDir) <==> WithoutUps(input).parts != [".."]
    ensures WithoutUps(input).parts == [".."] ==>
              Resolve(dataDir, input).directory == Path(true, dataDir.parts[..|dataDir.parts| - 1])
  {
    hide IsUnsafe, WithoutUps, Replacement, IsName;
    StrippedIsNames(input);
    var p := WithoutUps(input);
    LogIsName();
    PushNames(dataDir, ["log"]);
    if p == Path(false, [".."]) {
      JoinUp(dataDir);
      assert "log"[0] == 'l' && ".."[0] == '.';
    } else {
      PushNames(dataDir, p.parts);
    }
  }

  /** Which inputs are a bare step up: any number of them and nothing else. */
  lemma {:induction false} OnlyUpsAreOneUp(p: Path)
    requires IsClean(p) && !p.rooted
    ensures WithoutUps(p).parts == [".."] <==> p.parts != [] && forall i :: 0 <= i < |p.parts| ==> p.parts[i] == ".."
    decreases |p.parts|
  {
    var n: nat :| n <= |p.parts| && (p.rooted ==> n == 0) && UpThenDown(p.parts, n);
    if |p.parts| > 1 && p.parts[0] == ".." {
      var rest := p.(parts := p.parts[1..]);
      assert UpThenDown(rest.parts, n - 1);
      OnlyUpsAreOneUp(rest);
      assert forall i :: 0 < i < |p.parts| ==> p.parts[i] == rest.parts[i - 1];
    }
  }

  /** Resolving the result again gives the same, unless it lies where Postgres rules, as relative results can. */
  lemma ResultsAreFixed(dataDir: Path, input: Path)
    requires IsAbsolute(dataDir) && IsClean(input)
    ensures var r := Resolve(dataDir, input);
            && (Resolve(dataDir, r.directory).directory == r.directory <==> !IsUnsafe(r.directory))
            && (r.unsafe || (!r.relative && WithoutUps(input).rooted) ==> !IsUnsafe(r.directory))
  {
    hide IsUnsafe, IsName, Replacement;
    ResultIsAbsolute(dataDir, input);
    var r := Resolve(dataDir, input);
    assert WithoutUps(r.directory) == r.directory;
    LogsIsAbsolute(WithoutUps(input));
    LogsIsAbsolute(r.directory);
  }
}
