/** Logging a stream line by line (cmd/pgbackrest/main.go). */
module StreamLines {
  // A logged line, or the note that reading failed.
  datatype Entry = Line(text: string) | ReadError

  function Concat(pieces: seq<string>): string {
    if pieces == [] then "" else pieces[0] + Concat(pieces[1..])
  }

  function UpToNewline(s: string): (r: string)
    ensures r <= s && '\n' !in r && (|r| < |s| ==> s[|r|] == '\n')
  {
    if s == "" || s[0] == '\n' then "" else [s[0]] + UpToNewline(s[1..])
  }

  /** The lines that a newline ends. */
  function Ended(s: string): seq<Entry>
    decreases |s|
  {
    var line := UpToNewline(s);
    if |line| == |s| then [] else [Line(line)] + Ended(s[|line| + 1..])
  }

  /** What follows the last newline. */
  function Tail(s: string): string
    decreases |s|
  {
    var line := UpToNewline(s);
    if |line| == |s| then s else Tail(s[|line| + 1..])
  }

  lemma {:induction false} NewlineFirst(a: string, b: string)
    requires '\n' in a
    ensures UpToNewline(a + b) == UpToNewline(a) && |UpToNewline(a)| < |a|
  {
    if a[0] != '\n' {
      assert (a + b)[1..] == a[1..] + b;
      NewlineFirst(a[1..], b);
    }
  }

  lemma {:induction false} NoNewline(a: string)
    requires '\n' !in a
    ensures UpToNewline(a) == a && Ended(a) == [] && Tail(a) == a
  {
    if a != "" {
      NoNewline(a[1..]);
    }
  }

  /** Reading more only adds to what is left of the last line. */
  lemma {:induction false} Continues(a: string, b: string)
    ensures Ended(a + b) == Ended(a) + Ended(Tail(a) + b) && Tail(a + b) == Tail(Tail(a) + b)
    decreases |a|
  {
    if '\n' in a {
      NewlineFirst(a, b);
      var n := |UpToNewline(a)|;
      assert (a + b)[n + 1..] == a[n + 1..] + b;
      Continues(a[n + 1..], b);
    } else {
      NoNewline(a);
    }
  }

  method Index(s: string) returns (found: bool, i: nat)
    ensures found <==> '\n' in s
    ensures found ==> i < |s| && s[..i] == UpToNewline(s)
  {
    var line := UpToNewline(s);
    found, i := |line| < |s|, |line|;
  }

  /** Logs every line that a newline ends, and keeps what follows. */
  method LogEndedLines(text: string) returns (log: seq<Entry>, line: string)
    ensures log == Ended(text) && line == Tail(text) && '\n' !in line
  {
    hide Ended, Tail;
    log, line := [], text;
    var found, idx := Index(line);
    while found
      invariant found <==> '\n' in line
      invariant found ==> 0 <= idx < |line| && line[..idx] == UpToNewline(line)
      invariant Ended(text) == log + Ended(line) && Tail(text) == Tail(line)
      decreases |line|
    {
      NextLine(line);
      log := log + [Line(line[..idx])];
      line := line[idx + 1..];
      found, idx := Index(line);
    }
    NoNewline(line);
  }

  /** Each read returns some text. The last one also says whether the stream ended or failed. */
  method StreamUsingPrefix(pieces: seq<string>, failed: bool) returns (log: seq<Entry>)
    ensures var all := Concat(pieces);
            log == Ended(all) + (if failed then [ReadError] else [])
                + (if Tail(all) == "" then [] else [Line(Tail(all))])
  {
    hide Ended, Tail;
    log := [];
    var line := "";
    ghost var all := Concat(pieces);
    assert pieces[0..] == pieces && line + all == all && log + Ended(all) == Ended(all);
    for r := 0 to |pieces|
      invariant '\n' !in line
      invariant Ended(all) == log + Ended(line + Concat(pieces[r..]))
      invariant Tail(all) == Tail(line + Concat(pieces[r..]))
    {
      assert pieces[r..][0] == pieces[r] && pieces[r..][1..] == pieces[r + 1..];
      ghost var rest := Concat(pieces[r + 1..]);
      assert line + Concat(pieces[r..]) == (line + pieces[r]) + rest;
      Continues(line + pieces[r], rest);
      var ended, tail := LogEndedLines(line + pieces[r]);
      log, line := log + ended, tail;
    }
    assert pieces[|pieces|..] == [] && line + "" == line;
    NoNewline(line);
    if failed {
      log := log + [ReadError];
    }
    if line != "" {
      log := log + [Line(line)];
    }
  }

  lemma NextLine(s: string)
    requires '\n' in s
    ensures var n := |UpToNewline(s)|;
            n < |s| && s[..n] == UpToNewline(s) && Ended(s) == [Line(s[..n])] + Ended(s[n + 1..])
                && Tail(s) == Tail(s[n + 1..])
  {
  }

  /** The logged lines, joined again with newlines, are the text. */
  lemma {:induction false} LinesAreTheText(s: string)
    ensures s == Joined(Ended(s)) + Tail(s) && '\n' !in Tail(s)
    decreases |s|
  {
    hide Ended, Tail, Joined;
    if '\n' in s {
      NextLine(s);
      var n := |UpToNewline(s)|;
      LinesAreTheText(s[n + 1..]);
      assert s == s[..n] + (['\n'] + s[n + 1..]);
      JoinedFirst(s[..n], Ended(s[n + 1..]));
    } else {
      NoNewline(s);
      JoinedNothing();
    }
  }

  lemma JoinedNothing()
    ensures Joined([]) == ""
  {
  }

  function Joined(entries: seq<Entry>): string {
    if entries == [] then ""
    else (if entries[0].Line? then entries[0].text + ['\n'] else "") + Joined(entries[1..])
  }

  lemma JoinedFirst(text: string, rest: seq<Entry>)
    ensures Joined([Line(text)] + rest) == text + ['\n'] + Joined(rest)
  {
    assert ([Line(text)] + rest)[1..] == rest;
  }
}
