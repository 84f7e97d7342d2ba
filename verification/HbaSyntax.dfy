/**
 * How PostgreSQL reads pg_hba.conf: lines, fields, and tokens with quotes and commas, as its
 * documentation describes the file. File inclusion is not followed.
 */
module HbaSyntax {
  import opened Options

  // A token remembers whether it began with a quote: only unquoted tokens can be keywords or groups.
  datatype Token = Token(text: string, quoted: bool)

  predicate Blank(c: char) { c == ' ' || c == '\t' || c == '\r' }

  // ----- Tokens -----

  function SkipBlanksAndCommas(s: string): (r: string)
    ensures |r| <= |s| && (r == "" || (!Blank(r[0]) && r[0] != ','))
  {
    if s != "" && (Blank(s[0]) || s[0] == ',') then SkipBlanksAndCommas(s[1..]) else s
  }

  // What has been read of a token so far.
  datatype Scan = Scan(text: string, inQuote: bool, wasQuote: bool, sawQuote: bool, initialQuote: bool)

  const NOTHING_READ := Scan("", false, false, false, false)

  // A token, whether a comma ended it, and the rest of the line.
  datatype Lexeme = Lexeme(token: Option<Token>, comma: bool, rest: string)

  function Advance(t: Scan, c: char): Scan {
    var text := if c != '"' || t.wasQuote then t.text + [c] else t.text;
    var isQuote := c == '"';
    Scan(text,
         if isQuote then !t.inQuote else t.inQuote,
         if t.inQuote && isQuote then !t.wasQuote else false,
         t.sawQuote || isQuote,
         t.initialQuote || (isQuote && text == ""))
  }

  function Finish(t: Scan): Option<Token> {
    if t.sawQuote || t.text != "" then Some(Token(t.text, t.initialQuote)) else None
  }

  /** Reads a token up to the end, a blank or a comma outside quotes, or a comment. */
  function ReadToken(s: string, t: Scan): (r: Lexeme)
    ensures |r.rest| <= |s|
    ensures t == NOTHING_READ && s != "" && !Blank(s[0]) && s[0] != ',' && r.token.Some? ==> |r.rest| < |s|
    decreases |s|
  {
    if s == "" || (Blank(s[0]) && !t.inQuote) then Lexeme(Finish(t), false, s)
    else if s[0] == '#' && !t.inQuote then Lexeme(Finish(t), false, "")
    else if s[0] == ',' && !t.inQuote then Lexeme(Finish(t), true, s)
    else ReadToken(s[1..], Advance(t, s[0]))
  }

  function NextToken(s: string): (r: Lexeme)
    ensures r.token.Some? ==> |r.rest| < |s|
  {
    ReadToken(SkipBlanksAndCommas(s), NOTHING_READ)
  }

  // ----- Fields -----

  /** Tokens joined by commas make one field. */
  function ReadField(s: string): (r: (seq<Token>, string))
    ensures r.0 != [] ==> |r.1| < |s|
    decreases |s|
  {
    var lexeme := NextToken(s);
    if lexeme.token.None? then ([], lexeme.rest)
    else if !lexeme.comma then ([lexeme.token.value], lexeme.rest)
    else
      var more := ReadField(lexeme.rest);
      ([lexeme.token.value] + more.0, more.1)
  }

  function Fields(s: string): seq<seq<Token>>
    decreases |s|
  {
    var field := ReadField(s);
    if field.0 == [] then [] else [field.0] + Fields(field.1)
  }

  // ----- Records -----

  datatype Origin = Local | Host | HostSSL | HostNoSSL | HostGSSEnc | HostNoGSSEnc

  function OriginOf(word: string): Option<Origin> {
    if word == "local" then Some(Local)
    else if word == "host" then Some(Host)
    else if word == "hostssl" then Some(HostSSL)
    else if word == "hostnossl" then Some(HostNoSSL)
    else if word == "hostgssenc" then Some(HostGSSEnc)
    else if word == "hostnogssenc" then Some(HostNoGSSEnc)
    else None
  }

  // A line that is no record is blank, or Bad: it keeps PostgreSQL from loading the file.
  datatype Line =
    | Empty
    | Bad
    | Record(origin: Origin, databases: seq<Token>, users: seq<Token>, address: Option<Token>, auth: string,
             options: seq<(string, string)>)

  /** An option is a name and a value around the first equal sign. */
  function SplitOption(text: string): Option<(string, string)> {
    if text == "" then None
    else if text[0] == '=' then Some(("", text[1..]))
    else
      var rest := SplitOption(text[1..]);
      if rest.None? then None else Some(([text[0]] + rest.value.0, rest.value.1))
  }

  function SplitOptions(tokens: seq<Token>): Option<seq<(string, string)>> {
    if tokens == [] then Some([])
    else
      var option, rest := SplitOption(tokens[0].text), SplitOptions(tokens[1..]);
      if option.None? || rest.None? then None else Some([option.value] + rest.value)
  }

  function Flatten(fields: seq<seq<Token>>): seq<Token> {
    if fields == [] then [] else fields[0] + Flatten(fields[1..])
  }

  function ParseFields(fields: seq<seq<Token>>): Line {
    if fields == [] then Empty
    else if |fields[0]| != 1 || OriginOf(fields[0][0].text).None? then Bad
    else
      var origin := OriginOf(fields[0][0].text).value;
      var auth := if origin.Local? then 3 else 4;
      if |fields| <= auth || |fields[auth]| != 1 || (!origin.Local? && |fields[3]| != 1) then Bad
      else
        var options := SplitOptions(Flatten(fields[auth + 1..]));
        if options.None? then Bad
        else Record(origin, fields[1], fields[2], if origin.Local? then None else Some(fields[3][0]),
                    fields[auth][0].text, options.value)
  }

  function ParseLine(line: string): Line { ParseFields(Fields(line)) }

  // ----- Quoting -----

  function DoubleQuotes(value: string): string {
    if value == "" then "" else (if value[0] == '"' then ['"', '"'] else [value[0]]) + DoubleQuotes(value[1..])
  }

  function Quote(value: string): string { ['"'] + DoubleQuotes(value) + ['"'] }

  /** A token ends here: at the end of the line, a blank, or a comma. */
  predicate Ends(tail: string) { tail == "" || Blank(tail[0]) || tail[0] == ',' }

  /** One character further into a token. */
  lemma ReadStep(c: char, rest: string, t: Scan)
    requires t.inQuote || (!Blank(c) && c != ',' && c != '#')
    ensures ReadToken([c] + rest, t) == ReadToken(rest, Advance(t, c))
  {
    assert ([c] + rest)[1..] == rest;
  }

  lemma {:induction false} ReadQuoted(value: string, tail: string, t: Scan)
    requires t.inQuote && !t.wasQuote && t.sawQuote && t.initialQuote
    ensures ReadToken(DoubleQuotes(value) + ['"'] + tail, t)
            == ReadToken(tail, Scan(t.text + value, false, true, true, true))
    decreases |value|
  {
    hide ReadToken;
    if value == "" {
      assert DoubleQuotes(value) + ['"'] + tail == ['"'] + tail;
      ReadStep('"', tail, t);
      assert t.text + value == t.text;
    } else {
      var rest := DoubleQuotes(value[1..]) + ['"'] + tail;
      var after := t.(text := t.text + [value[0]]);
      assert t.text + value == after.text + value[1..];
      ReadQuoted(value[1..], tail, after);
      if value[0] == '"' {
        assert DoubleQuotes(value) + ['"'] + tail == ['"'] + (['"'] + rest);
        ReadStep('"', ['"'] + rest, t);
        ReadStep('"', rest, Advance(t, '"'));
      } else {
        assert DoubleQuotes(value) + ['"'] + tail == [value[0]] + rest;
        ReadStep(value[0], rest, t);
      }
    }
  }

  /** Reading a quoted value, with what follows it, from where a quote may open. */
  lemma ReadQuote(value: string, tail: string, t: Scan)
    requires !t.inQuote && !t.wasQuote && (t == NOTHING_READ || (t.sawQuote && t.initialQuote))
    ensures ReadToken(Quote(value) + tail, t) == ReadToken(tail, Scan(t.text + value, false, true, true, true))
  {
    hide ReadToken, DoubleQuotes;
    assert Quote(value) + tail == ['"'] + (DoubleQuotes(value) + ['"'] + tail);
    ReadStep('"', DoubleQuotes(value) + ['"'] + tail, t);
    ReadQuoted(value, tail, Advance(t, '"'));
  }

  lemma NothingToSkip(s: string)
    requires s != "" && !Blank(s[0]) && s[0] != ','
    ensures NextToken(s) == ReadToken(s, NOTHING_READ)
  {
  }

  /** A quoted value is read back as it was, whatever characters it has, and is no keyword. */
  lemma QuoteRoundTrip(value: string, tail: string)
    requires Ends(tail)
    ensures NextToken(Quote(value) + tail) == Lexeme(Some(Token(value, true)), tail != "" && tail[0] == ',', tail)
  {
    ReadQuote(value, tail, NOTHING_READ);
    assert "" + value == value;
  }

  /** Characters that stand for themselves outside quotes. */
  predicate Bare(c: char) { !Blank(c) && c != ',' && c != '#' && c != '"' }

  predicate IsWord(word: string) { word != "" && forall i :: 0 <= i < |word| ==> Bare(word[i]) }

  lemma {:induction false} ReadBare(word: string, tail: string, t: Scan)
    requires (forall i :: 0 <= i < |word| ==> Bare(word[i])) && Ends(tail)
    requires !t.inQuote && !t.wasQuote
    ensures ReadToken(word + tail, t)
            == Lexeme(Finish(t.(text := t.text + word)), tail != "" && tail[0] == ',', tail)
    decreases |word|
  {
    if word == "" {
      assert word + tail == tail && t.text + word == t.text;
    } else {
      assert (word + tail)[1..] == word[1..] + tail;
      assert t.text + word == (t.text + [word[0]]) + word[1..];
      ReadBare(word[1..], tail, Advance(t, word[0]));
    }
  }

  lemma WordRoundTrip(word: string, tail: string)
    requires IsWord(word) && Ends(tail)
    ensures NextToken(word + tail) == Lexeme(Some(Token(word, false)), tail != "" && tail[0] == ',', tail)
  {
    ReadBare(word, tail, NOTHING_READ);
    assert "" + word == word;
  }

  /** A quoted name, an equal sign and a quoted value make one token. */
  lemma OptionRoundTrip(name: string, value: string, tail: string)
    requires Ends(tail)
    ensures NextToken(Quote(name) + (['='] + (Quote(value) + tail)))
            == Lexeme(Some(Token(name + ['='] + value, true)), tail != "" && tail[0] == ',', tail)
  {
    var mid := ['='] + (Quote(value) + tail);
    NothingToSkip(Quote(name) + mid);
    ReadEqual(name, value, tail);
    ReadEnd(tail, Scan(name + ['='] + value, false, true, true, true));
  }

  lemma ReadEqual(name: string, value: string, tail: string)
    ensures ReadToken(Quote(name) + (['='] + (Quote(value) + tail)), NOTHING_READ)
            == ReadToken(tail, Scan(name + ['='] + value, false, true, true, true))
  {
    hide ReadToken, Quote;
    var mid := ['='] + (Quote(value) + tail);
    ReadQuote(name, mid, NOTHING_READ);
    assert "" + name == name;
    var t := Scan(name, false, true, true, true);
    ReadStep('=', Quote(value) + tail, t);
    ReadQuote(value, tail, Advance(t, '='));
    assert (name + ['=']) + value == name + ['='] + value;
  }

  lemma ReadEnd(tail: string, t: Scan)
    requires Ends(tail) && !t.inQuote
    ensures ReadToken(tail, t) == Lexeme(Finish(t), tail != "" && tail[0] == ',', tail)
  {
  }

  lemma {:induction false} SplitAtEqual(name: string, value: string)
    requires '=' !in name
    ensures SplitOption(name + ['='] + value) == Some((name, value))
  {
    if name == "" {
      assert name + ['='] + value == ['='] + value;
    } else {
      assert (name + ['='] + value)[1..] == name[1..] + ['='] + value;
      SplitAtEqual(name[1..], value);
      assert [name[0]] + name[1..] == name;
    }
  }
}
