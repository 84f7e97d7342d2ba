/**
 * How PostgreSQL 16 matches a name in pg_hba.conf that begins with a slash: as a regular
 * expression. Only what a rendered name can contain is modelled: single characters and
 * bracket expressions between "^" and "$". Everything else counts as no regular expression.
 */
module HbaRegex {
  import opened Options
  import opened HbaRecord

  // One character of the name: this one, or one in or out of a set.
  datatype Item = Literal(c: char) | OneOf(chars: set<char>) | NoneOf(chars: set<char>)

  /** The characters of a bracket expression up to the bracket that closes it, and the text after that. */
  function Class(s: string): (r: Option<(set<char>, string)>)
    ensures r.Some? ==> |r.value.1| < |s|
    decreases |s|
  {
    if s == "" then None
    else if s[0] == ']' then Some(({}, s[1..]))
    else if s[0] == '\\' then
      if |s| < 2 || ('a' <= s[1] <= 'z') || ('A' <= s[1] <= 'Z') || ('0' <= s[1] <= '9') then None
      else With(s[1], Class(s[2..]))
    else if s[0] == '[' && |s| > 1 && s[1] in ".:=" then None
    else if |s| > 2 && s[1] == '-' && s[2] != ']' then None
    else With(s[0], Class(s[1..]))
  }

  function With(c: char, r: Option<(set<char>, string)>): Option<(set<char>, string)> {
    if r.None? then None else Some((r.value.0 + {c}, r.value.1))
  }

  /** A bracket expression, after its opening bracket. A closing bracket in first place is a member. */
  function Bracket(s: string): (r: Option<(Item, string)>)
    ensures r.Some? ==> |r.value.1| < |s|
  {
    var negated := s != "" && s[0] == '^';
    var t := if negated then s[1..] else s;
    var first := t != "" && t[0] == ']';
    var body := if first then With(']', Class(t[1..])) else Class(t);
    if body.None? then None
    else Some((if negated then NoneOf(body.value.0) else OneOf(body.value.0), body.value.1))
  }

  /** What a regular expression says after "^", up to its final "$". */
  function Items(s: string): Option<seq<Item>>
    decreases |s|
  {
    if s == "" then None
    else if s == ['$'] then Some([])
    else if s[0] == '[' then
      var bracket := Bracket(s[1..]);
      if bracket.None? then None else Then(bracket.value.0, Items(bracket.value.1))
    else if Plain(s[0]) || s[0] == ']' then Then(Literal(s[0]), Items(s[1..]))
    else None
  }

  function Then(item: Item, rest: Option<seq<Item>>): Option<seq<Item>> {
    if rest.None? then None else Some([item] + rest.value)
  }

  predicate ItemMatches(item: Item, c: char) {
    match item
    case Literal(d) => c == d
    case OneOf(chars) => c in chars
    case NoneOf(chars) => c !in chars
  }

  predicate Matches(items: seq<Item>, name: string) {
    if items == [] || name == "" then items == [] && name == ""
    else ItemMatches(items[0], name[0]) && Matches(items[1..], name[1..])
  }

  /** Whether a token that begins with a slash matches a name. */
  predicate TokenMatches(token: string, name: string) {
    && |token| > 1 && token[0] == '/' && token[1] == '^'
    && Items(token[2..]).Some? && Matches(Items(token[2..]).value, name)
  }

  // ----- Rendered names -----

  function Rendered(name: string): string { Bracketed(name) + ['$'] }

  predicate Troublesome(c: char) { c == '^' || c == '\\' }

  lemma RenderedStep(name: string)
    requires name != ""
    ensures Rendered(name)
            == if Plain(name[0]) then [name[0]] + Rendered(name[1..]) else ['[', name[0], ']'] + Rendered(name[1..])
  {
  }

  /** A character that is no trouble becomes one item that matches it and nothing else. */
  lemma ItemsStep(name: string)
    requires name != "" && !Troublesome(name[0])
    ensures Items(Rendered(name))
            == Then(if Plain(name[0]) then Literal(name[0]) else OneOf({name[0]}), Items(Rendered(name[1..])))
  {
    hide Bracketed, Rendered;
    RenderedStep(name);
    var rest := Rendered(name[1..]);
    if Plain(name[0]) {
      assert ([name[0]] + rest)[1..] == rest;
      RenderedIsLong(name[1..]);
    } else {
      var s := ['[', name[0], ']'] + rest;
      var inner := [name[0], ']'] + rest;
      assert s[1..] == inner;
      assert inner[1..] == [']'] + rest && ([']'] + rest)[1..] == rest;
      assert Class([']'] + rest) == Some(({}, rest));
      assert {} + {name[0]} == {name[0]};
    }
  }

  lemma RenderedIsLong(name: string)
    ensures Rendered(name) != ""
  {
  }

  predicate IsClean(name: string) { forall i :: 0 <= i < |name| ==> !Troublesome(name[i]) }

  lemma {:induction false} CleanMatchesItself(name: string, w: string)
    requires IsClean(name)
    ensures Items(Rendered(name)).Some? && (Matches(Items(Rendered(name)).value, w) <==> w == name)
  {
    hide Rendered;
    if name == "" {
      EmptyRendered();
    } else {
      ItemsStep(name);
      CleanMatchesItself(name[1..], if w == "" then "" else w[1..]);
      assert w != "" ==> w == [w[0]] + w[1..];
      assert name == [name[0]] + name[1..];
      var rest := Items(Rendered(name[1..])).value;
      var item := if Plain(name[0]) then Literal(name[0]) else OneOf({name[0]});
      assert ([item] + rest)[1..] == rest;
    }
  }

  lemma EmptyRendered()
    ensures Items(Rendered("")) == Some([])
  {
    assert Rendered("") == ['$'];
  }

  // ----- Troublesome characters -----

  /** One plain step inside a bracket expression. */
  lemma ClassStep(c: char, rest: string)
    requires c != ']' && c != '\\' && rest != ""
    requires c == '[' ==> rest[0] !in ".:="
    requires |rest| > 1 && rest[0] == '-' ==> rest[1] == ']'
    ensures Class([c] + rest) == With(c, Class(rest))
  {
    assert ([c] + rest)[1..] == rest;
  }

  lemma ClassEnds(rest: string)
    ensures Class([']'] + rest) == Some(({}, rest))
    ensures Class(['\\', ']'] + rest) == With(']', Class(rest))
  {
    assert ([']'] + rest)[1..] == rest;
    assert (['\\', ']'] + rest)[2..] == rest;
  }

  /** Where the text goes on after a bracket that swallowed the characters of a name up to the j-th. */
  function After(name: string, j: nat): string
    requires j < |name|
  {
    (if name[j] == ']' then [']'] else "") + Rendered(name[j + 1..])
  }

  lemma RenderedStart(name: string)
    ensures Rendered(name) != "" && Rendered(name)[0] !in "-.:="
  {
    if name != "" { RenderedStep(name); }
  }

  /** A bracketed character inside an unclosed bracket: it closes that, is an error, or is swallowed. */
  lemma ClassOfBracketed(c: char, rest: string)
    ensures var s := ['[', c, ']'] + rest;
            && (c in ".:=" ==> Class(s).None?)
            && (c == ']' ==> Class(s) == Some(({'['}, [']'] + rest)))
            && (c == '\\' ==> Class(s) == With('[', With(']', Class(rest))))
            && (c !in ".:=]\\" ==> Class(s) == Some(({c} + {'['}, rest)))
  {
    hide Class;
    ClassEnds(rest);
    ClassEnds([']'] + rest);
    var s := ['[', c, ']'] + rest;
    assert s == ['['] + ([c, ']'] + rest);
    if c in ".:=" {
      NoCollation(c, rest);
    } else {
      ClassStep('[', [c, ']'] + rest);
      assert {} + {'['} == {'['};
      if c == ']' {
        assert [c, ']'] + rest == [']'] + ([']'] + rest);
      } else if c != '\\' {
        assert [c, ']'] + rest == [c] + ([']'] + rest);
        ClassStep(c, [']'] + rest);
        assert {} + {c} == {c};
      }
    }
  }

  lemma AfterHere(name: string)
    requires name != ""
    ensures After(name, 0) == if name[0] == ']' then [']'] + Rendered(name[1..]) else Rendered(name[1..])
  {
    assert "" + Rendered(name[1..]) == Rendered(name[1..]);
  }

  /** An unclosed bracket swallows a rendered name up to the next bracketed character, if it is ever closed. */
  lemma {:induction false} Swallow(name: string) returns (j: nat)
    ensures Class(Rendered(name)).Some? ==>
              && j < |name| && Class(Rendered(name)).value.1 == After(name, j)
              && (j == 0 && name[0] == ']' ==> Class(Rendered(name)).value.0 == {'['})
  {
    hide Rendered, Class, After;
    j := 0;
    if name == "" {
      NothingCloses();
    } else {
      var c, rest := name[0], Rendered(name[1..]);
      RenderedStep(name);
      RenderedStart(name[1..]);
      AfterHere(name);
      if Plain(c) || c == '\\' {
        j := Swallow(name[1..]);
        if Plain(c) { ClassStep(c, rest); } else { ClassOfBracketed(c, rest); }
        if Class(rest).Some? { AfterBelow(name, j); j := j + 1; }
      } else {
        ClassOfBracketed(c, rest);
      }
    }
  }

  lemma AfterBelow(name: string, j: nat)
    requires j + 1 < |name|
    ensures After(name[1..], j) == After(name, j + 1)
  {
    assert name[1..][j + 1..] == name[j + 2..];
  }

  lemma NothingCloses()
    ensures Class(Rendered("")).None?
  {
    assert Rendered("") == ['$'];
  }

  lemma NoCollation(c: char, rest: string)
    requires c in ".:="
    ensures Class(['[', c, ']'] + rest).None?
  {
  }

  /** A caret or a backslash swallows at least the next character into one item. */
  lemma {:induction false} TroubleStep(name: string) returns (j: nat, item: Item)
    requires name != "" && Troublesome(name[0])
    ensures Items(Rendered(name)).Some? ==>
              && 1 <= j < |name| && Items(After(name, j)).Some?
              && Items(Rendered(name)).value == [item] + Items(After(name, j)).value
              && (j == 1 && name[1] == ']' ==>
                    item == if name[0] == '^' then NoneOf({'[', ']'}) else OneOf({'[', ']'}))
  {
    hide Rendered, Class;
    var c, rest := name[0], Rendered(name[1..]);
    RenderedStep(name);
    ClassEnds(rest);
    var k := Swallow(name[1..]);
    j := k + 1;
    OpenTrouble(c, rest);
    item := if Class(rest).None? then Literal(c)
            else if c == '^' then NoneOf(Class(rest).value.0 + {']'}) else OneOf(Class(rest).value.0 + {']'});
    if Class(rest).Some? {
      AfterBelow(name, k);
      assert {'['} + {']'} == {'[', ']'};
    }
  }

  lemma OpenTrouble(c: char, rest: string)
    requires Troublesome(c)
    ensures var s := ['[', c, ']'] + rest;
            Items(s) == if Class(rest).None? then None
                        else Then(if c == '^' then NoneOf(Class(rest).value.0 + {']'})
                            else OneOf(Class(rest).value.0 + {']'}),
                                  Items(Class(rest).value.1))
  {
    hide Class;
    var s := ['[', c, ']'] + rest;
    assert s[1..] == [c, ']'] + rest;
    assert ([c, ']'] + rest)[1..] == [']'] + rest;
    assert ([']'] + rest)[1..] == rest;
    ClassEnds(rest);
  }

  lemma AfterItems(name: string, j: nat)
    requires j < |name|
    ensures Items(After(name, j))
            == if name[j] == ']' then Then(Literal(']'), Items(Rendered(name[j + 1..])))
                else Items(Rendered(name[j + 1..]))
  {
    hide Rendered;
    var rest := Rendered(name[j + 1..]);
    RenderedIsLong(name[j + 1..]);
    assert ([']'] + rest)[1..] == rest && "" + rest == rest;
  }

  lemma {:induction false} AtMostOneItemEach(name: string)
    ensures Items(Rendered(name)).Some? ==> |Items(Rendered(name)).value| <= |name|
    decreases |name|
  {
    hide Rendered, After, Items;
    if name == "" {
      EmptyRendered();
    } else if !Troublesome(name[0]) {
      ItemsStep(name);
      AtMostOneItemEach(name[1..]);
    } else {
      var j, item := TroubleStep(name);
      if Items(Rendered(name)).Some? {
        AfterItems(name, j);
        AtMostOneItemEach(name[j + 1..]);
      }
    }
  }

  lemma {:induction false} MatchesHasLength(items: seq<Item>, name: string)
    ensures Matches(items, name) ==> |items| == |name|
  {
    if items != [] && name != "" {
      MatchesHasLength(items[1..], name[1..]);
    }
  }

  /** With a troublesome character the expression misses the name, or matches another one as well. */
  lemma {:induction false} TroubleIsInexact(name: string) returns (w: string)
    requires !IsClean(name)
    ensures Items(Rendered(name)).None? || !Matches(Items(Rendered(name)).value, name)
            || (w != name && Matches(Items(Rendered(name)).value, w))
    decreases |name|
  {
    hide Rendered, After, Items;
    w := name;
    if !Troublesome(name[0]) {
      ItemsStep(name);
      var v := TroubleIsInexact(name[1..]);
      w := [name[0]] + v;
      assert name == [name[0]] + name[1..] && w[1..] == v;
      if Items(Rendered(name)).Some? {
        var rest := Items(Rendered(name[1..])).value;
        assert Items(Rendered(name)).value[1..] == rest;
      }
    } else {
      var j, item := TroubleStep(name);
      if Items(Rendered(name)).Some? && Matches(Items(Rendered(name)).value, name) {
        AfterItems(name, j);
        AtMostOneItemEach(name[j + 1..]);
        MatchesHasLength(Items(Rendered(name)).value, name);
        assert j == 1 && name[1] == ']';
        w := ['x'] + name[1..];
        assert w[1..] == name[1..];
      }
    }
  }

  /**
   * A name that begins with a slash is rendered as an expression that matches exactly this name
   * if and only if it contains neither a caret nor a backslash.
   */
  lemma SlashNameIsExact(name: string)
    requires name != "" && name[0] == '/'
    ensures (forall w :: TokenMatches(Named(name), w) <==> w == name) <==> IsClean(name)
  {
    hide Rendered, Items, Matches;
    var token := Named(name);
    assert token[2..] == Rendered(name) by { NamedIsRendered(name); }
    if IsClean(name) {
      forall w ensures TokenMatches(token, w) <==> w == name {
        CleanMatchesItself(name, w);
      }
    } else {
      var w := TroubleIsInexact(name);
      assert TokenMatches(token, w) <==> Items(Rendered(name)).Some? && Matches(Items(Rendered(name)).value, w);
      assert TokenMatches(token, name) <==> Items(Rendered(name)).Some? && Matches(Items(Rendered(name)).value, name);
    }
  }

  lemma NamedIsRendered(name: string)
    requires name != "" && name[0] == '/'
    ensures |Named(name)| > 1 && Named(name)[0] == '/' && Named(name)[1] == '^' && Named(name)[2..] == Rendered(name)
  {
  }
}
