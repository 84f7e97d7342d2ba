/** Building a JSON Patch (internal/kubeapi/patch.go) with JSON Pointers as in RFC 6901. */
module JsonPatch {
  import opened Options
  import opened Json

  // ----- Pointers -----

  /** One pass over the token: "~" becomes "~0" and "/" becomes "~1". */
  function Escape(token: string): string {
    if token == "" then ""
    else
      (if token[0] == '~' then ['~', '0'] else if token[0] == '/' then ['~', '1'] else [token[0]])
      + Escape(token[1..])
  }

  function Pointer(tokens: seq<string>): string {
    if tokens == [] then "" else ['/'] + Escape(tokens[0]) + Pointer(tokens[1..])
  }

  /** Replaces a pair of characters from left to right, without overlaps. */
  function ReplacePair(s: string, a: char, b: char, to: char): string {
    if |s| < 2 then s
    else if s[0] == a && s[1] == b then [to] + ReplacePair(s[2..], a, b, to)
    else [s[0]] + ReplacePair(s[1..], a, b, to)
  }

  /** Section 4 of RFC 6901: first "~1" to "/", then "~0" to "~". */
  function Unescape(token: string): string { ReplacePair(ReplacePair(token, '~', '1', '/'), '~', '0', '~') }

  /** The reference tokens of a pointer, section 3 of RFC 6901; None for text that is no pointer. */
  function Tokens(pointer: string): Option<seq<string>> {
    if pointer == "" then Some([])
    else if pointer[0] != '/' then None
    else
      var token := UpToSlash(pointer[1..]);
      var rest := Tokens(pointer[1 + |token|..]);
      if rest.None? then None else Some([Unescape(token)] + rest.value)
  }

  function UpToSlash(s: string): (r: string)
    ensures r <= s && '/' !in r && (|r| < |s| ==> s[|r|] == '/')
  {
    if s == "" || s[0] == '/' then "" else [s[0]] + UpToSlash(s[1..])
  }

  lemma {:induction false} UpToSlashStops(a: string, b: string)
    requires '/' !in a && (b == "" || b[0] == '/')
    ensures UpToSlash(a + b) == a
  {
    if a == "" {
      assert a + b == b;
    } else {
      assert (a + b)[1..] == a[1..] + b;
      UpToSlashStops(a[1..], b);
    }
  }

  lemma {:induction false} EscapeHasNoSlash(token: string)
    ensures '/' !in Escape(token)
  {
    if token != "" {
      EscapeHasNoSlash(token[1..]);
    }
  }

  /** What is left of an escaped token after the first replacement: only "~" is still escaped. */
  function HalfEscaped(token: string): string {
    if token == "" then ""
    else (if token[0] == '~' then ['~', '0'] else [token[0]]) + HalfEscaped(token[1..])
  }

  lemma {:induction false} FirstReplacement(token: string)
    ensures ReplacePair(Escape(token), '~', '1', '/') == HalfEscaped(token)
  {
    if token != "" {
      FirstReplacement(token[1..]);
      var rest := Escape(token[1..]);
      if token[0] == '~' {
        assert Escape(token) == ['~', '0'] + rest;
        assert (['~', '0'] + rest)[1..] == ['0'] + rest;
        assert (['0'] + rest)[1..] == rest;
        assert ReplacePair(['0'] + rest, '~', '1', '/') == ['0'] + ReplacePair(rest, '~', '1', '/');
      } else if token[0] == '/' {
        assert (['~', '1'] + rest)[2..] == rest;
      } else {
        assert ([token[0]] + rest)[1..] == rest;
      }
    }
  }

  lemma {:induction false} SecondReplacement(token: string)
    ensures ReplacePair(HalfEscaped(token), '~', '0', '~') == token
  {
    if token != "" {
      SecondReplacement(token[1..]);
      var rest := HalfEscaped(token[1..]);
      if token[0] == '~' {
        assert (['~', '0'] + rest)[2..] == rest;
      } else {
        assert ([token[0]] + rest)[1..] == rest;
      }
    }
  }

  lemma EscapeRoundTrip(token: string)
    ensures Unescape(Escape(token)) == token
  {
    FirstReplacement(token);
    SecondReplacement(token);
  }

  /** Whatever the tokens, empty ones and those with "/" or "~" among them, decoding a pointer returns them. */
  lemma {:induction false} PointerRoundTrip(tokens: seq<string>)
    ensures Tokens(Pointer(tokens)) == Some(tokens)
  {
    hide Escape, Unescape, UpToSlash;
    if tokens != [] {
      var token, rest := Escape(tokens[0]), Pointer(tokens[1..]);
      PointerRoundTrip(tokens[1..]);
      EscapeHasNoSlash(tokens[0]);
      EscapeRoundTrip(tokens[0]);
      var pointer := Pointer(tokens);
      assert pointer == ['/'] + (token + rest);
      assert pointer[1..] == token + rest;
      UpToSlashStops(token, rest);
      assert pointer[1 + |token|..] == rest;
      assert [tokens[0]] + tokens[1..] == tokens;
    }
  }

  method BuildPointer(tokens: seq<string>) returns (b: string)
    ensures b == Pointer(tokens)
    ensures Tokens(b) == Some(tokens)
  {
    hide Escape, Tokens;
    b := "";
    assert tokens[0..] == tokens;
    for i := 0 to |tokens|
      invariant b + Pointer(tokens[i..]) == Pointer(tokens)
    {
      assert tokens[i..][0] == tokens[i] && tokens[i..][1..] == tokens[i + 1..];
      assert b + Pointer(tokens[i..]) == (b + ['/'] + Escape(tokens[i])) + Pointer(tokens[i + 1..]);
      b := b + ['/'] + Escape(tokens[i]);
    }
    PointerRoundTrip(tokens);
  }

  // ----- Operations -----

  datatype Kind = AddOp | ReplaceOp | RemoveOp

  // An element of the patch: the closure that waits for a value, or a finished operation.
  datatype Operation =
    | Waiting(kind: Kind, tokens: seq<string>)
    | Operation(kind: Kind, path: string, value: Option<Json>)

  // The closure returned by Add and Replace fills the element at this index.
  datatype Closure = Closure(index: nat, kind: Kind, tokens: seq<string>)

  class JSON6902 {
    var operations: seq<Operation>

    constructor ()
      ensures operations == []
    {
      operations := [];
    }

    method AddOrReplace(kind: Kind, tokens: seq<string>) returns (f: Closure)
      requires !kind.RemoveOp?
      modifies this
      ensures operations == old(operations) + [Waiting(kind, tokens)]
      ensures f == Closure(|old(operations)|, kind, tokens)
    {
      f := Closure(|operations|, kind, tokens);
      operations := operations + [Waiting(kind, tokens)];
    }

    method Remove(tokens: seq<string>)
      modifies this
      ensures operations == old(operations) + [Operation(RemoveOp, Pointer(tokens), None)]
    {
      var path := BuildPointer(tokens);
      operations := operations + [Operation(RemoveOp, path, None)];
    }

    method Supply(f: Closure, value: Json)
      requires f.index < |operations|
      modifies this
      ensures operations == old(operations)[f.index := Operation(f.kind, Pointer(f.tokens), Some(value))]
    {
      var path := BuildPointer(f.tokens);
      operations := operations[f.index := Operation(f.kind, path, Some(value))];
    }
  }

  // ----- Any order of calls -----

  // A call of Add, Replace or Remove, or the call of the closure that an earlier call returned.
  datatype Call = Append(kind: Kind, tokens: seq<string>) | Fill(nth: nat, value: Json)

  function Appends(calls: seq<Call>): seq<Call> {
    if calls == [] then []
    else Appends(calls[..|calls| - 1]) + (if calls[|calls| - 1].Append? then [calls[|calls| - 1]] else [])
  }

  /** A closure is called only once it exists, and Remove returns none. */
  predicate InOrder(calls: seq<Call>) {
    calls == [] || (
      var last, rest := calls[|calls| - 1], calls[..|calls| - 1];
      && InOrder(rest)
      && (last.Fill? ==>
            && last.nth < |Appends(rest)| && Appends(rest)[last.nth].Append?
            && !Appends(rest)[last.nth].kind.RemoveOp?)
    )
  }

  function LastValue(calls: seq<Call>, n: nat): Option<Json> {
    if calls == [] then None
    else
      var last := calls[|calls| - 1];
      if last.Fill? && last.nth == n then Some(last.value) else LastValue(calls[..|calls| - 1], n)
  }

  function Expected(call: Call, value: Option<Json>): Operation
    requires call.Append?
  {
    if call.kind.RemoveOp? || value.Some? then Operation(call.kind, Pointer(call.tokens), value)
    else Waiting(call.kind, call.tokens)
  }

  lemma {:induction false} AppendsAreAppends(calls: seq<Call>, n: nat)
    requires n < |Appends(calls)|
    ensures Appends(calls)[n].Append?
  {
    var rest := calls[..|calls| - 1];
    if n < |Appends(rest)| {
      AppendsAreAppends(rest, n);
    }
  }

  lemma {:induction false} NoEarlyFill(calls: seq<Call>, n: nat)
    requires InOrder(calls)
    ensures n >= |Appends(calls)| || (Appends(calls)[n].Append? && Appends(calls)[n].kind.RemoveOp?) ==>
            LastValue(calls, n) == None
  {
    if calls != [] {
      NoEarlyFill(calls[..|calls| - 1], n);
    }
  }

  /**
   * However the calls of the closures are interleaved with other calls, the patch holds one
   * operation for each Add, Replace and Remove, in the order of those, with its own path and
   * the last value given to its own closure.
   */
  method Replay(calls: seq<Call>) returns (patch: JSON6902)
    requires InOrder(calls)
    ensures fresh(patch) && |patch.operations| == |Appends(calls)|
    ensures forall n :: 0 <= n < |Appends(calls)| ==>
              && Appends(calls)[n].Append?
              && patch.operations[n] == Expected(Appends(calls)[n], LastValue(calls, n))
    decreases |calls|
  {
    if calls == [] {
      patch := new JSON6902();
      return;
    }
    var last, rest := calls[|calls| - 1], calls[..|calls| - 1];
    patch := Replay(rest);
    match last {
      case Fill(n, value) =>
        patch.Supply(Closure(n, Appends(rest)[n].kind, Appends(rest)[n].tokens), value);
      case Append(kind, tokens) =>
        NoEarlyFill(rest, |Appends(rest)|);
        if kind.RemoveOp? {
          patch.Remove(tokens);
        } else {
          var _ := patch.AddOrReplace(kind, tokens);
        }
    }
  }
}
