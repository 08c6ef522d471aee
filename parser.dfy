/** The recursive-descent parser of the wiki markup (`WikiMarkupParser`):
    it owns the token array, a cursor into it and a stack of saved cursor
    positions, rewrites tokens in place when a speculative parse fails, and
    builds the parse tree block by block. */
module Parser {
  import opened PyStr
  import opened WikiToken
  import opened Tokenizer

  /** What a parser method does: return a value, raise, or run out of the
      step budget (the one way the model observes a parse that never ends). */
  datatype Out<T> = Val(value: T) | Raise(err: PyError) | NoFuel

  // ---------------------------------------------------------------------
  // The bold/italic disambiguation, on sequences

  /** `xs` with the slots `i` and `j` exchanged. */
  function Swap(xs: seq<Node>, i: nat, j: nat): (r: seq<Node>)
    requires i < |xs| && j < |xs|
    ensures |r| == |xs| && r[i] == xs[j] && r[j] == xs[i]
    ensures forall k :: 0 <= k < |xs| && k != i && k != j ==> r[k] == xs[k]
  {
    xs[i := xs[j]][j := xs[i]]
  }

  /** The index stack of the disambiguation pass: increasing indices below
      `i`, each holding a quote delimiter. */
  predicate StackOk(ts: seq<Node>, i: nat, stack: seq<nat>)
  {
    && (forall k :: 0 <= k < |stack| ==> stack[k] < i && stack[k] < |ts| && IsQuote(ts[stack[k]]))
    && Increasing(stack)
  }

  /** One turn of the matching loop of `tokenize` at index `i`: a quote run
      matching the top of the stack pops it (case 1); with exactly two
      adjacent entries on the stack they are swapped and the top popped
      (case 2); a next token matching the top is swapped with the current
      one and the top popped (case 3); otherwise the index is pushed.
      Looking past the last token raises IndexError. */
  function MatchStep(ts: seq<Node>, i: nat, stack: seq<nat>): (r: Result<(seq<Node>, seq<nat>)>)
    requires i < |ts| && StackOk(ts, i, stack)
  {
    if !IsQuote(ts[i]) then Ok((ts, stack))
    else if stack == [] then Ok((ts, [i]))
    else
      var top := stack[|stack| - 1];
      if ts[top].delim == ts[i].delim then Ok((ts, stack[..|stack| - 1]))
      else if |stack| == 2 && stack[0] + 1 == stack[1] then Ok((Swap(ts, stack[0], stack[1]), stack[..1]))
      else if i + 1 == |ts| then Err(IndexError)
      else if ts[i + 1].Delim? && ts[top].delim == ts[i + 1].delim then
        Ok((Swap(ts, i, i + 1), stack[..|stack| - 1]))
      else Ok((ts, stack + [i]))
  }

  /** A turn keeps the token count and the stack well formed, and only moves
      tokens around. */
  lemma MatchStepOk(ts: seq<Node>, i: nat, stack: seq<nat>)
    requires i < |ts| && StackOk(ts, i, stack)
    ensures var r := MatchStep(ts, i, stack);
      r.Ok? ==> |r.value.0| == |ts| && StackOk(r.value.0, i + 1, r.value.1)
                && multiset(r.value.0) == multiset(ts)
  {
    if IsQuote(ts[i]) {
      if stack == [] {
        PushOk(ts, i, stack);
        return;
      }
      var top := stack[|stack| - 1];
      if ts[top].delim == ts[i].delim {
        PopOk(ts, i, stack);
      } else if |stack| == 2 && stack[0] + 1 == stack[1] {
        SwapPairOk(ts, i, stack);
      } else if i + 1 < |ts| && ts[i + 1].Delim? && ts[top].delim == ts[i + 1].delim {
        SwapNextOk(ts, i, stack);
      } else if i + 1 < |ts| {
        PushOk(ts, i, stack);
      }
    }
  }

  lemma PushOk(ts: seq<Node>, i: nat, stack: seq<nat>)
    requires i < |ts| && StackOk(ts, i, stack) && IsQuote(ts[i])
    ensures StackOk(ts, i + 1, stack + [i])
  {
  }

  lemma PopOk(ts: seq<Node>, i: nat, stack: seq<nat>)
    requires i < |ts| && StackOk(ts, i, stack) && stack != []
    ensures StackOk(ts, i + 1, stack[..|stack| - 1])
  {
  }

  lemma SwapPairOk(ts: seq<Node>, i: nat, stack: seq<nat>)
    requires i < |ts| && StackOk(ts, i, stack) && |stack| == 2 && stack[0] + 1 == stack[1]
    ensures StackOk(Swap(ts, stack[0], stack[1]), i + 1, stack[..1])
    ensures multiset(Swap(ts, stack[0], stack[1])) == multiset(ts)
  {
    SwapPermutes(ts, stack[0], stack[1]);
  }

  lemma SwapNextOk(ts: seq<Node>, i: nat, stack: seq<nat>)
    requires i + 1 < |ts| && StackOk(ts, i, stack) && stack != []
    ensures StackOk(Swap(ts, i, i + 1), i + 1, stack[..|stack| - 1])
    ensures multiset(Swap(ts, i, i + 1)) == multiset(ts)
  {
    SwapPermutes(ts, i, i + 1);
    var ts', st := Swap(ts, i, i + 1), stack[..|stack| - 1];
    forall k | 0 <= k < |st|
      ensures st[k] < i + 1 && st[k] < |ts'| && IsQuote(ts'[st[k]])
    {
      assert st[k] == stack[k] < i;
    }
  }

  /** The matching loop from index `i`, as the final tokens and stack. */
  function Matching(ts: seq<Node>, i: nat, stack: seq<nat>): (r: Result<(seq<Node>, seq<nat>)>)
    requires i <= |ts| && StackOk(ts, i, stack)
    decreases |ts| - i
  {
    if i == |ts| then Ok((ts, stack))
    else
      MatchStepOk(ts, i, stack);
      match MatchStep(ts, i, stack)
      case Ok((t, st)) => Matching(t, i + 1, st)
      case Err(e) => Err(e)
  }

  predicate Increasing(stack: seq<nat>)
  {
    forall k, l :: 0 <= k < l < |stack| ==> stack[k] < stack[l]
  }

  /** The quote runs left unmatched become text holding their `str()`:
      exactly the slots on the stack are rewritten. */
  function Unmatched(ts: seq<Node>, stack: seq<nat>): (r: seq<Node>)
    requires Increasing(stack)
    requires forall k :: 0 <= k < |stack| ==> stack[k] < |ts| && ts[stack[k]].Delim?
    ensures |r| == |ts|
    ensures forall k :: 0 <= k < |ts| && k !in stack ==> r[k] == ts[k]
    ensures forall m :: 0 <= m < |stack| ==> r[stack[m]] == Text(DelimDump(ts[stack[m]].delim))
    decreases |stack|
  {
    if stack == [] then ts
    else
      var k := stack[0];
      Unmatched(ts[k := Text(DelimDump(ts[k].delim))], stack[1..])
  }

  /** The whole disambiguation pass of `tokenize`. */
  function Disambiguated(ts: seq<Node>): Result<seq<Node>>
  {
    MatchingPermutes(ts, 0, []);
    match Matching(ts, 0, [])
    case Ok((t, stack)) => Ok(Unmatched(t, stack))
    case Err(e) => Err(e)
  }

  // ---------------------------------------------------------------------
  // What the pass promises

  /** The matching loop keeps the token count, leaves a well-formed stack
      of quote runs, and only moves tokens around. */
  lemma {:induction false} MatchingPermutes(ts: seq<Node>, i: nat, stack: seq<nat>)
    requires i <= |ts| && StackOk(ts, i, stack)
    ensures var r := Matching(ts, i, stack);
      r.Ok? ==> |r.value.0| == |ts| && StackOk(r.value.0, |ts|, r.value.1)
                && multiset(r.value.0) == multiset(ts)
    decreases |ts| - i
  {
    if i < |ts| {
      MatchStepOk(ts, i, stack);
      match MatchStep(ts, i, stack)
      case Ok((t, st)) => MatchingPermutes(t, i + 1, st);
      case Err(_) =>
    }
  }

  lemma SwapPermutes(xs: seq<Node>, i: nat, j: nat)
    requires i < |xs| && j < |xs|
    ensures multiset(Swap(xs, i, j)) == multiset(xs)
  {
    if i != j {
      var m := multiset(xs[i := xs[j]]);
      assert m == multiset(xs) - multiset{xs[i]} + multiset{xs[j]};
    }
  }

  // ---------------------------------------------------------------------
  // Delimiter recovery, on sequences

  /** `close_delim`: the closer of each bracket-like opener. */
  function CloseDelim(od: string): Option<string>
  {
    if od == "[" then Some("]") else if od == "[[" then Some("]]") else if od == "{{" then Some("}}") else None
  }

  /** The recovery scan of `parse_inline_delim` from index `i` with `lev`
      openers seen: NIL stops it; the first closer stops it too and becomes
      text when no opener came before it. */
  function CloserScan(ts: seq<Node>, i: nat, od: string, cd: string, lev: int): (r: seq<Node>)
    ensures |r| == |ts|
    ensures forall k :: 0 <= k < |ts| && (k < i || !ts[k].Delim?) ==> r[k] == ts[k]
    decreases |ts| - i
  {
    if i >= |ts| || ts[i].Nil? then ts
    else if ts[i].Delim? && ts[i].delim == od then CloserScan(ts, i + 1, od, cd, lev + 1)
    else if ts[i].Delim? && ts[i].delim == cd then (if lev == 0 then ts[i := Text(cd)] else ts)
    else CloserScan(ts, i + 1, od, cd, lev)
  }

  /** Where the scan from `i` stops: the first NIL or closer. */
  function ScanStop(ts: seq<Node>, i: nat, cd: string): (r: Option<nat>)
    ensures r.Some? ==> i <= r.value < |ts| && (ts[r.value].Nil? || (ts[r.value].Delim? && ts[r.value].delim == cd))
    ensures forall k :: i <= k < (if r.Some? then r.value else |ts|) ==>
              !ts[k].Nil? && !(ts[k].Delim? && ts[k].delim == cd)
    decreases |ts| - i
  {
    if i >= |ts| then None
    else if ts[i].Nil? || (ts[i].Delim? && ts[i].delim == cd) then Some(i)
    else ScanStop(ts, i + 1, cd)
  }

  /** Is there an opener `od` among `ts[i..j]`? */
  predicate OpenerIn(ts: seq<Node>, i: nat, j: nat, od: string)
    requires j <= |ts|
  {
    exists k :: i <= k < j && ts[k].Delim? && ts[k].delim == od
  }

  /** The scan rewrites at most one token: the first closer after `i`, and
      only when no opener stands between `i` and it. */
  lemma {:induction false} CloserScanRewrites(ts: seq<Node>, i: nat, od: string, cd: string, lev: int)
    requires od != cd && lev >= 0
    ensures var stop := ScanStop(ts, i, cd);
      CloserScan(ts, i, od, cd, lev) ==
        if stop.Some? && ts[stop.value].Delim? && lev == 0 && !OpenerIn(ts, i, stop.value, od)
        then ts[stop.value := Text(cd)] else ts
    decreases |ts| - i
  {
    if i < |ts| && !ts[i].Nil? && !(ts[i].Delim? && ts[i].delim == cd) {
      var stop := ScanStop(ts, i, cd);
      if ts[i].Delim? && ts[i].delim == od {
        CloserScanRewrites(ts, i + 1, od, cd, lev + 1);
        if stop.Some? {
          assert OpenerIn(ts, i, stop.value, od) by {
            assert ts[i].Delim? && ts[i].delim == od;
          }
        }
      } else {
        CloserScanRewrites(ts, i + 1, od, cd, lev);
        if stop.Some? {
          assert OpenerIn(ts, i, stop.value, od) <==> OpenerIn(ts, i + 1, stop.value, od);
        }
      }
    }
  }

  /** What one token contributes to a header: a node for its body, a
      rejection (the cursor is back at the header's start), its close, no
      change, or an exception or exhausted budget to pass on. */
  datatype HeaderStep = Item(node: Node) | Reject | Closed | Skip | Failed(out: Out<Node>)

  /** Passing on an exception or an exhausted budget. */
  function Pass<T, U>(o: Out<T>): (r: Out<U>)
    requires !o.Val?
    ensures r.Raise? <==> o.Raise?
    ensures r.Raise? ==> r.err == o.err
  {
    if o.Raise? then Raise(o.err) else NoFuel
  }

  /** The node an inline delimiter builds when its parse succeeds. */
  predicate InlineKind(d: string, n: Node)
  {
    || (d == "''" && n.It?)
    || (d == "\'\'\'" && n.Bold?)
    || (d == "[" && n.Ref?)
    || (d == "[[" && n.Link?)
    || (d == "{{" && n.Tmpl?)
  }

  /** `envtypes`: the environment of a marker character and the subtype of
      its items. */
  function EnvTypeOf(c: char): EnvType
  {
    if c == '*' then Unnumbered else if c == '#' then Numbered else Defn
  }

  function EnvSubtype(c: char): int
  {
    if c == ':' then 1 else 0
  }

  /** `refstart`: `^https?://`. */
  predicate RefStart(s: string)
  {
    StartsWith(s, "http://") || StartsWith(s, "https://")
  }

  /** The string content of a token, for the `PRE` test of `parse_para`. */
  function StrContent(t: Node): Option<string>
  {
    match t
    case Text(c) => Some(c)
    case Delim(c, _, _) => Some(c)
    case _ => None
  }

  /** What the parser puts in the tree: a block. */
  predicate IsBlock(n: Node)
  {
    n.Bar? || n.Hdr? || n.Env? || n.Ind? || n.Para? || n.Pre? || n.Tag? || n.Text?
  }

  // ---------------------------------------------------------------------
  // The parser object

  /** A token whose block flag `is_block_end` honours: a delimiter or a built
      tag (`DELIM`, `TAG`); a close tag never carries the flag. */
  predicate BlockFlag(t: Node)
  {
    (t.Delim? && t.isblock) || (t.Tag? && t.tblock)
  }

  class Parser {
    /** The tokens, rewritten in place as parsing goes. */
    const toklist: array<Node>
    /** The cursor: the index of the next token `getkn` hands out. */
    var tokind: int
    /** Whether the token before the cursor is a newline (or there is none). */
    var newline: bool
    /** Saved cursor positions of speculative parses. */
    var mark: seq<int>
    /** The `ref` tags built so far, in creation order. */
    var references: seq<Node>
    /** The blocks parsed so far. */
    var tree: seq<Node>
    /** The step budget: every parsing method and every loop turn spends one. */
    var fuel: nat
    /** The tokens as the last failed inline delimiter left them, just before
        its closer recovery. */
    ghost var scanned: seq<Node>
    /** Whether the parser keeps a list of references (the HTML and text
        translators do; the base parser does not). */
    const trackRefs: bool
    /** Strict mode: an unexpected token in a paragraph raises. */
    const strict: bool

    constructor (tokens: seq<Node>, trackRefs: bool, strict: bool, fuel: nat)
      ensures fresh(toklist) && toklist[..] == tokens
      ensures tokind == 0 && !newline && mark == [] && references == [] && tree == []
      ensures this.fuel == fuel && this.trackRefs == trackRefs && this.strict == strict
    {
      toklist := new Node[|tokens|](i requires 0 <= i < |tokens| => tokens[i]);
      tokind := 0;
      newline := false;
      mark := [];
      references := [];
      tree := [];
      this.fuel := fuel;
      this.trackRefs := trackRefs;
      this.strict := strict;
    }

    /** `swaptkn`: exchange the tokens at `i` and `j`. */
    method SwapTkn(i: nat, j: nat)
      requires i < toklist.Length && j < toklist.Length
      modifies toklist
      ensures toklist[..] == Swap(old(toklist[..]), i, j)
    {
      var x := toklist[i];
      toklist[i] := toklist[j];
      toklist[j] := x;
    }

    /** The disambiguation pass of `tokenize`: match the quote runs with an
        index stack, then turn the unmatched ones into text. */
    method Disambiguate() returns (r: Result<()>)
      modifies toklist
      ensures r.Ok? <==> Disambiguated(old(toklist[..])).Ok?
      ensures r.Ok? ==> toklist[..] == Disambiguated(old(toklist[..])).value
      ensures r.Err? ==> r.error == Disambiguated(old(toklist[..])).error
    {
      MatchingPermutes(toklist[..], 0, []);
      var m := MatchQuotes();
      if m.Err? {
        return Err(m.error);
      }
      RewriteUnmatched(m.value);
      return Ok(());
    }

    /** The matching loop: the final index stack, with the tokens it left. */
    method MatchQuotes() returns (r: Result<seq<nat>>)
      modifies toklist
      ensures r.Ok? <==> Matching(old(toklist[..]), 0, []).Ok?
      ensures r.Ok? ==> Matching(old(toklist[..]), 0, []).value == (toklist[..], r.value)
      ensures r.Err? ==> r.error == Matching(old(toklist[..]), 0, []).error
    {
      var stack: seq<nat> := [];
      var i := 0;
      while i < toklist.Length
        invariant 0 <= i <= toklist.Length
        invariant StackOk(toklist[..], i, stack)
        invariant Matching(toklist[..], i, stack) == Matching(old(toklist[..]), 0, [])
        decreases toklist.Length - i
      {
        ghost var ts0 := toklist[..];
        MatchStepOk(ts0, i, stack);
        var st := MatchTurn(i, stack);
        if st.Err? {
          return Err(st.error);
        }
        assert Matching(ts0, i, stack) == Matching(toklist[..], i + 1, st.value);
        stack := st.value;
        i := i + 1;
      }
      return Ok(stack);
    }

    /** One turn of the matching loop at index `i`. */
    method MatchTurn(i: nat, stack: seq<nat>) returns (r: Result<seq<nat>>)
      requires i < toklist.Length && StackOk(toklist[..], i, stack)
      modifies toklist
      ensures r.Ok? <==> MatchStep(old(toklist[..]), i, stack).Ok?
      ensures r.Ok? ==> MatchStep(old(toklist[..]), i, stack).value == (toklist[..], r.value)
      ensures r.Err? ==> r.error == MatchStep(old(toklist[..]), i, stack).error
    {
      var t := toklist[i];
      if !(t.Delim? && (t.delim == "''" || t.delim == "\'\'\'")) {
        return Ok(stack);
      }
      if |stack| == 0 {
        return Ok([i]);
      }
      var top := stack[|stack| - 1];
      if toklist[top].delim == t.delim {
        return Ok(stack[..|stack| - 1]);
      } else if |stack| == 2 && stack[0] + 1 == stack[1] {
        SwapTkn(stack[0], stack[1]);
        return Ok(stack[..1]);
      } else if i + 1 == toklist.Length {
        return Err(IndexError);
      } else if toklist[i + 1].Delim? && toklist[top].delim == toklist[i + 1].delim {
        SwapTkn(i, i + 1);
        return Ok(stack[..|stack| - 1]);
      }
      return Ok(stack + [i]);
    }

    /** The final loop of `tokenize`: every slot left on the stack becomes
        the text of its dump. */
    method RewriteUnmatched(stack: seq<nat>)
      requires StackOk(toklist[..], toklist.Length, stack)
      modifies toklist
      ensures toklist[..] == Unmatched(old(toklist[..]), stack)
    {
      ghost var t := toklist[..];
      var j := 0;
      while j < |stack|
        invariant 0 <= j <= |stack|
        invariant toklist.Length == |t|
        invariant forall k :: 0 <= k < |t| ==>
          toklist[k] == if k in stack[..j] then Text(DelimDump(t[k].delim)) else t[k]
        decreases |stack| - j
      {
        var k := stack[j];
        assert stack[..j + 1] == stack[..j] + [k];
        toklist[k] := Text(DelimDump(toklist[k].delim));
        j := j + 1;
      }
      ghost var u := Unmatched(t, stack);
      assert stack[..j] == stack;
      forall k | 0 <= k < |t| ensures toklist[k] == u[k] {
        if k in stack {
          var m :| 0 <= m < |stack| && stack[m] == k;
        }
      }
      assert toklist[..] == u;
    }

    // -------------------------------------------------------------------
    // The cursor

    /** `toklist[i]` with Python's indexing; None where it raises. */
    function At(i: int): (r: Option<Node>)
      reads this, toklist
      ensures r.Some? <==> -toklist.Length <= i < toklist.Length
      ensures 0 <= i < toklist.Length ==> r == Some(toklist[i])
    {
      match PyIndex(i, toklist.Length)
      case Some(k) => Some(toklist[k])
      case None => None
    }

    /** `push_mark`: save the cursor. */
    method PushMark()
      modifies this
      ensures mark == old(mark) + [old(tokind)]
      ensures tokind == old(tokind) && newline == old(newline)
      ensures references == old(references) && tree == old(tree) && fuel == old(fuel)
    {
      mark := mark + [tokind];
    }

    /** `pop_mark`: move the cursor back to the last saved position; popping
        an empty stack raises IndexError. */
    method PopMark() returns (r: Out<()>)
      modifies this
      ensures old(mark) == [] ==> r == Raise(IndexError) && mark == old(mark) && tokind == old(tokind)
      ensures old(mark) != [] ==> r == Val(()) && mark == old(mark)[..|old(mark)| - 1]
                                  && tokind == old(mark)[|old(mark)| - 1]
      ensures newline == old(newline)
      ensures references == old(references) && tree == old(tree) && fuel == old(fuel)
    {
      if mark == [] {
        return Raise(IndexError);
      }
      tokind := mark[|mark| - 1];
      mark := mark[..|mark| - 1];
      return Val(());
    }

    /** `clear_mark`: forget the last saved position. */
    method ClearMark() returns (r: Out<()>)
      modifies this
      ensures old(mark) == [] ==> r == Raise(IndexError) && mark == old(mark)
      ensures old(mark) != [] ==> r == Val(()) && mark == old(mark)[..|old(mark)| - 1]
      ensures tokind == old(tokind) && newline == old(newline)
      ensures references == old(references) && tree == old(tree) && fuel == old(fuel)
    {
      if mark == [] {
        return Raise(IndexError);
      }
      mark := mark[..|mark| - 1];
      return Val(());
    }

    /** `lookahead(off)`: the token `off` places from the cursor. */
    method Lookahead(off: int) returns (r: Out<Node>)
      ensures At(tokind + off).Some? ==> r == Val(At(tokind + off).value)
      ensures At(tokind + off).None? ==> r == Raise(IndexError)
    {
      var t := At(tokind + off);
      if t.None? {
        return Raise(IndexError);
      }
      return Val(t.value);
    }

    /** `getkn`: the token at the cursor, moving past it; at the end, a fresh
        NIL and the cursor stays. `newline` records whether the token before
        the cursor is a newline. */
    method GetKn() returns (r: Out<Node>)
      modifies this
      ensures r.Raise? <==> (old(tokind) != 0 && At(old(tokind) - 1).None?)
                            || (old(tokind) != toklist.Length && At(old(tokind)).None?)
      ensures r.Raise? ==> r.err == IndexError && tokind == old(tokind)
      ensures !r.NoFuel?
      ensures r.Val? ==> newline == (old(tokind) == 0 || At(old(tokind) - 1) == Some(Nl))
      ensures r.Val? && old(tokind) == toklist.Length ==> r.value == Nil && tokind == old(tokind)
      ensures r.Val? && old(tokind) != toklist.Length ==>
                Some(r.value) == At(old(tokind)) && tokind == old(tokind) + 1
      ensures mark == old(mark) && references == old(references) && tree == old(tree) && fuel == old(fuel)
    {
      if tokind != 0 {
        var prev := At(tokind - 1);
        if prev.None? {
          return Raise(IndexError);
        }
        newline := prev.value == Nl;
      } else {
        newline := true;
      }
      if tokind == toklist.Length {
        return Val(Nil);
      }
      var t := At(tokind);
      if t.None? {
        return Raise(IndexError);
      }
      tokind := tokind + 1;
      return Val(t.value);
    }

    /** `ungetkn(tok)`: step the cursor back one token, store `tok` there when
        given, and return the token now at the cursor. */
    method UngetKn(tok: Option<Node>) returns (r: Out<Node>)
      modifies this, toklist
      ensures tokind == old(tokind) - 1
      ensures !r.NoFuel? && (r.Raise? ==> r.err == IndexError)
      ensures r.Val? ==> newline == (tokind == 0 || old(At(tokind - 2)) == Some(Nl))
      ensures r.Val? && tok.Some? ==>
                PyIndex(tokind, toklist.Length).Some?
                && toklist[..] == old(toklist[..])[PyIndex(tokind, toklist.Length).value := tok.value]
      ensures r.Val? ==> Some(r.value) == At(tokind)
      ensures tok.None? ==> toklist[..] == old(toklist[..])
      ensures mark == old(mark) && references == old(references) && tree == old(tree) && fuel == old(fuel)
    {
      tokind := tokind - 1;
      if tokind != 0 {
        var prev := At(tokind - 1);
        if prev.None? {
          return Raise(IndexError);
        }
        newline := prev.value == Nl;
      } else {
        newline := true;
      }
      if tok.Some? {
        var k := PyIndex(tokind, toklist.Length);
        if k.None? {
          return Raise(IndexError);
        }
        toklist[k.value] := tok.value;
      }
      var t := At(tokind);
      if t.None? {
        return Raise(IndexError);
      }
      return Val(t.value);
    }

    /** `fixuptkn(tok)`: replace the token just read by `tok`; at the start
        of the input there is none, and it raises IndexError. */
    method FixupTkn(tok: Node) returns (r: Out<Node>)
      modifies toklist
      ensures tokind == 0 ==> r == Raise(IndexError) && toklist[..] == old(toklist[..])
      ensures tokind != 0 && At(tokind - 1).None? ==> r == Raise(IndexError) && toklist[..] == old(toklist[..])
      ensures tokind != 0 && old(At(tokind - 1)).Some? ==>
                r == Val(tok) && toklist[..] == old(toklist[..])[PyIndex(tokind - 1, toklist.Length).value := tok]
    {
      if tokind == 0 {
        return Raise(IndexError);
      }
      var k := PyIndex(tokind - 1, toklist.Length);
      if k.None? {
        return Raise(IndexError);
      }
      toklist[k.value] := tok;
      return Val(tok);
    }

    /** `is_block_end(tok)`: NIL ends a block; so does a newline followed by
        NIL, or by a second newline, which is consumed; a block delimiter or
        tag ends it too and is pushed back. Nothing else does. */
    method IsBlockEnd(tok: Node) returns (r: Out<bool>)
      modifies this, toklist
      ensures !r.NoFuel? && (r.Raise? ==> r.err == IndexError)
      ensures r.Val? ==>
                (r.value <==> (tok.Nil? || BlockFlag(tok) || (tok.Nl? && old(At(tokind)) in {Some(Nil), Some(Nl)})))
      ensures tok.Nl? && old(At(tokind)).None? ==> r == Raise(IndexError)
      ensures tok.Nl? && old(At(tokind)) == Some(Nl) && r.Val? ==> tokind == old(tokind) + 1
      ensures BlockFlag(tok) && r.Val? ==> tokind == old(tokind) - 1 && At(tokind) == Some(tok)
      ensures !BlockFlag(tok) && !(tok.Nl? && old(At(tokind)) == Some(Nl)) ==>
                tokind == old(tokind) && toklist[..] == old(toklist[..])
      ensures !BlockFlag(tok) && !tok.Nl? ==> r.Val?
      ensures mark == old(mark) && references == old(references) && tree == old(tree) && fuel == old(fuel)
    {
      if tok.Nil? {
        return Val(true);
      } else if tok.Nl? {
        var la := Lookahead(0);
        if la.Raise? {
          return Raise(la.err);
        }
        if la.value.Nil? {
          return Val(true);
        } else if la.value.Nl? {
          var t := GetKn();
          if t.Raise? {
            return Raise(t.err);
          }
          return Val(true);
        }
      } else if BlockFlag(tok) {
        var t := UngetKn(Some(tok));
        if t.Raise? {
          return Raise(t.err);
        }
        return Val(true);
      }
      return Val(false);
    }

    // -------------------------------------------------------------------
    // What the parsing methods keep

    /** Every reference knows its place in the list. */
    predicate Numbered()
      reads this
    {
      forall k :: 0 <= k < |references| ==> references[k].Tag? && references[k].idx == Some(k)
    }

    /** A parsing method spends budget, leaves the tree alone and only adds
        references. */
    twostate predicate Kept()
      reads this
    {
      fuel <= old(fuel) && tree == old(tree) && old(references) <= references
    }

    /** A `TAG` node; a `ref` tag of a parser that keeps references gets the
        next index and joins the list. */
    method NewTag(name: string, args: TagAttrs, isblock: bool, body: Node) returns (n: Node)
      requires Numbered()
      modifies this
      ensures Numbered()
      ensures trackRefs && name == "ref" ==>
                n == Tag(name, args, isblock, body, Some(|old(references)|)) && references == old(references) + [n]
      ensures !(trackRefs && name == "ref") ==> n == Tag(name, args, isblock, body, None) && references == old(references)
      ensures tokind == old(tokind) && newline == old(newline) && mark == old(mark)
      ensures tree == old(tree) && fuel == old(fuel)
    {
      if trackRefs && name == "ref" {
        n := Tag(name, args, isblock, body, Some(|references|));
        references := references + [n];
      } else {
        n := Tag(name, args, isblock, body, None);
      }
    }

    // -------------------------------------------------------------------
    // Delimiter recovery

    /** The recovery loop of `parse_inline_delim` for opener `od`: it scans
        the tokens after the one following the cursor. */
    method RecoverCloser(od: string, cd: string)
      modifies toklist
      ensures toklist[..] == CloserScan(old(toklist[..]), SliceStart(tokind + 1, toklist.Length), od, cd, 0)
    {
      var i := SliceStart(tokind + 1, toklist.Length);
      var lev := 0;
      while i < toklist.Length
        invariant i <= toklist.Length
        invariant toklist[..] == old(toklist[..])
        invariant CloserScan(toklist[..], i, od, cd, lev)
                  == CloserScan(old(toklist[..]), SliceStart(tokind + 1, toklist.Length), od, cd, 0)
        decreases toklist.Length - i
      {
        var t := toklist[i];
        if t.Nil? {
          return;
        } else if t.Delim? && t.delim == od {
          lev := lev + 1;
        } else if t.Delim? && t.delim == cd {
          if lev == 0 {
            toklist[i] := Text(cd);
          }
          return;
        }
        i := i + 1;
      }
    }

    // -------------------------------------------------------------------
    // The parsing methods

    /** `parse_inline_delim(tok)`: try the construct the delimiter opens; on
        failure move the cursor back, turn the delimiter into text of the same
        spelling and, for a bracket, the first closer after it (when no opener
        of the same kind comes first). */
    method ParseInlineDelim(tok: Node) returns (r: Out<Node>)
      requires tok.Delim? && Numbered()
      modifies this, toklist
      ensures Numbered() && Kept()
      ensures r.Val? ==> mark == old(mark)
      ensures r.Val? ==> r.value == Text(tok.delim) || InlineKind(tok.delim, r.value)
      ensures r.Val? && r.value.Text? ==>
                tokind == old(tokind) && At(tokind - 1) == Some(Text(tok.delim))
      ensures r.Val? && r.value.Text? ==>
                var i0 := SliceStart(tokind + 1, toklist.Length);
                var cd := CloseDelim(tok.delim);
                var stop := if cd.Some? then ScanStop(scanned, i0, cd.value) else None;
                |scanned| == toklist.Length
                && toklist[..] == if cd.Some? && stop.Some? && scanned[stop.value].Delim?
                                     && !OpenerIn(scanned, i0, stop.value, tok.delim)
                                  then scanned[stop.value := Text(cd.value)] else scanned
      decreases fuel, 2
    {
      if fuel == 0 {
        return NoFuel;
      }
      fuel := fuel - 1;
      PushMark();
      var x: Out<Option<Node>>;
      if tok.delim == "''" {
        x := ParseFontmod(tok.delim, false);
      } else if tok.delim == "\'\'\'" {
        x := ParseFontmod(tok.delim, true);
      } else if tok.delim == "[" {
        x := ParseRef();
      } else if tok.delim == "[[" {
        x := ParseLink(false, "]]");
      } else if tok.delim == "{{" {
        x := ParseLink(true, "}}");
      } else {
        x := Val(None);
      }
      if !x.Val? {
        return Pass(x);
      }
      if x.value.Some? {
        var c := ClearMark();
        return Val(x.value.value);
      }
      r := InlineFallback(tok);
    }

    /** The failure path of `parse_inline_delim`: back to the saved position,
        the delimiter becomes text and a bracket's first unopened closer after
        it does too. */
    method InlineFallback(tok: Node) returns (r: Out<Node>)
      requires tok.Delim? && mark != []
      modifies this, toklist
      ensures fuel == old(fuel) && tree == old(tree) && references == old(references)
      ensures r.Val? || r.Raise?
      ensures r.Val? ==>
                r.value == Text(tok.delim) && mark == old(mark)[..|old(mark)| - 1]
                && tokind == old(mark)[|old(mark)| - 1] && At(tokind - 1) == Some(Text(tok.delim))
      ensures r.Val? ==>
                var i0 := SliceStart(tokind + 1, toklist.Length);
                var cd := CloseDelim(tok.delim);
                var stop := if cd.Some? then ScanStop(scanned, i0, cd.value) else None;
                |scanned| == toklist.Length
                && toklist[..] == if cd.Some? && stop.Some? && scanned[stop.value].Delim?
                                     && !OpenerIn(scanned, i0, stop.value, tok.delim)
                                  then scanned[stop.value := Text(cd.value)] else scanned
    {
      var p := PopMark();
      var f := FixupTkn(Text(tok.delim));
      if f.Raise? {
        return Raise(f.err);
      }
      scanned := toklist[..];
      var cd := CloseDelim(tok.delim);
      if cd.Some? {
        RecoverCloser(tok.delim, cd.value);
        CloserScanRewrites(scanned, SliceStart(tokind + 1, toklist.Length), tok.delim, cd.value, 0);
      }
      return Val(Text(tok.delim));
    }

    /** `parse_fontmod(delim, what)`: text up to the same delimiter, with
        nested inline constructs; a block end or an unexpected token fails. */
    method ParseFontmod(delim: string, bold: bool) returns (r: Out<Option<Node>>)
      requires Numbered()
      modifies this, toklist
      ensures Numbered() && Kept()
      ensures r.Val? ==> mark == old(mark)
      ensures r.Val? && r.value.Some? ==> if bold then r.value.value.Bold? else r.value.value.It?
      decreases fuel, 1
    {
      if fuel == 0 {
        return NoFuel;
      }
      fuel := fuel - 1;
      var la := Lookahead(0);
      if la.Raise? {
        return Raise(la.err);
      }
      var items: seq<Node> := [];
      var text := "";
      while true
        invariant Numbered() && Kept() && fuel < old(fuel) && mark == old(mark)
        decreases fuel
      {
        if fuel == 0 {
          return NoFuel;
        }
        fuel := fuel - 1;
        var t := GetKn();
        if !t.Val? {
          return Pass(t);
        }
        var tok := t.value;
        if tok.Text? {
          text := text + tok.text;
        } else {
          var be := IsBlockEnd(tok);
          if !be.Val? {
            return Pass(be);
          }
          if be.value {
            return Val(None);
          }
          if tok.Delim? {
            if tok.delim == delim {
              break;
            }
            if text != "" {
              items := items + [Text(text)];
              text := "";
            }
            var x := ParseInlineDelim(tok);
            if !x.Val? {
              return Pass(x);
            }
            items := items + [x.value];
          } else if tok.Nl? {
            items := items + [Text("\n")];
          } else {
            return Val(None);
          }
        }
      }
      if text != "" {
        items := items + [Text(text)];
      }
      return Val(Some(if bold then Bold(items) else It(items)));
    }

    /** `parse_ref`: an external reference `[url text]`; the first token must
        be text starting with `http://` or `https://`. An open tag inside calls
        `append` on the built-in `list` type and raises TypeError. */
    method ParseRef() returns (r: Out<Option<Node>>)
      requires Numbered()
      modifies this, toklist
      ensures Numbered() && Kept()
      ensures r.Val? ==> mark == old(mark)
      ensures r.Val? && r.value.Some? ==> r.value.value.Ref? && r.value.value.body.Seq?
      decreases fuel, 1
    {
      if fuel == 0 {
        return NoFuel;
      }
      fuel := fuel - 1;
      var t := GetKn();
      if !t.Val? {
        return Pass(t);
      }
      if !(t.value.Text? && RefStart(t.value.text)) {
        return Val(None);
      }
      var (ref, _, text) := Partition(t.value.text, ' ');
      var items: seq<Node> := if text != "" then [Text(text)] else [];
      while true
        invariant Numbered() && Kept() && fuel < old(fuel) && mark == old(mark)
        decreases fuel
      {
        if fuel == 0 {
          return NoFuel;
        }
        fuel := fuel - 1;
        t := GetKn();
        if !t.Val? {
          return Pass(t);
        }
        var tok := t.value;
        if tok.Nil? {
          return Val(None);
        }
        var be := IsBlockEnd(tok);
        if !be.Val? {
          return Pass(be);
        }
        if be.value {
          return Val(None);
        }
        if tok.Delim? {
          if tok.delim == "]" {
            break;
          }
          var x := ParseInlineDelim(tok);
          if !x.Val? {
            return Pass(x);
          }
          items := items + [x.value];
        } else if tok.OTag? {
          var x := ParseTag(tok);
          if !x.Val? {
            return Pass(x);
          }
          return Raise(TypeError);
        } else {
          items := items + [tok];
        }
      }
      return Val(Some(Ref(ref, Seq(items))));
    }

    /** `parse_link(type, delim)`: a link or template up to `delim`, its
        parts separated by `|`; a part of one token is kept as that token. */
    method ParseLink(tmpl: bool, delim: string) returns (r: Out<Option<Node>>)
      requires Numbered()
      modifies this, toklist
      ensures Numbered() && Kept()
      ensures r.Val? ==> mark == old(mark)
      ensures r.Val? && r.value.Some? ==> if tmpl then r.value.value.Tmpl? else r.value.value.Link?
      decreases fuel, 1
    {
      if fuel == 0 {
        return NoFuel;
      }
      fuel := fuel - 1;
      var subtree: seq<Node> := [];
      var list: seq<Node> := [];
      while true
        invariant Numbered() && Kept() && fuel < old(fuel) && mark == old(mark)
        decreases fuel
      {
        if fuel == 0 {
          return NoFuel;
        }
        fuel := fuel - 1;
        var t := GetKn();
        if !t.Val? {
          return Pass(t);
        }
        var tok := t.value;
        if tok.Nil? {
          return Val(None);
        }
        if tok.Delim? {
          if tok.delim == delim {
            if list != [] {
              subtree := subtree + [Seq(list)];
            }
            break;
          } else if tok.delim == "|" {
            if |list| > 1 {
              subtree := subtree + [Seq(list)];
            } else if list != [] {
              subtree := subtree + [list[0]];
            }
            list := [];
          } else {
            var x := ParseInlineDelim(tok);
            if !x.Val? {
              return Pass(x);
            }
            list := list + [x.value];
          }
        } else if tok.Text? {
          list := list + [tok];
        } else {
          return Val(None);
        }
      }
      return Val(Some(if tmpl then Tmpl(subtree) else Link(subtree)));
    }

    /** `parse_tag(tag)`: the content up to the matching close tag. A close
        tag of another name becomes the text `</name>` of this tag's name; at
        the end of the input the cursor goes back and the open tag becomes
        text. */
    method ParseTag(tag: Node) returns (r: Out<Node>)
      requires tag.OTag? && Numbered()
      modifies this, toklist
      ensures Numbered() && Kept()
      ensures r.Val? ==> mark == old(mark)
      ensures r.Val? ==> r.value.Text? || (r.value.Tag? && r.value.tag == tag.otag && r.value.args == tag.oargs
                                           && r.value.tblock == tag.oblock && r.value.body.Seq?)
      ensures r.Val? && r.value.Text? ==>
                tokind == old(tokind)
                && r.value.text == "<" + tag.otag + (if |tag.oargs.tab| > 0 then " " + tag.oargs.printable else "") + ">"
      decreases fuel, 1
    {
      if fuel == 0 {
        return NoFuel;
      }
      fuel := fuel - 1;
      var list: seq<Node> := [];
      PushMark();
      while true
        invariant Numbered() && Kept() && fuel < old(fuel) && mark == old(mark) + [old(tokind)]
        decreases fuel
      {
        if fuel == 0 {
          return NoFuel;
        }
        fuel := fuel - 1;
        var t := GetKn();
        if !t.Val? {
          return Pass(t);
        }
        var tok := t.value;
        if tok.Nil? {
          var p := PopMark();
          var s := "<" + tag.otag + (if |tag.oargs.tab| > 0 then " " + tag.oargs.printable else "") + ">";
          return Val(Text(s));
        } else if tok.Delim? {
          var x: Out<Option<Node>>;
          if tok.isblock {
            x := ParseBlockDelim(tok);
          } else {
            var y := ParseInlineDelim(tok);
            x := if y.Val? then Val(Some(y.value)) else Pass(y);
          }
          if !x.Val? {
            return Pass(x);
          }
          if x.value.None? {
            t := GetKn();
            if !t.Val? {
              return Pass(t);
            }
            tok := t.value;
          } else {
            tok := x.value.value;
          }
        } else if tok.CTag? {
          if tag.otag == tok.ctag {
            break;
          }
          var f := FixupTkn(Text("</" + tag.otag + ">"));
          if !f.Val? {
            return Pass(f);
          }
          tok := f.value;
        } else if tok.Nl? {
          tok := Text("\n");
        }
        list := list + [tok];
      }
      var c := ClearMark();
      var n := NewTag(tag.otag, tag.oargs, tag.oblock, Seq(list));
      return Val(n);
    }

    /** `parse_block_delim(tok)`: a rule, a header (pushed back as text when
        it fails), an indented line or an environment; any other delimiter is
        pushed back. */
    method ParseBlockDelim(tok: Node) returns (r: Out<Option<Node>>)
      requires tok.Delim? && Numbered()
      modifies this, toklist
      ensures Numbered() && Kept()
      ensures r.Val? ==> mark == old(mark)
      ensures r.Val? && r.value.Some? ==> var n := r.value.value; n.Bar? || n.Hdr? || n.Ind? || n.Env?
      ensures r.Val? && tok.delim == "----" ==> r.value == Some(Bar)
      decreases fuel, 1
    {
      if fuel == 0 {
        return NoFuel;
      }
      fuel := fuel - 1;
      if tok.delim == "----" {
        return Val(Some(Bar));
      } else if |tok.delim| >= 2 && tok.delim[..2] == "==" {
        var h := ParseHeader(tok);
        if !h.Val? {
          return Pass(h);
        }
        if h.value.None? {
          var u := UngetKn(Some(Text(tok.delim)));
          if !u.Val? {
            return Pass(u);
          }
        }
        return h;
      } else if tok.delim == "" {
        return Raise(IndexError);
      } else if tok.delim[0] in EnvChars {
        if tok.delim[0] == ':' {
          var t := Lookahead(-2);
          if !t.Val? {
            return Pass(t);
          }
          if !(t.value.Delim? && t.value.delim == ";") {
            var n := ParseIndent(tok);
            if !n.Val? {
              return Pass(n);
            }
            return Val(Some(n.value));
          }
        }
        var e := ParseEnv(tok);
        if !e.Val? {
          return Pass(e);
        }
        return Val(Some(e.value));
      }
      var u := UngetKn(Some(tok));
      if !u.Val? {
        return Pass(u);
      }
      return Val(None);
    }

    /** `parse_line`: the tokens up to the end of the line; a block delimiter
        becomes text, `:` starts an indented remainder, a block open tag is
        pushed back and ends the line. */
    method ParseLine() returns (r: Out<Node>)
      requires Numbered()
      modifies this, toklist
      ensures Numbered() && Kept()
      ensures r.Val? ==> mark == old(mark) && r.value.Seq?
      decreases fuel, 1
    {
      if fuel == 0 {
        return NoFuel;
      }
      fuel := fuel - 1;
      var list: seq<Node> := [];
      while true
        invariant Numbered() && Kept() && fuel < old(fuel) && mark == old(mark)
        decreases fuel
      {
        if fuel == 0 {
          return NoFuel;
        }
        fuel := fuel - 1;
        var t := GetKn();
        if !t.Val? {
          return Pass(t);
        }
        var tok := t.value;
        if tok.Nl? || tok.Nil? {
          break;
        } else if tok.Text? {
          list := list + [tok];
        } else if tok.Delim? {
          if tok.isblock {
            var f := FixupTkn(Text(tok.delim));
            if !f.Val? {
              return Pass(f);
            }
            list := list + [f.value];
          } else if tok.delim == "" {
            return Raise(IndexError);
          } else if tok.delim[0] == ':' {
            var x := ParseIndent(tok);
            if !x.Val? {
              return Pass(x);
            }
            list := list + [x.value];
            break;
          } else {
            var x := ParseInlineDelim(tok);
            if !x.Val? {
              return Pass(x);
            }
            list := list + [x.value];
          }
        } else if tok.OTag? {
          if tok.oblock {
            var u := UngetKn(None);
            if !u.Val? {
              return Pass(u);
            }
            break;
          }
          var x := ParseTag(tok);
          if !x.Val? {
            return Pass(x);
          }
          list := list + [x.value];
        } else {
          list := list + [tok];
        }
      }
      return Val(Seq(list));
    }

    /** `parse_indent(tok)`: the rest of the line, indented by the length of
        the marker. */
    method ParseIndent(tok: Node) returns (r: Out<Node>)
      requires tok.Delim? && Numbered()
      modifies this, toklist
      ensures Numbered() && Kept()
      ensures r.Val? ==> mark == old(mark) && r.value.Ind? && r.value.level == |tok.delim| && r.value.body.Seq?
      decreases fuel, 1
    {
      if fuel == 0 {
        return NoFuel;
      }
      fuel := fuel - 1;
      var x := ParseLine();
      if !x.Val? {
        return Pass(x);
      }
      return Val(Ind(|tok.delim|, x.value));
    }

    /** `parse_env(tok)`: the items of a list environment at the level of
        `tok`; a deeper marker opens a nested environment and a continuation
        item, both added to the last item. */
    method ParseEnv(tok: Node) returns (r: Out<Node>)
      requires tok.Delim? && tok.delim != "" && Numbered()
      modifies this, toklist
      ensures Numbered() && Kept()
      ensures r.Val? ==> mark == old(mark)
      ensures r.Val? ==> r.value.Env? && r.value.envtype == EnvTypeOf(tok.delim[0]) && r.value.level == |tok.delim|
                         && forall e | e in r.value.items :: e.Elt? && e.body.Seq?
      decreases fuel, 1
    {
      if fuel == 0 {
        return NoFuel;
      }
      fuel := fuel - 1;
      var envtype := EnvTypeOf(tok.delim[0]);
      var lev := |tok.delim|;
      var list: seq<Node> := [];
      var cur := tok;
      while true
        invariant Numbered() && Kept() && fuel < old(fuel) && mark == old(mark)
        invariant forall e | e in list :: e.Elt? && e.body.Seq?
        decreases fuel
      {
        if fuel == 0 {
          return NoFuel;
        }
        fuel := fuel - 1;
        if cur.Delim? && cur.delim == "" {
          return Raise(IndexError);
        }
        if !(cur.Delim? && cur.delim[0] in EnvChars && EnvTypeOf(cur.delim[0]) == envtype) {
          var u := UngetKn(None);
          if !u.Val? {
            return Pass(u);
          }
          break;
        }
        if |cur.delim| < lev {
          var u := UngetKn(None);
          if !u.Val? {
            return Pass(u);
          }
          break;
        }
        var elt: Node;
        if |cur.delim| > lev {
          var e := ParseEnv(cur);
          if !e.Val? {
            return Pass(e);
          }
          elt := e.value;
        } else {
          var e := ParseLine();
          if !e.Val? {
            return Pass(e);
          }
          elt := e.value;
          if !cur.continuation {
            list := list + [Elt(EnvSubtype(cur.delim[0]), elt)];
            var t := GetKn();
            if !t.Val? {
              return Pass(t);
            }
            cur := t.value;
            continue;
          }
        }
        if list != [] {
          // The last item's content is always the sequence `parse_line`
          // built, so the source's re-wrapping branch never runs.
          var last := list[|list| - 1];
          list := list[..|list| - 1] + [Elt(last.subtype, Seq(last.body.items + [elt]))];
        }
        var t := GetKn();
        if !t.Val? {
          return Pass(t);
        }
        cur := t.value;
      }
      return Val(Env(envtype, lev, list));
    }

    /** The closing delimiter `d` of a header at `k`, followed by a newline. */
    predicate ClosedAt(k: int, d: string)
      reads this, toklist
    {
      At(k).Some? && At(k).value.Delim? && At(k).value.delim == d && At(k + 1) == Some(Nl)
    }

    /** A header closed by `d` ends just before `i`: its closing delimiter and
        newline, possibly followed by one more newline. */
    predicate HeaderClosed(i: int, d: string)
      reads this, toklist
    {
      ClosedAt(i - 2, d) || (ClosedAt(i - 3, d) && At(i - 1) == Some(Nl))
    }

    /** The end of a header, just after its closing delimiter `d`: a newline
        must follow, and it is consumed together with one more newline. */
    method HeaderEnd(d: string) returns (r: Out<bool>)
      requires At(tokind - 1).Some? && At(tokind - 1).value.Delim? && At(tokind - 1).value.delim == d
      modifies this
      ensures r.Val? && r.value ==> HeaderClosed(tokind, d)
      ensures r.Val? && !r.value ==> tokind == old(tokind)
      ensures r.Raise? ==> r.err == IndexError
      ensures mark == old(mark) && references == old(references) && tree == old(tree) && fuel == old(fuel)
    {
      var la := Lookahead(0);
      if !la.Val? {
        return Pass(la);
      }
      if !la.value.Nl? {
        return Val(false);
      }
      var g := GetKn();
      if !g.Val? {
        return Pass(g);
      }
      var la2 := Lookahead(0);
      if !la2.Val? {
        return Pass(la2);
      }
      if la2.value.Nl? {
        g := GetKn();
        if !g.Val? {
          return Pass(g);
        }
      }
      return Val(true);
    }

    /** One token of a header's body `t`, just read, for a header closed by
        `delim`; the position the header started at is the top of the mark
        stack. */
    method HeaderToken(t: Node, delim: string) returns (s: HeaderStep)
      requires Numbered() && mark != []
      requires t.Delim? ==> At(tokind - 1) == Some(t)
      modifies this, toklist
      ensures Numbered() && Kept()
      ensures s.Failed? ==> !s.out.Val?
      ensures s.Reject? ==> mark == old(mark)[..|old(mark)| - 1] && tokind == old(mark)[|old(mark)| - 1]
      ensures !s.Reject? && !s.Failed? ==> mark == old(mark)
      ensures s.Closed? ==> HeaderClosed(tokind, delim)
      ensures t.Nil? ==> s.Skip? && tokind == old(tokind) && toklist[..] == old(toklist[..])
      ensures t.Text? ==> s == Item(t) && tokind == old(tokind) && toklist[..] == old(toklist[..])
      decreases fuel, 3
    {
      if t.Nl? {
        var p := PopMark();
        return Reject;
      } else if t.Text? {
        return Item(t);
      } else if t.Delim? {
        if t.delim == delim {
          var closed := HeaderEnd(delim);
          if !closed.Val? {
            return Failed(Pass(closed));
          }
          if closed.value {
            return Closed;
          }
          var p := PopMark();
          return Reject;
        } else if t.isblock {
          var p := PopMark();
          return Reject;
        }
        var x := ParseInlineDelim(t);
        if !x.Val? {
          return Failed(x);
        }
        return Item(x.value);
      } else if t.OTag? {
        if t.oblock {
          var p := PopMark();
          return Reject;
        }
        var x := ParseTag(t);
        if !x.Val? {
          return Failed(x);
        }
        return Item(x.value);
      }
      return Skip;
    }

    /** Only text tokens and NIL from `i` to the end of the token list. */
    predicate TextOnlyFrom(i: int)
      reads this, toklist
    {
      0 <= i <= toklist.Length && forall k | i <= k < toklist.Length :: toklist[k].Text? || toklist[k].Nil?
    }

    /** One turn of the `parse_header` loop: the next token and what it
        contributes; over text and NIL nothing but the cursor moves. */
    method HeaderNext(delim: string) returns (s: HeaderStep)
      requires Numbered() && mark != []
      modifies this, toklist
      ensures Numbered() && Kept()
      ensures s.Failed? ==> !s.out.Val?
      ensures s.Reject? ==> mark == old(mark)[..|old(mark)| - 1] && tokind == old(mark)[|old(mark)| - 1]
      ensures !s.Reject? && !s.Failed? ==> mark == old(mark)
      ensures s.Closed? ==> HeaderClosed(tokind, delim)
      ensures old(TextOnlyFrom(tokind)) ==>
                (s.Item? || s.Skip?) && TextOnlyFrom(tokind) && toklist[..] == old(toklist[..])
      decreases fuel, 4
    {
      var t := GetKn();
      if !t.Val? {
        return Failed(Pass(t));
      }
      s := HeaderToken(t.value, delim);
    }

    /** `parse_header(tok)`: the header text up to the same delimiter, which
        must be followed by a newline (one more newline is consumed). A newline
        first, the same delimiter not followed by a newline, or a block
        delimiter or block tag move the cursor back and give None. Nothing
        ends the loop at NIL: at the end of the input it never returns. */
    method ParseHeader(tok: Node) returns (r: Out<Option<Node>>)
      requires tok.Delim? && Numbered()
      modifies this, toklist
      ensures Numbered() && Kept()
      ensures r.Val? ==> mark == old(mark)
      ensures r.Val? && r.value.None? ==> tokind == old(tokind)
      ensures r.Val? && r.value.Some? ==>
                r.value.value.Hdr? && r.value.value.level == |tok.delim| && r.value.value.body.Seq?
                && HeaderClosed(tokind, tok.delim)
      ensures old(TextOnlyFrom(tokind)) ==> r == NoFuel
      decreases fuel, 1
    {
      if fuel == 0 {
        return NoFuel;
      }
      fuel := fuel - 1;
      PushMark();
      var list: seq<Node> := [];
      var delim := tok.delim;
      ghost var textOnly := TextOnlyFrom(tokind);
      while true
        invariant Numbered() && Kept() && fuel < old(fuel) && mark == old(mark) + [old(tokind)]
        invariant textOnly ==> TextOnlyFrom(tokind)
        decreases fuel
      {
        if fuel == 0 {
          return NoFuel;
        }
        fuel := fuel - 1;
        var step := HeaderNext(delim);
        match step
        case Item(n) =>
          list := list + [n];
        case Reject =>
          return Val(None);
        case Closed =>
          var c := ClearMark();
          return Val(Some(Hdr(|delim|, Seq(list))));
        case Skip =>
        case Failed(o) =>
          return Pass(o);
      }
    }

    /** `parse_para(tok)`: a paragraph, or preformatted text when `tok` starts
        with a blank, up to a block end; a line that starts the other kind of
        block is pushed back. Unexpected tokens are dropped, or raise in strict
        mode. */
    method ParsePara(tok: Node) returns (r: Out<Option<Node>>)
      requires Numbered()
      modifies this, toklist
      ensures Numbered() && Kept()
      ensures r.Val? ==> mark == old(mark)
      ensures r.Val? && r.value.Some? ==> (r.value.value.Para? || r.value.value.Pre?) && r.value.value.items != []
      ensures r.Val? && r.value.Some? ==>
                (r.value.value.Pre? <==> (StrContent(tok).Some? && StrContent(tok).value != "" && IsBlank(StrContent(tok).value[0])))
      decreases fuel, 1
    {
      if fuel == 0 {
        return NoFuel;
      }
      fuel := fuel - 1;
      var pre := StrContent(tok).Some? && StrContent(tok).value != "" && IsBlank(StrContent(tok).value[0]);
      var items: seq<Node> := [];
      var textlist: seq<string> := [];
      var cur := tok;
      while true
        invariant Numbered() && Kept() && fuel < old(fuel) && mark == old(mark)
        decreases fuel
      {
        if fuel == 0 {
          return NoFuel;
        }
        fuel := fuel - 1;
        var be := IsBlockEnd(cur);
        if !be.Val? {
          return Pass(be);
        }
        if be.value {
          break;
        }
        if cur.Text? {
          var c := cur.text;
          if newline && c != "" && (if pre then !IsSpace(c[0]) else IsBlank(c[0])) {
            var u := UngetKn(None);
            if !u.Val? {
              return Pass(u);
            }
            break;
          }
          textlist := textlist + [c];
        } else if cur.Nl? {
          textlist := textlist + ["\n"];
        } else if cur.OTag? {
          if textlist != [] {
            items := items + [Text(Concat(textlist))];
            textlist := [];
          }
          var x := ParseTag(cur);
          if !x.Val? {
            return Pass(x);
          }
          items := items + [x.value];
        } else if cur.Delim? {
          if textlist != [] {
            items := items + [Text(Concat(textlist))];
            textlist := [];
          }
          var x := ParseInlineDelim(cur);
          if !x.Val? {
            return Pass(x);
          }
          items := items + [x.value];
        } else if strict {
          return Raise(UnexpectedTokenError);
        }
        var t := GetKn();
        if !t.Val? {
          return Pass(t);
        }
        cur := t.value;
      }
      if textlist != [] {
        items := items + [Text(Concat(textlist))];
      }
      if items == [] {
        return Val(None);
      }
      return Val(Some(if pre then Pre(items) else Para(items)));
    }

    /** `parse_block`: skip newlines, then a block delimiter construct, a
        block tag, or a paragraph; None at the end of the input. */
    method ParseBlock() returns (r: Out<Option<Node>>)
      requires Numbered()
      modifies this, toklist
      ensures Numbered() && Kept()
      ensures r.Val? ==> mark == old(mark)
      ensures r.Val? && r.value.Some? ==> IsBlock(r.value.value)
      decreases fuel, 1
    {
      if fuel == 0 {
        return NoFuel;
      }
      fuel := fuel - 1;
      var t := GetKn();
      if !t.Val? {
        return Pass(t);
      }
      while t.value.Nl?
        invariant Numbered() && Kept() && fuel < old(fuel) && mark == old(mark)
        invariant t.Val?
        decreases fuel
      {
        if fuel == 0 {
          return NoFuel;
        }
        fuel := fuel - 1;
        t := GetKn();
        if !t.Val? {
          return Pass(t);
        }
      }
      var tok := t.value;
      if tok.Nil? {
        return Val(None);
      } else if tok.Delim? {
        var x := ParseBlockDelim(tok);
        if !x.Val? {
          return Pass(x);
        }
        if x.value.Some? {
          return x;
        }
        t := GetKn();
        if !t.Val? {
          return Pass(t);
        }
        tok := t.value;
      } else if tok.OTag? && tok.oblock {
        var x := ParseTag(tok);
        if !x.Val? {
          return Pass(x);
        }
        return Val(Some(x.value));
      }
      r := ParsePara(tok);
    }

    /** `parse`: the blocks of the whole input, from the first token. */
    method Parse() returns (r: Out<()>)
      requires Numbered()
      modifies this, toklist
      ensures Numbered()
      ensures r.Val? ==> forall n | n in tree :: IsBlock(n)
    {
      tokind := 0;
      tree := [];
      while true
        invariant Numbered()
        invariant forall n | n in tree :: IsBlock(n)
        decreases fuel
      {
        if fuel == 0 {
          return NoFuel;
        }
        fuel := fuel - 1;
        var sub := ParseBlock();
        if !sub.Val? {
          return Pass(sub);
        }
        if sub.value.None? {
          break;
        }
        tree := tree + [sub.value.value];
      }
      return Val(());
    }
  }

  /** `WikiMarkup(text=...).parse()`: tokenize the lines, disambiguate the
      quote delimiters, then parse the blocks. */
  method ParseLines(lines: seq<string>, trackRefs: bool, strict: bool, fuel: nat) returns (r: Out<Parser>)
    ensures Tokens(lines).Err? ==> r == Raise(Tokens(lines).error)
    ensures r.Val? ==> Tokens(lines).Ok? && Disambiguated(Tokens(lines).value).Ok?
    ensures Tokens(lines).Ok? && Disambiguated(Tokens(lines).value).Err? ==>
      r == Raise(Disambiguated(Tokens(lines).value).error)
    ensures r.Val? ==> r.value.Numbered() && r.value.trackRefs == trackRefs && r.value.strict == strict
    ensures r.Val? ==> forall n | n in r.value.tree :: IsBlock(n)
  {
    var toks := Tokread(lines);
    if toks.Err? {
      return Raise(toks.error);
    }
    var p := new Parser(toks.value, trackRefs, strict, fuel);
    var d := p.Disambiguate();
    if d.Err? {
      return Raise(d.error);
    }
    var q := p.Parse();
    if !q.Val? {
      return Pass(q);
    }
    return Val(p);
  }
}
