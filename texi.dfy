/** The Texinfo translator: a list-of-characters accumulator, `@`-escaping,
    nested accumulators swapped in and out of the translator, the sectioning
    tables, and one `format` per node kind writing through `_print`. */
module Texi {
  import opened PyStr
  import opened WikiToken

  // ----------------------------------------------------------------------
  // The accumulator's text

  /** The last `n` characters of `s`: all of it when it is shorter, none
      when `n` is not positive. */
  function TailOf(s: string, n: int): (r: string)
    ensures |r| == if n <= 0 then 0 else if n < |s| then n else |s|
    ensures EndsWith(s, r)
  {
    if n <= 0 then "" else if n < |s| then s[|s| - n..] else s
  }

  /** What is left of `s` once its last `n` characters are gone. */
  function Trimmed(s: string, n: int): (r: string)
    ensures StartsWith(s, r)
    ensures |r| == if n <= 0 then |s| else if n < |s| then |s| - n else 0
  {
    if n <= 0 then s else if n < |s| then s[..|s| - n] else ""
  }

  /** `elt[-n:]` for a positive `n`: the whole element when it is no longer. */
  function PyTail(elt: string, n: nat): (r: string)
    ensures EndsWith(elt, r)
    ensures |r| == if n < |elt| then n else |elt|
  {
    if n < |elt| then elt[|elt| - n..] else elt
  }

  /** Comparing the tail of the right length is testing for a suffix. */
  lemma TailSuffix(s: string, x: string)
    ensures TailOf(s, |x|) == x <==> EndsWith(s, x)
  {
    if |x| == |s| {
      assert s[|s| - |x|..] == s;
    }
  }

  /** Trimming `n` characters keeps exactly what the tail of `n` leaves out. */
  lemma TrimTail(s: string, n: int)
    ensures Trimmed(s, n) + TailOf(s, n) == s
  {
    if 0 < n < |s| {
      assert s[..|s| - n] + s[|s| - n..] == s;
    }
  }

  /** A paragraph starts here: nothing was written yet, or the text ends
      with a blank line. */
  predicate NewPara(s: string)
  {
    s == "" || EndsWith(s, "\n\n")
  }

  /** `trimnl`: a final newline is dropped, and only a final newline. */
  function TrimNlOf(s: string): (r: string)
    ensures EndsWith(s, "\n") ==> s == r + "\n"
    ensures !EndsWith(s, "\n") ==> r == s
  {
    if EndsWith(s, "\n") then Trimmed(s, 1) else s
  }

  /** `trimpara`: a final blank line is dropped, and only a final blank line. */
  function TrimParaOf(s: string): (r: string)
    ensures EndsWith(s, "\n\n") ==> s == r + "\n\n"
    ensures !EndsWith(s, "\n\n") ==> r == s
  {
    if EndsWith(s, "\n\n") then Trimmed(s, 2) else s
  }

  /** The characters Texinfo reserves. */
  predicate Special(c: char)
  {
    c == '@' || c == '{' || c == '}'
  }

  /** `replchars.sub(r'@\1', text)`: every `@`, `{` and `}` gets an `@` in
      front of it. */
  function EscapeTexi(s: string): (r: string)
    ensures |r| >= |s|
    ensures (forall i :: 0 <= i < |s| ==> !Special(s[i])) ==> r == s
  {
    if s == "" then "" else (if Special(s[0]) then ['@', s[0]] else [s[0]]) + EscapeTexi(s[1..])
  }

  /** How Texinfo reads `@@`, `@{` and `@}` back. */
  function UnescapeTexi(s: string): string
    decreases |s|
  {
    if s == "" then ""
    else if |s| > 1 && s[0] == '@' && Special(s[1]) then [s[1]] + UnescapeTexi(s[2..])
    else [s[0]] + UnescapeTexi(s[1..])
  }

  /** Texinfo reads escaped text back as the original. */
  lemma {:induction false} EscapeRoundTrip(s: string)
    ensures UnescapeTexi(EscapeTexi(s)) == s
    decreases |s|
  {
    if s != "" {
      var e := EscapeTexi(s);
      var rest := EscapeTexi(s[1..]);
      EscapeRoundTrip(s[1..]);
      if Special(s[0]) {
        assert e == ['@', s[0]] + rest;
        assert e[2..] == rest;
        assert UnescapeTexi(e) == [s[0]] + UnescapeTexi(rest);
      } else {
        assert e == [s[0]] + rest;
        assert e[1..] == rest;
        assert UnescapeTexi(e) == [s[0]] + UnescapeTexi(rest);
      }
      assert [s[0]] + s[1..] == s;
    }
  }

  /** `_print(text, nl=nl, escape=escape)` on an accumulator holding `out`.
      `None` is passed as the empty text: both print nothing. */
  function Printed(out: string, text: string, nl: bool, escape: bool): string
  {
    var o := if nl && !EndsWith(out, "\n") then out + "\n" else out;
    if text == "" then o else o + (if escape then EscapeTexi(text) else text)
  }

  /** Printing only appends: the old text is kept and the new text, escaped
      when asked, ends the result. */
  lemma PrintAppends(out: string, text: string, nl: bool, escape: bool)
    ensures StartsWith(Printed(out, text, nl, escape), out)
    ensures text != "" ==> EndsWith(Printed(out, text, nl, escape), if escape then EscapeTexi(text) else text)
  {
    var o := if nl && !EndsWith(out, "\n") then out + "\n" else out;
    assert o[..|out|] == out;
    if text != "" {
      var x := if escape then EscapeTexi(text) else text;
      assert (o + x)[..|out|] == o[..|out|];
      assert (o + x)[|o + x| - |x|..] == x;
    }
  }

  /** `nl=True` adds a newline only when the text does not already end with
      one. */
  lemma PrintNewline(out: string, escape: bool)
    ensures EndsWith(Printed(out, "", true, escape), "\n")
    ensures EndsWith(out, "\n") ==> Printed(out, "", true, escape) == out
    ensures !EndsWith(out, "\n") ==> Printed(out, "", true, escape) == out + "\n"
  {
    var o := Printed(out, "", true, escape);
    assert o[|o| - 1..] == [o[|o| - 1]];
  }

  /** One list element per character of `t`, as `list += str` adds them. */
  function Chars(t: string): (r: seq<string>)
    ensures |r| == |t|
    ensures forall k :: 0 <= k < |t| ==> r[k] == [t[k]]
  {
    seq(|t|, k requires 0 <= k < |t| => [t[k]])
  }

  lemma {:induction false} ConcatChars(xs: seq<string>, t: string)
    ensures Concat(xs + Chars(t)) == Concat(xs) + t
    decreases |t|
  {
    if t == "" {
      assert xs + Chars(t) == xs;
    } else {
      var u := t[..|t| - 1];
      var ys := xs + Chars(t);
      assert ys[..|ys| - 1] == xs + Chars(u);
      ConcatChars(xs, u);
      assert t == u + [t[|t| - 1]];
    }
  }

  /** A list of non-empty parts joins to the empty text only when empty. */
  lemma ConcatNonEmpty(items: seq<string>)
    requires items != [] && items[|items| - 1] != ""
    ensures Concat(items) != ""
  {
    assert |Concat(items)| >= |items[|items| - 1]|;
  }

  lemma ConcatSingle(x: string)
    ensures Concat([x]) == x
  {
    assert [x][..0] == [];
  }

  lemma ConcatCons(x: string, c: seq<string>)
    ensures Concat([x] + c) == x + Concat(c)
  {
    ConcatAppend([x], c);
    ConcatSingle(x);
  }

  /** The joined parts from `i` on are part `i` followed by those after it. */
  lemma ConcatFrom(items: seq<string>, i: nat)
    requires i < |items|
    ensures Concat(items[i..]) == items[i] + Concat(items[i + 1..])
  {
    assert items[i..] == [items[i]] + items[i + 1..];
    ConcatCons(items[i], items[i + 1..]);
  }

  /** The text is what comes before part `i` followed by the rest. */
  lemma ConcatSplit(items: seq<string>, i: nat)
    requires i <= |items|
    ensures Concat(items) == Concat(items[..i]) + Concat(items[i..])
  {
    assert items == items[..i] + items[i..];
    ConcatAppend(items[..i], items[i..]);
  }

  /** A suffix of one part, followed by all later parts, ends the whole text. */
  lemma SuffixOfPart(a: string, elt: string, c: string, p: string)
    requires EndsWith(elt, p)
    ensures EndsWith(a + elt + c, p + c)
  {
    var w := a + elt + c;
    assert w[|w| - |p + c|..] == elt[|elt| - |p|..] + c;
  }

  /** One round of `tail`: the piece taken from element `i - 1`, put before
      what was collected from the elements after it, still ends the text,
      and is all of those elements when the element fits. */
  lemma TailStep(items: seq<string>, i: nat, m: int)
    requires 0 < i <= |items| && m > 0
    ensures var p := PyTail(items[i - 1], m);
      EndsWith(Concat(items), p + Concat(items[i..]))
      && (|items[i - 1]| <= m ==> p + Concat(items[i..]) == Concat(items[i - 1..]))
  {
    var p := PyTail(items[i - 1], m);
    ConcatFrom(items, i - 1);
    ConcatSplit(items, i - 1);
    SuffixOfPart(Concat(items[..i - 1]), items[i - 1], Concat(items[i..]), p);
  }

  // ----------------------------------------------------------------------
  // The accumulator

  /** `Acc`: the list the translator's output goes into. */
  class Acc {
    var items: seq<string>

    /** No element is empty. `+=` with a string adds one element per
        character, so this always holds; `tail` would go round its loop
        forever on an empty element. */
    ghost predicate Valid()
      reads this
    {
      forall k :: 0 <= k < |items| ==> items[k] != ""
    }

    /** `str(acc)`: the elements joined. */
    function Text(): string
      reads this
    {
      Concat(items)
    }

    constructor()
      ensures items == [] && Valid()
    {
      items := [];
    }

    /** `prepend`: `x` becomes the first element. */
    method Prepend(x: string)
      modifies this
      ensures items == [x] + old(items)
    {
      items := [x] + items;
    }

    /** `is_empty`: the list has no element, so the text is empty. */
    method IsEmpty() returns (b: bool)
      requires Valid()
      ensures b <==> Text() == ""
    {
      b := |items| == 0;
      if !b {
        ConcatNonEmpty(items);
      }
    }

    /** `clear` rebinds its own local name and leaves the list as it was. */
    method Clear()
      ensures items == old(items)
    {
    }

    /** `acc += text`: one element per character. */
    method Extend(text: string)
      requires Valid()
      modifies this
      ensures Valid() && Text() == old(Text()) + text
      ensures items == old(items) + Chars(text)
    {
      ConcatChars(items, text);
      items := items + Chars(text);
    }

    /** `tail(n)`: the last `n` characters, collected element by element
        from the end. */
    method Tail(n: int) returns (r: string)
      requires Valid()
      ensures r == TailOf(Text(), n)
    {
      var s := new Acc();
      var i := |items|;
      var m := n;
      while i > 0 && m > 0
        invariant 0 <= i <= |items|
        invariant n <= 0 ==> m == n && s.items == []
        invariant n > 0 ==> 0 <= m && |s.Text()| + m == n
        invariant m > 0 ==> s.Text() == Concat(items[i..])
        invariant PyStr.EndsWith(Text(), s.Text())
        decreases i
      {
        var elt := items[i - 1];
        var l := |elt|;
        if l == 0 {
          assert false;
          continue;
        } else if l > m {
          l := m;
        }
        ghost var olds := s.items;
        TailStep(items, i, m);
        s.Prepend(PyTail(elt, m));
        ConcatCons(PyTail(elt, m), olds);
        m := m - l;
        i := i - 1;
      }
      r := s.Text();
    }

    /** `trim(n)`: the last `n` characters go, element by element from the
        end; an element longer than what is left to remove is cut. */
    method Trim(n: int)
      modifies this
      ensures Text() == Trimmed(old(Text()), n)
      ensures old(Valid()) ==> Valid()
    {
      ghost var cut := "";
      var m := n;
      while |items| > 0 && m > 0
        invariant old(Text()) == Text() + cut
        invariant n <= 0 ==> m == n && cut == ""
        invariant n > 0 ==> 0 <= m && |cut| + m == n
        invariant old(Valid()) ==> Valid()
        decreases |items|
      {
        var elt := items[|items| - 1];
        items := items[..|items| - 1];
        var l := |elt|;
        if l == 0 {
          continue;
        } else if l > m {
          ConcatChars(items, elt[..l - m]);
          items := items + Chars(elt[..l - m]);
          cut := elt[l - m..] + cut;
          assert elt == elt[..l - m] + elt[l - m..];
          break;
        }
        m := m - l;
        cut := elt + cut;
      }
    }

    /** `endswith(x)`: the tail as long as `x` is `x`. */
    method EndsWith(x: string) returns (b: bool)
      requires Valid()
      ensures b <==> PyStr.EndsWith(Text(), x)
    {
      var t := Tail(|x|);
      b := t == x;
      TailSuffix(Text(), x);
    }

    /** `trimnl`. */
    method TrimNl()
      requires Valid()
      modifies this
      ensures Valid() && Text() == TrimNlOf(old(Text()))
    {
      var e := EndsWith("\n");
      if e {
        Trim(1);
      }
    }

    /** `trimpara`. */
    method TrimPara()
      requires Valid()
      modifies this
      ensures Valid() && Text() == TrimParaOf(old(Text()))
    {
      var e := EndsWith("\n\n");
      if e {
        Trim(2);
      }
    }

    /** `in_new_para`. */
    method InNewPara() returns (b: bool)
      requires Valid()
      ensures b <==> NewPara(Text())
    {
      b := IsEmpty();
      if !b {
        b := EndsWith("\n\n");
      }
    }
  }

  // ----------------------------------------------------------------------
  // Sectioning

  const NumberedTable: seq<string> := ["@top", "@chapter", "@section", "@subsection", "@subsubsection"]
  const UnnumberedTable: seq<string> := ["@top", "@unnumbered", "@unnumberedsec", "@unnumberedsubsec", "@unnumberedsubsubsec"]
  const AppendixTable: seq<string> := ["@top", "@appendix", "@appendixsec", "@appendixsubsec", "@appendixsubsubsec"]
  /** The first two commands are written without a comma between them, so
      Python joins them into one string and the table has four entries. */
  const HeadingTable: seq<string> := ["@majorheading@chapheading", "@heading", "@subheading", "@subsubheading"]

  /** `sectcomm[model]`, or nothing for a model the table does not know. */
  function SectComm(model: string): Option<seq<string>>
  {
    if model == "numbered" then Some(NumberedTable)
    else if model == "unnumbered" then Some(UnnumberedTable)
    else if model == "appendix" then Some(AppendixTable)
    else if model == "heading" then Some(HeadingTable)
    else None
  }

  /** The sectioning commands in use and the level shift. */
  datatype Sectioning = Sectioning(table: seq<string>, start: int)

  /** The constructor's checks of its `sectioning_model` and
      `sectioning_start` keywords; an absent keyword keeps the default
      (`numbered`, 0). */
  function Configure(model: Option<string>, start: Option<int>): (r: Result<Sectioning>)
    ensures r.Err? ==> r.error == ValueError
    ensures r.Ok? <==> (model.None? || SectComm(model.value).Some?) && (start.None? || 0 <= start.value <= 4)
    ensures r.Ok? ==> r.value.start == (if start.None? then 0 else start.value)
    ensures r.Ok? && model.Some? ==> Some(r.value.table) == SectComm(model.value)
    ensures r.Ok? && model.None? ==> r.value.table == NumberedTable
  {
    var table := if model.None? then Some(NumberedTable) else SectComm(model.value);
    if table.None? then Err(ValueError)
    else if start.Some? && (start.value < 0 || start.value > 4) then Err(ValueError)
    else Ok(Sectioning(table.value, if start.None? then 0 else start.value))
  }

  // ----------------------------------------------------------------------
  // What each node's `format` leaves in the accumulator

  /** The exception a result carries, if any. */
  function ErrorOf(r: Result<string>): Option<PyError>
  {
    if r.Err? then Some(r.error) else None
  }

  /** `node.format()` on an accumulator holding `out`: the text it holds
      afterwards, or the exception raised. */
  function Emit(n: Node, out: string, s: Sectioning, nested: int): Result<string>
    decreases n, 0
  {
    match n
    case Text(t) => Ok(Printed(out, t, false, true))
    case Tag(t, args, block, body, _) => TagEmit(t, args, block, body, out, s, nested)
    case Para(items) => ParaEmit(items, out, s, nested)
    case Pre(items) => PreEmit(items, out, s, nested)
    case It(items) => FontEmit("i", items, out, s, nested)
    case Bold(items) => FontEmit("b", items, out, s, nested)
    case Hdr(level, body) => HdrEmit(level, body, out, s, nested)
    case Bar => Ok(Printed(out, "\n-----\n", false, true))
    case Ind(level, body) => IndEmit(level, body, out, s, nested)
    case Env(e, _, items) => EnvEmit(e, items, out, s, nested)
    case Link(items) => LinkEmit(items, out, s, nested)
    case Ref(ref, body) => RefEmit(ref, body, out, s, nested)
    case Seq(items) => EmitAll(items, out, s, nested)
    case Tmpl(items) => EmitAll(items, out, s, nested)
    case Nil => Ok(out)
    case Nl => Ok(out)
    case Delim(_, _, _) => Ok(out)
    case OTag(_, _, _) => Ok(out)
    case CTag(_) => Ok(out)
    case Elt(_, _) => Ok(out)
  }

  /** `for x in content: x.format()`. */
  function EmitAll(items: seq<Node>, out: string, s: Sectioning, nested: int): Result<string>
    decreases items, 1
  {
    if items == [] then Ok(out)
    else match EmitAll(items[..|items| - 1], out, s, nested)
      case Err(err) => Err(err)
      case Ok(o) => Emit(items[|items| - 1], o, s, nested)
  }

  /** A blank line unless a paragraph already starts here. */
  function ParaBreak(out: string): string
  {
    if NewPara(out) then out else Printed(out, "\n", true, true)
  }

  /** `TexiParaNode.format`. */
  function ParaEmit(items: seq<Node>, out: string, s: Sectioning, nested: int): Result<string>
    decreases items, 2
  {
    match EmitAll(items, ParaBreak(out), s, nested)
    case Err(err) => Err(err)
    case Ok(o) => Ok(ParaBreak(o))
  }

  /** `TexiPreNode.format`: an `@example` block, except inside code. */
  function PreEmit(items: seq<Node>, out: string, s: Sectioning, nested: int): Result<string>
    decreases items, 2
  {
    match EmitAll(items, if nested == 0 then Printed(out, "@example\n", true, false) else out, s, nested)
    case Err(err) => Err(err)
    case Ok(o) => Ok(if nested == 0 then Printed(o, "@end example\n", true, false) else o)
  }

  /** `TexiFontNode.format`: `@i{…}` or `@b{…}`. */
  function FontEmit(c: string, items: seq<Node>, out: string, s: Sectioning, nested: int): Result<string>
    decreases items, 2
  {
    match EmitAll(items, Printed(out, "@" + c + "{", false, false), s, nested)
    case Err(err) => Err(err)
    case Ok(o) => Ok(Printed(o, "}", false, false))
  }

  /** The command that opens a heading of `level`: `@*` past the end of the
      table, otherwise the table's entry at `level - start`, which Python
      counts from the end when it is negative. */
  function SectionCommand(level: int, s: Sectioning): (r: Result<string>)
    ensures level > |s.table| - 1 - s.start ==> r == Ok("@*")
    ensures level <= |s.table| - 1 - s.start && 0 <= level - s.start < |s.table| ==> r == Ok(s.table[level - s.start])
    ensures level <= |s.table| - 1 - s.start && -|s.table| <= level - s.start < 0 ==> r == Ok(s.table[|s.table| + level - s.start])
    ensures level <= |s.table| - 1 - s.start && (level - s.start < -|s.table| || level - s.start >= |s.table|) ==> r == Err(IndexError)
  {
    if level > |s.table| - 1 - s.start then Ok("@*")
    else match PyIndex(level - s.start, |s.table|)
      case None => Err(IndexError)
      case Some(k) => Ok(s.table[k])
  }

  /** `TexiHdrNode.format`: the sectioning command and the title, then a
      line break; past the end of the table the command is `@*`. */
  function HdrEmit(level: int, body: Node, out: string, s: Sectioning, nested: int): Result<string>
    decreases body, 2
  {
    match SectionCommand(level, s)
    case Err(err) => Err(err)
    case Ok(cmd) =>
      match Emit(body, Printed(out, cmd + " ", true, false), s, nested)
      case Err(err) => Err(err)
      case Ok(o) =>
        if level > |s.table| - 1 - s.start then Ok(Printed(o, "", true, true))
        else NodeEmit(body, Printed(o, "", true, true), s, nested)
  }

  /** The end of a heading taken from the table: under a table starting
      with `@top` the title is formatted a second time, after `@node`. */
  function NodeEmit(body: Node, out: string, s: Sectioning, nested: int): Result<string>
    requires |s.table| > 0
    decreases body, 1
  {
    if s.table[0] != "@top" then Ok(Printed(out, "", true, true))
    else match Emit(body, Printed(out, "@node ", true, false), s, nested)
      case Err(err) => Err(err)
      case Ok(o) => Ok(Printed(Printed(o, "\n", false, true), "", true, true))
  }

  /** `TexiIndNode.format`: one `@w{ }` per level. */
  function IndEmit(level: int, body: Node, out: string, s: Sectioning, nested: int): Result<string>
    decreases body, 1
  {
    match Emit(body, Printed(out, Repeat("@w{ }", level), true, false), s, nested)
    case Err(err) => Err(err)
    case Ok(o) => Ok(Printed(o, "", true, true))
  }

  /** The commands around each kind of environment. */
  function EnvOpen(e: EnvType): string
  {
    match e
    case Unnumbered => "@itemize @bullet\n"
    case Numbered => "@enumerate\n"
    case Defn => "@table @asis\n"
  }

  function EnvClose(e: EnvType): string
  {
    match e
    case Unnumbered => "@end itemize\n"
    case Numbered => "@end enumerate\n"
    case Defn => "@end table\n"
  }

  /** One item of `TexiEnvNode.format`: `@item` before every list item and
      before a term of a definition list; a blank line after every list
      item and after a definition.  An item that is not an element has no
      `content` to format or `subtype` to read. */
  function ItemEmit(e: EnvType, item: Node, out: string, s: Sectioning, nested: int): Result<string>
    decreases item, 1
  {
    if !item.Elt? then Err(AttributeError)
    else if e == Defn && item.subtype != 0 then
      match Emit(item.body, out, s, nested)
      case Err(err) => Err(err)
      case Ok(o) => Ok(Printed(Printed(o, "", true, true), "\n", false, true))
    else
      match Emit(item.body, Printed(out, "@item ", true, false), s, nested)
      case Err(err) => Err(err)
      case Ok(o) =>
        if e == Defn then Ok(Printed(o, "", true, true))
        else Ok(Printed(Printed(o, "", true, true), "\n", false, true))
  }

  /** The items of an environment, one after the other. */
  function ItemsEmit(e: EnvType, items: seq<Node>, out: string, s: Sectioning, nested: int): Result<string>
    decreases items, 1
  {
    if items == [] then Ok(out)
    else match ItemsEmit(e, items[..|items| - 1], out, s, nested)
      case Err(err) => Err(err)
      case Ok(o) => ItemEmit(e, items[|items| - 1], o, s, nested)
  }

  /** `TexiEnvNode.format`. */
  function EnvEmit(e: EnvType, items: seq<Node>, out: string, s: Sectioning, nested: int): Result<string>
    decreases items, 2
  {
    match ItemsEmit(e, items, Printed(out, EnvOpen(e), true, false), s, nested)
    case Err(err) => Err(err)
    case Ok(o) => Ok(Printed(o, EnvClose(e), true, false))
  }

  /** The cross reference a link prints: its target's qualifier, and its
      text when that is not empty. */
  function LinkRef(out: string, arg: string, text: Option<string>): string
  {
    var (qual, _, _) := Partition(arg, ':');
    if text.Some? && text.value != "" then Printed(out, "@ref{" + qual + "," + text.value + "}", false, false)
    else Printed(out, "@ref{" + qual + "}", false, false)
  }

  /** `TexiLinkNode.format`: the parts are formatted into accumulators of
      their own; the first part is the target (the list's first entry is
      the same text), the second the text.  Sentinel links print nothing. */
  function LinkEmit(items: seq<Node>, out: string, s: Sectioning, nested: int): Result<string>
    decreases items, 2
  {
    if items == [] then Err(IndexError)
    else match Emit(items[0], "", s, nested)
      case Err(err) => Err(err)
      case Ok(arg) =>
        if |items| == 1 then Ok(LinkRef(out, arg, None))
        else match Emit(items[1], "", s, nested)
          case Err(err) => Err(err)
          case Ok(text) =>
            if arg == "disambigR" || arg == "wikiquote" || text == "thumb" then Ok(out)
            else Ok(LinkRef(out, arg, Some(text)))
  }

  /** `TexiRefNode.format`: `@uref{target,text}`, or `@uref{target}` when
      the text comes out empty. */
  function RefEmit(ref: string, body: Node, out: string, s: Sectioning, nested: int): Result<string>
    decreases body, 1
  {
    match Emit(body, "", s, nested)
    case Err(err) => Err(err)
    case Ok(text) =>
      if text != "" then Ok(Printed(out, "@uref{" + ref + "," + text + "}", false, false))
      else Ok(Printed(out, "@uref{" + ref + "}", false, false))
  }

  /** `"%s" % value` for an attribute value. */
  function AttrStr(v: AttrVal): string
  {
    match v
    case AStr(x) => x
    case AOne => "1"
  }

  /** A `code` or `tt` tag around the already formatted `x`. */
  function CodeText(out: string, x: string, block: bool): string
  {
    if block then Printed(Printed(Printed(out, "@example", true, false), x, false, false), "@end example\n", true, false)
    else Printed(out, "@code{" + x + "}", false, false)
  }

  /** The `@anchor` a `div` with an `id` attribute puts first. */
  function Anchored(out: string, args: TagAttrs): string
  {
    if args.Truthy() && "id" in args.tab then Printed(out, "@anchor{" + AttrStr(args.tab["id"]) + "}\n", true, false)
    else out
  }

  /** `TexiTagNode.format`.  An unknown tag with attributes raises
      `TypeError`: `' ' + self.args` adds a `TagAttributes` to a string. */
  function TagEmit(t: string, args: TagAttrs, block: bool, body: Node, out: string, s: Sectioning, nested: int): Result<string>
    decreases body, 2
  {
    if t == "code" || t == "tt" then CodeEmit(block, body, out, s, nested)
    else if t == "div" then Emit(body, Anchored(out, args), s, nested)
    else if t == "ref" then FootnoteEmit(body, out, s, nested)
    else if t == "references" then Ok(out)
    else OtherTagEmit(t, args, body, out, s, nested)
  }

  /** A `code` or `tt` tag: the body is formatted one level deeper, into
      an accumulator of its own. */
  function CodeEmit(block: bool, body: Node, out: string, s: Sectioning, nested: int): Result<string>
    decreases body, 1
  {
    match Emit(body, "", s, nested + 1)
    case Err(err) => Err(err)
    case Ok(x) => Ok(CodeText(out, x, block))
  }

  /** A `ref` tag: its body becomes a footnote. */
  function FootnoteEmit(body: Node, out: string, s: Sectioning, nested: int): Result<string>
    decreases body, 1
  {
    match Emit(body, Printed(out, "@footnote{", false, false), s, nested)
    case Err(err) => Err(err)
    case Ok(o) => Ok(Printed(o, "}", false, false))
  }

  /** Any other tag is printed back, escaped, around its body. */
  function OtherTagEmit(t: string, args: TagAttrs, body: Node, out: string, s: Sectioning, nested: int): Result<string>
    decreases body, 1
  {
    if args.Truthy() then Err(TypeError)
    else
      match Emit(body, Printed(Printed(out, "<" + t, false, true), ">", false, true), s, nested)
      case Err(err) => Err(err)
      case Ok(o) => Ok(Printed(o, "</" + t + ">", false, true))
  }

  /** `str(translator)`: every node of the tree into a fresh accumulator,
      then a final blank line trimmed. */
  function Rendered(tree: seq<Node>, s: Sectioning, nested: int): Result<string>
  {
    match EmitAll(tree, "", s, nested)
    case Err(err) => Err(err)
    case Ok(o) => Ok(TrimParaOf(o))
  }

  // ----------------------------------------------------------------------
  // Step lemmas for the loops

  lemma EmitAllStep(items: seq<Node>, i: nat, out: string, o: string, s: Sectioning, nested: int)
    requires i < |items| && EmitAll(items[..i], out, s, nested) == Ok(o)
    ensures EmitAll(items[..i + 1], out, s, nested) == Emit(items[i], o, s, nested)
  {
    assert items[..i + 1][..i] == items[..i];
  }

  /** An exception raised by some leading items is that of the whole list. */
  lemma {:induction false} EmitAllErrPersists(items: seq<Node>, j: nat, out: string, s: Sectioning, nested: int)
    requires j <= |items| && EmitAll(items[..j], out, s, nested).Err?
    ensures EmitAll(items, out, s, nested) == EmitAll(items[..j], out, s, nested)
    decreases |items| - j
  {
    if j < |items| {
      assert items[..j + 1][..j] == items[..j];
      EmitAllErrPersists(items, j + 1, out, s, nested);
    } else {
      assert items[..j] == items;
    }
  }

  lemma ItemsStep(e: EnvType, items: seq<Node>, i: nat, out: string, o: string, s: Sectioning, nested: int)
    requires i < |items| && ItemsEmit(e, items[..i], out, s, nested) == Ok(o)
    ensures ItemsEmit(e, items[..i + 1], out, s, nested) == ItemEmit(e, items[i], o, s, nested)
  {
    assert items[..i + 1][..i] == items[..i];
  }

  lemma {:induction false} ItemsErrPersists(e: EnvType, items: seq<Node>, j: nat, out: string, s: Sectioning, nested: int)
    requires j <= |items| && ItemsEmit(e, items[..j], out, s, nested).Err?
    ensures ItemsEmit(e, items, out, s, nested) == ItemsEmit(e, items[..j], out, s, nested)
    decreases |items| - j
  {
    if j < |items| {
      assert items[..j + 1][..j] == items[..j];
      ItemsErrPersists(e, items, j + 1, out, s, nested);
    } else {
      assert items[..j] == items;
    }
  }

  // ----------------------------------------------------------------------
  // The translator

  /** `TexiWikiMarkup`: the parse tree, the sectioning chosen at
      construction, the `code` nesting depth and the current accumulator,
      which is `None` between two translations. */
  class TexiTranslator {
    const tree: seq<Node>
    const sect: Sectioning
    var nested: int
    var acc: Acc?

    constructor(tree: seq<Node>, sect: Sectioning)
      ensures this.tree == tree && this.sect == sect && nested == 0
      ensures acc != null && fresh(acc) && acc.items == []
    {
      this.tree := tree;
      this.sect := sect;
      nested := 0;
      acc := new Acc();
    }

    /** The constructor with its keyword checks: a `ValueError` for an
        unknown sectioning model or a start outside 0..4. */
    static method Create(tree: seq<Node>, model: Option<string>, start: Option<int>) returns (r: Result<TexiTranslator>)
      ensures Configure(model, start).Err? ==> r == Err(Configure(model, start).error)
      ensures Configure(model, start).Ok? ==> (r.Ok? && fresh(r.value) && r.value.tree == tree
        && r.value.sect == Configure(model, start).value && r.value.nested == 0)
    {
      match Configure(model, start)
      case Err(err) =>
        r := Err(err);
      case Ok(s) =>
        var x := new TexiTranslator(tree, s);
        r := Ok(x);
    }

    /** `_print(text, nl=nl, escape=escape)`. */
    method Print(text: string, nl: bool, escape: bool)
      requires acc != null && acc.Valid()
      modifies acc
      ensures acc.Valid() && acc.Text() == Printed(old(acc.Text()), text, nl, escape)
    {
      if nl {
        var e := acc.EndsWith("\n");
        if !e {
          acc.Extend("\n");
        }
      }
      if text != "" {
        if escape {
          acc.Extend(EscapeTexi(text));
        } else {
          acc.Extend(text);
        }
      }
    }

    /** `_begin_print`: output goes to a fresh accumulator; the old one is
        returned. */
    method BeginPrint() returns (save: Acc?)
      modifies this
      ensures save == old(acc) && acc != null && fresh(acc) && acc.items == [] && acc.Valid()
      ensures nested == old(nested)
    {
      save := acc;
      acc := new Acc();
    }

    /** `_end_print(val)`: the accumulator becomes `val`, and what the old
        one held is returned (`str(None)` when there was none). */
    method EndPrint(val: Acc?) returns (s: string)
      modifies this
      ensures acc == val && nested == old(nested)
      ensures s == if old(acc) == null then "None" else old(acc.Text())
    {
      if acc == null {
        s := "None";
      } else {
        s := acc.Text();
      }
      acc := val;
    }

    /** `node.format()`, by the kind of node. */
    method Format(n: Node) returns (err: Option<PyError>)
      requires acc != null && acc.Valid()
      modifies this, acc
      ensures err == ErrorOf(Emit(n, old(acc.Text()), sect, old(nested)))
      ensures err.None? ==> (acc == old(acc) && acc.Valid() && nested == old(nested)
        && acc.Text() == Emit(n, old(acc.Text()), sect, old(nested)).value)
      decreases n, 1
    {
      if n.Para? || n.Pre? || n.It? || n.Bold? || n.Env? || n.Link? {
        err := FormatContainer(n);
      } else if n.Tag? || n.Hdr? || n.Ind? || n.Ref? {
        err := FormatWrapper(n);
      } else {
        err := FormatSimple(n);
      }
    }

    /** Text, rules, sequences, and the nodes that print nothing. */
    method FormatSimple(n: Node) returns (err: Option<PyError>)
      requires !(n.Para? || n.Pre? || n.It? || n.Bold? || n.Env? || n.Link?)
      requires !(n.Tag? || n.Hdr? || n.Ind? || n.Ref?)
      requires acc != null && acc.Valid()
      modifies this, acc
      ensures err == ErrorOf(Emit(n, old(acc.Text()), sect, old(nested)))
      ensures err.None? ==> (acc == old(acc) && acc.Valid() && nested == old(nested)
        && acc.Text() == Emit(n, old(acc.Text()), sect, old(nested)).value)
      decreases n, 0
    {
      match n
      case Text(t) =>
        Print(t, false, true);
        err := None;
      case Bar =>
        Print("\n-----\n", false, true);
        err := None;
      case Seq(items) =>
        err := FormatAll(items);
      case Tmpl(items) =>
        err := FormatAll(items);
      case Nil =>
        err := None;
      case Nl =>
        err := None;
      case Delim(_, _, _) =>
        err := None;
      case OTag(_, _, _) =>
        err := None;
      case CTag(_) =>
        err := None;
      case Elt(_, _) =>
        err := None;
    }

    /** The nodes that hold a list of items. */
    method FormatContainer(n: Node) returns (err: Option<PyError>)
      requires n.Para? || n.Pre? || n.It? || n.Bold? || n.Env? || n.Link?
      requires acc != null && acc.Valid()
      modifies this, acc
      ensures err == ErrorOf(Emit(n, old(acc.Text()), sect, old(nested)))
      ensures err.None? ==> (acc == old(acc) && acc.Valid() && nested == old(nested)
        && acc.Text() == Emit(n, old(acc.Text()), sect, old(nested)).value)
      decreases n, 0
    {
      match n
      case Para(items) =>
        err := FormatPara(items);
      case Pre(items) =>
        err := FormatPre(items);
      case It(items) =>
        err := FormatFont("i", items);
      case Bold(items) =>
        err := FormatFont("b", items);
      case Env(e, _, items) =>
        err := FormatEnv(e, items);
      case Link(items) =>
        err := FormatLink(items);
    }

    /** The nodes around a single body. */
    method FormatWrapper(n: Node) returns (err: Option<PyError>)
      requires n.Tag? || n.Hdr? || n.Ind? || n.Ref?
      requires acc != null && acc.Valid()
      modifies this, acc
      ensures err == ErrorOf(Emit(n, old(acc.Text()), sect, old(nested)))
      ensures err.None? ==> (acc == old(acc) && acc.Valid() && nested == old(nested)
        && acc.Text() == Emit(n, old(acc.Text()), sect, old(nested)).value)
      decreases n, 0
    {
      match n
      case Tag(t, args, block, body, _) =>
        err := FormatTag(t, args, block, body);
      case Hdr(level, body) =>
        err := FormatHdr(level, body);
      case Ind(level, body) =>
        err := FormatInd(level, body);
      case Ref(ref, body) =>
        err := FormatRef(ref, body);
    }

    /** `WikiSeqNode.format`: each item in turn. */
    method FormatAll(items: seq<Node>) returns (err: Option<PyError>)
      requires acc != null && acc.Valid()
      modifies this, acc
      ensures err == ErrorOf(EmitAll(items, old(acc.Text()), sect, old(nested)))
      ensures err.None? ==> (acc == old(acc) && acc.Valid() && nested == old(nested)
        && acc.Text() == EmitAll(items, old(acc.Text()), sect, old(nested)).value)
      decreases items, 2
    {
      err := None;
      for i := 0 to |items|
        invariant acc == old(acc) && acc.Valid() && nested == old(nested) && err.None?
        invariant EmitAll(items[..i], old(acc.Text()), sect, old(nested)) == Ok(acc.Text())
      {
        EmitAllStep(items, i, old(acc.Text()), acc.Text(), sect, old(nested));
        err := Format(items[i]);
        if err.Some? {
          EmitAllErrPersists(items, i + 1, old(acc.Text()), sect, old(nested));
          return;
        }
      }
      assert items[..|items|] == items;
    }

    method FormatPara(items: seq<Node>) returns (err: Option<PyError>)
      requires acc != null && acc.Valid()
      modifies this, acc
      ensures err == ErrorOf(ParaEmit(items, old(acc.Text()), sect, old(nested)))
      ensures err.None? ==> (acc == old(acc) && acc.Valid() && nested == old(nested)
        && acc.Text() == ParaEmit(items, old(acc.Text()), sect, old(nested)).value)
      decreases items, 3
    {
      var p := acc.InNewPara();
      if !p {
        Print("\n", true, true);
      }
      err := FormatAll(items);
      if err.Some? {
        return;
      }
      p := acc.InNewPara();
      if !p {
        Print("\n", true, true);
      }
    }

    method FormatPre(items: seq<Node>) returns (err: Option<PyError>)
      requires acc != null && acc.Valid()
      modifies this, acc
      ensures err == ErrorOf(PreEmit(items, old(acc.Text()), sect, old(nested)))
      ensures err.None? ==> (acc == old(acc) && acc.Valid() && nested == old(nested)
        && acc.Text() == PreEmit(items, old(acc.Text()), sect, old(nested)).value)
      decreases items, 3
    {
      if nested == 0 {
        Print("@example\n", true, false);
      }
      err := FormatAll(items);
      if err.Some? {
        return;
      }
      if nested == 0 {
        Print("@end example\n", true, false);
      }
    }

    method FormatFont(c: string, items: seq<Node>) returns (err: Option<PyError>)
      requires acc != null && acc.Valid()
      modifies this, acc
      ensures err == ErrorOf(FontEmit(c, items, old(acc.Text()), sect, old(nested)))
      ensures err.None? ==> (acc == old(acc) && acc.Valid() && nested == old(nested)
        && acc.Text() == FontEmit(c, items, old(acc.Text()), sect, old(nested)).value)
      decreases items, 3
    {
      Print("@" + c + "{", false, false);
      err := FormatAll(items);
      if err.Some? {
        return;
      }
      Print("}", false, false);
    }

    method FormatHdr(level: int, body: Node) returns (err: Option<PyError>)
      requires acc != null && acc.Valid()
      modifies this, acc
      ensures err == ErrorOf(HdrEmit(level, body, old(acc.Text()), sect, old(nested)))
      ensures err.None? ==> (acc == old(acc) && acc.Valid() && nested == old(nested)
        && acc.Text() == HdrEmit(level, body, old(acc.Text()), sect, old(nested)).value)
      decreases body, 3
    {
      var cmd := SectionCommand(level, sect);
      if cmd.Err? {
        return Some(cmd.error);
      }
      Print(cmd.value + " ", true, false);
      err := Format(body);
      if err.Some? {
        return;
      }
      Print("", true, true);
      if level <= |sect.table| - 1 - sect.start {
        err := FormatNode(body);
      }
    }

    /** The end of a heading taken from the table. */
    method FormatNode(body: Node) returns (err: Option<PyError>)
      requires |sect.table| > 0
      requires acc != null && acc.Valid()
      modifies this, acc
      ensures err == ErrorOf(NodeEmit(body, old(acc.Text()), sect, old(nested)))
      ensures err.None? ==> (acc == old(acc) && acc.Valid() && nested == old(nested)
        && acc.Text() == NodeEmit(body, old(acc.Text()), sect, old(nested)).value)
      decreases body, 2
    {
      if sect.table[0] == "@top" {
        Print("@node ", true, false);
        err := Format(body);
        if err.Some? {
          return;
        }
        Print("\n", false, true);
      } else {
        err := None;
      }
      Print("", true, true);
    }

    method FormatInd(level: int, body: Node) returns (err: Option<PyError>)
      requires acc != null && acc.Valid()
      modifies this, acc
      ensures err == ErrorOf(IndEmit(level, body, old(acc.Text()), sect, old(nested)))
      ensures err.None? ==> (acc == old(acc) && acc.Valid() && nested == old(nested)
        && acc.Text() == IndEmit(level, body, old(acc.Text()), sect, old(nested)).value)
      decreases body, 3
    {
      Print(Repeat("@w{ }", level), true, false);
      err := Format(body);
      if err.Some? {
        return;
      }
      Print("", true, true);
    }

    /** One pass of the environment loop. */
    method FormatItem(e: EnvType, item: Node) returns (err: Option<PyError>)
      requires acc != null && acc.Valid()
      modifies this, acc
      ensures err == ErrorOf(ItemEmit(e, item, old(acc.Text()), sect, old(nested)))
      ensures err.None? ==> (acc == old(acc) && acc.Valid() && nested == old(nested)
        && acc.Text() == ItemEmit(e, item, old(acc.Text()), sect, old(nested)).value)
      decreases item, 2
    {
      if !item.Elt? {
        return Some(AttributeError);
      }
      if e == Defn && item.subtype != 0 {
        err := Format(item.body);
        if err.Some? {
          return;
        }
        Print("", true, true);
        Print("\n", false, true);
      } else {
        Print("@item ", true, false);
        err := Format(item.body);
        if err.Some? {
          return;
        }
        Print("", true, true);
        if e != Defn {
          Print("\n", false, true);
        }
      }
    }

    method FormatEnv(e: EnvType, items: seq<Node>) returns (err: Option<PyError>)
      requires acc != null && acc.Valid()
      modifies this, acc
      ensures err == ErrorOf(EnvEmit(e, items, old(acc.Text()), sect, old(nested)))
      ensures err.None? ==> (acc == old(acc) && acc.Valid() && nested == old(nested)
        && acc.Text() == EnvEmit(e, items, old(acc.Text()), sect, old(nested)).value)
      decreases items, 3
    {
      Print(EnvOpen(e), true, false);
      ghost var o := acc.Text();
      err := None;
      for i := 0 to |items|
        invariant acc == old(acc) && acc.Valid() && nested == old(nested) && err.None?
        invariant ItemsEmit(e, items[..i], o, sect, old(nested)) == Ok(acc.Text())
      {
        ItemsStep(e, items, i, o, acc.Text(), sect, old(nested));
        err := FormatItem(e, items[i]);
        if err.Some? {
          ItemsErrPersists(e, items, i + 1, o, sect, old(nested));
          return;
        }
      }
      assert items[..|items|] == items;
      Print(EnvClose(e), true, false);
    }

    method FormatLink(items: seq<Node>) returns (err: Option<PyError>)
      requires acc != null && acc.Valid()
      modifies this, acc
      ensures err == ErrorOf(LinkEmit(items, old(acc.Text()), sect, old(nested)))
      ensures err.None? ==> (acc == old(acc) && acc.Valid() && nested == old(nested)
        && acc.Text() == LinkEmit(items, old(acc.Text()), sect, old(nested)).value)
      decreases items, 3
    {
      var save := BeginPrint();
      if |items| == 0 {
        return Some(IndexError);
      }
      err := Format(items[0]);
      if err.Some? {
        return;
      }
      var arg := EndPrint(null);
      var s: seq<string> := [];
      var text: Option<string> := None;
      if |items| > 1 {
        for j := 0 to 2
          invariant acc == null && nested == old(nested) && err.None?
          invariant save.items == old(acc.items)
          invariant |s| == j
          invariant forall k :: 0 <= k < j ==> Emit(items[k], "", sect, old(nested)) == Ok(s[k])
        {
          var discarded := BeginPrint();
          err := Format(items[j]);
          if err.Some? {
            return;
          }
          var x := EndPrint(null);
          s := s + [x];
        }
        text := Some(s[1]);
      }
      var discarded := EndPrint(save);
      if |s| > 0 {
        if s[0] == "disambigR" || s[0] == "wikiquote" {
          return None;
        }
        if |s| > 1 && s[1] == "thumb" {
          return None;
        }
      }
      var (qual, _, _) := Partition(arg, ':');
      if text.Some? && text.value != "" {
        Print("@ref{" + qual + "," + text.value + "}", false, false);
      } else {
        Print("@ref{" + qual + "}", false, false);
      }
    }

    method FormatRef(ref: string, body: Node) returns (err: Option<PyError>)
      requires acc != null && acc.Valid()
      modifies this, acc
      ensures err == ErrorOf(RefEmit(ref, body, old(acc.Text()), sect, old(nested)))
      ensures err.None? ==> (acc == old(acc) && acc.Valid() && nested == old(nested)
        && acc.Text() == RefEmit(ref, body, old(acc.Text()), sect, old(nested)).value)
      decreases body, 3
    {
      var save := BeginPrint();
      err := Format(body);
      if err.Some? {
        return;
      }
      var text := EndPrint(save);
      if text != "" {
        Print("@uref{" + ref + "," + text + "}", false, false);
      } else {
        Print("@uref{" + ref + "}", false, false);
      }
    }

    method FormatTag(t: string, args: TagAttrs, block: bool, body: Node) returns (err: Option<PyError>)
      requires acc != null && acc.Valid()
      modifies this, acc
      ensures err == ErrorOf(TagEmit(t, args, block, body, old(acc.Text()), sect, old(nested)))
      ensures err.None? ==> (acc == old(acc) && acc.Valid() && nested == old(nested)
        && acc.Text() == TagEmit(t, args, block, body, old(acc.Text()), sect, old(nested)).value)
      decreases body, 3
    {
      if t == "code" || t == "tt" {
        err := FormatCode(block, body);
      } else if t == "div" {
        if args.Truthy() && "id" in args.tab {
          Print("@anchor{" + AttrStr(args.tab["id"]) + "}\n", true, false);
        }
        err := Format(body);
      } else if t == "ref" {
        err := FormatFootnote(body);
      } else if t == "references" {
        err := None;
      } else {
        err := FormatOtherTag(t, args, body);
      }
    }

    /** A `code` or `tt` tag. */
    method FormatCode(block: bool, body: Node) returns (err: Option<PyError>)
      requires acc != null && acc.Valid()
      modifies this, acc
      ensures err == ErrorOf(CodeEmit(block, body, old(acc.Text()), sect, old(nested)))
      ensures err.None? ==> (acc == old(acc) && acc.Valid() && nested == old(nested)
        && acc.Text() == CodeEmit(block, body, old(acc.Text()), sect, old(nested)).value)
      decreases body, 2
    {
      var save := BeginPrint();
      nested := nested + 1;
      err := Format(body);
      if err.Some? {
        return;
      }
      nested := nested - 1;
      var x := EndPrint(save);
      if block {
        Print("@example", true, false);
        Print(x, false, false);
        Print("@end example\n", true, false);
      } else {
        Print("@code{" + x + "}", false, false);
      }
    }

    /** A `ref` tag. */
    method FormatFootnote(body: Node) returns (err: Option<PyError>)
      requires acc != null && acc.Valid()
      modifies this, acc
      ensures err == ErrorOf(FootnoteEmit(body, old(acc.Text()), sect, old(nested)))
      ensures err.None? ==> (acc == old(acc) && acc.Valid() && nested == old(nested)
        && acc.Text() == FootnoteEmit(body, old(acc.Text()), sect, old(nested)).value)
      decreases body, 2
    {
      Print("@footnote{", false, false);
      err := Format(body);
      if err.Some? {
        return;
      }
      Print("}", false, false);
    }

    /** Any other tag, printed back around its body. */
    method FormatOtherTag(t: string, args: TagAttrs, body: Node) returns (err: Option<PyError>)
      requires acc != null && acc.Valid()
      modifies this, acc
      ensures err == ErrorOf(OtherTagEmit(t, args, body, old(acc.Text()), sect, old(nested)))
      ensures err.None? ==> (acc == old(acc) && acc.Valid() && nested == old(nested)
        && acc.Text() == OtherTagEmit(t, args, body, old(acc.Text()), sect, old(nested)).value)
      decreases body, 2
    {
      Print("<" + t, false, true);
      if args.Truthy() {
        return Some(TypeError);
      }
      Print(">", false, true);
      err := Format(body);
      if err.Some? {
        return;
      }
      Print("</" + t + ">", false, true);
    }

    /** `str(translator)`: the tree into a fresh accumulator, a final blank
        line trimmed, and no accumulator left behind. */
    method Render() returns (r: Result<string>)
      modifies this
      ensures r == Rendered(tree, sect, old(nested))
      ensures r.Ok? ==> acc == null && nested == old(nested)
    {
      var discarded := BeginPrint();
      for i := 0 to |tree|
        invariant acc != null && fresh(acc) && acc.Valid() && nested == old(nested)
        invariant EmitAll(tree[..i], "", sect, old(nested)) == Ok(acc.Text())
      {
        EmitAllStep(tree, i, "", acc.Text(), sect, old(nested));
        var err := Format(tree[i]);
        if err.Some? {
          EmitAllErrPersists(tree, i + 1, "", sect, old(nested));
          return Err(err.value);
        }
      }
      assert tree[..|tree|] == tree;
      acc.TrimPara();
      var s := EndPrint(null);
      r := Ok(s);
    }
  }
}
