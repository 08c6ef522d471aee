/** What the Texinfo translator's output looks like: formatting a node only
    ever appends to the accumulator, and each kind of node leaves the
    commands around its content that its `format` prints. */
module TexiProps {
  import opened PyStr
  import opened WikiToken
  import opened Texi

  /** A result that keeps, at its start, everything printed before it. */
  predicate Keeps(r: Result<string>, out: string)
  {
    r.Ok? ==> StartsWith(r.value, out)
  }

  /** `x` followed by a newline, when `x` already ends with one, ends a
      paragraph. */
  lemma BlankAfter(x: string)
    requires EndsWith(x, "\n")
    ensures EndsWith(x + "\n", "\n\n")
  {
    assert (x + "\n")[|x| - 1..] == [x[|x| - 1], '\n'];
  }

  /** A newline needs no escaping. */
  lemma EscapeNewline()
    ensures EscapeTexi("\n") == "\n"
  {
    assert !Special("\n"[0]);
  }

  /** `_print('\n', nl=True)` leaves a blank line. */
  lemma BlankLine(out: string)
    ensures Printed(out, "\n", true, true) == Printed(out, "", true, true) + "\n"
    ensures StartsWith(Printed(out, "\n", true, true), out)
    ensures EndsWith(Printed(out, "\n", true, true), "\n\n")
  {
    var o := Printed(out, "", true, true);
    EscapeNewline();
    assert Printed(out, "\n", true, true) == o + "\n";
    PrintNewline(out, true);
    PrintAppends(out, "\n", true, true);
    BlankAfter(o);
  }

  /** What a paragraph prints before its items already starts a paragraph. */
  lemma ParaBreakOpens(out: string)
    ensures StartsWith(ParaBreak(out), out)
    ensures NewPara(ParaBreak(out))
  {
    if !NewPara(out) {
      BlankLine(out);
    }
  }

  /** Printing `text` unescaped, without a line break, appends it as is. */
  lemma PrintPlain(out: string, text: string)
    requires text != ""
    ensures Printed(out, text, false, false) == out + text
    ensures StartsWith(out + text, out) && EndsWith(out + text, text)
  {
    assert (out + text)[..|out|] == out;
    assert (out + text)[|out + text| - |text|..] == text;
  }

  /** The whole of a node's output: the accumulator's old text, then what
      the node printed.  Every kind of node only appends. */
  lemma {:induction false} EmitKeeps(n: Node, out: string, s: Sectioning, nested: int)
    ensures Keeps(Emit(n, out, s, nested), out)
    decreases n, 0
  {
    match n
    case Text(t) =>
      PrintAppends(out, t, false, true);
    case Bar =>
      PrintAppends(out, "\n-----\n", false, true);
    case Seq(items) =>
      EmitAllKeeps(items, out, s, nested);
    case Tmpl(items) =>
      EmitAllKeeps(items, out, s, nested);
    case Para(items) =>
      ParaBreaks(items, out, s, nested);
    case Pre(items) =>
      PreExample(items, out, s, nested);
    case It(items) =>
      FontBraces("i", items, out, s, nested);
    case Bold(items) =>
      FontBraces("b", items, out, s, nested);
    case Env(e, _, items) =>
      EnvFramed(e, items, out, s, nested);
    case Link(items) =>
      LinkRefs(items, out, s, nested);
    case Tag(t, args, block, body, _) =>
      TagOutput(t, args, block, body, out, s, nested);
    case Hdr(level, body) =>
      HdrCommand(level, body, out, s, nested);
    case Ind(level, body) =>
      IndIndent(level, body, out, s, nested);
    case Ref(ref, body) =>
      RefUref(ref, body, out, s, nested);
    case _ =>
  }

  lemma {:induction false} EmitAllKeeps(items: seq<Node>, out: string, s: Sectioning, nested: int)
    ensures Keeps(EmitAll(items, out, s, nested), out)
    decreases items, 1
  {
    if items != [] {
      var init := items[..|items| - 1];
      EmitAllKeeps(init, out, s, nested);
      var r := EmitAll(init, out, s, nested);
      if r.Ok? {
        EmitKeeps(items[|items| - 1], r.value, s, nested);
        var x := EmitAll(items, out, s, nested);
        if x.Ok? {
          PrefixTrans(x.value, r.value, out);
        }
      }
    }
  }

  /** A paragraph starts on a paragraph break and leaves one behind it. */
  lemma {:induction false} ParaBreaks(items: seq<Node>, out: string, s: Sectioning, nested: int)
    ensures Keeps(ParaEmit(items, out, s, nested), out)
    ensures ParaEmit(items, out, s, nested).Ok? ==>
      StartsWith(ParaEmit(items, out, s, nested).value, ParaBreak(out))
      && NewPara(ParaEmit(items, out, s, nested).value)
    decreases items, 2
  {
    var b := ParaBreak(out);
    ParaBreakOpens(out);
    EmitAllKeeps(items, b, s, nested);
    var r := EmitAll(items, b, s, nested);
    if r.Ok? {
      ParaBreakOpens(r.value);
      PrefixTrans(ParaBreak(r.value), r.value, b);
      PrefixTrans(ParaBreak(r.value), b, out);
    }
  }

  /** Preformatted text is an `@example` block, except inside `code`,
      where its items are formatted as they are. */
  lemma {:induction false} PreExample(items: seq<Node>, out: string, s: Sectioning, nested: int)
    ensures Keeps(PreEmit(items, out, s, nested), out)
    ensures nested == 0 && PreEmit(items, out, s, nested).Ok? ==>
      StartsWith(PreEmit(items, out, s, nested).value, Printed(out, "@example\n", true, false))
      && EndsWith(PreEmit(items, out, s, nested).value, "@end example\n")
    ensures nested != 0 ==> PreEmit(items, out, s, nested) == EmitAll(items, out, s, nested)
    decreases items, 2
  {
    var b := if nested == 0 then Printed(out, "@example\n", true, false) else out;
    PrintAppends(out, "@example\n", true, false);
    EmitAllKeeps(items, b, s, nested);
    var r := EmitAll(items, b, s, nested);
    if r.Ok? && nested == 0 {
      PrintAppends(r.value, "@end example\n", true, false);
      PrefixTrans(Printed(r.value, "@end example\n", true, false), r.value, b);
      PrefixTrans(Printed(r.value, "@end example\n", true, false), b, out);
    }
  }

  /** Italic and bold text sit inside `@i{…}` and `@b{…}`. */
  lemma {:induction false} FontBraces(c: string, items: seq<Node>, out: string, s: Sectioning, nested: int)
    ensures Keeps(FontEmit(c, items, out, s, nested), out)
    ensures FontEmit(c, items, out, s, nested).Ok? ==>
      StartsWith(FontEmit(c, items, out, s, nested).value, out + ("@" + c + "{"))
      && EndsWith(FontEmit(c, items, out, s, nested).value, "}")
    decreases items, 2
  {
    var b := out + ("@" + c + "{");
    PrintPlain(out, "@" + c + "{");
    EmitAllKeeps(items, b, s, nested);
    var r := EmitAll(items, b, s, nested);
    if r.Ok? {
      PrintPlain(r.value, "}");
      PrefixTrans(r.value + "}", r.value, b);
      PrefixTrans(r.value + "}", b, out);
    }
  }

  /** A heading starts, on a line of its own, with its sectioning command,
      and ends a line; a level whose index falls outside the table raises
      `IndexError`. */
  lemma {:induction false} HdrCommand(level: int, body: Node, out: string, s: Sectioning, nested: int)
    ensures Keeps(HdrEmit(level, body, out, s, nested), out)
    ensures level <= |s.table| - 1 - s.start && (level - s.start < -|s.table| || level - s.start >= |s.table|) ==>
      HdrEmit(level, body, out, s, nested) == Err(IndexError)
    ensures HdrEmit(level, body, out, s, nested).Ok? ==>
      SectionCommand(level, s).Ok?
      && StartsWith(HdrEmit(level, body, out, s, nested).value, Printed(out, SectionCommand(level, s).value + " ", true, false))
      && EndsWith(HdrEmit(level, body, out, s, nested).value, "\n")
    decreases body, 2
  {
    var c := SectionCommand(level, s);
    if c.Ok? {
      var b := Printed(out, c.value + " ", true, false);
      PrintAppends(out, c.value + " ", true, false);
      EmitKeeps(body, b, s, nested);
      var r := Emit(body, b, s, nested);
      if r.Ok? {
        var o1 := Printed(r.value, "", true, true);
        PrintNewline(r.value, true);
        PrintAppends(r.value, "", true, true);
        if level <= |s.table| - 1 - s.start {
          NodeTitle(body, o1, s, nested);
          var h := HdrEmit(level, body, out, s, nested);
          if h.Ok? {
            PrefixTrans(h.value, o1, r.value);
            PrefixTrans(h.value, r.value, b);
          }
        } else {
          PrefixTrans(o1, r.value, b);
        }
        var h := HdrEmit(level, body, out, s, nested);
        if h.Ok? {
          PrefixTrans(h.value, b, out);
        }
      }
    }
  }

  /** Under a table that starts with `@top` the title is repeated after
      `@node`; either way the heading ends a line. */
  lemma {:induction false} NodeTitle(body: Node, out: string, s: Sectioning, nested: int)
    requires |s.table| > 0
    ensures Keeps(NodeEmit(body, out, s, nested), out)
    ensures NodeEmit(body, out, s, nested).Ok? ==> EndsWith(NodeEmit(body, out, s, nested).value, "\n")
    ensures s.table[0] == "@top" && NodeEmit(body, out, s, nested).Ok? ==>
      StartsWith(NodeEmit(body, out, s, nested).value, Printed(out, "@node ", true, false))
    decreases body, 1
  {
    PrintNewline(out, true);
    PrintAppends(out, "", true, true);
    if s.table[0] == "@top" {
      var b := Printed(out, "@node ", true, false);
      PrintAppends(out, "@node ", true, false);
      EmitKeeps(body, b, s, nested);
      var r := Emit(body, b, s, nested);
      if r.Ok? {
        var o2 := Printed(r.value, "\n", false, true);
        PrintAppends(r.value, "\n", false, true);
        PrintNewline(o2, true);
        PrintAppends(o2, "", true, true);
        PrefixTrans(Printed(o2, "", true, true), o2, r.value);
        PrefixTrans(Printed(o2, "", true, true), r.value, b);
        PrefixTrans(Printed(o2, "", true, true), b, out);
      }
    }
  }

  /** An indented line starts with one `@w{ }` per level and ends a line. */
  lemma {:induction false} IndIndent(level: int, body: Node, out: string, s: Sectioning, nested: int)
    ensures Keeps(IndEmit(level, body, out, s, nested), out)
    ensures IndEmit(level, body, out, s, nested).Ok? ==>
      StartsWith(IndEmit(level, body, out, s, nested).value, Printed(out, Repeat("@w{ }", level), true, false))
      && EndsWith(IndEmit(level, body, out, s, nested).value, "\n")
    decreases body, 1
  {
    var b := Printed(out, Repeat("@w{ }", level), true, false);
    PrintAppends(out, Repeat("@w{ }", level), true, false);
    EmitKeeps(body, b, s, nested);
    var r := Emit(body, b, s, nested);
    if r.Ok? {
      PrintNewline(r.value, true);
      PrintAppends(r.value, "", true, true);
      PrefixTrans(Printed(r.value, "", true, true), r.value, b);
      PrefixTrans(Printed(r.value, "", true, true), b, out);
    }
  }

  /** Each item of an environment ends a line; a list item and a definition
      are followed by a blank line, and a list item and a term start with
      `@item`.  An item that is not an element, which `parse_env` never
      builds, is modelled as `AttributeError`. */
  lemma {:induction false} ItemLines(e: EnvType, item: Node, out: string, s: Sectioning, nested: int)
    ensures Keeps(ItemEmit(e, item, out, s, nested), out)
    ensures !item.Elt? ==> ItemEmit(e, item, out, s, nested) == Err(AttributeError)
    ensures ItemEmit(e, item, out, s, nested).Ok? ==> EndsWith(ItemEmit(e, item, out, s, nested).value, "\n")
    ensures item.Elt? && (e != Defn || item.subtype != 0) && ItemEmit(e, item, out, s, nested).Ok? ==>
      EndsWith(ItemEmit(e, item, out, s, nested).value, "\n\n")
    ensures item.Elt? && !(e == Defn && item.subtype != 0) && ItemEmit(e, item, out, s, nested).Ok? ==>
      StartsWith(ItemEmit(e, item, out, s, nested).value, Printed(out, "@item ", true, false))
    decreases item, 1
  {
    if item.Elt? && e == Defn && item.subtype != 0 {
      DefinitionLines(item, out, s, nested);
    } else if item.Elt? {
      LeadItemLines(e, item, out, s, nested);
    }
  }

  /** A definition (not a term) is its body and a blank line. */
  lemma {:induction false} DefinitionLines(item: Node, out: string, s: Sectioning, nested: int)
    requires item.Elt? && item.subtype != 0
    ensures Keeps(ItemEmit(Defn, item, out, s, nested), out)
    ensures ItemEmit(Defn, item, out, s, nested).Ok? ==> EndsWith(ItemEmit(Defn, item, out, s, nested).value, "\n\n")
    decreases item, 0
  {
    EmitKeeps(item.body, out, s, nested);
    var r := Emit(item.body, out, s, nested);
    if r.Ok? {
      var x := Printed(Printed(r.value, "", true, true), "\n", false, true);
      assert ItemEmit(Defn, item, out, s, nested) == Ok(x);
      LineThenBlank(r.value);
      PrefixTrans(x, r.value, out);
    }
  }

  /** A list item or a term starts with `@item` and ends a line; a list item
      is followed by a blank line. */
  lemma {:induction false} LeadItemLines(e: EnvType, item: Node, out: string, s: Sectioning, nested: int)
    requires item.Elt? && !(e == Defn && item.subtype != 0)
    ensures Keeps(ItemEmit(e, item, out, s, nested), out)
    ensures ItemEmit(e, item, out, s, nested).Ok? ==>
      && StartsWith(ItemEmit(e, item, out, s, nested).value, Printed(out, "@item ", true, false))
      && EndsWith(ItemEmit(e, item, out, s, nested).value, if e == Defn then "\n" else "\n\n")
    decreases item, 0
  {
    var b := Printed(out, "@item ", true, false);
    PrintAppends(out, "@item ", true, false);
    EmitKeeps(item.body, b, s, nested);
    var r := Emit(item.body, b, s, nested);
    if r.Ok? {
      var x := if e == Defn then Printed(r.value, "", true, true)
               else Printed(Printed(r.value, "", true, true), "\n", false, true);
      assert ItemEmit(e, item, out, s, nested) == Ok(x);
      if e == Defn {
        LineEnd(r.value);
      } else {
        LineThenBlank(r.value);
      }
      PrefixTrans(x, r.value, b);
      PrefixTrans(x, b, out);
    }
  }

  /** `_print(None, nl=True)`: the text ends a line. */
  lemma LineEnd(o: string)
    ensures StartsWith(Printed(o, "", true, true), o)
    ensures EndsWith(Printed(o, "", true, true), "\n")
  {
    PrintNewline(o, true);
    PrintAppends(o, "", true, true);
  }

  /** `_print(None, nl=True)` and then `_print('\n')`: a blank line. */
  lemma LineThenBlank(o: string)
    ensures StartsWith(Printed(Printed(o, "", true, true), "\n", false, true), o)
    ensures EndsWith(Printed(Printed(o, "", true, true), "\n", false, true), "\n\n")
  {
    var o1 := Printed(o, "", true, true);
    LineEnd(o);
    assert EscapeTexi("\n") == "\n" + EscapeTexi("");
    assert Printed(o1, "\n", false, true) == o1 + "\n";
    BlankAfter(o1);
    assert (o1 + "\n")[..|o1|] == o1;
    PrefixTrans(o1 + "\n", o1, o);
  }

  lemma {:induction false} ItemsKeep(e: EnvType, items: seq<Node>, out: string, s: Sectioning, nested: int)
    ensures Keeps(ItemsEmit(e, items, out, s, nested), out)
    decreases items, 1
  {
    if items != [] {
      var init := items[..|items| - 1];
      ItemsKeep(e, init, out, s, nested);
      var r := ItemsEmit(e, init, out, s, nested);
      if r.Ok? {
        ItemLines(e, items[|items| - 1], r.value, s, nested);
        var x := ItemsEmit(e, items, out, s, nested);
        if x.Ok? {
          PrefixTrans(x.value, r.value, out);
        }
      }
    }
  }

  /** An environment is opened and closed by the commands of its kind. */
  lemma {:induction false} EnvFramed(e: EnvType, items: seq<Node>, out: string, s: Sectioning, nested: int)
    ensures Keeps(EnvEmit(e, items, out, s, nested), out)
    ensures EnvEmit(e, items, out, s, nested).Ok? ==>
      StartsWith(EnvEmit(e, items, out, s, nested).value, Printed(out, EnvOpen(e), true, false))
      && EndsWith(EnvEmit(e, items, out, s, nested).value, EnvClose(e))
    decreases items, 2
  {
    var b := Printed(out, EnvOpen(e), true, false);
    PrintAppends(out, EnvOpen(e), true, false);
    ItemsKeep(e, items, b, s, nested);
    var r := ItemsEmit(e, items, b, s, nested);
    if r.Ok? {
      var c := Printed(r.value, EnvClose(e), true, false);
      PrintAppends(r.value, EnvClose(e), true, false);
      PrefixTrans(c, r.value, b);
      PrefixTrans(c, b, out);
    }
  }

  /** A link prints a cross reference to its target's qualifier, with its
      text when the text is not empty; a sentinel link prints nothing, and
      a link without parts raises `IndexError`. */
  lemma LinkRefs(items: seq<Node>, out: string, s: Sectioning, nested: int)
    ensures items == [] ==> LinkEmit(items, out, s, nested) == Err(IndexError)
    ensures Keeps(LinkEmit(items, out, s, nested), out)
    ensures |items| == 1 && Emit(items[0], "", s, nested).Ok? ==>
      LinkEmit(items, out, s, nested) == Ok(out + ("@ref{" + Partition(Emit(items[0], "", s, nested).value, ':').0 + "}"))
    ensures |items| > 1 && Emit(items[0], "", s, nested).Ok? && Emit(items[1], "", s, nested).Ok? ==>
      var arg := Emit(items[0], "", s, nested).value;
      var text := Emit(items[1], "", s, nested).value;
      LinkEmit(items, out, s, nested) ==
        if arg == "disambigR" || arg == "wikiquote" || text == "thumb" then Ok(out)
        else if text != "" then Ok(out + ("@ref{" + Partition(arg, ':').0 + "," + text + "}"))
        else Ok(out + ("@ref{" + Partition(arg, ':').0 + "}"))
  {
    if items != [] && Emit(items[0], "", s, nested).Ok? {
      var q := Partition(Emit(items[0], "", s, nested).value, ':').0;
      PrintPlain(out, "@ref{" + q + "}");
      if |items| > 1 && Emit(items[1], "", s, nested).Ok? {
        PrintPlain(out, "@ref{" + q + "," + Emit(items[1], "", s, nested).value + "}");
      }
    }
  }

  /** An external reference prints `@uref{target,text}`, or
      `@uref{target}` when its text comes out empty. */
  lemma RefUref(ref: string, body: Node, out: string, s: Sectioning, nested: int)
    ensures Keeps(RefEmit(ref, body, out, s, nested), out)
    ensures Emit(body, "", s, nested) == Ok("") ==> RefEmit(ref, body, out, s, nested) == Ok(out + ("@uref{" + ref + "}"))
    ensures Emit(body, "", s, nested).Ok? && Emit(body, "", s, nested).value != "" ==>
      RefEmit(ref, body, out, s, nested) == Ok(out + ("@uref{" + ref + "," + Emit(body, "", s, nested).value + "}"))
  {
    var r := Emit(body, "", s, nested);
    if r.Ok? {
      PrintPlain(out, "@uref{" + ref + "}");
      PrintPlain(out, "@uref{" + ref + "," + r.value + "}");
    }
  }

  /** The tags: `references` prints nothing, and a tag the translator does
      not know raises `TypeError` when it carries attributes. */
  lemma {:induction false} TagOutput(t: string, args: TagAttrs, block: bool, body: Node, out: string, s: Sectioning, nested: int)
    ensures Keeps(TagEmit(t, args, block, body, out, s, nested), out)
    ensures t == "references" ==> TagEmit(t, args, block, body, out, s, nested) == Ok(out)
    ensures t !in ["code", "tt", "div", "ref", "references"] && args.Truthy() ==>
      TagEmit(t, args, block, body, out, s, nested) == Err(TypeError)
    decreases body, 2
  {
    if t == "code" || t == "tt" {
      CodeOutput(block, body, out, s, nested);
    } else if t == "div" {
      var a := Anchored(out, args);
      PrintAppends(out, "@anchor{" + (if "id" in args.tab then AttrStr(args.tab["id"]) else "") + "}\n", true, false);
      EmitKeeps(body, a, s, nested);
      var r := Emit(body, a, s, nested);
      if r.Ok? {
        PrefixTrans(r.value, a, out);
      }
    } else if t == "ref" {
      FootnoteBraces(body, out, s, nested);
    } else if t != "references" {
      OtherTagEscaped(t, args, body, out, s, nested);
    }
  }

  /** Inline code is `@code{…}` around the body formatted one level deeper;
      block code is an `@example` block around it. */
  lemma {:induction false} CodeOutput(block: bool, body: Node, out: string, s: Sectioning, nested: int)
    ensures Keeps(CodeEmit(block, body, out, s, nested), out)
    ensures !block && Emit(body, "", s, nested + 1).Ok? ==>
      CodeEmit(block, body, out, s, nested) == Ok(out + ("@code{" + Emit(body, "", s, nested + 1).value + "}"))
    ensures block && CodeEmit(block, body, out, s, nested).Ok? ==>
      StartsWith(CodeEmit(block, body, out, s, nested).value, Printed(out, "@example", true, false))
      && EndsWith(CodeEmit(block, body, out, s, nested).value, "@end example\n")
    decreases body, 1
  {
    var r := Emit(body, "", s, nested + 1);
    if r.Ok? {
      var x := r.value;
      if block {
        var o1 := Printed(out, "@example", true, false);
        var o2 := Printed(o1, x, false, false);
        var o3 := Printed(o2, "@end example\n", true, false);
        PrintAppends(out, "@example", true, false);
        PrintAppends(o1, x, false, false);
        PrintAppends(o2, "@end example\n", true, false);
        PrefixTrans(o3, o2, o1);
        PrefixTrans(o3, o1, out);
      } else {
        PrintPlain(out, "@code{" + x + "}");
      }
    }
  }

  /** A `ref` tag becomes `@footnote{…}`. */
  lemma {:induction false} FootnoteBraces(body: Node, out: string, s: Sectioning, nested: int)
    ensures Keeps(FootnoteEmit(body, out, s, nested), out)
    ensures FootnoteEmit(body, out, s, nested).Ok? ==>
      StartsWith(FootnoteEmit(body, out, s, nested).value, out + "@footnote{")
      && EndsWith(FootnoteEmit(body, out, s, nested).value, "}")
    decreases body, 1
  {
    var b := out + "@footnote{";
    PrintPlain(out, "@footnote{");
    EmitKeeps(body, b, s, nested);
    var r := Emit(body, b, s, nested);
    if r.Ok? {
      PrintPlain(r.value, "}");
      PrefixTrans(r.value + "}", r.value, b);
      PrefixTrans(r.value + "}", b, out);
    }
  }

  /** An unknown tag without attributes is printed back, escaped, around
      its body. */
  lemma {:induction false} OtherTagEscaped(t: string, args: TagAttrs, body: Node, out: string, s: Sectioning, nested: int)
    ensures Keeps(OtherTagEmit(t, args, body, out, s, nested), out)
    ensures args.Truthy() ==> OtherTagEmit(t, args, body, out, s, nested) == Err(TypeError)
    ensures OtherTagEmit(t, args, body, out, s, nested).Ok? ==>
      StartsWith(OtherTagEmit(t, args, body, out, s, nested).value, out + EscapeTexi("<" + t))
      && EndsWith(OtherTagEmit(t, args, body, out, s, nested).value, EscapeTexi("</" + t + ">"))
    decreases body, 1
  {
    if !args.Truthy() {
      var o1 := Printed(out, "<" + t, false, true);
      var b := Printed(o1, ">", false, true);
      assert o1 == out + EscapeTexi("<" + t);
      PrintAppends(out, "<" + t, false, true);
      PrintAppends(o1, ">", false, true);
      PrefixTrans(b, o1, out);
      EmitKeeps(body, b, s, nested);
      var r := Emit(body, b, s, nested);
      if r.Ok? {
        var c := Printed(r.value, "</" + t + ">", false, true);
        PrintAppends(r.value, "</" + t + ">", false, true);
        PrefixTrans(c, r.value, b);
        PrefixTrans(c, b, o1);
      }
    }
  }

  /** Raising `sectioning_start` by one gives a heading the command the
      level above it had before: one entry towards the top of the table. */
  lemma StartMovesUp(level: int, t: seq<string>, start: int)
    requires level <= |t| - 2 - start
    ensures SectionCommand(level, Sectioning(t, start + 1)) == SectionCommand(level - 1, Sectioning(t, start))
  {
  }

  /** Under the numbered model a level-2 heading opens with `@section`;
      with `sectioning_start=1` it opens with `@chapter`, and a level-0
      heading counts from the end of the table. */
  lemma NumberedStartOne()
    ensures SectionCommand(2, Sectioning(NumberedTable, 0)) == Ok("@section")
    ensures SectionCommand(2, Sectioning(NumberedTable, 1)) == Ok("@chapter")
    ensures SectionCommand(0, Sectioning(NumberedTable, 1)) == Ok("@subsubsection")
  {
  }

  /** The heading model has four entries, so level 4 is already past its
      end, and level 0 opens with the two joined commands. */
  lemma HeadingTableShort()
    ensures |HeadingTable| == 4
    ensures SectionCommand(0, Sectioning(HeadingTable, 0)) == Ok("@majorheading@chapheading")
    ensures SectionCommand(4, Sectioning(HeadingTable, 0)) == Ok("@*")
  {
  }
}
