/** The plain-text translator's node formatters (the `Text*Node.format`
    methods) and the translator's `__str__`.  A formatter either returns a
    string, returns Python's `None` (the node kinds the translator leaves to
    the base class), or raises; `Fmt` returns all three as a value. */
module TextNodes {
  import opened PyStr
  import opened WikiToken
  import opened Site
  import opened TextRender

  /** The text translator's settings: the markup class's settings, the
      output width, whether link targets are shown, and the `ref` tags the
      parser collected. */
  datatype Config = Config(site: Site, width: int, showUrls: bool, references: seq<Node>)

  // ---------------------------------------------------------------------
  // The horizontal rule

  /** `s.center(width)` as CPython computes it: the odd space goes to the
      left only when both the margin and the width are odd. */
  function Center(s: string, width: int): string
  {
    var marg := width - |s|;
    if marg <= 0 then s
    else
      var left := marg / 2 + (if marg % 2 == 1 && width % 2 == 1 then 1 else 0);
      Repeat(" ", left) + s + Repeat(" ", marg - left)
  }

  /** `TextBarNode.format`. */
  function RuleText(width: int): string
  {
    var w := if width < 5 then 5 else width;
    "\n" + Center(Repeat("-", w - 5), w - 1) + "\n"
  }

  /** The rule is a line of dashes five columns shorter than the output
      width (never negative), with two spaces on each side, on a line of
      its own. */
  lemma RuleShape(width: int)
    ensures var w := if width < 5 then 5 else width;
      RuleText(width) == "\n  " + Repeat("-", w - 5) + "  \n"
      && |RuleText(width)| == w + 1
  {
    var w := if width < 5 then 5 else width;
    RepeatLength("-", w - 5);
    var dashes := Repeat("-", w - 5);
    assert Repeat(" ", 2) == "  " by {
      assert Repeat(" ", 0) == "";
    }
    assert Center(dashes, w - 1) == "  " + dashes + "  ";
  }

  // ---------------------------------------------------------------------
  // The node formatters

  /** The level an environment is indented to: one when its own level
      would leave fewer than four columns. */
  function EnvLevel(level: int, width: int): int
  {
    if level > width - 4 then 1 else level
  }

  /** A paragraph: its text filled to the page width, then a blank line. */
  function ParaText(s: string, width: int): string
  {
    FmtPara(s, width) + "\n\n"
  }

  /** A heading line: the level in asterisks, a space, the title without
      leading spaces, set off by a newline before and a blank line after. */
  function HeadingLine(level: int, x: string): string
  {
    "\n" + Repeat("*", level) + " " + LStripChar(x, ' ') + "\n\n"
  }

  /** A cross reference: the text and where to see, or only where to see
      when the text is empty. */
  function SeeRef(x: Option<string>, ref: string): string
  {
    if Truthy(x) then x.value + " (see " + ref + ") " else "see " + ref
  }

  /** The mark a footnote reference leaves in the text. */
  function RefMark(idx: int): string
  {
    "[" + IntToStr(idx + 1) + "]"
  }

  /** `node.format()` in the text translator.  `depth` bounds how often the
      references list may be formatted inside itself; running out of it is
      Python's `RecursionError`. */
  function Fmt(n: Node, c: Config, depth: nat): Result<Option<string>>
    decreases depth, n, 2
  {
    match n
    case Text(t) => Ok(Some(t))
    case Seq(items) => Wrap(SeqText(items, c, depth), "", "")
    case Pre(items) => Wrap(CatText(items, c, depth), "", "\n")
    case Para(items) => ParaFmt(items, c, depth)
    case It(items) => Wrap(ItText(items, c, depth), "_", "_")
    case Bold(items) => BoldFmt(items, c, depth)
    case Link(items) => Wrap(LinkText(items, c, depth, true), "", "")
    case Tmpl(items) => Wrap(LinkText(items, c, depth, false), "[", "]")
    case Bar => Ok(Some(RuleText(c.width)))
    case Hdr(level, body) => HdrFmt(level, body, c, depth)
    case Ref(ref, body) => RefFmt(ref, body, c, depth)
    case Env(e, level, items) => Wrap(EnvBody(e, EnvLevel(level, c.width), items, c, depth), "", "")
    case Ind(level, body) => IndFmt(level, body, c, depth)
    case Tag(t, args, _, body, idx) => TagFmt(t, args, body, idx, c, depth)
    case Nil => Ok(None)
    case Nl => Ok(None)
    case Delim(_, _, _) => Ok(None)
    case OTag(_, _, _) => Ok(None)
    case CTag(_) => Ok(None)
    case Elt(_, _) => Ok(None)
  }

  /** `TextParaNode.format`. */
  function ParaFmt(items: seq<Node>, c: Config, depth: nat): Result<Option<string>>
    decreases depth, items, 2
  {
    match CatText(items, c, depth)
    case Err(e) => Err(e)
    case Ok(s) => Ok(Some(ParaText(s, c.width)))
  }

  /** `TextBoldNode.format`. */
  function BoldFmt(items: seq<Node>, c: Config, depth: nat): Result<Option<string>>
    decreases depth, items, 2
  {
    match BoldText(items, c, depth)
    case Err(e) => Err(e)
    case Ok(s) => Ok(Some(Upper(s)))
  }

  /** `TextHdrNode.format`: the title must format to a string. */
  function HdrFmt(level: int, body: Node, c: Config, depth: nat): Result<Option<string>>
    decreases depth, body, 3
  {
    match Fmt(body, c, depth)
    case Err(e) => Err(e)
    case Ok(None) => Err(AttributeError)
    case Ok(Some(x)) => Ok(Some(HeadingLine(level, x)))
  }

  /** `TextRefNode.format`. */
  function RefFmt(ref: string, body: Node, c: Config, depth: nat): Result<Option<string>>
    decreases depth, body, 3
  {
    match Fmt(body, c, depth)
    case Err(e) => Err(e)
    case Ok(x) => Ok(Some(SeeRef(x, ref)))
  }

  /** `TextIndNode.format`. */
  function IndFmt(level: int, body: Node, c: Config, depth: nat): Result<Option<string>>
    decreases depth, body, 3
  {
    Wrap(Str(Fmt(body, c, depth)), Repeat(" ", level), "\n")
  }

  /** `TextTagNode.format`: `code` has no formatter, `ref` leaves its
      number, `references` lists the collected references, and any other
      tag is written out around its body. */
  function TagFmt(t: string, args: TagAttrs, body: Node, idx: Option<int>, c: Config, depth: nat): Result<Option<string>>
    decreases depth, body, 3
  {
    if t == "code" then Err(AttributeError)
    else if t == "ref" then
      (if idx.None? then Err(TypeError) else Ok(Some(RefMark(idx.value))))
    else if t == "references" then
      (if depth == 0 then Err(RecursionError) else Wrap(RefsText(c.references, c, depth - 1), "", ""))
    else
      Wrap(Str(Fmt(body, c, depth)), TagOpen(t, args), "</" + t + ">")
  }

  /** `TextSeqNode.format`: the items, with a space put before each one
      that follows text not ending in whitespace. */
  function SeqText(items: seq<Node>, c: Config, depth: nat): Result<string>
    decreases depth, items, 1
  {
    if items == [] then Ok("")
    else match SeqText(items[..|items| - 1], c, depth)
      case Err(e) => Err(e)
      case Ok(acc) =>
        match Str(Fmt(items[|items| - 1], c, depth))
        case Err(e) => Err(e)
        case Ok(x) => Ok((if |acc| > 1 && !IsSpace(acc[|acc| - 1]) then acc + " " else acc) + x)
  }

  /** The items' texts one after another (`TextPreNode`, `TextParaNode`,
      and the translator's `__str__`). */
  function CatText(items: seq<Node>, c: Config, depth: nat): Result<string>
    decreases depth, items, 1
  {
    if items == [] then Ok("")
    else match CatText(items[..|items| - 1], c, depth)
      case Err(e) => Err(e)
      case Ok(acc) =>
        match Str(Fmt(items[|items| - 1], c, depth))
        case Err(e) => Err(e)
        case Ok(x) => Ok(acc + x)
  }

  /** `TextItNode.format` before the underscores: the non-empty texts, each
      behind a space, with the leading spaces stripped. */
  function ItText(items: seq<Node>, c: Config, depth: nat): Result<string>
    decreases depth, items, 1
  {
    match ItWords(items, c, depth)
    case Err(e) => Err(e)
    case Ok(s) => Ok(LStripChar(s, ' '))
  }

  function ItWords(items: seq<Node>, c: Config, depth: nat): Result<string>
    decreases depth, items, 0
  {
    if items == [] then Ok("")
    else match ItWords(items[..|items| - 1], c, depth)
      case Err(e) => Err(e)
      case Ok(acc) =>
        match Fmt(items[|items| - 1], c, depth)
        case Err(e) => Err(e)
        case Ok(x) => Ok(if Truthy(x) then acc + " " + x.value else acc)
  }

  /** `TextBoldNode.format` before upper-casing: every item behind a space,
      two after a full stop. */
  function BoldText(items: seq<Node>, c: Config, depth: nat): Result<string>
    decreases depth, items, 1
  {
    if items == [] then Ok("")
    else match BoldText(items[..|items| - 1], c, depth)
      case Err(e) => Err(e)
      case Ok(acc) =>
        match Str(Fmt(items[|items| - 1], c, depth))
        case Err(e) => Err(e)
        case Ok(x) => Ok(acc + (if EndsWith(acc, ".") then "  " else " ") + x)
  }

  /** The list of the items' `format()` results, or the first exception. */
  function FmtAll(items: seq<Node>, c: Config, depth: nat): (r: Result<seq<Option<string>>>)
    ensures r.Ok? ==> |r.value| == |items|
    decreases depth, items, 0
  {
    if items == [] then Ok([])
    else match Fmt(items[0], c, depth)
      case Err(e) => Err(e)
      case Ok(x) =>
        match FmtAll(items[1..], c, depth)
        case Err(e) => Err(e)
        case Ok(xs) => Ok([x] + xs)
  }

  /** `TextLinkNode.format` (`isLink`) and the part of `TextTmplNode.format`
      inside the brackets. */
  function LinkText(items: seq<Node>, c: Config, depth: nat, isLink: bool): Result<string>
    decreases depth, items, 1
  {
    if items == [] then Err(IndexError)
    else match Fmt(items[0], c, depth)
      case Err(e) => Err(e)
      case Ok(arg) =>
        match (if |items| > 1 then FmtAll(items, c, depth) else Ok([]))
        case Err(e) => Err(e)
        case Ok(s) =>
          if |items| > 1 && Sentinel(s) then Ok("")
          else if arg.None? then Err(AttributeError)
          else LinkTarget(c, arg.value, if |items| > 1 then s[1] else None, isLink)
  }

  /** The rest of `TextLinkNode.format` once the parts are formatted: the
      target from the qualifier before the first colon. */
  function LinkTarget(c: Config, arg: string, text: Option<string>, isLink: bool): (r: Result<string>)
    ensures r.Ok? && c.showUrls ==> r.value == "" || EndsWith(r.value, ") ")
  {
    var (qual, _, tgt) := Partition(arg, ':');
    if tgt != "" then
      match NsName(c.site, qual)
      case Err(e) => Err(e)
      case Ok(ns) =>
        if Truthy(ns) then
          if ns.value == "NS_IMAGE" then (if !c.showUrls then Ok("") else Err(AttributeError))
          else if ns.value == "NS_MEDIA" then Ok(Shown(c, arg, Some("[" + qual + "]"), tgt))
          else Ok(Shown(c, arg, text, Mktgt(c.site, tgt, "")))
        else if isLink && qual in c.site.langtab then
          (if c.site.langtab[qual].None? then Err(TypeError)
           else Ok(Shown(c, arg, Some(c.site.langtab[qual].value + ": " + tgt), Mktgt(c.site, tgt, qual))))
        else Ok(Shown(c, arg, text, Mktgt(c.site, tgt, "")))
    else Ok(Shown(c, arg, text, Mktgt(c.site, arg, "")))
  }

  /** What a link shows: text and target when targets are shown, otherwise
      the text, or the link argument when there is no text. */
  function Shown(c: Config, arg: string, text: Option<string>, tgt: string): (r: string)
    ensures c.showUrls ==> EndsWith(r, ") ") && StartsWith(r, Show(text) + " (see " + tgt)
    ensures !c.showUrls ==> if Truthy(text) then r == text.value else r == arg
  {
    if c.showUrls then Show(text) + " (see " + tgt + ") "
    else if !Truthy(text) then arg
    else text.value
  }

  /** The text of one list item, the `k`-th of its environment.  An item
      that is not an element, which `parse_env` never builds, is modelled as
      `AttributeError`. */
  function ItemPiece(e: EnvType, lev: int, s: Node, k: nat, c: Config, depth: nat): Result<string>
    decreases depth, s, 1
  {
    if !s.Elt? then Err(AttributeError)
    else match Fmt(s.body, c, depth)
      case Err(err) => Err(err)
      case Ok(x) =>
        match e
        case Unnumbered =>
          if x.None? then Err(AttributeError) else Ok(IndentText(lev, "- " + LStripChar(x.value, ' ')))
        case Numbered => Ok(IndentText(lev, NatToStr(k + 1) + ". " + Show(x)))
        case Defn =>
          if x.None? then Err(AttributeError)
          else if s.subtype == 0 then Ok(IndentText(lev - 1, x.value))
          else Ok(IndentText(lev + 3, x.value))
  }

  /** A newline unless `s` already ends with one. */
  function EndLine(s: string): string
  {
    if EndsWith(s, "\n") then s else s + "\n"
  }

  /** `EndLine` keeps its argument at the front and ends with a newline. */
  lemma EndLineShape(s: string)
    ensures StartsWith(EndLine(s), s) && EndsWith(EndLine(s), "\n")
  {
    if !EndsWith(s, "\n") {
      LastOfAppend(s, "\n");
    }
  }

  /** The text of each item of an environment, or the exception raised
      formatting it. */
  function ItemResults(e: EnvType, lev: int, items: seq<Node>, c: Config, depth: nat): (r: seq<Result<string>>)
    ensures |r| == |items|
    decreases depth, items, 2
  {
    seq(|items|, k requires 0 <= k < |items| => ItemPiece(e, lev, items[k], k, c, depth))
  }

  /** The texts of an environment's items, or the first exception. */
  function Pieces(e: EnvType, lev: int, items: seq<Node>, c: Config, depth: nat): Result<seq<string>>
    decreases depth, items, 3
  {
    Collect(ItemResults(e, lev, items, c, depth))
  }

  /** Item texts laid out as `TextEnvNode.format` lays them out: each one
      starts on a fresh line and is followed by a newline unless it ends
      with one. */
  function Assemble(ps: seq<string>): string
  {
    if ps == [] then "" else EndLine(EndLine(Assemble(ps[..|ps| - 1])) + ps[|ps| - 1])
  }

  /** `TextEnvNode.format`. */
  function EnvBody(e: EnvType, lev: int, items: seq<Node>, c: Config, depth: nat): Result<string>
    decreases depth, items, 4
  {
    match Pieces(e, lev, items, c, depth)
    case Err(err) => Err(err)
    case Ok(ps) => Ok(Assemble(ps))
  }

  /** The line listing the reference with index `idx`. */
  function RefLine(idx: int, x: string): string
  {
    "[" + IntToStr(idx + 1) + "]. " + x + "\n"
  }

  /** The line of one collected reference, or the exception raised
      formatting it. */
  function RefEntry(r: Node, c: Config, depth: nat): Result<string>
    decreases depth, r, 0
  {
    if !r.Tag? then Err(AttributeError)
    else if r.idx.None? then Err(TypeError)
    else match Str(Fmt(r.body, c, depth))
      case Err(e) => Err(e)
      case Ok(x) => Ok(RefLine(r.idx.value, x))
  }

  /** The lines of the collected references, or the first exception. */
  function RefEntries(refs: seq<Node>, c: Config, depth: nat): Result<seq<string>>
    decreases depth, refs, 1
  {
    Collect(seq(|refs|, k requires 0 <= k < |refs| => RefEntry(refs[k], c, depth)))
  }

  /** The `references` tag: a heading and each collected reference,
      numbered by its index. */
  function RefsText(refs: seq<Node>, c: Config, depth: nat): Result<string>
    decreases depth, refs, 2
  {
    match RefEntries(refs, c, depth)
    case Err(e) => Err(e)
    case Ok(ls) => Ok("\nReferences:\n" + Concat(ls))
  }

  // ---------------------------------------------------------------------
  // The loops of `TextEnvNode.format` and `__str__`

  /** The items up to `j` have the first `j` results. */
  lemma ItemResultsTake(e: EnvType, lev: int, items: seq<Node>, j: nat, c: Config, depth: nat)
    requires j <= |items|
    ensures ItemResults(e, lev, items[..j], c, depth) == ItemResults(e, lev, items, c, depth)[..j]
  {
    var a, b := ItemResults(e, lev, items[..j], c, depth), ItemResults(e, lev, items, c, depth)[..j];
    forall k | 0 <= k < j
      ensures a[k] == b[k]
    {
      assert items[..j][k] == items[k];
    }
  }

  /** An exception raised while formatting some leading items is the
      exception of the whole environment. */
  lemma PiecesErrPersists(e: EnvType, lev: int, items: seq<Node>, j: nat, c: Config, depth: nat)
    requires j <= |items| && Pieces(e, lev, items[..j], c, depth).Err?
    ensures Pieces(e, lev, items, c, depth) == Pieces(e, lev, items[..j], c, depth)
  {
    ItemResultsTake(e, lev, items, j, c, depth);
    CollectErrPersists(ItemResults(e, lev, items, c, depth), j);
  }

  /** One more item of an environment. */
  lemma PiecesStep(e: EnvType, lev: int, items: seq<Node>, i: nat, c: Config, depth: nat)
    requires i < |items|
    ensures Pieces(e, lev, items[..i + 1], c, depth) ==
      match Pieces(e, lev, items[..i], c, depth)
      case Err(err) => Err(err)
      case Ok(ps) =>
        match ItemPiece(e, lev, items[i], i, c, depth)
        case Err(err) => Err(err)
        case Ok(p) => Ok(ps + [p])
  {
    var rs := ItemResults(e, lev, items, c, depth);
    ItemResultsTake(e, lev, items, i, c, depth);
    ItemResultsTake(e, lev, items, i + 1, c, depth);
    CollectStep(rs, i);
  }

  lemma AssembleSnoc(ps: seq<string>, p: string)
    ensures Assemble(ps + [p]) == EndLine(EndLine(Assemble(ps)) + p)
  {
    assert (ps + [p])[..|ps|] == ps;
  }

  /** One pass of `TextEnvNode.format`'s loop: the text of an item, whose
      number is `n`. */
  method FormatItem(e: EnvType, lev: int, item: Node, n: nat, c: Config, depth: nat) returns (r: Result<string>)
    requires n >= 1
    ensures r == ItemPiece(e, lev, item, n - 1, c, depth)
  {
    if !item.Elt? {
      return Err(AttributeError);
    }
    var x := Fmt(item.body, c, depth);
    if x.Err? {
      return Err(x.error);
    }
    var piece: string;
    match e {
      case Unnumbered =>
        if x.value.None? {
          return Err(AttributeError);
        }
        piece := Indent(lev, "- " + LStripChar(x.value.value, ' '));
      case Numbered =>
        piece := Indent(lev, NatToStr(n) + ". " + Show(x.value));
      case Defn =>
        if x.value.None? {
          return Err(AttributeError);
        }
        if item.subtype == 0 {
          piece := Indent(lev - 1, x.value.value);
        } else {
          piece := Indent(lev + 3, x.value.value);
        }
    }
    r := Ok(piece);
  }

  /** The body of `TextEnvNode.format`'s loop for item `i`, whose number
      is `n`: the text so far gets a newline if it lacks one, then the item,
      then a newline if the item did not end with one. */
  method EnvNext(e: EnvType, lev: int, items: seq<Node>, i: nat, n: nat, s: string, c: Config, depth: nat)
    returns (r: Result<string>)
    requires i < |items| && n == i + 1
    requires EnvBody(e, lev, items[..i], c, depth) == Ok(s)
    ensures r == EnvBody(e, lev, items[..i + 1], c, depth)
  {
    PiecesStep(e, lev, items, i, c, depth);
    var text := s;
    if !EndsWith(text, "\n") {
      text := text + "\n";
    }
    var piece := FormatItem(e, lev, items[i], n, c, depth);
    if piece.Err? {
      return piece;
    }
    text := text + piece.value;
    if !EndsWith(text, "\n") {
      text := text + "\n";
    }
    AssembleSnoc(Pieces(e, lev, items[..i], c, depth).value, piece.value);
    r := Ok(text);
  }

  /** `TextEnvNode.format` as the loop the translator runs. */
  method FormatEnv(e: EnvType, level: int, items: seq<Node>, c: Config, depth: nat) returns (r: Result<string>)
    ensures r == EnvBody(e, EnvLevel(level, c.width), items, c, depth)
  {
    var lev := level;
    if lev > c.width - 4 {
      lev := 1;
    }
    assert lev == EnvLevel(level, c.width);
    var s := "";
    assert EnvBody(e, lev, items[..0], c, depth) == Ok(s);
    for i := 0 to |items|
      invariant EnvBody(e, lev, items[..i], c, depth) == Ok(s)
    {
      var next := EnvNext(e, lev, items, i, i + 1, s, c, depth);
      if next.Err? {
        EnvErrPersists(e, lev, items, i + 1, c, depth);
        return next;
      }
      s := next.value;
    }
    assert items[..|items|] == items;
    r := Ok(s);
  }

  /** The exception of some leading items is that of the environment. */
  lemma EnvErrPersists(e: EnvType, lev: int, items: seq<Node>, j: nat, c: Config, depth: nat)
    requires j <= |items| && EnvBody(e, lev, items[..j], c, depth).Err?
    ensures EnvBody(e, lev, items, c, depth) == EnvBody(e, lev, items[..j], c, depth)
  {
    PiecesErrPersists(e, lev, items, j, c, depth);
  }

  /** An exception raised by some leading nodes is that of the whole text. */
  lemma {:induction false} CatErrPersists(items: seq<Node>, j: nat, c: Config, depth: nat)
    requires j <= |items| && CatText(items[..j], c, depth).Err?
    ensures CatText(items, c, depth) == CatText(items[..j], c, depth)
    decreases |items|
  {
    if j < |items| {
      var pre := items[..|items| - 1];
      assert pre[..j] == items[..j];
      CatErrPersists(pre, j, c, depth);
    } else {
      assert items[..j] == items;
    }
  }

  /** `str(translator)`: every node of the tree formatted, in order. */
  method Render(tree: seq<Node>, c: Config, depth: nat) returns (r: Result<string>)
    ensures r == CatText(tree, c, depth)
  {
    var s := "";
    for i := 0 to |tree|
      invariant CatText(tree[..i], c, depth) == Ok(s)
    {
      TakeNext(tree, i);
      var x := Str(Fmt(tree[i], c, depth));
      if x.Err? {
        CatErrPersists(tree, i + 1, c, depth);
        return Err(x.error);
      }
      s := s + x.value;
    }
    assert tree[..|tree|] == tree;
    r := Ok(s);
  }

  // ---------------------------------------------------------------------
  // Properties of the formatted text

  /** A heading whose title formats to `x` is the heading line of `x`
      (its shape is `HeadingShape`). */
  lemma HeaderShape(level: int, body: Node, x: string, c: Config, depth: nat)
    requires Fmt(body, c, depth) == Ok(Some(x))
    ensures Fmt(Hdr(level, body), c, depth) == Ok(Some(HeadingLine(level, x)))
  {
    FmtHdr(level, body, c, depth);
  }

  /** A heading formats by `HdrFmt`. */
  lemma FmtHdr(level: int, body: Node, c: Config, depth: nat)
    ensures Fmt(Hdr(level, body), c, depth) == HdrFmt(level, body, c, depth)
  {
  }

  /** A heading whose title formats to nothing raises `AttributeError`. */
  lemma HeaderMissing(level: int, body: Node, c: Config, depth: nat)
    requires Fmt(body, c, depth) == Ok(None)
    ensures Fmt(Hdr(level, body), c, depth) == Err(AttributeError)
  {
    assert Fmt(Hdr(level, body), c, depth) == HdrFmt(level, body, c, depth);
  }

  /** A heading line is the level in asterisks and a space, the title
      without leading spaces, and a blank line; set off by a newline before. */
  lemma HeadingShape(level: int, x: string)
    ensures var o, pre := HeadingLine(level, x), "\n" + Repeat("*", level) + " ";
      |o| >= |pre| + 2 && StartsWith(o, pre) && EndsWith(o, "\n\n") && o[|pre|..|o| - 2] == LStripChar(x, ' ')
      && (|o| > |pre| + 2 ==> o[|pre|] != ' ')
  {
    var pre := "\n" + Repeat("*", level) + " ";
    var t := LStripChar(x, ' ');
    var o := pre + t + "\n\n";
    assert o[..|pre|] == pre;
    assert o[|pre|..|o| - 2] == t;
    assert o[|o| - 2..] == "\n\n";
    if |o| > |pre| + 2 {
      assert o[|pre|] == t[0];
    }
  }

  /** Bold text comes out with no lower-case letter. */
  lemma BoldUpper(items: seq<Node>, c: Config, depth: nat)
    requires Fmt(Bold(items), c, depth).Ok?
    ensures var o := Fmt(Bold(items), c, depth).value;
      o.Some? && forall i :: 0 <= i < |o.value| ==> !('a' <= o.value[i] <= 'z')
  {
    assert Fmt(Bold(items), c, depth) == BoldFmt(items, c, depth);
    var u := Upper(BoldText(items, c, depth).value);
    assert Fmt(Bold(items), c, depth) == Ok(Some(u));
    forall i | 0 <= i < |u|
      ensures !('a' <= u[i] <= 'z')
    {
      assert u[i] == UpperChar(BoldText(items, c, depth).value[i]);
    }
  }

  /** Italic text is set between underscores, with no space right after the
      opening one. */
  lemma ItalicShape(items: seq<Node>, c: Config, depth: nat)
    requires Fmt(It(items), c, depth).Ok?
    ensures var o := Fmt(It(items), c, depth).value;
      o.Some? && |o.value| >= 2 && o.value[0] == '_' && o.value[|o.value| - 1] == '_'
      && (|o.value| > 2 ==> o.value[1] != ' ')
  {
    assert Fmt(It(items), c, depth) == Wrap(ItText(items, c, depth), "_", "_");
    var w := ItWords(items, c, depth).value;
    assert ItText(items, c, depth) == Ok(LStripChar(w, ' '));
    Underscored(w);
  }

  lemma Underscored(w: string)
    ensures var o := "_" + LStripChar(w, ' ') + "_";
      |o| >= 2 && o[0] == '_' && o[|o| - 1] == '_' && (|o| > 2 ==> o[1] != ' ')
  {
    var t := LStripChar(w, ' ');
    var o := "_" + t + "_";
    if |o| > 2 {
      assert o[1] == t[0];
    }
  }

  /** A link or template whose formatted parts name a disambiguation or
      quotation template, or a thumbnail, vanishes: the link gives nothing
      and the template a pair of empty brackets. */
  lemma LinkSentinel(items: seq<Node>, c: Config, depth: nat)
    requires FmtAll(items, c, depth).Ok? && Sentinel(FmtAll(items, c, depth).value)
    ensures Fmt(Link(items), c, depth) == Ok(Some(""))
    ensures Fmt(Tmpl(items), c, depth) == Ok(Some("[]"))
  {
    assert Fmt(items[0], c, depth).Ok?;
    assert LinkText(items, c, depth, true) == Ok("");
    assert LinkText(items, c, depth, false) == Ok("");
    assert "" + "" + "" == "" && "[" + "" + "]" == "[]";
  }

  /** When targets are shown, every link that shows anything ends with its
      target in parentheses. */
  lemma LinkShowsTarget(items: seq<Node>, c: Config, depth: nat, isLink: bool)
    requires c.showUrls
    requires LinkText(items, c, depth, isLink).Ok?
    ensures var t := LinkText(items, c, depth, isLink).value;
      t == "" || EndsWith(t, ") ")
  {
    assert Fmt(items[0], c, depth).Ok?;
  }

  /** Each item of a formatted environment has its text, numbered by its
      position, and there is one text per item. */
  lemma PieceAt(e: EnvType, lev: int, items: seq<Node>, k: nat, c: Config, depth: nat)
    requires Pieces(e, lev, items, c, depth).Ok? && k < |items|
    ensures var ps := Pieces(e, lev, items, c, depth).value;
      |ps| == |items| && ItemPiece(e, lev, items[k], k, c, depth) == Ok(ps[k])
  {
    var rs := ItemResults(e, lev, items, c, depth);
    CollectOk(rs);
    assert rs[k] == ItemPiece(e, lev, items[k], k, c, depth);
  }

  /** Laid-out items are empty exactly when there are none; otherwise they
      start on a fresh line and end with a newline. */
  lemma {:induction false} AssembleShape(ps: seq<string>)
    ensures Assemble(ps) == "" <==> ps == []
    ensures ps != [] ==> StartsWith(Assemble(ps), "\n") && EndsWith(Assemble(ps), "\n")
  {
    if ps != [] {
      var acc := Assemble(ps[..|ps| - 1]);
      var p := ps[|ps| - 1];
      AssembleShape(ps[..|ps| - 1]);
      if acc == "" {
        assert EndLine(acc) == "\n";
      } else {
        assert EndLine(acc) == acc;
      }
      assert StartsWith(EndLine(acc) + p, "\n");
      PrefixTrans(Assemble(ps), EndLine(acc) + p, "\n");
    }
  }

  /** An environment's text is empty exactly when it has no items;
      otherwise it starts on a fresh line and ends with a newline. */
  lemma EnvShape(e: EnvType, lev: int, items: seq<Node>, c: Config, depth: nat)
    requires EnvBody(e, lev, items, c, depth).Ok?
    ensures var t := EnvBody(e, lev, items, c, depth).value;
      (t == "" <==> items == []) && (items != [] ==> StartsWith(t, "\n") && EndsWith(t, "\n"))
  {
    CollectOk(ItemResults(e, lev, items, c, depth));
    AssembleShape(Pieces(e, lev, items, c, depth).value);
  }

  /** Adding an item keeps the text so far at the front. */
  lemma EndLineKeeps(acc: string, p: string)
    ensures StartsWith(EndLine(EndLine(acc) + p), acc)
  {
    var el := EndLine(acc);
    assert (el + p)[..|acc|] == el[..|acc|];
    PrefixTrans(EndLine(el + p), el + p, acc);
  }

  /** The layout of the first `j` items is where the layout of all of them
      starts. */
  lemma {:induction false} AssemblePrefix(ps: seq<string>, j: nat)
    requires j <= |ps|
    ensures StartsWith(Assemble(ps), Assemble(ps[..j]))
    decreases |ps|
  {
    if j == |ps| {
      assert ps[..j] == ps;
    } else {
      var pre := ps[..|ps| - 1];
      assert pre[..j] == ps[..j];
      AssemblePrefix(pre, j);
      EndLineKeeps(Assemble(pre), ps[|ps| - 1]);
      PrefixTrans(Assemble(ps), Assemble(pre), Assemble(ps[..j]));
    }
  }

  /** A piece not ending in a newline, put after text that does, lies
      between two newlines. */
  lemma EndLineAfter(el: string, p: string)
    requires EndsWith(el, "\n") && p != "" && p[|p| - 1] != '\n'
    ensures EndLine(el + p) == el + p + "\n"
    ensures var u := "\n" + p + "\n";
      |el| - 1 + |u| <= |el + p + "\n"| && (el + p + "\n")[|el| - 1..|el| - 1 + |u|] == u
  {
    LastOfAppend(el, p);
    var t := el + p + "\n";
    assert t[|el| - 1] == el[|el| - 1] == '\n';
    assert t[|el|..|el| + |p|] == p;
  }

  lemma AssembleTake(ps: seq<string>, k: nat)
    requires k < |ps|
    ensures Assemble(ps[..k + 1]) == EndLine(EndLine(Assemble(ps[..k])) + ps[k])
  {
    var q := ps[..k + 1];
    assert q[..|q| - 1] == ps[..k];
  }

  /** The layout starts with that of the items up to and including `k`. */
  lemma AssembleFront(ps: seq<string>, k: nat)
    requires k < |ps|
    ensures StartsWith(Assemble(ps), EndLine(EndLine(Assemble(ps[..k])) + ps[k]))
  {
    AssemblePrefix(ps, k + 1);
    AssembleTake(ps, k);
  }

  /** A piece not ending in a newline, added to laid-out text, shows up
      between two newlines in any text the result starts. */
  lemma PieceInPrefix(t: string, acc: string, p: string)
    requires p != "" && p[|p| - 1] != '\n'
    requires StartsWith(t, EndLine(EndLine(acc) + p))
    ensures Contains(t, "\n" + p + "\n")
  {
    var el := EndLine(acc);
    EndLineAfter(el, p);
    ContainsPrefix(t, el + p + "\n", "\n" + p + "\n", |el| - 1);
  }

  /** Every item text that does not end with a newline stands on a line of
      its own in the layout. */
  lemma AssembleLine(ps: seq<string>, k: nat)
    requires k < |ps| && ps[k] != "" && ps[k][|ps[k]| - 1] != '\n'
    ensures Contains(Assemble(ps), "\n" + ps[k] + "\n")
  {
    AssembleFront(ps, k);
    PieceInPrefix(Assemble(ps), Assemble(ps[..k]), ps[k]);
  }

  /** `n. x` holds no newline when `x` holds none. */
  lemma NumberLine(k: nat, x: string)
    requires '\n' !in x
    ensures Find(NatToStr(k) + ". " + x, '\n').None?
  {
    var num := NatToStr(k);
    var line := num + ". " + x;
    forall i | 0 <= i < |line|
      ensures line[i] != '\n'
    {
      if i < |num| {
        assert line[i] == num[i] && IsDigit(num[i]);
      } else if i >= |num| + 2 {
        assert line[i] == x[i - |num| - 2];
      }
    }
  }

  /** The indented text of a numbered item that fits on one line. */
  lemma NumberedPiece(lev: int, k: nat, x: string)
    requires '\n' !in x
    ensures var p := Repeat(" ", lev) + (NatToStr(k) + ". " + x);
      IndentText(lev, NatToStr(k) + ". " + x) == p && p != "" && p[|p| - 1] != '\n'
  {
    var num := NatToStr(k);
    var line := num + ". " + x;
    NumberLine(k, x);
    IndentShape(lev, line);
    if x == "" {
      assert line == num + ". ";
      LastOfAppend(num, ". ");
    } else {
      LastOfAppend(num + ". ", x);
    }
    LastOfAppend(Repeat(" ", lev), line);
  }

  /** In a numbered list the `k`-th item (from zero) whose text is a single
      line `x` appears on a line of its own as `k + 1`, a full stop, a space
      and `x`, behind the list's indentation. */
  lemma NumberedItem(lev: int, items: seq<Node>, k: nat, x: string, c: Config, depth: nat)
    requires EnvBody(Numbered, lev, items, c, depth).Ok?
    requires k < |items| && items[k].Elt? && Fmt(items[k].body, c, depth) == Ok(Some(x)) && '\n' !in x
    ensures Contains(EnvBody(Numbered, lev, items, c, depth).value,
                     "\n" + (Repeat(" ", lev) + (NatToStr(k + 1) + ". " + x)) + "\n")
  {
    PieceAt(Numbered, lev, items, k, c, depth);
    var ps := Pieces(Numbered, lev, items, c, depth).value;
    NumberedPiece(lev, k + 1, x);
    assert ItemPiece(Numbered, lev, items[k], k, c, depth) == Ok(Repeat(" ", lev) + (NatToStr(k + 1) + ". " + x));
    AssembleLine(ps, k);
  }

  /** Each collected reference has its line, and there is one line per
      reference. */
  lemma RefEntryAt(refs: seq<Node>, k: nat, c: Config, depth: nat)
    requires RefEntries(refs, c, depth).Ok? && k < |refs|
    ensures var ls := RefEntries(refs, c, depth).value;
      |ls| == |refs| && refs[k].Tag? && refs[k].idx.Some? && Str(Fmt(refs[k].body, c, depth)).Ok?
      && ls[k] == RefLine(refs[k].idx.value, Str(Fmt(refs[k].body, c, depth)).value)
  {
    var rs := seq(|refs|, j requires 0 <= j < |refs| => RefEntry(refs[j], c, depth));
    CollectOk(rs);
    assert rs[k] == RefEntry(refs[k], c, depth);
  }

  /** With the references numbered as the parser numbers them, the
      `references` tag lists every reference under its heading as
      `[k + 1]. ` and its text. */
  lemma ReferencesListed(c: Config, depth: nat, args: TagAttrs, tb: bool, body: Node, idx: Option<int>, k: nat, x: string)
    requires depth > 0
    requires Fmt(Tag("references", args, tb, body, idx), c, depth).Ok?
    requires forall j :: 0 <= j < |c.references| ==> c.references[j].Tag? && c.references[j].idx == Some(j)
    requires k < |c.references| && Fmt(c.references[k].body, c, depth - 1) == Ok(Some(x))
    ensures var o := Fmt(Tag("references", args, tb, body, idx), c, depth).value;
      o.Some? && StartsWith(o.value, "\nReferences:\n") && Contains(o.value, RefLine(k, x))
  {
    assert Fmt(Tag("references", args, tb, body, idx), c, depth) == TagFmt("references", args, body, idx, c, depth);
    assert TagFmt("references", args, body, idx, c, depth) == Wrap(RefsText(c.references, c, depth - 1), "", "");
    var ls := RefEntries(c.references, c, depth - 1).value;
    var t := "\nReferences:\n" + Concat(ls);
    assert Fmt(Tag("references", args, tb, body, idx), c, depth) == Ok(Some("" + t + ""));
    assert "" + t + "" == t;
    RefEntryAt(c.references, k, c, depth - 1);
    HeadedContains("\nReferences:\n", ls, k);
  }

  /** Formatting a list of nodes one after another is a homomorphism:
      the text of two lists is the text of the first followed by that of
      the second. */
  lemma {:induction false} CatAppend(a: seq<Node>, b: seq<Node>, c: Config, depth: nat)
    requires CatText(a, c, depth).Ok? && CatText(b, c, depth).Ok?
    ensures CatText(a + b, c, depth) == Ok(CatText(a, c, depth).value + CatText(b, c, depth).value)
    decreases |b|
  {
    if b == [] {
      assert a + b == a;
      assert CatText(a, c, depth).value + "" == CatText(a, c, depth).value;
    } else {
      var pre := b[..|b| - 1];
      assert (a + b)[..|a + b| - 1] == a + pre;
      assert (a + b)[|a + b| - 1] == b[|b| - 1];
      assert CatText(pre, c, depth).Ok?;
      CatAppend(a, pre, c, depth);
      var x := Str(Fmt(b[|b| - 1], c, depth)).value;
      var A, B := CatText(a, c, depth).value, CatText(pre, c, depth).value;
      assert A + B + x == A + (B + x);
    }
  }
}
