/** The HTML translator: its node formatters (the `Html*Node.format`
    methods), its element table, the two template helpers `tmpl_term` and
    `tmpl_proto`, and the translator object, whose `nested` counter the
    `code` tag raises while its body is formatted.  A formatter either
    returns a string, returns Python's `None` (the node kinds left to the
    base class), or raises; `Fmt` returns all three as a value. */
module HtmlNodes {
  import opened PyStr
  import opened WikiToken
  import opened Site

  /** The HTML translator's settings: the markup class's settings and the
      `ref` tags the parser collected. */
  datatype Config = Config(site: Site, references: seq<Node>)

  // ---------------------------------------------------------------------
  // Escaping text

  function EscapeChar(ch: char): string
  {
    if ch == '&' then "&amp;" else if ch == '<' then "&lt;" else if ch == '>' then "&gt;" else [ch]
  }

  /** `html_escape(s, quote=False)`: ampersands and angle brackets become
      entities, so the text holds no angle bracket any more; text without
      those three characters is left alone. */
  function Escape(s: string): (r: string)
    ensures forall i :: 0 <= i < |r| ==> r[i] != '<' && r[i] != '>'
    ensures (forall i :: 0 <= i < |s| ==> s[i] != '&' && s[i] != '<' && s[i] != '>') ==> r == s
  {
    if s == "" then "" else EscapeChar(s[0]) + Escape(s[1..])
  }

  /** The three entities `Escape` writes, read back. */
  function Unescape(t: string): string
  {
    if t == "" then ""
    else if t[0] != '&' then [t[0]] + Unescape(t[1..])
    else if StartsWith(t, "&amp;") then "&" + Unescape(t[5..])
    else if StartsWith(t, "&lt;") then "<" + Unescape(t[4..])
    else if StartsWith(t, "&gt;") then ">" + Unescape(t[4..])
    else "&" + Unescape(t[1..])
  }

  /** An entity at the front is read back as its character. */
  lemma UnescapeEntity(ent: string, ch: char, rest: string)
    requires (ent, ch) == ("&amp;", '&') || (ent, ch) == ("&lt;", '<') || (ent, ch) == ("&gt;", '>')
    ensures Unescape(ent + rest) == [ch] + Unescape(rest)
  {
    var t := ent + rest;
    assert t[..|ent|] == ent && t[|ent|..] == rest;
    assert t[0] == '&';
    if ch != '&' {
      assert t[1] == ent[1];
    }
  }

  /** Any other character at the front is kept. */
  lemma UnescapePlain(ch: char, rest: string)
    requires ch != '&'
    ensures Unescape([ch] + rest) == [ch] + Unescape(rest)
  {
    assert ([ch] + rest)[1..] == rest;
  }

  /** Escaping loses nothing: the text can be read back from its escaped form. */
  lemma {:induction false} EscapeRoundTrip(s: string)
    ensures Unescape(Escape(s)) == s
  {
    if s != "" {
      var rest := Escape(s[1..]);
      assert Escape(s) == EscapeChar(s[0]) + rest;
      EscapeRoundTrip(s[1..]);
      if s[0] == '&' {
        UnescapeEntity("&amp;", '&', rest);
      } else if s[0] == '<' {
        UnescapeEntity("&lt;", '<', rest);
      } else if s[0] == '>' {
        UnescapeEntity("&gt;", '>', rest);
      } else {
        UnescapePlain(s[0], rest);
      }
      assert [s[0]] + s[1..] == s;
    }
  }

  // ---------------------------------------------------------------------
  // Python's `%` operator on the text after its last argument

  predicate IsFlag(ch: char)
  {
    ch == '-' || ch == '+' || ch == ' ' || ch == '#' || ch == '0'
  }

  function DropFlags(t: string): (r: string)
    ensures |r| <= |t| && r == t[|t| - |r|..]
    ensures r == "" || !IsFlag(r[0])
  {
    if t != "" && IsFlag(t[0]) then DropFlags(t[1..]) else t
  }

  function DropDigits(t: string): (r: string)
    ensures |r| <= |t| && r == t[|t| - |r|..]
    ensures r == "" || !IsDigit(r[0])
  {
    if t != "" && IsDigit(t[0]) then DropDigits(t[1..]) else t
  }

  /** The exception a `%` directive raises when no argument is left for it,
      `t` being the text after the `%`.  The directive is read as CPython
      reads it: a mapping key (which needs a mapping: `TypeError`), flags, a
      width, a precision, one length modifier, then the conversion, which
      takes an argument (`TypeError`); a `*` width or precision takes one
      too, and a directive cut off by the end of the text is an incomplete
      format (`ValueError`). */
  function DirectiveError(t: string): (e: PyError)
    ensures e == TypeError || e == ValueError
  {
    if t != "" && t[0] == '(' then TypeError
    else
      var a := DropFlags(t);
      if a != "" && a[0] == '*' then TypeError
      else
        var b := DropDigits(a);
        var dot := b != "" && b[0] == '.';
        if dot && |b| > 1 && b[1] == '*' then TypeError
        else
          var d := if dot then DropDigits(b[1..]) else b;
          var e := if d != "" && (d[0] == 'h' || d[0] == 'l' || d[0] == 'L') then d[1..] else d;
          if e == "" then ValueError else TypeError
  }

  /** What `%` makes of the part `x` of a format string that follows the
      directives its arguments went to: `%%` gives a percent sign, any
      other directive raises. */
  function PercentRest(x: string): (r: Result<string>)
  {
    if x == "" then Ok("")
    else if x[0] != '%' then
      match PercentRest(x[1..])
      case Err(e) => Err(e)
      case Ok(y) => Ok([x[0]] + y)
    else if |x| > 1 && x[1] == '%' then
      match PercentRest(x[2..])
      case Err(e) => Err(e)
      case Ok(y) => Ok("%" + y)
    else Err(DirectiveError(x[1..]))
  }

  /** Text without a percent sign passes through `%` untouched and in front
      of whatever follows. */
  lemma {:induction false} PercentPrefix(x: string, y: string)
    requires NoPercent(x)
    ensures PercentRest(x + y) ==
      match PercentRest(y)
      case Err(e) => Err(e)
      case Ok(z) => Ok(x + z)
  {
    if x != "" {
      assert (x + y)[0] == x[0] && (x + y)[1..] == x[1..] + y;
      assert x[0] != '%';
      assert NoPercent(x[1..]) by {
        forall i | 0 <= i < |x[1..]| ensures x[1..][i] != '%' {
          assert x[1..][i] == x[i + 1];
        }
      }
      PercentPrefix(x[1..], y);
      match PercentRest(y) {
        case Err(e) =>
        case Ok(z) =>
          assert [x[0]] + (x[1..] + z) == x + z;
      }
    } else {
      assert x + y == y;
      match PercentRest(y) {
        case Err(e) =>
        case Ok(z) =>
          assert x + z == z;
      }
    }
  }

  /** A text ending in a percent sign put before a tag is refused by `%`:
      the sign and the `<` after it read as a directive wanting an argument. */
  lemma PercentBeforeTag(x: string, y: string)
    requires NoPercent(x) && y != "" && y[0] == '<'
    ensures PercentRest(x + "%" + y) == Err(TypeError)
  {
    assert ("%" + y)[1..] == y;
    assert DropFlags(y) == y && DropDigits(y) == y;
    assert DirectiveError(y) == TypeError;
    assert PercentRest("%" + y) == Err(DirectiveError(y));
    assert x + "%" + y == x + ("%" + y);
    PercentPrefix(x, "%" + y);
  }

  // ---------------------------------------------------------------------
  // The element table (`envt`)

  /** `envt[type]["hdr"]`: the element an environment becomes. */
  function ListTag(e: EnvType): string
  {
    match e
    case Unnumbered => "ul"
    case Numbered => "ol"
    case Defn => "dl"
  }

  /** `envt[type]["elt"]`: the elements of the items, indexed by subtype. */
  function ItemTags(e: EnvType): seq<string>
  {
    match e
    case Unnumbered => ["li"]
    case Numbered => ["li"]
    case Defn => ["dt", "dd"]
  }

  /** The element of an item of subtype `subtype`, which Python finds with
      a list subscript (so a negative subtype counts from the end), or
      `None` when the subscript raises `IndexError`. */
  function ItemTag(e: EnvType, subtype: int): (r: Option<string>)
    ensures e != Defn ==> (r.Some? <==> subtype == 0 || subtype == -1) && (r.Some? ==> r.value == "li")
    ensures e == Defn ==> (r.Some? <==> -2 <= subtype <= 1)
    ensures e == Defn && (subtype == 0 || subtype == -2) ==> r == Some("dt")
    ensures e == Defn && (subtype == 1 || subtype == -1) ==> r == Some("dd")
  {
    match PyIndex(subtype, |ItemTags(e)|)
    case None => None
    case Some(k) => Some(ItemTags(e)[k])
  }

  // ---------------------------------------------------------------------
  // Pieces of markup

  /** An element around some text. */
  function Element(tag: string, x: string): string
  {
    "<" + tag + ">" + x + "</" + tag + ">"
  }

  /** A link: the text when it is a non-empty string, else `fallback`. */
  function AnchorTag(href: string, text: Option<string>, fallback: string): (r: string)
    ensures StartsWith(r, "<a href=\"" + href + "\">")
    ensures EndsWith(r, (if Truthy(text) then text.value else fallback) + "</a>")
  {
    var shown := if Truthy(text) then text.value else fallback;
    var r := "<a href=\"" + href + "\">" + shown + "</a>";
    assert r == ("<a href=\"" + href + "\">") + (shown + "</a>");
    r
  }

  /** A heading: the level is clamped to 6. */
  function Heading(level: int, x: string): string
  {
    var n := IntToStr(if level > 6 then 6 else level);
    "<h" + n + ">" + x + "</h" + n + ">\n\n"
  }

  /** The superscript link a citation leaves in the text. */
  function Cite(n: int): string
  {
    var d := IntToStr(n);
    CiteId + d + CiteName + d + CiteHref + d + "\">" + d + "</a></sup>"
  }

  const CiteId: string := "<sup id=\"cite_ref-"
  const CiteName: string := "\" class=\"reference\"><a name=\"cite_ref-"
  const CiteHref: string := "\" href=#cite_note-"

  const RefsOpen: string := "<div class=\"references\">\n<ol class=\"references\">\n"
  const RefsClose: string := "</ol>\n</div>\n"
  const RefTail: string := "</span></li>\n"

  /** The start of the `n`-th entry of the references list, up to its text. */
  function RefHead(n: int): string
  {
    var d := IntToStr(n);
    CiteNote + d + Backlink + d + RefTextOpen
  }

  const CiteNote: string := "<li id=\"cite_note-"
  const Backlink: string := "\"><span class=\"mw-cite-backlink\"><b><a href=\"#cite_ref-"
  const RefTextOpen: string := "\">^</a></b></span><span class=\"reference-text\">"

  /** The text a template's second part becomes. */
  function TemplateSpan(x: string): string
  {
    "<span class=\"template\">" + x + "</span>"
  }

  /** `re.match("t[+-]$", x)`: `$` also matches before a final newline. */
  predicate SignTemplate(x: string)
  {
    x == "t+" || x == "t-" || x == "t+\n" || x == "t-\n"
  }

  // ---------------------------------------------------------------------
  // The node formatters

  /** `node.format()` in the HTML translator, with the translator's
      `nested` counter at `nested`.  `depth` bounds how often the references
      list may be formatted inside itself; running out of it is Python's
      `RecursionError`. */
  function Fmt(n: Node, c: Config, nested: int, depth: nat): Result<Option<string>>
    decreases depth, n, 2
  {
    match n
    case Text(t) => Ok(Some(Escape(t)))
    case Seq(items) => Wrap(CatHtml(items, c, nested, depth), "", "")
    case Pre(items) =>
      if nested != 0 then Wrap(CatHtml(items, c, nested, depth), "", "")
      else Wrap(CatHtml(items, c, nested, depth), "<pre>", "</pre>")
    case Para(items) => Wrap(CatHtml(items, c, nested, depth), "<p>", "</p>\n")
    case It(items) => Wrap(CatHtml(items, c, nested, depth), "<i>", "</i>")
    case Bold(items) => Wrap(CatHtml(items, c, nested, depth), "<b>", "</b>")
    case Link(items) => LinkFmt(items, c, nested, depth, true)
    case Tmpl(items) => LinkFmt(items, c, nested, depth, false)
    case Bar => Ok(Some("<hr/>\n"))
    case Hdr(level, body) => HdrFmt(level, body, c, nested, depth)
    case Ref(ref, body) => RefFmt(ref, body, c, nested, depth)
    case Env(e, _, items) => Wrap(EnvHtml(e, items, c, nested, depth), "<" + ListTag(e) + ">", "</" + ListTag(e) + ">")
    case Ind(level, body) => Wrap(Str(Fmt(body, c, nested, depth)), Repeat("<dl><dd>", level), Repeat("</dd></dl>", level))
    case Tag(t, args, _, body, idx) => TagFmt(t, args, body, idx, c, nested, depth)
    case Nil => Ok(None)
    case Nl => Ok(None)
    case Delim(_, _, _) => Ok(None)
    case OTag(_, _, _) => Ok(None)
    case CTag(_) => Ok(None)
    case Elt(_, _) => Ok(None)
  }

  /** `HtmlHdrNode.format`: the title is written with `%s`, so a title
      that formats to nothing shows as `None`. */
  function HdrFmt(level: int, body: Node, c: Config, nested: int, depth: nat): Result<Option<string>>
    decreases depth, body, 3
  {
    match Fmt(body, c, nested, depth)
    case Err(e) => Err(e)
    case Ok(x) => Ok(Some(Heading(level, Show(x))))
  }

  /** `HtmlRefNode.format`: a link to the reference, showing its text or,
      when that is empty, the reference itself. */
  function RefFmt(ref: string, body: Node, c: Config, nested: int, depth: nat): Result<Option<string>>
    decreases depth, body, 3
  {
    match Fmt(body, c, nested, depth)
    case Err(e) => Err(e)
    case Ok(x) => Ok(Some(AnchorTag(ref, x, ref)))
  }

  /** `HtmlTagNode.format`: `code` formats its body with `nested` raised by
      one, `ref` leaves a citation numbered by its index, `references`
      lists the collected references, and any other tag is written out
      around its body. */
  function TagFmt(t: string, args: TagAttrs, body: Node, idx: Option<int>, c: Config, nested: int, depth: nat)
    : Result<Option<string>>
    decreases depth, body, 3
  {
    if t == "code" then Wrap(Str(Fmt(body, c, nested + 1, depth)), "<pre><code>", "</code></pre>")
    else if t == "ref" then
      (if idx.None? then Err(TypeError) else Ok(Some(Cite(idx.value + 1))))
    else if t == "references" then
      (if depth == 0 then Err(RecursionError) else Wrap(RefsHtml(c.references, c, nested, depth - 1), "", ""))
    else
      Wrap(Str(Fmt(body, c, nested, depth)), TagOpen(t, args), "</" + t + ">")
  }

  /** The items' texts one after another (`HtmlSeqNode`, the font, paragraph
      and preformatted nodes, and the translator's `__str__`). */
  function CatHtml(items: seq<Node>, c: Config, nested: int, depth: nat): Result<string>
    decreases depth, items, 1
  {
    if items == [] then Ok("")
    else match CatHtml(items[..|items| - 1], c, nested, depth)
      case Err(e) => Err(e)
      case Ok(acc) =>
        match Str(Fmt(items[|items| - 1], c, nested, depth))
        case Err(e) => Err(e)
        case Ok(x) => Ok(acc + x)
  }

  /** The list of the items' `format()` results, or the first exception. */
  function FmtAll(items: seq<Node>, c: Config, nested: int, depth: nat): (r: Result<seq<Option<string>>>)
    ensures r.Ok? ==> |r.value| == |items|
    ensures r.Ok? && items != [] ==> Fmt(items[0], c, nested, depth) == Ok(r.value[0])
    decreases depth, items, 0
  {
    if items == [] then Ok([])
    else match Fmt(items[0], c, nested, depth)
      case Err(e) => Err(e)
      case Ok(x) =>
        match FmtAll(items[1..], c, nested, depth)
        case Err(e) => Err(e)
        case Ok(xs) => Ok([x] + xs)
  }

  /** `HtmlLinkNode.format`, for a link (`isLink`) or a template.  With more
      than one part, a sentinel makes the node vanish, the second part
      becomes a template span, and a template returns straight away. */
  function LinkFmt(items: seq<Node>, c: Config, nested: int, depth: nat, isLink: bool): Result<Option<string>>
    decreases depth, items, 1
  {
    if items == [] then Err(IndexError)
    else match Fmt(items[0], c, nested, depth)
      case Err(e) => Err(e)
      case Ok(arg) =>
        if |items| == 1 then Anchor(c, arg, None, isLink)
        else match FmtAll(items, c, nested, depth)
          case Err(e) => Err(e)
          case Ok(s) =>
            if Sentinel(s) then Ok(Some(""))
            else if s[1].None? then Err(TypeError)
            else if isLink then Anchor(c, arg, Some(TemplateSpan(s[1].value)), isLink)
            else TmplText(s, TemplateSpan(s[1].value))
  }

  /** What a template with formatted parts `s` returns, `text` being the
      span of its second part. */
  function TmplText(s: seq<Option<string>>, text: string): Result<Option<string>>
    requires |s| > 1
  {
    if s[0].None? then Err(TypeError)
    else if SignTemplate(s[0].value) then Ok(if |s| > 2 then s[2] else Some(text))
    else if s[0].value == "term" then TermSpec(s)
    else if s[0].value == "proto" then
      match ProtoSpec(s)
      case Err(e) => Err(e)
      case Ok(t) => Ok(Some(t))
    else Ok(Some(text))
  }

  /** The tail of `HtmlLinkNode.format`: the target from the qualifier
      before the first colon.  An image vanishes, a media file points under
      the media base, a language link goes to that language's wiki, and the
      link shows its text or, failing that, its first part. */
  function Anchor(c: Config, arg: Option<string>, text: Option<string>, isLink: bool): (r: Result<Option<string>>)
    ensures r.Ok? ==> r.value.Some? && (r.value.value == "" || EndsWith(r.value.value, "</a>"))
  {
    if arg.None? then Err(AttributeError)
    else
      var a := arg.value;
      var (qual, _, tgt) := Partition(a, ':');
      if tgt == "" then Ok(Some(AnchorTag(Mktgt(c.site, a, ""), text, a)))
      else match NsName(c.site, qual)
        case Err(e) => Err(e)
        case Ok(ns) =>
          if Truthy(ns) then
            if ns.value == "NS_IMAGE" then Ok(Some(""))
            else if ns.value == "NS_MEDIA" then Ok(Some(AnchorTag(c.site.mediaBase + "/" + tgt, text, a)))
            else Ok(Some(AnchorTag(Mktgt(c.site, tgt, ""), text, a)))
          else if isLink && qual in c.site.langtab then
            Ok(Some(AnchorTag(Mktgt(c.site, tgt, qual), if Truthy(text) then text else c.site.langtab[qual], a)))
          else Ok(Some(AnchorTag(Mktgt(c.site, tgt, ""), text, a)))
  }

  /** One item of an environment: its element, looked up by subtype, around
      its text written with `%s`. */
  function EnvItem(e: EnvType, s: Node, c: Config, nested: int, depth: nat): Result<string>
    decreases depth, s, 1
  {
    if !s.Elt? then Err(AttributeError)
    else match ItemTag(e, s.subtype)
      case None => Err(IndexError)
      case Some(tag) =>
        match Fmt(s.body, c, nested, depth)
        case Err(err) => Err(err)
        case Ok(x) => Ok(Element(tag, Show(x)))
  }

  function EnvItems(e: EnvType, items: seq<Node>, c: Config, nested: int, depth: nat): (r: seq<Result<string>>)
    ensures |r| == |items|
    decreases depth, items, 2
  {
    seq(|items|, k requires 0 <= k < |items| => EnvItem(e, items[k], c, nested, depth))
  }

  /** `HtmlEnvNode.format` inside the list element: the items one after
      another, or the first exception. */
  function EnvHtml(e: EnvType, items: seq<Node>, c: Config, nested: int, depth: nat): Result<string>
    decreases depth, items, 3
  {
    match Collect(EnvItems(e, items, c, nested, depth))
    case Err(err) => Err(err)
    case Ok(ls) => Ok(Concat(ls))
  }

  /** The `n`-th entry of the references list.  Its text is spliced into
      the format string before `%` fills in the number, so `%` also reads
      whatever directives the text holds. */
  function RefItem(n: int, r: Node, c: Config, nested: int, depth: nat): Result<string>
    decreases depth, r, 0
  {
    if !r.Tag? then Err(AttributeError)
    else match Str(Fmt(r.body, c, nested, depth))
      case Err(e) => Err(e)
      case Ok(x) =>
        match PercentRest(x + RefTail)
        case Err(e) => Err(e)
        case Ok(y) => Ok(RefHead(n) + y)
  }

  function RefItems(refs: seq<Node>, c: Config, nested: int, depth: nat): (r: seq<Result<string>>)
    ensures |r| == |refs|
    decreases depth, refs, 1
  {
    seq(|refs|, k requires 0 <= k < |refs| => RefItem(k + 1, refs[k], c, nested, depth))
  }

  /** The entries of the references list, one after another. */
  function RefsBody(refs: seq<Node>, c: Config, nested: int, depth: nat): Result<string>
    decreases depth, refs, 2
  {
    match Collect(RefItems(refs, c, nested, depth))
    case Err(e) => Err(e)
    case Ok(ls) => Ok(Concat(ls))
  }

  /** The `references` tag: a numbered list of the collected references. */
  function RefsHtml(refs: seq<Node>, c: Config, nested: int, depth: nat): Result<string>
    decreases depth, refs, 3
  {
    match RefsBody(refs, c, nested, depth)
    case Err(e) => Err(e)
    case Ok(b) => Ok(RefsOpen + b + RefsClose)
  }

  // ---------------------------------------------------------------------
  // `tmpl_term`

  predicate IsWordChar(ch: char)
  {
    IsAsciiLetter(ch) || IsDigit(ch) || ch == '_'
  }

  /** The run of word characters `x` starts with. */
  function WordRun(x: string): (r: string)
    ensures |r| <= |x| && r == x[..|r|]
    ensures forall i :: 0 <= i < |r| ==> IsWordChar(r[i])
    ensures |r| == |x| || !IsWordChar(x[|r|])
  {
    if x != "" && IsWordChar(x[0]) then [x[0]] + WordRun(x[1..]) else ""
  }

  /** `re.match('(\w+)=', x).group(1)`: the key of a `key=value` argument. */
  function KeyOf(x: string): (r: Option<string>)
    ensures r.Some? ==> |r.value| > 0 && |r.value| < |x| && x[..|r.value|] == r.value && x[|r.value|] == '='
  {
    var w := WordRun(x);
    if w != "" && |w| < |x| && x[|w|] == '=' then Some(w) else None
  }

  /** One argument seen by `tmpl_term`'s loop, with the text and the
      transliteration found so far. */
  function TermStep(text: Option<string>, trans: Option<string>, x: string): (Option<string>, Option<string>)
  {
    match KeyOf(x)
    case Some(k) => (text, if k == "tr" then Some(x[|k| + 1..]) else trans)
    case None => if !Truthy(text) then (Some(x), trans) else (text, trans)
  }

  /** The text and transliteration after the arguments `xs`, or the
      `TypeError` of matching a `None`. */
  function TermScan(xs: seq<Option<string>>): Result<(Option<string>, Option<string>)>
  {
    if xs == [] then Ok((None, None))
    else match TermScan(xs[..|xs| - 1])
      case Err(e) => Err(e)
      case Ok(st) =>
        if xs[|xs| - 1].None? then Err(TypeError)
        else Ok(TermStep(st.0, st.1, xs[|xs| - 1].value))
  }

  /** The text with its transliteration, when both are non-empty. */
  function TermJoin(text: Option<string>, trans: Option<string>): Option<string>
  {
    if Truthy(text) && Truthy(trans) then Some(text.value + " <span class=\"trans\">[" + trans.value + "]</span>")
    else text
  }

  /** `tmpl_term(s)`. */
  function TermSpec(s: seq<Option<string>>): Result<Option<string>>
  {
    if |s| == 2 then Ok(s[1])
    else match TermScan(if s == [] then [] else s[1..])
      case Err(e) => Err(e)
      case Ok(st) => Ok(TermJoin(st.0, st.1))
  }

  lemma {:induction false} TermScanErrPersists(xs: seq<Option<string>>, j: nat)
    requires j <= |xs| && TermScan(xs[..j]).Err?
    ensures TermScan(xs) == TermScan(xs[..j])
    decreases |xs|
  {
    if j < |xs| {
      var pre := xs[..|xs| - 1];
      assert pre[..j] == xs[..j];
      TermScanErrPersists(pre, j);
    } else {
      assert xs[..j] == xs;
    }
  }

  /** `tmpl_term` as the loop the translator runs. */
  method TmplTerm(s: seq<Option<string>>) returns (r: Result<Option<string>>)
    ensures r == TermSpec(s)
  {
    if |s| == 2 {
      return Ok(s[1]);
    }
    var xs := if s == [] then [] else s[1..];
    var text: Option<string> := None;
    var trans: Option<string> := None;
    for i := 0 to |xs|
      invariant TermScan(xs[..i]) == Ok((text, trans))
    {
      TakeNext(xs, i);
      assert xs[..i + 1][..i] == xs[..i];
      var x := xs[i];
      if x.None? {
        TermScanErrPersists(xs, i + 1);
        return Err(TypeError);
      }
      var key := KeyOf(x.value);
      if key.Some? {
        if key.value == "tr" {
          trans := Some(x.value[|key.value| + 1..]);
        }
      } else if !Truthy(text) {
        text := x;
      }
    }
    assert xs[..|xs|] == xs;
    if Truthy(text) && Truthy(trans) {
      text := Some(text.value + " <span class=\"trans\">[" + trans.value + "]</span>");
    }
    r := Ok(text);
  }

  predicate AllSome(xs: seq<Option<string>>)
  {
    forall j :: 0 <= j < |xs| ==> xs[j].Some?
  }

  /** An argument `tmpl_term` can take as the term: not `key=value`, and
      not empty. */
  predicate PlainArg(x: string)
  {
    KeyOf(x).None? && x != ""
  }

  /** A `tr=` argument. */
  predicate TrArg(x: string)
  {
    KeyOf(x) == Some("tr")
  }

  lemma {:induction false} TermScanOk(xs: seq<Option<string>>)
    requires AllSome(xs)
    ensures TermScan(xs).Ok?
    decreases |xs|
  {
    if xs != [] {
      TermScanOk(xs[..|xs| - 1]);
    }
  }

  /** Before any plain argument the text is empty or missing. */
  lemma {:induction false} TermScanNoText(xs: seq<Option<string>>)
    requires AllSome(xs) && forall j :: 0 <= j < |xs| ==> !PlainArg(xs[j].value)
    ensures TermScan(xs).Ok? && !Truthy(TermScan(xs).value.0)
    decreases |xs|
  {
    if xs != [] {
      TermScanNoText(xs[..|xs| - 1]);
      assert !PlainArg(xs[|xs| - 1].value);
    }
  }

  /** The text is the first plain argument. */
  lemma {:induction false} TermScanText(xs: seq<Option<string>>, k: nat)
    requires AllSome(xs) && k < |xs| && PlainArg(xs[k].value)
    requires forall j :: 0 <= j < k ==> !PlainArg(xs[j].value)
    ensures TermScan(xs).Ok? && TermScan(xs).value.0 == xs[k]
    decreases |xs|
  {
    var pre := xs[..|xs| - 1];
    if k == |xs| - 1 {
      TermScanNoText(pre);
    } else {
      TermScanText(pre, k);
    }
  }

  /** The transliteration is that of the last `tr=` argument. */
  lemma {:induction false} TermScanTrans(xs: seq<Option<string>>, j: nat)
    requires AllSome(xs) && j < |xs| && TrArg(xs[j].value)
    requires forall i :: j < i < |xs| ==> !TrArg(xs[i].value)
    ensures TermScan(xs).Ok? && TermScan(xs).value.1 == Some(xs[j].value[3..])
    decreases |xs|
  {
    var pre := xs[..|xs| - 1];
    if j == |xs| - 1 {
      TermScanOk(pre);
    } else {
      TermScanTrans(pre, j);
    }
  }

  /** Without a `tr=` argument there is no transliteration. */
  lemma {:induction false} TermScanNoTrans(xs: seq<Option<string>>)
    requires AllSome(xs) && forall i :: 0 <= i < |xs| ==> !TrArg(xs[i].value)
    ensures TermScan(xs).Ok? && TermScan(xs).value.1.None?
    decreases |xs|
  {
    if xs != [] {
      TermScanNoTrans(xs[..|xs| - 1]);
    }
  }

  /** `tmpl_term` with exactly one argument returns it. */
  lemma TermSingle(s: seq<Option<string>>)
    requires |s| == 2
    ensures TermSpec(s) == Ok(s[1])
  {
  }

  /** `tmpl_term` with several arguments returns the first plain one, and
      the transliteration of the last `tr=` argument after it when that is
      not empty. */
  lemma TermWithTrans(s: seq<Option<string>>, k: nat, j: nat)
    requires |s| > 2 && AllSome(s[1..])
    requires 1 <= k < |s| && PlainArg(s[k].value) && forall i :: 1 <= i < k ==> !PlainArg(s[i].value)
    requires 1 <= j < |s| && TrArg(s[j].value) && forall i :: j < i < |s| ==> !TrArg(s[i].value)
    requires |s[j].value| > 3
    ensures TermSpec(s) == Ok(Some(s[k].value + " <span class=\"trans\">[" + s[j].value[3..] + "]</span>"))
  {
    var xs := s[1..];
    TermScanText(xs, k - 1);
    TermScanTrans(xs, j - 1);
  }

  /** Without a `tr=` argument `tmpl_term` returns the first plain
      argument alone. */
  lemma TermWithoutTrans(s: seq<Option<string>>, k: nat)
    requires |s| > 2 && AllSome(s[1..])
    requires 1 <= k < |s| && PlainArg(s[k].value) && forall i :: 1 <= i < k ==> !PlainArg(s[i].value)
    requires forall i :: 1 <= i < |s| ==> !TrArg(s[i].value)
    ensures TermSpec(s) == Ok(s[k])
  {
    var xs := s[1..];
    TermScanText(xs, k - 1);
    TermScanNoTrans(xs);
  }

  // ---------------------------------------------------------------------
  // `tmpl_proto`

  function ProtoHead(lang: string): string
  {
    "<span class=\"proto-lang\">Proto-" + lang + "</span>"
  }

  /** A reconstructed form and the meaning after it. */
  function ProtoItem(x: string, m: string): string
  {
    " <span class=\"proto\">" + x + "</span>" + " <span class=\"meaning\">(" + m + ")</span>"
  }

  /** The forms `xs`, separated by commas, each followed by the meaning
      `m`, or the `TypeError` of a missing one. */
  function ProtoForms(xs: seq<Option<string>>, m: Option<string>): Result<string>
  {
    if xs == [] then Ok("")
    else match ProtoForms(xs[..|xs| - 1], m)
      case Err(e) => Err(e)
      case Ok(acc) =>
        var x := xs[|xs| - 1];
        if x.None? || m.None? then Err(TypeError)
        else Ok(acc + (if |xs| > 1 then "," else "") + ProtoItem(x.value, m.value))
  }

  /** `tmpl_proto(s)`: the forms are the parts between the language and the
      last two, and the meaning is the last but one. */
  function ProtoSpec(s: seq<Option<string>>): Result<string>
  {
    if |s| < 2 then Err(IndexError)
    else if s[1].None? then Err(TypeError)
    else if |s| < 4 then Ok(ProtoHead(s[1].value))
    else match ProtoForms(s[2..|s| - 2], s[|s| - 2])
      case Err(e) => Err(e)
      case Ok(t) => Ok(ProtoHead(s[1].value) + t)
  }

  lemma {:induction false} ProtoErrPersists(xs: seq<Option<string>>, m: Option<string>, j: nat)
    requires j <= |xs| && ProtoForms(xs[..j], m).Err?
    ensures ProtoForms(xs, m) == ProtoForms(xs[..j], m)
    decreases |xs|
  {
    if j < |xs| {
      var pre := xs[..|xs| - 1];
      assert pre[..j] == xs[..j];
      ProtoErrPersists(pre, m, j);
    } else {
      assert xs[..j] == xs;
    }
  }

  /** `tmpl_proto` as the loop the translator runs. */
  method TmplProto(s: seq<Option<string>>) returns (r: Result<string>)
    ensures r == ProtoSpec(s)
  {
    if |s| < 2 {
      return Err(IndexError);
    }
    if s[1].None? {
      return Err(TypeError);
    }
    var text := ProtoHead(s[1].value);
    if |s| >= 4 {
      var xs := s[2..|s| - 2];
      var m := s[|s| - 2];
      var forms := "";
      var n := 0;
      for i := 0 to |xs|
        invariant n == i
        invariant ProtoForms(xs[..i], m) == Ok(forms)
      {
        assert xs[..i + 1][..i] == xs[..i] && xs[..i + 1][i] == xs[i];
        ghost var before := forms;
        if n > 0 {
          forms := forms + ",";
        }
        n := n + 1;
        if xs[i].None? || m.None? {
          ProtoErrPersists(xs, m, i + 1);
          return Err(TypeError);
        }
        forms := forms + ProtoItem(xs[i].value, m.value);
        assert forms == before + (if |xs[..i + 1]| > 1 then "," else "") + ProtoItem(xs[i].value, m.value);
      }
      assert xs[..|xs|] == xs;
      text := text + forms;
    }
    r := Ok(text);
  }

  /** The text of the forms: each one behind a comma but the first. */
  function ProtoPieces(xs: seq<string>, m: string): (r: seq<string>)
    ensures |r| == |xs|
  {
    seq(|xs|, k requires 0 <= k < |xs| => (if k > 0 then "," else "") + ProtoItem(xs[k], m))
  }

  function Values(xs: seq<Option<string>>): (r: seq<string>)
    requires AllSome(xs)
    ensures |r| == |xs| && forall k :: 0 <= k < |xs| ==> xs[k] == Some(r[k])
  {
    seq(|xs|, k requires 0 <= k < |xs| => xs[k].value)
  }

  /** With every form and the meaning present, the forms are written one
      after another, each followed by the meaning. */
  lemma {:induction false} ProtoFormsOk(xs: seq<Option<string>>, m: string)
    requires AllSome(xs)
    ensures ProtoForms(xs, Some(m)) == Ok(Concat(ProtoPieces(Values(xs), m)))
    decreases |xs|
  {
    if xs != [] {
      var pre := xs[..|xs| - 1];
      ProtoFormsOk(pre, m);
      var a, b := ProtoPieces(Values(pre), m), ProtoPieces(Values(xs), m);
      assert a == b[..|b| - 1];
      assert b[|b| - 1] == (if |xs| > 1 then "," else "") + ProtoItem(xs[|xs| - 1].value, m);
      assert Concat(b) == Concat(a) + b[|b| - 1];
      var sep := if |xs| > 1 then "," else "";
      var item := ProtoItem(xs[|xs| - 1].value, m);
      assert Concat(a) + sep + item == Concat(a) + (sep + item);
    }
  }

  /** Every form of a prototype appears followed by its meaning. */
  lemma ProtoEveryForm(s: seq<Option<string>>, k: nat)
    requires |s| >= 4 && AllSome(s[1..|s| - 1]) && k < |s| - 4
    ensures ProtoSpec(s).Ok?
    ensures StartsWith(ProtoSpec(s).value, ProtoHead(s[1].value))
    ensures Contains(ProtoSpec(s).value, ProtoItem(s[k + 2].value, s[|s| - 2].value))
  {
    assert s[1] == s[1..|s| - 1][0] && s[|s| - 2] == s[1..|s| - 1][|s| - 3];
    var xs := s[2..|s| - 2];
    assert AllSome(xs) by {
      forall j | 0 <= j < |xs| ensures xs[j].Some? {
        assert xs[j] == s[1..|s| - 1][j + 1];
      }
    }
    var m := s[|s| - 2].value;
    ProtoFormsOk(xs, m);
    var ps := ProtoPieces(Values(xs), m);
    var head := ProtoHead(s[1].value);
    assert ProtoSpec(s) == Ok(head + Concat(ps));
    ConcatContains(ps, k);
    var sep := if k > 0 then "," else "";
    var item := ProtoItem(s[k + 2].value, m);
    assert ps[k] == sep + item by {
      assert xs[k] == s[k + 2];
    }
    ContainsTail(Concat(ps), sep, item);
    ContainsAfter(head, Concat(ps), item);
    assert (head + Concat(ps))[..|head|] == head;
  }

  /** What holds a text holds each of its ends. */
  lemma ContainsTail(t: string, a: string, b: string)
    requires Contains(t, a + b)
    ensures Contains(t, b)
  {
    var i, j :| 0 <= i <= j <= |t| && t[i..j] == a + b;
    assert t[i + |a|..j] == (a + b)[|a|..];
  }

  // ---------------------------------------------------------------------
  // The loops of `HtmlEnvNode.format`, the references list and `__str__`

  lemma EnvItemsTake(e: EnvType, items: seq<Node>, j: nat, c: Config, nested: int, depth: nat)
    requires j <= |items|
    ensures EnvItems(e, items[..j], c, nested, depth) == EnvItems(e, items, c, nested, depth)[..j]
  {
    var a, b := EnvItems(e, items[..j], c, nested, depth), EnvItems(e, items, c, nested, depth)[..j];
    forall k | 0 <= k < j
      ensures a[k] == b[k]
    {
      assert items[..j][k] == items[k];
    }
  }

  /** `HtmlEnvNode.format`'s loop: every item as an element of the list. */
  method FormatEnv(e: EnvType, items: seq<Node>, c: Config, nested: int, depth: nat) returns (r: Result<string>)
    ensures r == EnvHtml(e, items, c, nested, depth)
  {
    var rs := EnvItems(e, items, c, nested, depth);
    var s := "";
    ghost var ls: seq<string> := [];
    for i := 0 to |items|
      invariant Collect(rs[..i]) == Ok(ls) && s == Concat(ls)
    {
      CollectStep(rs, i);
      var piece: Result<string>;
      if !items[i].Elt? {
        piece := Err(AttributeError);
      } else {
        var tag := ItemTag(e, items[i].subtype);
        if tag.None? {
          piece := Err(IndexError);
        } else {
          var x := Fmt(items[i].body, c, nested, depth);
          piece := if x.Err? then Err(x.error) else Ok(Element(tag.value, Show(x.value)));
        }
      }
      assert rs[i] == EnvItem(e, items[i], c, nested, depth);
      assert piece == rs[i];
      if piece.Err? {
        CollectErrPersists(rs, i + 1);
        return Err(piece.error);
      }
      s := s + piece.value;
      assert (ls + [piece.value])[..|ls|] == ls;
      ls := ls + [piece.value];
    }
    assert rs[..|items|] == rs;
    r := Ok(s);
  }

  lemma RefItemsTake(refs: seq<Node>, j: nat, c: Config, nested: int, depth: nat)
    requires j <= |refs|
    ensures RefItems(refs[..j], c, nested, depth) == RefItems(refs, c, nested, depth)[..j]
  {
    var a, b := RefItems(refs[..j], c, nested, depth), RefItems(refs, c, nested, depth)[..j];
    forall k | 0 <= k < j
      ensures a[k] == b[k]
    {
      assert refs[..j][k] == refs[k];
    }
  }

  /** One more entry of the references list. */
  lemma RefsBodyStep(refs: seq<Node>, i: nat, c: Config, nested: int, depth: nat)
    requires i < |refs|
    ensures RefsBody(refs[..i + 1], c, nested, depth) ==
      match RefsBody(refs[..i], c, nested, depth)
      case Err(e) => Err(e)
      case Ok(b) =>
        match RefItem(i + 1, refs[i], c, nested, depth)
        case Err(e) => Err(e)
        case Ok(v) => Ok(b + v)
  {
    var rs := RefItems(refs, c, nested, depth);
    RefItemsTake(refs, i, c, nested, depth);
    RefItemsTake(refs, i + 1, c, nested, depth);
    CollectStep(rs, i);
    assert rs[i] == RefItem(i + 1, refs[i], c, nested, depth);
    match Collect(rs[..i]) {
      case Err(e) =>
      case Ok(ls) =>
        if rs[i].Ok? {
          assert (ls + [rs[i].value])[..|ls|] == ls;
        }
    }
  }

  /** Once an entry raises, so does the references list. */
  lemma RefsBodyErrPersists(refs: seq<Node>, j: nat, c: Config, nested: int, depth: nat)
    requires j <= |refs| && RefsBody(refs[..j], c, nested, depth).Err?
    ensures RefsBody(refs, c, nested, depth) == RefsBody(refs[..j], c, nested, depth)
  {
    RefItemsTake(refs, j, c, nested, depth);
    CollectErrPersists(RefItems(refs, c, nested, depth), j);
  }

  /** One pass of the references loop: the entry numbered `n`, the
      `i`-th reference from zero. */
  method ReferenceEntry(refs: seq<Node>, i: nat, n: int, ghost b: string, c: Config, nested: int, depth: nat)
    returns (r: Result<string>)
    requires i < |refs| && n == i + 1 && RefsBody(refs[..i], c, nested, depth) == Ok(b)
    ensures r.Err? ==> RefsBody(refs[..i + 1], c, nested, depth) == Err(r.error)
    ensures r.Ok? ==> RefsBody(refs[..i + 1], c, nested, depth) == Ok(b + r.value)
  {
    RefsBodyStep(refs, i, c, nested, depth);
    r := RefItem(n, refs[i], c, nested, depth);
  }

  /** The references list as the loop the translator runs, numbering the
      entries from one. */
  method FormatReferences(refs: seq<Node>, c: Config, nested: int, depth: nat) returns (r: Result<string>)
    ensures r == RefsHtml(refs, c, nested, depth)
  {
    var s := RefsOpen;
    ghost var b := "";
    var n := 0;
    for i := 0 to |refs|
      invariant n == i
      invariant RefsBody(refs[..i], c, nested, depth) == Ok(b) && s == RefsOpen + b
    {
      n := n + 1;
      var item := ReferenceEntry(refs, i, n, b, c, nested, depth);
      if item.Err? {
        RefsBodyErrPersists(refs, i + 1, c, nested, depth);
        return Err(item.error);
      }
      s := s + item.value;
      b := b + item.value;
    }
    assert refs[..|refs|] == refs;
    r := Ok(s + RefsClose);
  }

  /** An exception raised by some leading nodes is that of the whole text. */
  lemma {:induction false} CatErrPersists(items: seq<Node>, j: nat, c: Config, nested: int, depth: nat)
    requires j <= |items| && CatHtml(items[..j], c, nested, depth).Err?
    ensures CatHtml(items, c, nested, depth) == CatHtml(items[..j], c, nested, depth)
    decreases |items|
  {
    if j < |items| {
      var pre := items[..|items| - 1];
      assert pre[..j] == items[..j];
      CatErrPersists(pre, j, c, nested, depth);
    } else {
      assert items[..j] == items;
    }
  }

  /** Formatting a list of nodes one after another is a homomorphism: the
      text of two lists is the text of the first followed by that of the
      second. */
  lemma {:induction false} CatAppend(a: seq<Node>, b: seq<Node>, c: Config, nested: int, depth: nat)
    requires CatHtml(a, c, nested, depth).Ok? && CatHtml(b, c, nested, depth).Ok?
    ensures CatHtml(a + b, c, nested, depth) == Ok(CatHtml(a, c, nested, depth).value + CatHtml(b, c, nested, depth).value)
    decreases |b|
  {
    if b == [] {
      assert a + b == a;
      assert CatHtml(a, c, nested, depth).value + "" == CatHtml(a, c, nested, depth).value;
    } else {
      var pre := b[..|b| - 1];
      assert (a + b)[..|a + b| - 1] == a + pre;
      assert (a + b)[|a + b| - 1] == b[|b| - 1];
      assert CatHtml(pre, c, nested, depth).Ok?;
      CatAppend(a, pre, c, nested, depth);
      var x := Str(Fmt(b[|b| - 1], c, nested, depth)).value;
      var A, B := CatHtml(a, c, nested, depth).value, CatHtml(pre, c, nested, depth).value;
      assert A + B + x == A + (B + x);
    }
  }

  // ---------------------------------------------------------------------
  // The translator object

  /** `HtmlWikiMarkup` once parsed: its settings, its tree and the `nested`
      counter that tells preformatted text whether it already sits inside
      a `code` block. */
  class HtmlTranslator {
    var config: Config
    var tree: seq<Node>
    var nested: int

    constructor (config: Config, tree: seq<Node>)
      ensures this.config == config && this.tree == tree && nested == 0
    {
      this.config := config;
      this.tree := tree;
      nested := 0;
    }

    /** `HtmlTagNode.format` for a `code` tag: the counter is raised while
        the body is formatted and lowered again afterwards, unless formatting
        the body raised, in which case it stays raised. */
    method FormatCode(args: TagAttrs, body: Node, idx: Option<int>, depth: nat) returns (r: Result<Option<string>>)
      modifies this
      ensures r == TagFmt("code", args, body, idx, config, old(nested), depth)
      ensures config == old(config) && tree == old(tree)
      ensures nested == if Fmt(body, config, old(nested) + 1, depth).Err? then old(nested) + 1 else old(nested)
    {
      nested := nested + 1;
      var s := Fmt(body, config, nested, depth);
      if s.Err? {
        return Err(s.error);
      }
      nested := nested - 1;
      r := Wrap(Str(s), "<pre><code>", "</code></pre>");
    }

    /** `str(translator)`: every node of the tree formatted, in order. */
    method Render(depth: nat) returns (r: Result<string>)
      ensures r == CatHtml(tree, config, nested, depth)
    {
      var s := "";
      for i := 0 to |tree|
        invariant CatHtml(tree[..i], config, nested, depth) == Ok(s)
      {
        TakeNext(tree, i);
        assert tree[..i + 1][..i] == tree[..i];
        var x := Str(Fmt(tree[i], config, nested, depth));
        if x.Err? {
          CatErrPersists(tree, i + 1, config, nested, depth);
          return Err(x.error);
        }
        s := s + x.value;
      }
      assert tree[..|tree|] == tree;
      r := Ok(s);
    }
  }

  // ---------------------------------------------------------------------
  // Properties of the formatted HTML

  /** A heading's element never names a level above six: levels one to six
      are kept, deeper ones become `h6`, and the title sits between the
      tags, followed by a blank line. */
  lemma HeaderClamp(level: int, body: Node, c: Config, nested: int, depth: nat)
    requires level >= 1 && Fmt(body, c, nested, depth).Ok?
    ensures var d := if level >= 6 then '6' else ('0' as int + level) as char;
      Fmt(Hdr(level, body), c, nested, depth)
        == Ok(Some("<h" + [d] + ">" + Show(Fmt(body, c, nested, depth).value) + "</h" + [d] + ">\n\n"))
  {
    var l := if level > 6 then 6 else level;
    assert IntToStr(l) == NatToStr(l) == [DigitChar(l)];
  }

  /** Italic and bold text are their items' text inside `<i>` and `<b>`. */
  lemma FontWrap(items: seq<Node>, c: Config, nested: int, depth: nat)
    ensures Fmt(It(items), c, nested, depth).Ok? <==> CatHtml(items, c, nested, depth).Ok?
    ensures Fmt(Bold(items), c, nested, depth).Ok? <==> CatHtml(items, c, nested, depth).Ok?
    ensures CatHtml(items, c, nested, depth).Ok? ==>
      Fmt(It(items), c, nested, depth) == Ok(Some(Element("i", CatHtml(items, c, nested, depth).value)))
      && Fmt(Bold(items), c, nested, depth) == Ok(Some(Element("b", CatHtml(items, c, nested, depth).value)))
  {
    if CatHtml(items, c, nested, depth).Ok? {
      var t := CatHtml(items, c, nested, depth).value;
      assert Element("i", t) == "<i>" + t + "</i>";
      assert Element("b", t) == "<b>" + t + "</b>";
    }
  }

  /** Each item of a formatted environment is its element around its text,
      and there is one per item. */
  lemma EnvItemAt(e: EnvType, items: seq<Node>, k: nat, c: Config, nested: int, depth: nat)
    requires Collect(EnvItems(e, items, c, nested, depth)).Ok? && k < |items|
    ensures var ls := Collect(EnvItems(e, items, c, nested, depth)).value;
      |ls| == |items| && items[k].Elt? && ItemTag(e, items[k].subtype).Some?
      && Fmt(items[k].body, c, nested, depth).Ok?
      && ls[k] == Element(ItemTag(e, items[k].subtype).value, Show(Fmt(items[k].body, c, nested, depth).value))
  {
    var rs := EnvItems(e, items, c, nested, depth);
    CollectOk(rs);
    assert rs[k] == EnvItem(e, items[k], c, nested, depth);
  }

  /** An environment is its list element (`ul`, `ol` or `dl`) holding one
      element per item: `li` in a list, and in a definition list `dt` for a
      term (subtype 0) and `dd` for a definition (subtype 1). */
  lemma EnvMapping(e: EnvType, lev: int, items: seq<Node>, k: nat, c: Config, nested: int, depth: nat)
    requires Fmt(Env(e, lev, items), c, nested, depth).Ok? && k < |items|
    ensures var o := Fmt(Env(e, lev, items), c, nested, depth).value;
      o.Some? && StartsWith(o.value, "<" + ListTag(e) + ">") && EndsWith(o.value, "</" + ListTag(e) + ">")
      && items[k].Elt? && Fmt(items[k].body, c, nested, depth).Ok?
      && Contains(o.value, Element(if e != Defn then "li" else if (items[k].subtype == 0 || items[k].subtype == -2) then "dt" else "dd",
                                   Show(Fmt(items[k].body, c, nested, depth).value)))
  {
    var ls := Collect(EnvItems(e, items, c, nested, depth)).value;
    EnvItemAt(e, items, k, c, nested, depth);
    var open, close := "<" + ListTag(e) + ">", "</" + ListTag(e) + ">";
    var o := open + Concat(ls) + close;
    assert Fmt(Env(e, lev, items), c, nested, depth) == Ok(Some(o));
    ConcatContains(ls, k);
    Enclosed(open, Concat(ls), close, ls[k]);
  }

  /** An item whose subtype has no element in the table raises
      `IndexError` once the items before it have formatted. */
  lemma EnvIndexError(e: EnvType, items: seq<Node>, k: nat, c: Config, nested: int, depth: nat)
    requires k < |items| && items[k].Elt? && ItemTag(e, items[k].subtype).None?
    requires forall j :: 0 <= j < k ==> EnvItem(e, items[j], c, nested, depth).Ok?
    ensures EnvHtml(e, items, c, nested, depth) == Err(IndexError)
  {
    var rs := EnvItems(e, items, c, nested, depth);
    assert rs[k] == EnvItem(e, items[k], c, nested, depth);
    assert forall j :: 0 <= j < k ==> rs[j] == EnvItem(e, items[j], c, nested, depth);
    CollectErr(rs, k);
  }

  /** An indented block opens `level` nested definition lists and closes
      as many. */
  lemma IndentBalanced(level: int, body: Node, x: string, c: Config, nested: int, depth: nat)
    requires Fmt(body, c, nested, depth) == Ok(Some(x))
    ensures var d := if level <= 0 then 0 else level;
      Fmt(Ind(level, body), c, nested, depth) == Ok(Some(Repeat("<dl><dd>", level) + x + Repeat("</dd></dl>", level)))
      && |Repeat("<dl><dd>", level)| == 8 * d && |Repeat("</dd></dl>", level)| == 10 * d
  {
    RepeatLength("<dl><dd>", level);
    RepeatLength("</dd></dl>", level);
  }

  /** Preformatted text gets a `pre` element only outside a `code` block. */
  lemma PreNested(items: seq<Node>, c: Config, nested: int, depth: nat)
    requires CatHtml(items, c, nested, depth).Ok?
    ensures var t := CatHtml(items, c, nested, depth).value;
      Fmt(Pre(items), c, nested, depth) == Ok(Some(if nested == 0 then "<pre>" + t + "</pre>" else t))
  {
    var t := CatHtml(items, c, nested, depth).value;
    assert "" + t + "" == t;
  }

  /** Preformatted text directly inside a `code` tag is set in a single
      `pre` element: the tag's own. */
  lemma CodePre(args: TagAttrs, tb: bool, items: seq<Node>, idx: Option<int>, c: Config, nested: int, depth: nat)
    requires nested >= 0 && CatHtml(items, c, nested + 1, depth).Ok?
    ensures Fmt(Tag("code", args, tb, Pre(items), idx), c, nested, depth)
      == Ok(Some("<pre><code>" + CatHtml(items, c, nested + 1, depth).value + "</code></pre>"))
  {
    PreNested(items, c, nested + 1, depth);
    assert TagFmt("code", args, Pre(items), idx, c, nested, depth)
      == Wrap(Str(Fmt(Pre(items), c, nested + 1, depth)), "<pre><code>", "</code></pre>");
  }

  /** A link or template whose formatted parts name a disambiguation or
      quotation template, or a thumbnail, renders as nothing. */
  lemma LinkSentinel(items: seq<Node>, c: Config, nested: int, depth: nat)
    requires FmtAll(items, c, nested, depth).Ok? && Sentinel(FmtAll(items, c, nested, depth).value)
    ensures Fmt(Link(items), c, nested, depth) == Ok(Some(""))
    ensures Fmt(Tmpl(items), c, nested, depth) == Ok(Some(""))
  {
  }

  /** A link into the image namespace renders as nothing. */
  lemma LinkImage(items: seq<Node>, a: string, c: Config, nested: int, depth: nat)
    requires |items| == 1 && Fmt(items[0], c, nested, depth) == Ok(Some(a))
    requires var (qual, _, tgt) := Partition(a, ':'); tgt != "" && NsName(c.site, qual) == Ok(Some("NS_IMAGE"))
    ensures Fmt(Link(items), c, nested, depth) == Ok(Some(""))
    ensures Fmt(Tmpl(items), c, nested, depth) == Ok(Some(""))
  {
    AnchorImage(c, a, true);
    AnchorImage(c, a, false);
    assert Fmt(Link(items), c, nested, depth) == LinkFmt(items, c, nested, depth, true);
    assert Fmt(Tmpl(items), c, nested, depth) == LinkFmt(items, c, nested, depth, false);
  }

  /** An anchor whose target lies in the image namespace is empty. */
  lemma AnchorImage(c: Config, a: string, isLink: bool)
    requires var (qual, _, tgt) := Partition(a, ':'); tgt != "" && NsName(c.site, qual) == Ok(Some("NS_IMAGE"))
    ensures Anchor(c, Some(a), None, isLink) == Ok(Some(""))
  {
  }

  /** A one-part link without a qualifier points at its page and shows the
      part itself. */
  lemma LinkFallback(items: seq<Node>, a: string, c: Config, nested: int, depth: nat)
    requires |items| == 1 && Fmt(items[0], c, nested, depth) == Ok(Some(a))
    requires Find(a, ':').None?
    ensures Fmt(Link(items), c, nested, depth) == Ok(Some("<a href=\"" + Mktgt(c.site, a, "") + "\">" + a + "</a>"))
  {
  }

  /** A sign template (`t+` or `t-`) shows its third part, or the span of
      its second when it has no third. */
  lemma TmplSign(items: seq<Node>, c: Config, nested: int, depth: nat)
    requires FmtAll(items, c, nested, depth).Ok? && |items| > 1
    requires var s := FmtAll(items, c, nested, depth).value;
      s[0].Some? && SignTemplate(s[0].value) && s[1].Some? && s[1].value != "thumb"
    ensures var s := FmtAll(items, c, nested, depth).value;
      Fmt(Tmpl(items), c, nested, depth) == Ok(if |s| > 2 then s[2] else Some(TemplateSpan(s[1].value)))
  {
    var s := FmtAll(items, c, nested, depth).value;
    assert !Sentinel(s);
  }

  /** A citation is the superscript numbered by the tag's index plus one; a
      `ref` tag without an index raises `TypeError`. */
  lemma Citation(args: TagAttrs, tb: bool, body: Node, idx: Option<int>, c: Config, nested: int, depth: nat)
    ensures idx.None? ==> Fmt(Tag("ref", args, tb, body, idx), c, nested, depth) == Err(TypeError)
    ensures idx.Some? ==> Fmt(Tag("ref", args, tb, body, idx), c, nested, depth) == Ok(Some(Cite(idx.value + 1)))
    ensures idx.Some? ==> EndsWith(Cite(idx.value + 1), ">" + IntToStr(idx.value + 1) + "</a></sup>")
  {
    if idx.Some? {
      CiteShows(idx.value + 1);
    }
  }

  /** A citation mark shows its number as the text of its link. */
  lemma CiteShows(n: int)
    ensures EndsWith(Cite(n), ">" + IntToStr(n) + "</a></sup>")
  {
    var d := IntToStr(n);
    var pre := CiteId + d + CiteName + d + CiteHref + d + "\"";
    assert Cite(n) == pre + (">" + d + "</a></sup>");
  }

  /** Each collected reference has its entry, numbered by its position
      from one, and there is one entry per reference. */
  lemma RefItemAt(refs: seq<Node>, k: nat, c: Config, nested: int, depth: nat)
    requires Collect(RefItems(refs, c, nested, depth)).Ok? && k < |refs|
    ensures var ls := Collect(RefItems(refs, c, nested, depth)).value;
      |ls| == |refs| && RefItem(k + 1, refs[k], c, nested, depth).Ok?
      && ls[k] == RefItem(k + 1, refs[k], c, nested, depth).value
  {
    var rs := RefItems(refs, c, nested, depth);
    CollectOk(rs);
    assert rs[k] == RefItem(k + 1, refs[k], c, nested, depth);
  }

  /** The references list numbers its entries 1, 2, … in the order the
      references were collected; an entry whose text has no percent sign
      holds that text unchanged. */
  lemma RefsListed(refs: seq<Node>, k: nat, x: string, c: Config, nested: int, depth: nat)
    requires RefsHtml(refs, c, nested, depth).Ok?
    requires k < |refs| && refs[k].Tag? && Fmt(refs[k].body, c, nested, depth) == Ok(Some(x)) && NoPercent(x)
    ensures var o := RefsHtml(refs, c, nested, depth).value;
      StartsWith(o, RefsOpen) && EndsWith(o, RefsClose) && Contains(o, RefHead(k + 1) + x + RefTail)
  {
    var ls := Collect(RefItems(refs, c, nested, depth)).value;
    var o := RefsOpen + Concat(ls) + RefsClose;
    assert RefsHtml(refs, c, nested, depth) == Ok(o);
    RefItemAt(refs, k, c, nested, depth);
    RefEntryText(k + 1, refs[k], x, c, nested, depth);
    ConcatContains(ls, k);
    Enclosed(RefsOpen, Concat(ls), RefsClose, ls[k]);
  }

  /** The `references` tag is the references list, formatted one level
      deeper. */
  lemma ReferencesTag(args: TagAttrs, tb: bool, body: Node, idx: Option<int>, c: Config, nested: int, depth: nat)
    ensures depth == 0 ==> Fmt(Tag("references", args, tb, body, idx), c, nested, depth) == Err(RecursionError)
    ensures depth > 0 && RefsHtml(c.references, c, nested, depth - 1).Ok? ==>
      Fmt(Tag("references", args, tb, body, idx), c, nested, depth) == Ok(Some(RefsHtml(c.references, c, nested, depth - 1).value))
    ensures depth > 0 && RefsHtml(c.references, c, nested, depth - 1).Err? ==>
      Fmt(Tag("references", args, tb, body, idx), c, nested, depth) == Err(RefsHtml(c.references, c, nested, depth - 1).error)
  {
    assert Fmt(Tag("references", args, tb, body, idx), c, nested, depth) == TagFmt("references", args, body, idx, c, nested, depth);
    if depth > 0 && RefsHtml(c.references, c, nested, depth - 1).Ok? {
      var o := RefsHtml(c.references, c, nested, depth - 1).value;
      assert "" + o + "" == o;
    }
  }

  /** The closing tags of an entry hold no percent sign. */
  lemma RefTailPlain()
    ensures PercentRest(RefTail) == Ok(RefTail)
  {
    assert NoPercent(RefTail) by {
      forall i | 0 <= i < |RefTail| ensures RefTail[i] != '%' {
      }
    }
    PercentPrefix(RefTail, "");
    assert RefTail + "" == RefTail;
  }

  /** An entry whose text has no percent sign is that text between the
      entry's opening, numbered `n`, and its closing tags. */
  lemma RefEntryText(n: int, r: Node, x: string, c: Config, nested: int, depth: nat)
    requires r.Tag? && Fmt(r.body, c, nested, depth) == Ok(Some(x)) && NoPercent(x)
    ensures RefItem(n, r, c, nested, depth) == Ok(RefHead(n) + x + RefTail)
  {
    RefTailPlain();
    PercentPrefix(x, RefTail);
    assert RefHead(n) + (x + RefTail) == RefHead(n) + x + RefTail;
  }

  /** A reference whose text ends in a percent sign breaks the references
      list: `%` reads the sign and the closing tag after it as a directive
      with no argument left. */
  lemma ReferencePercent(k: int, r: Node, x: string, c: Config, nested: int, depth: nat)
    requires r.Tag? && Fmt(r.body, c, nested, depth) == Ok(Some(x + "%")) && NoPercent(x)
    ensures RefItem(k, r, c, nested, depth) == Err(TypeError)
  {
    assert x + "%" + RefTail == x + "%" + RefTail;
    PercentBeforeTag(x, RefTail);
  }
}
