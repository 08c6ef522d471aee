/** The tokenizer of the wiki markup parser (`WikiMarkupParser.tokread`):
    it reads the input line by line and cuts each line into text, newline,
    delimiter and tag tokens, ending the stream with a NIL token. The regular
    expressions it uses are written out here as character matchers. */
module Tokenizer {
  import opened PyStr
  import opened WikiToken
  import opened AttrParser

  // ---------------------------------------------------------------------
  // Character classes and runs

  const Blanks: set<char> := {' ', '\t'}
  const EnvChars: set<char> := {'*', '#', ';', ':'}

  /** The delimiters that stay inline; every other delimiter is a block one. */
  const InlineDelims: set<string> := {"''", "'''", "[", "]", "[[", "]]", "{{", "}}", "|"}

  /** The tags the tokenizer turns into tag tokens. */
  const Tags: set<string> := {"code", "nowiki", "tt", "div", "ref", "references"}

  /** Every character one of the delimiter alternatives needs. */
  const Markup: set<char> := {'=', '-', '*', '#', ';', ':', '[', ']', '{', '}', '|', '\'', '<'}

  /** The class `[a-zA-Z0-9_]` of a tag name. */
  predicate IsTagChar(c: char)
  {
    IsAsciiLetter(c) || IsDigit(c) || c == '_'
  }

  /** The end of the longest run of characters of `cs` starting at `i`. */
  function SpanIn(l: string, i: nat, cs: set<char>): (j: nat)
    requires i <= |l|
    ensures i <= j <= |l|
    ensures forall k :: i <= k < j ==> l[k] in cs
    ensures j == |l| || l[j] !in cs
    decreases |l| - i
  {
    if i == |l| || l[i] !in cs then i else SpanIn(l, i + 1, cs)
  }

  /** The end of the longest run of `\s` characters starting at `i`. */
  function SpanSpace(l: string, i: nat): (j: nat)
    requires i <= |l|
    ensures i <= j <= |l|
    ensures forall k :: i <= k < j ==> IsSpace(l[k])
    ensures j == |l| || !IsSpace(l[j])
    decreases |l| - i
  {
    if i == |l| || !IsSpace(l[i]) then i else SpanSpace(l, i + 1)
  }

  /** The end of the longest run of tag-name characters starting at `i`. */
  function SpanTag(l: string, i: nat): (j: nat)
    requires i <= |l|
    ensures i <= j <= |l|
    ensures forall k :: i <= k < j ==> IsTagChar(l[k])
    ensures j == |l| || !IsTagChar(l[j])
    decreases |l| - i
  {
    if i == |l| || !IsTagChar(l[i]) then i else SpanTag(l, i + 1)
  }

  /** The first index at or after `i` holding `c`. */
  function FindFrom(l: string, i: nat, c: char): (r: Option<nat>)
    requires i <= |l|
    ensures r.Some? ==> i <= r.value < |l| && l[r.value] == c
    ensures r.Some? ==> forall k :: i <= k < r.value ==> l[k] != c
    ensures r.None? ==> forall k :: i <= k < |l| ==> l[k] != c
    decreases |l| - i
  {
    if i == |l| then None else if l[i] == c then Some(i) else FindFrom(l, i + 1, c)
  }

  // ---------------------------------------------------------------------
  // The delimiter expression

  /** The trailing-header alternative `[ \t]*==+[ \t]*$` tried at `st`: `$`
      matches at the end of the line or before its final newline. */
  function TrailingEq(l: string, st: nat): (r: Option<nat>)
    requires st <= |l|
    ensures r.Some? ==> st < r.value <= |l|
    ensures r.Some? ==> var b := SpanIn(l, st, Blanks); b < r.value && l[b] == '='
  {
    var b := SpanIn(l, st, Blanks);
    var e := SpanIn(l, b, {'='});
    var f := SpanIn(l, e, Blanks);
    if e - b >= 2 && (f == |l| || (f == |l| - 1 && l[f] == '\n')) then Some(f) else None
  }

  /** What any match of the delimiter expression from `st` to `en` looks
      like: it starts with a markup character, or with blanks before `=`; a
      match at `<` is that character alone. */
  predicate DelimLike(l: string, st: nat, en: nat)
  {
    && st < en <= |l|
    && (l[st] in Markup || (l[st] in Blanks && SpanIn(l, st, Blanks) < en && l[SpanIn(l, st, Blanks)] == '='))
    && (l[st] == '<' ==> en == st + 1)
  }

  /** The alternatives of the delimiter expression, in the order they are
      written: `^==+[ \t]*`, `[ \t]*==+[ \t]*$`, `^----$`, `^\*+`, `^#+`,
      `^[;:]+`, `\[\[`, `\[`, `\{\{`, `\]\]`, `\]`, `\}\}`, `\|`,
      `\'\'\'?` and `<`. */
  datatype Alt =
    | HeaderOpen | HeaderClose | Rule | Stars | Hashes | Colons
    | LinkOpen | BracketOpen | TemplateOpen | LinkClose | BracketClose | TemplateClose
    | Pipe | Quotes | Angle

  const Alternatives: seq<Alt> :=
    [HeaderOpen, HeaderClose, Rule, Stars, Hashes, Colons, LinkOpen, BracketOpen,
     TemplateOpen, LinkClose, BracketClose, TemplateClose, Pipe, Quotes, Angle]

  /** Where alternative `a` ends when it matches at `st`. The `^`-anchored
      ones match only at the very start of the line, and `$` matches at its
      end or before its final newline. */
  function AltAt(a: Alt, l: string, st: nat): (r: Option<nat>)
    requires st < |l|
    ensures r.Some? ==> DelimLike(l, st, r.value)
  {
    var n := |l|;
    match a
    case HeaderOpen => if st == 0 && SpanIn(l, 0, {'='}) >= 2 then Some(SpanIn(l, SpanIn(l, 0, {'='}), Blanks)) else None
    case HeaderClose => TrailingEq(l, st)
    case Rule => if st == 0 && (l == "----" || l == "----\n") then Some(4) else None
    case Stars => if st == 0 && l[0] == '*' then Some(SpanIn(l, 0, {'*'})) else None
    case Hashes => if st == 0 && l[0] == '#' then Some(SpanIn(l, 0, {'#'})) else None
    case Colons => if st == 0 && l[0] in {';', ':'} then Some(SpanIn(l, 0, {';', ':'})) else None
    case LinkOpen => if st + 1 < n && l[st] == '[' && l[st + 1] == '[' then Some(st + 2) else None
    case BracketOpen => if l[st] == '[' then Some(st + 1) else None
    case TemplateOpen => if st + 1 < n && l[st] == '{' && l[st + 1] == '{' then Some(st + 2) else None
    case LinkClose => if st + 1 < n && l[st] == ']' && l[st + 1] == ']' then Some(st + 2) else None
    case BracketClose => if l[st] == ']' then Some(st + 1) else None
    case TemplateClose => if st + 1 < n && l[st] == '}' && l[st + 1] == '}' then Some(st + 2) else None
    case Pipe => if l[st] == '|' then Some(st + 1) else None
    case Quotes =>
      if st + 1 < n && l[st] == '\'' && l[st + 1] == '\'' then
        (if st + 2 < n && l[st + 2] == '\'' then Some(st + 3) else Some(st + 2))
      else None
    case Angle => if l[st] == '<' then Some(st + 1) else None
  }

  /** The first of `alts` that matches at `st`, as the regular-expression
      engine tries the branches of an alternation from left to right. */
  function FirstAlt(alts: seq<Alt>, l: string, st: nat): (r: Option<nat>)
    requires st < |l|
    ensures r.Some? ==> DelimLike(l, st, r.value)
  {
    if alts == [] then None
    else match AltAt(alts[0], l, st)
      case Some(e) => Some(e)
      case None => FirstAlt(alts[1..], l, st)
  }

  /** Where the delimiter expression's match at `st` ends, if it matches. */
  function DelimAt(l: string, st: nat): (r: Option<nat>)
    requires st < |l|
    ensures r.Some? ==> DelimLike(l, st, r.value)
  {
    FirstAlt(Alternatives, l, st)
  }

  /** `delim.search(line, pos)`: the leftmost match at or after `pos`, as its
      start and end. */
  function DelimSearch(l: string, pos: nat): (r: Option<(nat, nat)>)
    requires pos <= |l|
    ensures r.Some? ==> pos <= r.value.0 && DelimLike(l, r.value.0, r.value.1)
    decreases |l| - pos
  {
    if pos == |l| then None
    else match DelimAt(l, pos)
      case Some(e) => Some((pos, e))
      case None => DelimSearch(l, pos + 1)
  }

  /** The search reports where the match it found ends. */
  lemma {:induction false} DelimSearchFound(l: string, pos: nat)
    requires pos <= |l|
    ensures DelimSearch(l, pos).Some? ==> DelimAt(l, DelimSearch(l, pos).value.0) == Some(DelimSearch(l, pos).value.1)
    decreases |l| - pos
  {
    if pos < |l| && DelimAt(l, pos).None? {
      DelimSearchFound(l, pos + 1);
    }
  }

  /** The search finds the leftmost match: the expression matches at no
      position it skipped, and nowhere at all when it finds nothing. */
  lemma {:induction false} DelimSearchFirst(l: string, pos: nat, k: nat)
    requires pos <= k < |l|
    requires DelimSearch(l, pos).Some? ==> k < DelimSearch(l, pos).value.0
    ensures DelimAt(l, k).None?
    decreases k - pos
  {
    if k > pos {
      DelimSearchFirst(l, pos + 1, k);
    }
  }

  // ---------------------------------------------------------------------
  // The tag expressions

  /** A match of `<(?P<tag>…)(?:\s+(?P<args>[^/][^>]+))?\s*(?P<closed>/)?>`. */
  datatype OTagMatch = OTagMatch(tag: string, args: Option<string>, closed: bool, end: nat)

  /** The attribute group tried with exactly `k` characters for `\s+` after
      the tag name ending at `q`: `[^/]` then `[^>]+` up to the first `>`. */
  function ArgsAt(l: string, q: nat, k: nat): (r: Option<(string, nat)>)
    requires q + k <= |l|
    ensures r.Some? ==> q + k + 2 < r.value.1 <= |l| && r.value.0 == l[q + k..r.value.1 - 1]
    ensures r.Some? ==> l[r.value.1 - 1] == '>'
  {
    var a := q + k;
    if a < |l| && l[a] != '/' then
      match FindFrom(l, a + 1, '>')
      case Some(e) => if e > a + 1 then Some((l[a..e], e + 1)) else None
      case None => None
    else None
  }

  /** The regular-expression engine's backtracking over the length of `\s+`:
      the longest run that lets the attribute group match wins. */
  function ArgsFrom(l: string, q: nat, k: nat): (r: Option<(string, nat)>)
    requires q + k <= |l|
    ensures r.Some? ==> q + 2 < r.value.1 <= |l| && l[r.value.1 - 1] == '>'
    ensures r.None? ==> forall j :: 1 <= j <= k ==> ArgsAt(l, q, j).None?
  {
    if k == 0 then None
    else match ArgsAt(l, q, k)
      case Some(x) => Some(x)
      case None => ArgsFrom(l, q, k - 1)
  }

  /** `otag.match(line, pos)`. */
  function OTagAt(l: string, pos: nat): (r: Option<OTagMatch>)
    requires pos < |l|
    ensures r.Some? ==> pos < r.value.end <= |l| && l[pos] == '<' && l[r.value.end - 1] == '>'
    ensures r.Some? ==> r.value.tag != "" && forall k :: 0 <= k < |r.value.tag| ==> IsTagChar(r.value.tag[k])
    ensures r.Some? && r.value.closed ==> r.value.args.None?
  {
    if l[pos] != '<' then None
    else
      var q := SpanTag(l, pos + 1);
      if q == pos + 1 then None
      else
        var tag := l[pos + 1..q];
        var w := SpanSpace(l, q);
        match ArgsFrom(l, q, w - q)
        case Some((args, e)) => Some(OTagMatch(tag, Some(args), false, e))
        case None =>
          if w + 1 < |l| && l[w] == '/' && l[w + 1] == '>' then Some(OTagMatch(tag, None, true, w + 2))
          else if w < |l| && l[w] == '>' then Some(OTagMatch(tag, None, false, w + 1))
          else None
  }

  /** `ctag.match(line, i)` for `</(?P<tag>[a-zA-Z0-9_]+)\s*>`: the tag name
      and the end of the match. */
  function CTagAt(l: string, i: nat): (r: Option<(string, nat)>)
    requires i <= |l|
    ensures r.Some? ==> i < r.value.1 <= |l| && r.value.0 != ""
  {
    if i + 1 < |l| && l[i] == '<' && l[i + 1] == '/' then
      var q := SpanTag(l, i + 2);
      var s := SpanSpace(l, q);
      if q > i + 2 && s < |l| && l[s] == '>' then Some((l[i + 2..q], s + 1)) else None
    else None
  }

  /** `ctag.search(line, pos)`: start, tag name and end of the leftmost match. */
  function CTagSearch(l: string, pos: nat): (r: Option<(nat, string, nat)>)
    requires pos <= |l|
    ensures r.Some? ==> pos <= r.value.0 < r.value.2 <= |l| && CTagAt(l, r.value.0) == Some((r.value.1, r.value.2))
    ensures r.Some? ==> forall k :: pos <= k < r.value.0 ==> CTagAt(l, k).None?
    decreases |l| - pos
  {
    if pos == |l| then None
    else match CTagAt(l, pos)
      case Some((t, e)) => Some((pos, t, e))
      case None => CTagSearch(l, pos + 1)
  }

  // ---------------------------------------------------------------------
  // The tokens

  /** What every token but the final NIL looks like: a newline, text, a
      non-empty delimiter whose block flag says it is not an inline one (an
      environment marker followed by `:` carries its first character twice),
      or an open or close tag with one of the known tag names. */
  predicate Shaped(t: Node)
  {
    match t
    case Nl => true
    case Text(_) => true
    case Delim(c, b, cont) =>
      && c != ""
      && b == (c !in InlineDelims)
      && (cont ==> |c| >= 2 && c[0] in EnvChars && c[|c| - 1] == c[0])
    case OTag(tag, _, _) => tag in Tags
    case CTag(tag) => tag in Tags
    case _ => false
  }

  predicate AllShaped(ts: seq<Node>)
  {
    forall i :: 0 <= i < |ts| ==> Shaped(ts[i])
  }

  /** A complete token stream: well-shaped tokens and one final NIL. */
  predicate TokenStream(ts: seq<Node>)
  {
    && |ts| > 0
    && ts[|ts| - 1] == Nil
    && AllShaped(ts[..|ts| - 1])
  }

  /** The exceptions that can escape the tokenizer. */
  predicate Escapes(e: PyError)
  {
    e == TypeError || e == IndexError || e == AttributeError
  }

  // ---------------------------------------------------------------------
  // The input and the tokenizer's state

  /** `self.input()`: the next line, or None once the lines are used up. */
  function Input(lines: seq<string>, li: nat): Option<string>
  {
    if li < |lines| then Some(lines[li]) else None
  }

  function NextLi(lines: seq<string>, li: nat): nat
  {
    if li < |lines| then li + 1 else li
  }

  /** The tokenizer's state: lines read so far (`li`), the current line and
      the position in it. */
  predicate StateOk(lines: seq<string>, li: nat, line: Option<string>, pos: nat)
  {
    li <= |lines| && (line.Some? ==> pos <= |line.value|)
  }

  /** The termination measure: unread lines, then what is left of the line. */
  function M1(lines: seq<string>, li: nat, line: Option<string>): nat
    requires li <= |lines|
  {
    2 * (|lines| - li) + if line.Some? then 1 else 0
  }

  function M2(line: Option<string>, pos: nat): nat
  {
    if line.Some? && pos <= |line.value| then |line.value| - pos else 0
  }

  /** What one turn of the tokenizer's loop does: emit tokens and move on,
      stop after emitting the final tokens, or raise. */
  datatype Next =
    | Go(ts: seq<Node>, li: nat, line: Option<string>, pos: nat)
    | Stop(ts: seq<Node>)
    | Fail(err: PyError)

  /** The turn emits well-shaped tokens and moves to a valid state that is
      smaller in the termination measure. */
  predicate Progress(lines: seq<string>, li: nat, line: Option<string>, pos: nat, r: Next)
    requires li <= |lines|
  {
    && (r.Go? ==>
          && StateOk(lines, r.li, r.line, r.pos)
          && AllShaped(r.ts)
          && (M1(lines, r.li, r.line) < M1(lines, li, line)
              || (M1(lines, r.li, r.line) == M1(lines, li, line) && M2(r.line, r.pos) < M2(line, pos))))
    && (r.Stop? ==> r.ts == [Nil])
    && (r.Fail? ==> Escapes(r.err))
  }

  /** The nowiki raw loop: everything up to the first close tag, if that is
      `</nowiki>`, becomes text; otherwise the rest of the line does and the
      next line is read. Reading past the input (None) fails in the search. */
  function Raw(lines: seq<string>, li: nat, line: Option<string>, pos: nat): (r: Result<(seq<Node>, nat, string, nat)>)
    requires StateOk(lines, li, line, pos)
    ensures r.Ok? ==> var (ts, li', l', p') := r.value;
      && li <= li' <= |lines| && p' <= |l'| && AllShaped(ts)
      && (li' == li ==> line == Some(l') && pos < p')
    ensures r.Err? ==> r.error == TypeError
    decreases M1(lines, li, line)
  {
    if line.None? then Err(TypeError)
    else
      var l := line.value;
      var m := CTagSearch(l, pos);
      if m.Some? && m.value.1 == "nowiki" then Ok(([Text(l[pos..m.value.0])], li, l, m.value.2))
      else
        match Raw(lines, NextLi(lines, li), Input(lines, li), 0)
        case Ok((ts, li', l', p')) => Ok(([Text(l[pos..])] + ts, li', l', p'))
        case Err(e) => Err(e)
  }

  /** The tokens of a delimiter match `l[st..en]` that does not start with `<`. */
  function DelimTokens(lines: seq<string>, li: nat, l: string, st: nat, en: nat): (r: Next)
    requires li <= |lines| && st < en <= |l| && l[st] != '<'
  {
    var content := l[st..en];
    if content[0] in EnvChars then
      var cont := en < |l| && l[en] == ':';
      var c := if cont then content + [content[0]] else content;
      var p := if cont then en + 1 else en;
      Go([Delim(c, true, cont)], li, Some(l), SpanIn(l, p, Blanks))
    else
      var c := Strip(content);
      Go([Delim(c, c !in InlineDelims, false)], li, Some(l), en)
  }

  lemma EnvNotInline(c: string)
    requires c != "" && c[0] in EnvChars
    ensures c !in InlineDelims
  {
  }

  /** A delimiter match has a character that is not whitespace, so stripping
      it leaves something. */
  lemma StripDelim(l: string, st: nat, en: nat)
    requires DelimLike(l, st, en)
    ensures Strip(l[st..en]) != ""
  {
    var c := l[st..en];
    var k := if l[st] in Markup then st else SpanIn(l, st, Blanks);
    assert !IsSpace(l[k]);
    assert c[k - st] == l[k];
  }

  /** The tokens for a `<` at `pos`: an open tag, a close tag, or the `<`
      alone as text. */
  function AngleTokens(lines: seq<string>, li: nat, l: string, pos: nat): (r: Next)
    requires li <= |lines| && pos < |l| && l[pos] == '<'
  {
    match OTagAt(l, pos)
    case Some(m) => OpenTagTokens(lines, li, l, pos, m)
    case None =>
      match CTagAt(l, pos)
      case Some((tag, e)) => Go([if tag in Tags then CTag(tag) else Text(l[pos..e])], li, Some(l), e)
      case None => Go([Text(l[pos..pos + 1])], li, Some(l), pos + 1)
  }

  /** The tokens for an open tag matched at `pos`: `<nowiki>` switches to the
      raw loop, a known tag gives an open tag token (and a close tag token when
      written `<tag/>`), any other tag stays text. */
  function OpenTagTokens(lines: seq<string>, li: nat, l: string, pos: nat, m: OTagMatch): (r: Next)
    requires li <= |lines| && pos < m.end <= |l|
  {
    if m.tag == "nowiki" then
      if !m.closed then
        match Raw(lines, li, Some(l), m.end)
        case Ok((ts, li', l', p')) => Go(ts, li', Some(l'), p')
        case Err(e) => Fail(e)
      else Go([], li, Some(l), m.end)
    else if m.tag in Tags then
      if m.end == |l| then Fail(IndexError)
      else match Attributes(m.args)
        case Ok(a) =>
          Go([OTag(m.tag, l[m.end] == '\n', a)] + (if m.closed then [CTag(m.tag)] else []), li, Some(l), m.end)
        case Err(e) =>
          if e == TagAttributeSyntaxError then Go([Text(l[pos..m.end])], li, Some(l), m.end)
          else Fail(e)
    else Go([Text(l[pos..m.end])], li, Some(l), m.end)
  }

  /** One turn of the loop on a line that is neither empty nor a lone
      newline, at a position inside it. */
  function LineTokens(lines: seq<string>, li: nat, l: string, pos: nat): (r: Next)
    requires li <= |lines| && l != "" && pos < |l|
  {
    match DelimSearch(l, pos)
    case None =>
      var ts :=
        if l[|l| - 1] == '\n' then (if pos < |l| - 1 then [Text(l[pos..|l| - 1])] else []) + [Nl]
        else [Text(l[pos..])];
      Go(ts, li, None, pos)
    case Some((st, en)) =>
      var pre := if pos < st then [Text(l[pos..st])] else [];
      var r := if l[st] == '<' then AngleTokens(lines, li, l, st) else DelimTokens(lines, li, l, st, en);
      if r.Go? then Go(pre + r.ts, r.li, r.line, r.pos) else r
  }

  /** One turn of `tokread`'s loop: read a line when the current one is used
      up, stop at the end of the input, emit NL for an empty line, otherwise
      take the next token(s) from the line. */
  function StepTok(lines: seq<string>, li: nat, line: Option<string>, pos: nat): (r: Next)
    requires StateOk(lines, li, line, pos)
  {
    var reread := line.None? || line.value == "" || pos == |line.value|;
    var l1 := if reread then Input(lines, li) else line;
    var li1 := if reread then NextLi(lines, li) else li;
    var p1 := if reread then 0 else pos;
    if l1.None? || l1.value == "" then Stop([Nil])
    else if l1.value == "\n" then Go([Nl], li1, None, p1)
    else LineTokens(lines, li1, l1.value, p1)
  }

  // ---------------------------------------------------------------------
  // Every turn emits well-shaped tokens and makes progress

  lemma DelimProgress(lines: seq<string>, li: nat, l: string, st: nat, en: nat)
    requires li <= |lines| && DelimLike(l, st, en) && l[st] != '<'
    ensures DelimTokens(lines, li, l, st, en).Go?
    ensures Progress(lines, li, Some(l), st, DelimTokens(lines, li, l, st, en))
  {
    var content := l[st..en];
    if content[0] in EnvChars {
      var cont := en < |l| && l[en] == ':';
      EnvNotInline(if cont then content + [content[0]] else content);
    } else {
      StripDelim(l, st, en);
    }
  }

  lemma OpenTagProgress(lines: seq<string>, li: nat, l: string, pos: nat, m: OTagMatch)
    requires li <= |lines| && pos < m.end <= |l|
    ensures Progress(lines, li, Some(l), pos, OpenTagTokens(lines, li, l, pos, m))
  {
  }

  lemma AngleProgress(lines: seq<string>, li: nat, l: string, pos: nat)
    requires li <= |lines| && pos < |l| && l[pos] == '<'
    ensures Progress(lines, li, Some(l), pos, AngleTokens(lines, li, l, pos))
  {
    match OTagAt(l, pos)
    case Some(m) => OpenTagProgress(lines, li, l, pos, m);
    case None =>
  }

  lemma AllShapedConcat(a: seq<Node>, b: seq<Node>)
    requires AllShaped(a) && AllShaped(b)
    ensures AllShaped(a + b)
  {
    forall i | 0 <= i < |a + b| ensures Shaped((a + b)[i]) {
      if i >= |a| { assert (a + b)[i] == b[i - |a|]; }
    }
  }

  lemma LineProgress(lines: seq<string>, li: nat, l: string, pos: nat)
    requires li <= |lines| && l != "" && pos < |l|
    ensures Progress(lines, li, Some(l), pos, LineTokens(lines, li, l, pos))
  {
    match DelimSearch(l, pos)
    case None =>
    case Some((st, en)) =>
      var pre := if pos < st then [Text(l[pos..st])] else [];
      var r := if l[st] == '<' then AngleTokens(lines, li, l, st) else DelimTokens(lines, li, l, st, en);
      if l[st] == '<' {
        AngleProgress(lines, li, l, st);
      } else {
        DelimProgress(lines, li, l, st, en);
      }
      if r.Go? {
        AllShapedConcat(pre, r.ts);
      }
  }

  lemma StepProgress(lines: seq<string>, li: nat, line: Option<string>, pos: nat)
    requires StateOk(lines, li, line, pos)
    ensures Progress(lines, li, line, pos, StepTok(lines, li, line, pos))
  {
    var reread := line.None? || line.value == "" || pos == |line.value|;
    var l1 := if reread then Input(lines, li) else line;
    var li1 := if reread then NextLi(lines, li) else li;
    var p1 := if reread then 0 else pos;
    if l1.Some? && l1.value != "" && l1.value != "\n" {
      LineProgress(lines, li1, l1.value, p1);
    }
  }

  function Cons(ts: seq<Node>, r: Result<seq<Node>>): (r': Result<seq<Node>>)
  {
    match r
    case Ok(v) => Ok(ts + v)
    case Err(e) => Err(e)
  }

  /** The whole token stream from a state: every stream ends in exactly one
      NIL, and the only exceptions are the ones the tag handling raises. */
  function Run(lines: seq<string>, li: nat, line: Option<string>, pos: nat): (r: Result<seq<Node>>)
    requires StateOk(lines, li, line, pos)
    decreases M1(lines, li, line), M2(line, pos)
  {
    StepProgress(lines, li, line, pos);
    match StepTok(lines, li, line, pos)
    case Stop(ts) => Ok(ts)
    case Fail(e) => Err(e)
    case Go(ts, li', line', pos') => Cons(ts, Run(lines, li', line', pos'))
  }

  /** Every stream ends in exactly one NIL, and the only exceptions are the
      ones the tag handling raises. */
  lemma {:induction false} RunStream(lines: seq<string>, li: nat, line: Option<string>, pos: nat)
    requires StateOk(lines, li, line, pos)
    ensures var r := Run(lines, li, line, pos);
      && (r.Ok? ==> TokenStream(r.value))
      && (r.Err? ==> Escapes(r.error))
    decreases M1(lines, li, line), M2(line, pos)
  {
    StepProgress(lines, li, line, pos);
    match StepTok(lines, li, line, pos)
    case Stop(ts) =>
    case Fail(e) =>
    case Go(ts, li', line', pos') =>
      RunStream(lines, li', line', pos');
      ConsStream(ts, Run(lines, li', line', pos'));
  }

  lemma ConsStream(ts: seq<Node>, r: Result<seq<Node>>)
    requires AllShaped(ts) && (r.Ok? ==> TokenStream(r.value))
    ensures Cons(ts, r).Ok? ==> TokenStream(Cons(ts, r).value)
    ensures Cons(ts, r).Err? ==> r.Err? && Cons(ts, r).error == r.error
  {
    assert AllShaped(ts);
    if r.Ok? {
      var v := ts + r.value;
      assert v[..|v| - 1] == ts + r.value[..|r.value| - 1];
    }
  }

  /** `tokread`, driven to the end as `tokenize` does. */
  function Tokens(lines: seq<string>): Result<seq<Node>>
  {
    Run(lines, 0, None, 0)
  }

  /** Whatever the input, the token stream ends in exactly one NIL and every
      other token is well shaped; the tokenizer raises only TypeError (input
      exhausted inside `<nowiki>`), IndexError or AttributeError. */
  lemma TokensStream(lines: seq<string>)
    ensures Tokens(lines).Ok? ==> TokenStream(Tokens(lines).value)
    ensures Tokens(lines).Err? ==> Escapes(Tokens(lines).error)
  {
    RunStream(lines, 0, None, 0);
  }

  function RawCons(ts: seq<Node>, r: Result<(seq<Node>, nat, string, nat)>): Result<(seq<Node>, nat, string, nat)>
  {
    match r
    case Ok((ts', li, l, p)) => Ok((ts + ts', li, l, p))
    case Err(e) => Err(e)
  }

  /** A turn that goes on contributes its tokens in front of the rest. */
  lemma RunGo(lines: seq<string>, li: nat, line: Option<string>, pos: nat,
              ts: seq<Node>, li': nat, line': Option<string>, pos': nat)
    requires StateOk(lines, li, line, pos)
    requires StepTok(lines, li, line, pos) == Go(ts, li', line', pos')
    ensures StateOk(lines, li', line', pos')
    ensures Run(lines, li, line, pos) == Cons(ts, Run(lines, li', line', pos'))
  {
    StepProgress(lines, li, line, pos);
  }

  lemma ConsCons(toks: seq<Node>, ts: seq<Node>, r: Result<seq<Node>>)
    ensures Cons(toks, Cons(ts, r)) == Cons(toks + ts, r)
  {
    match r
    case Ok(v) => assert toks + (ts + v) == toks + ts + v;
    case Err(_) =>
  }

  lemma ConsNil(r: Result<seq<Node>>)
    ensures Cons([], r) == r
  {
    match r
    case Ok(v) => assert [] + v == v;
    case Err(_) =>
  }

  /** Taking one turn of the loop keeps the stream seen so far, plus what is
      still to come, equal to the whole stream. */
  lemma Advance(lines: seq<string>, li: nat, line: Option<string>, pos: nat, toks: seq<Node>,
                ts: seq<Node>, li': nat, line': Option<string>, pos': nat)
    requires StateOk(lines, li, line, pos)
    requires StepTok(lines, li, line, pos) == Go(ts, li', line', pos')
    requires Tokens(lines) == Cons(toks, Run(lines, li, line, pos))
    ensures StateOk(lines, li', line', pos')
    ensures Tokens(lines) == Cons(toks + ts, Run(lines, li', line', pos'))
  {
    RunGo(lines, li, line, pos, ts, li', line', pos');
    ConsCons(toks, ts, Run(lines, li', line', pos'));
  }

  /** A turn that stops ends the stream with what it emits. */
  lemma RunStop(lines: seq<string>, li: nat, line: Option<string>, pos: nat)
    requires StateOk(lines, li, line, pos)
    requires StepTok(lines, li, line, pos).Stop?
    ensures Run(lines, li, line, pos) == Ok(StepTok(lines, li, line, pos).ts)
  {
  }

  /** A turn that raises ends the stream with that exception. */
  lemma RunFail(lines: seq<string>, li: nat, line: Option<string>, pos: nat)
    requires StateOk(lines, li, line, pos)
    requires StepTok(lines, li, line, pos).Fail?
    ensures Run(lines, li, line, pos) == Err(StepTok(lines, li, line, pos).err)
  {
  }

  /** `tokread` as the loop it is, collecting the tokens it yields. */
  method Tokread(lines: seq<string>) returns (r: Result<seq<Node>>)
    ensures r == Tokens(lines)
  {
    var toks: seq<Node> := [];
    var line: Option<string> := None;
    var li: nat := 0;
    var pos: nat := 0;
    ConsNil(Tokens(lines));
    while true
      invariant StateOk(lines, li, line, pos)
      invariant Tokens(lines) == Cons(toks, Run(lines, li, line, pos))
      decreases M1(lines, li, line), M2(line, pos)
    {
      var step := Turn(lines, li, line, pos);
      match step {
        case Stop(ts) =>
          RunStop(lines, li, line, pos);
          return Ok(toks + ts);
        case Fail(e) =>
          RunFail(lines, li, line, pos);
          return Err(e);
        case Go(out, li', line', pos') =>
          Advance(lines, li, line, pos, toks, out, li', line', pos');
          StepProgress(lines, li, line, pos);
          toks := toks + out;
          li, line, pos := li', line', pos';
      }
    }
  }

  /** One turn of the loop: read a line when the current one is used up,
      yield NIL at the end of the input, NL for a lone newline, otherwise the
      tokens at `pos`. */
  method Turn(lines: seq<string>, li: nat, line: Option<string>, pos: nat) returns (r: Next)
    requires StateOk(lines, li, line, pos)
    ensures r == StepTok(lines, li, line, pos)
  {
    var l, i, p := line, li, pos;
    if l.None? || l.value == "" || p == |l.value| {
      l := Input(lines, i);
      i := NextLi(lines, i);
      p := 0;
    }
    if l.None? || l.value == "" {
      return Stop([Nil]);
    }
    if l.value == "\n" {
      return Go([Nl], i, None, p);
    }
    r := ReadLine(lines, i, l.value, p);
  }

  /** The body of the loop for a line that has something left at `pos`: the
      text before the next delimiter, then the delimiter or tag, or the rest of
      the line and its newline when no delimiter is left. */
  method ReadLine(lines: seq<string>, li: nat, l: string, pos: nat) returns (r: Next)
    requires li <= |lines| && l != "" && pos < |l|
    ensures r == LineTokens(lines, li, l, pos)
  {
    var out: seq<Node> := [];
    var found := DelimSearch(l, pos);
    if found.None? {
      if l[|l| - 1] == '\n' {
        if pos < |l| - 1 {
          out := [Text(l[pos..|l| - 1])];
        }
        out := out + [Nl];
      } else {
        out := [Text(l[pos..])];
      }
      return Go(out, li, None, pos);
    }
    var (st, en) := found.value;
    if pos < st {
      out := [Text(l[pos..st])];
    }
    var next: Next;
    if l[st] == '<' {
      next := ReadAngle(lines, li, l, st);
    } else {
      next := ReadDelim(lines, li, l, st, en);
    }
    if next.Go? {
      return Go(out + next.ts, next.li, next.line, next.pos);
    }
    return next;
  }

  /** A delimiter other than `<`: an environment marker (doubled when a `:`
      follows, and the blanks after it skipped), or any other delimiter with
      its surrounding whitespace stripped. */
  method ReadDelim(lines: seq<string>, li: nat, l: string, st: nat, en: nat) returns (r: Next)
    requires li <= |lines| && st < en <= |l| && l[st] != '<'
    ensures r == DelimTokens(lines, li, l, st, en)
  {
    var p := en;
    var content := l[st..en];
    if content[0] in EnvChars {
      var cont := p < |l| && l[p] == ':';
      if cont {
        content := content + [content[0]];
        p := p + 1;
      }
      ghost var p0 := p;
      while p < |l| && l[p] in Blanks
        invariant p0 <= p <= |l|
        invariant forall k :: p0 <= k < p ==> l[k] in Blanks
        decreases |l| - p
      {
        p := p + 1;
      }
      SpanInIs(l, p0, p, Blanks);
      return Go([Delim(content, true, cont)], li, Some(l), p);
    }
    var c := Strip(content);
    return Go([Delim(c, c !in InlineDelims, false)], li, Some(l), p);
  }

  /** A `<` at `pos`: an open tag, a close tag, or a lone `<`. */
  method ReadAngle(lines: seq<string>, li: nat, l: string, pos: nat) returns (r: Next)
    requires li <= |lines| && pos < |l| && l[pos] == '<'
    ensures r == AngleTokens(lines, li, l, pos)
  {
    var m := OTagAt(l, pos);
    if m.None? {
      var c := CTagAt(l, pos);
      if c.Some? {
        var (tag, e) := c.value;
        if tag in Tags {
          return Go([CTag(tag)], li, Some(l), e);
        }
        return Go([Text(l[pos..e])], li, Some(l), e);
      }
      return Go([Text(l[pos..pos + 1])], li, Some(l), pos + 1);
    }
    r := ReadOpenTag(lines, li, l, pos, m.value);
  }

  /** An open tag `m` matched at `pos`. */
  method ReadOpenTag(lines: seq<string>, li: nat, l: string, pos: nat, m: OTagMatch) returns (r: Next)
    requires li <= |lines| && pos < m.end <= |l|
    ensures r == OpenTagTokens(lines, li, l, pos, m)
  {
    var tag := m.tag;
    var end := m.end;
    if tag == "nowiki" {
      if !m.closed {
        var raw := ReadNowiki(lines, li, l, end);
        if raw.Err? {
          return Fail(raw.error);
        }
        var (ts, li', l', p') := raw.value;
        return Go(ts, li', Some(l'), p');
      }
      return Go([], li, Some(l), end);
    } else if tag in Tags {
      if end == |l| {
        return Fail(IndexError);
      }
      var isblock := l[end] == '\n';
      var a := ParseTagAttributes(m.args);
      if a.Ok? {
        var ts := [OTag(tag, isblock, a.value)];
        if m.closed {
          ts := ts + [CTag(tag)];
        }
        return Go(ts, li, Some(l), end);
      } else if a.error == TagAttributeSyntaxError {
        return Go([Text(l[pos..end])], li, Some(l), end);
      }
      return Fail(a.error);
    }
    return Go([Text(l[pos..end])], li, Some(l), end);
  }

  /** The nowiki raw loop, reading further lines until `</nowiki>`. */
  method ReadNowiki(lines: seq<string>, li: nat, l: string, pos: nat)
    returns (r: Result<(seq<Node>, nat, string, nat)>)
    requires li <= |lines| && pos <= |l|
    ensures r == Raw(lines, li, Some(l), pos)
  {
    var line := Some(l);
    var i: nat, p: nat := li, pos;
    var out: seq<Node> := [];
    match Raw(lines, li, Some(l), pos) {
      case Ok((ts, _, _, _)) => assert [] + ts == ts;
      case Err(_) =>
    }
    while true
      invariant StateOk(lines, i, line, p)
      invariant Raw(lines, li, Some(l), pos) == RawCons(out, Raw(lines, i, line, p))
      decreases M1(lines, i, line)
    {
      if line.None? {
        return Err(TypeError);
      }
      var m := CTagSearch(line.value, p);
      if m.Some? && m.value.1 == "nowiki" {
        out := out + [Text(line.value[p..m.value.0])];
        return Ok((out, i, line.value, m.value.2));
      }
      RawStep(lines, i, line.value, p, li, l, pos, out);
      out := out + [Text(line.value[p..])];
      line := Input(lines, i);
      i := NextLi(lines, i);
      p := 0;
    }
  }

  lemma RawStep(lines: seq<string>, i: nat, cur: string, p: nat, li: nat, l: string, pos: nat, out: seq<Node>)
    requires i <= |lines| && p <= |cur| && li <= |lines| && pos <= |l|
    requires CTagSearch(cur, p).None? || CTagSearch(cur, p).value.1 != "nowiki"
    requires Raw(lines, li, Some(l), pos) == RawCons(out, Raw(lines, i, Some(cur), p))
    ensures Raw(lines, li, Some(l), pos)
            == RawCons(out + [Text(cur[p..])], Raw(lines, NextLi(lines, i), Input(lines, i), 0))
  {
    match Raw(lines, NextLi(lines, i), Input(lines, i), 0)
    case Ok((ts, _, _, _)) => assert out + ([Text(cur[p..])] + ts) == out + [Text(cur[p..])] + ts;
    case Err(_) =>
  }

  /** A run that is as long as it can be is the one `SpanIn` finds. */
  lemma SpanInIs(l: string, i: nat, j: nat, cs: set<char>)
    requires i <= j <= |l|
    requires forall k :: i <= k < j ==> l[k] in cs
    requires j == |l| || l[j] !in cs
    ensures SpanIn(l, i, cs) == j
  {
  }

  // ---------------------------------------------------------------------
  // Text without markup

  /** A line with no character any delimiter needs. */
  predicate Plain(l: string)
  {
    forall k :: 0 <= k < |l| ==> l[k] !in Markup
  }

  /** Lines as the text-mode input hands them out: each ends in a newline. */
  predicate InputLine(l: string)
  {
    |l| > 0 && l[|l| - 1] == '\n'
  }

  /** The tokens of plain lines: the text of each line before its newline,
      if there is any, then NL. */
  function PlainTokens(lines: seq<string>): seq<Node>
    requires forall i :: 0 <= i < |lines| ==> InputLine(lines[i])
  {
    if lines == [] then []
    else
      var l := lines[0];
      (if |l| > 1 then [Text(l[..|l| - 1])] else []) + [Nl] + PlainTokens(lines[1..])
  }

  /** Nothing in a plain line looks like a delimiter. */
  lemma PlainNotDelim(l: string, st: nat, en: nat)
    requires Plain(l) && st < en <= |l|
    ensures !DelimLike(l, st, en)
  {
    assert l[st] !in Markup;
    var b := SpanIn(l, st, Blanks);
    if b < |l| {
      assert l[b] !in Markup;
    }
  }

  /** No delimiter is found in a plain line. */
  lemma PlainNoDelim(l: string, pos: nat)
    requires Plain(l) && pos <= |l|
    ensures DelimSearch(l, pos).None?
  {
    if DelimSearch(l, pos).Some? {
      PlainNotDelim(l, DelimSearch(l, pos).value.0, DelimSearch(l, pos).value.1);
    }
  }

  /** Lines without markup come through as their text and NL tokens, and
      the stream ends in NIL once they are used up. */
  lemma {:induction false} RunPlain(lines: seq<string>, li: nat)
    requires li <= |lines|
    requires forall i :: 0 <= i < |lines| ==> InputLine(lines[i]) && Plain(lines[i])
    ensures Run(lines, li, None, 0) == Ok(PlainTokens(lines[li..]) + [Nil])
    decreases |lines| - li
  {
    if li == |lines| {
      assert lines[li..] == [];
      assert StepTok(lines, li, None, 0) == Stop([Nil]);
      RunStop(lines, li, None, 0);
      assert PlainTokens(lines[li..]) + [Nil] == [Nil];
    } else {
      var l := lines[li];
      var ts := (if |l| > 1 then [Text(l[..|l| - 1])] else []) + [Nl];
      if l != "\n" {
        PlainNoDelim(l, 0);
        assert l[0..|l| - 1] == l[..|l| - 1];
      }
      assert StepTok(lines, li, None, 0) == Go(ts, li + 1, None, 0);
      RunGo(lines, li, None, 0, ts, li + 1, None, 0);
      RunPlain(lines, li + 1);
      assert lines[li..][1..] == lines[li + 1..];
      assert PlainTokens(lines[li..]) == ts + PlainTokens(lines[li + 1..]);
      assert ts + (PlainTokens(lines[li + 1..]) + [Nil]) == ts + PlainTokens(lines[li + 1..]) + [Nil];
    }
  }

  /** `tokenize` on text without markup. */
  lemma TokensPlain(lines: seq<string>)
    requires forall i :: 0 <= i < |lines| ==> InputLine(lines[i]) && Plain(lines[i])
    ensures Tokens(lines) == Ok(PlainTokens(lines) + [Nil])
  {
    RunPlain(lines, 0);
    assert lines[0..] == lines;
  }
}
