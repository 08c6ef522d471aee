# wikitrans in Dafny

A model of the `wikitrans` package: the wiki-markup parser
(`WikiMarkupParser`) and its three translators to plain text, HTML and
Texinfo.

The pipeline has these stages, and each is one module here:

- **Line source (`Tokenizer`).** The markup arrives as a list of lines,
  modelled as what `input()` returns. After the last line the source gives
  `None`, as with `text=` input (wikimarkup.py:1048-1054).
- **Tokenizer (`Tokenizer.Tokread`).** Turns those lines into a stream of
  tokens that ends in NIL. The delimiter regular expression and the tag
  expressions are hand-coded as character matchers.
- **Attribute parser (`AttrParser`).** Validates the attribute string of an
  open tag (`TagAttributes`).
- **Parser (`Parser.Parser`).** A class that owns the token array. It keeps
  a cursor (`tokind`) and a stack of saved cursor positions (`mark`).
  - It first runs the bold/italic disambiguation pass over the array.
  - It then parses block by block by recursive descent.
  - When a speculative parse fails, it rewrites tokens in place.
- **Parse tree (`WikiToken`).** A closed `Node` datatype with its JSON
  encoding. Unknown constructor keywords raise AttributeError. Each `ref`
  tag gets the next footnote index.
- **Text translator (`TextRender`, `TextNodes`).** Paragraph filling
  (`fmtpara`), `indent`, and the per-node formatters: numbered lists, rule
  lines, headings, links.
- **HTML translator (`HtmlNodes`).** Tag mapping, header clamping, the `envt`
  table, the `term` and `proto` template helpers, and the references list.
- **Texinfo translator (`Texi`, `TexiProps`).**
  - The `Acc` accumulator, a class holding a list of strings.
  - `_print`, `_begin_print` and `_end_print` on the translator class.
  - Constructor validation and the sectioning tables.
  - Per-node emitters, each proved equal to an `Emit` function.
- **Shared helpers (`Site`, `PyStr`).**
  - `Site` holds the settings the translators share: link targets
    (`mktgt`) and namespace lookup.
  - `PyStr` holds the Python string operations the source relies on, with
    Python's own edge cases: `partition`, `strip`, negative list indexing.

Exceptions the source raises are values: `Result`/`Err` for functions, and
`Out.Raise` in the parser. Python's list indexing is modelled with
`PyStr.PyIndex`, including negative wrap-around and IndexError. Nothing
about the cursor range is assumed.

Where the source's code and its documentation disagree, the model follows
the code:

- `sectioning_start` moves headings in the opposite direction from what its
  docstring says (env/Lib/site-packages/wikitrans/wiki2texi.py:352-356
  against line 175).
- The Texinfo `heading` table is missing a comma, so it has 4 entries, not 5
  (wiki2texi.py:313-314; `TexiProps.HeadingTableShort`).
- Unmatched bold/italic runs become TEXT holding the node's JSON dump, not
  its spelling (wikimarkup.py:384-387; `WikiToken.DelimDumpNotSpelling`).
- The disambiguation case-3 guard `i < len(self.toklist)`
  (wikimarkup.py:369) is always true. So `toklist[i+1]` raises IndexError
  when the quote run is the last token, and the model returns
  `Err(IndexError)`.
- `parse_header` has no exit on NIL (wikimarkup.py:856-886). A header line
  with no closing delimiter and no newline after it makes it loop forever
  (`Parser.Parser.ParseHeader`). Only file input gives such a line, as a last
  line without `\n`. With `text=` input, `input()` appends `\n` to every
  line (wikimarkup.py:1051), so NL follows the title and `parse_header`
  returns None.
- In `TagAttributes` (wikimarkup.py:85-93):
  - the value pattern `[^\"]+` also consumes backslashes, so the
    backslash branch (`s += 2`, itself a TypeError) is never reached;
  - an unterminated value raises IndexError at `s[0]`;
  - an empty value raises AttributeError on a `None` match.
- `parse_ref` calls `list.append` on an open tag, which raises TypeError
  (wikimarkup.py:662).
- In the Texinfo translator, a tag with arguments other than the known ones
  raises TypeError (`' ' + self.args`, wiki2texi.py:127).
- The text translator's `code` tag reads a `nested` attribute that the text
  translator does not have, so it raises AttributeError.
- A `<nowiki>` left open at the end of `text=` input raises TypeError: the
  next `input()` returns `None` (wikimarkup.py:1052-1054), and
  `ctag.search(None)` fails on it. With file input, `readline()` returns ""
  from then on, and the raw loop (wikimarkup.py:239-254) never ends.
- `Acc.clear` rebinds a local name and so leaves the accumulator unchanged.
- `Acc.tail` never moves past an empty element. Every accumulator the
  translator builds holds single characters (`Acc.Valid`), so the model
  requires that.

## Model

| member | source | states |
|---|---|---|
| Tokenizer.Tokread | env/Lib/site-packages/wikitrans/wikimarkup.py:202-318 | the token loop returns exactly `Tokens(lines)`, the line-by-line token stream of the input, including its errors |
| Tokenizer.Turn | env/Lib/site-packages/wikitrans/wikimarkup.py:206-318 | one turn of the loop (fetch a line, NIL at end of input, NL for an empty line, else scan) equals the specification step `StepTok` |
| Tokenizer.ReadLine | env/Lib/site-packages/wikitrans/wikimarkup.py:223-318 | scanning the rest of a line (text before a delimiter, then the delimiter or tag, or the trailing text and NL) equals `LineTokens` |
| Tokenizer.ReadDelim | env/Lib/site-packages/wikitrans/wikimarkup.py:288-308 | a list/indent delimiter is a block DELIM with continuation handling and skipped blanks; any other delimiter is stripped and flagged block unless inline |
| Tokenizer.ReadAngle | env/Lib/site-packages/wikitrans/wikimarkup.py:232-286 | `<` starts an open tag, a close tag (CTAG only for known tags, TEXT otherwise), or a one-character TEXT |
| Tokenizer.ReadOpenTag | env/Lib/site-packages/wikitrans/wikimarkup.py:237-271 | `nowiki` reads raw text; a known tag gives OTAG (plus CTAG when self-closed) or TEXT when its attributes fail to parse; an unknown tag gives TEXT |
| Tokenizer.ReadNowiki | env/Lib/site-packages/wikitrans/wikimarkup.py:238-254 | the raw-text loop of `<nowiki>` equals `Raw`: TEXT up to the closing tag, across lines |
| Tokenizer.Raw | env/Lib/site-packages/wikitrans/wikimarkup.py:238-254 | the raw read makes progress, yields well-formed tokens, and raises only TypeError (input exhausted inside `<nowiki>`) |
| Tokenizer.TokensStream | env/Lib/site-packages/wikitrans/wikimarkup.py:202-318 | every successful token stream ends in exactly one NIL and its tokens are well formed; failures are only the errors the source can raise |
| Tokenizer.TokensPlain | env/Lib/site-packages/wikitrans/wikimarkup.py:214-317 | markup-free newline-terminated lines give each line's text (only when non-empty) followed by one NL, then NIL |
| Tokenizer.RunStream | env/Lib/site-packages/wikitrans/wikimarkup.py:206-318 | from any reachable scanner state, the remaining stream is well formed and NIL-terminated |
| Tokenizer.DelimSearchFound | env/Lib/site-packages/wikitrans/wikimarkup.py:159-159 | the delimiter search returns a position where one of the regex's alternatives matches, with that match |
| Tokenizer.DelimSearchFirst | env/Lib/site-packages/wikitrans/wikimarkup.py:159-159 | no alternative matches before the position the search returns (leftmost match) |
| Tokenizer.OTagAt | env/Lib/site-packages/wikitrans/wikimarkup.py:160-160 | an open-tag match lies within the line, starts with `<` and ends with `>`, has a non-empty name of tag characters, and has no arguments when self-closed |
| Tokenizer.CTagSearch | env/Lib/site-packages/wikitrans/wikimarkup.py:161-161 | the close-tag search returns the first position where `</name>` matches, and none matches before it |
| AttrParser.ParseTagAttributes | env/Lib/site-packages/wikitrans/wikimarkup.py:71-101 | the parsing loop returns exactly `Attributes(arg)`: the table and printable form, or the error the source raises |
| AttrParser.AttributesUnparse | env/Lib/site-packages/wikitrans/wikimarkup.py:71-101 | a non-empty list of bare names and `name="value"` pairs, written out, parses back to the same table, with the written string as printable form |
| AttrParser.AttributesSyntaxError | env/Lib/site-packages/wikitrans/wikimarkup.py:79-84 | a string that does not start with a name character after stripping raises TagAttributeSyntaxError |
| AttrParser.AttributesEmptyValue | env/Lib/site-packages/wikitrans/wikimarkup.py:85-88 | `name=""` raises AttributeError (the value match is `None`) |
| AttrParser.AttributesUnterminated | env/Lib/site-packages/wikitrans/wikimarkup.py:85-93 | `name="v` with no closing quote raises IndexError |
| WikiToken.Encode | env/Lib/site-packages/wikitrans/wikitoken.py:54-61 | every encoding is an object with `wikinode` set to the class name and `type` set to the node type |
| WikiToken.EncodeKeys | env/Lib/site-packages/wikitrans/wikitoken.py:136-335 | each node's encoding has exactly the declared key set of its class |
| WikiToken.EncodeLevelled | env/Lib/site-packages/wikitrans/wikitoken.py:256-335 | HDR and IND encode exactly level and content; ELT encodes subtype and content; ENV encodes envtype, level and one entry per item |
| WikiToken.DecodeEncode | env/Lib/site-packages/wikitrans/wikitoken.py:64-335 | decoding the JSON encoding of any node gives back the node up to what the encoding drops (`Known`): a DELIM's `isblock`/`continuation` flags and a tag's attribute string, which `json_encode` does not write |
| WikiToken.DecodeEncodeList | env/Lib/site-packages/wikitrans/wikitoken.py:148-159 | a list of nodes encodes element-wise in order and decodes back to the same list up to what the encoding drops (`Known` of each node) |
| WikiToken.KindOfTypeName | env/Lib/site-packages/wikitrans/wikitoken.py:164-335 | the `type` string of each node determines its node kind |
| WikiToken.CheckKeywords | env/Lib/site-packages/wikitrans/wikitoken.py:76-82 | no error iff every keyword is a declared attribute; otherwise the first undeclared keyword is reported (AttributeError) |
| WikiToken.DelimDumpNotSpelling | env/Lib/site-packages/wikitrans/wikimarkup.py:384-387 | an unmatched `''` or `'''` becomes TEXT holding its JSON dump, which differs from its spelling and contains it at a fixed offset |
| Parser.Swap | env/Lib/site-packages/wikitrans/wikimarkup.py:327-333 | slots i and j are exchanged and every other slot is unchanged |
| Parser.Parser.SwapTkn | env/Lib/site-packages/wikitrans/wikimarkup.py:327-333 | the token array becomes `Swap` of the old array |
| Parser.Unmatched | env/Lib/site-packages/wikitrans/wikimarkup.py:384-387 | the length is kept; every stacked slot becomes TEXT of its JSON dump; every other slot is unchanged |
| Parser.MatchingPermutes | env/Lib/site-packages/wikitrans/wikimarkup.py:355-382 | the matching loop keeps the array length and multiset of tokens, and leaves a stack of increasing indices of quote delimiters |
| Parser.Parser.MatchQuotes | env/Lib/site-packages/wikitrans/wikimarkup.py:355-382 | the in-place matching loop equals the specification `Matching`, both the new array and the leftover stack, or the same error |
| Parser.Parser.MatchTurn | env/Lib/site-packages/wikitrans/wikimarkup.py:356-382 | one iteration (cases 1 to 3 on the stack, push otherwise) equals `MatchStep` |
| Parser.Parser.RewriteUnmatched | env/Lib/site-packages/wikitrans/wikimarkup.py:384-387 | the final loop makes the array `Unmatched` of the old one |
| Parser.Parser.Disambiguate | env/Lib/site-packages/wikitrans/wikimarkup.py:334-388 | the pass succeeds iff `Disambiguated` does, and then leaves that array; otherwise it raises the same error |
| Parser.Parser.At | env/Lib/site-packages/wikitrans/wikimarkup.py:403-408 | Python indexing of the token list: defined exactly for `-len <= i < len`, and slot i for non-negative i |
| Parser.Parser.PushMark | env/Lib/site-packages/wikitrans/wikimarkup.py:391-394 | the cursor is pushed on the mark stack; nothing else changes |
| Parser.Parser.PopMark | env/Lib/site-packages/wikitrans/wikimarkup.py:395-398 | the cursor is restored to the saved mark, which is popped; an empty stack raises IndexError |
| Parser.Parser.ClearMark | env/Lib/site-packages/wikitrans/wikimarkup.py:399-402 | the top mark is dropped and the cursor kept; an empty stack raises IndexError |
| Parser.Parser.Lookahead | env/Lib/site-packages/wikitrans/wikimarkup.py:403-408 | the token at offset `off` from the cursor, or IndexError outside the list |
| Parser.Parser.GetKn | env/Lib/site-packages/wikitrans/wikimarkup.py:413-422 | returns `toklist[tokind]` and advances by one, or a fresh NIL without advancing at the end; `newline` records whether the previous token was NL |
| Parser.Parser.UngetKn | env/Lib/site-packages/wikitrans/wikimarkup.py:423-436 | moves the cursor back one, optionally replacing that slot, and returns the token now under the cursor |
| Parser.Parser.FixupTkn | env/Lib/site-packages/wikitrans/wikimarkup.py:437-443 | at index 0 raises IndexError; otherwise replaces slot `tokind-1` and nothing else |
| Parser.Parser.IsBlockEnd | env/Lib/site-packages/wikitrans/wikimarkup.py:450-465 | true iff NIL, a block-flagged DELIM or TAG (pushed back; CTAG is never block-flagged), or NL followed by NIL or NL (the second NL consumed) |
| Parser.Parser.NewTag | env/Lib/site-packages/wikitrans/wikitoken.py:216-222 | a `ref` tag gets `idx` equal to the number of earlier references and is appended; other tags get no index |
| Parser.ScanStop | env/Lib/site-packages/wikitrans/wikimarkup.py:747-759 | the recovery scan stops at the first NIL or same-kind closer after the opener |
| Parser.CloserScanRewrites | env/Lib/site-packages/wikitrans/wikimarkup.py:747-759 | the recovery scan rewrites only the first closer to TEXT, and only when no same-kind opener comes before it; otherwise nothing changes |
| Parser.Parser.RecoverCloser | env/Lib/site-packages/wikitrans/wikimarkup.py:747-759 | the scan loop leaves the array as `CloserScan` from the slot after the cursor |
| Parser.Parser.InlineFallback | env/Lib/site-packages/wikitrans/wikimarkup.py:740-762 | a failed inline delimiter restores the cursor, rewrites the opener to TEXT, and rewrites the first following closer as `CloserScanRewrites` states |
| Parser.Parser.ParseInlineDelim | env/Lib/site-packages/wikitrans/wikimarkup.py:719-763 | the result is the construct for the delimiter or TEXT of its spelling; on TEXT the cursor is restored, the opener rewritten and the first closer rewritten iff no opener precedes it |
| Parser.Parser.ParseFontmod | env/Lib/site-packages/wikitrans/wikimarkup.py:586-629 | a success is BOLD for `'''` and IT for `''`; the mark stack is balanced |
| Parser.Parser.ParseRef | env/Lib/site-packages/wikitrans/wikimarkup.py:630-670 | a success is a REF whose body is a sequence; an open tag inside raises TypeError |
| Parser.Parser.ParseLink | env/Lib/site-packages/wikitrans/wikimarkup.py:671-718 | a success is TMPL for `{{` and LINK for `[[` |
| Parser.Parser.ParseTag | env/Lib/site-packages/wikitrans/wikimarkup.py:765-807 | a TAG with the open tag's name, attributes and block flag and a sequence body, or TEXT of `<name args>` with the cursor restored |
| Parser.Parser.ParseBlockDelim | env/Lib/site-packages/wikitrans/wikimarkup.py:516-540 | `----` gives BAR; any other success is a header, indent or environment |
| Parser.Parser.ParseLine | env/Lib/site-packages/wikitrans/wikimarkup.py:541-577 | a line parses to a sequence node |
| Parser.Parser.ParseIndent | env/Lib/site-packages/wikitrans/wikimarkup.py:578-585 | IND with level equal to the delimiter length and a sequence body |
| Parser.Parser.ParseEnv | env/Lib/site-packages/wikitrans/wikimarkup.py:808-849 | ENV with the type of the delimiter's first character and level equal to its length, all of whose items are ELT with sequence bodies |
| Parser.Parser.HeaderEnd | env/Lib/site-packages/wikitrans/wikimarkup.py:866-878 | an identical delimiter closes the header only when NL follows; otherwise the cursor is restored |
| Parser.Parser.HeaderToken | env/Lib/site-packages/wikitrans/wikimarkup.py:856-886 | one token of the header loop: NIL is skipped with nothing changed, TEXT is collected, NL or a block token rejects and restores the cursor |
| Parser.Parser.HeaderNext | env/Lib/site-packages/wikitrans/wikimarkup.py:856-886 | fetches and classifies the next header token; when only TEXT and NIL lie ahead, it neither closes nor rejects and leaves the array unchanged |
| Parser.Parser.ParseHeader | env/Lib/site-packages/wikitrans/wikimarkup.py:850-892 | a header has level `len(delim)` and is closed by the identical delimiter followed by NL; a rejection restores the cursor; with only TEXT and NIL ahead (a last file line `== Title` with no newline) it never ends |
| Parser.Parser.ParsePara | env/Lib/site-packages/wikitrans/wikimarkup.py:466-515 | a non-empty PARA, or PRE exactly when the first text starts with a blank |
| Parser.Parser.ParseBlock | env/Lib/site-packages/wikitrans/wikimarkup.py:894-911 | every block it returns is a block node |
| Parser.Parser.Parse | env/Lib/site-packages/wikitrans/wikimarkup.py:912-933 | on success the tree holds only block nodes |
| Parser.ParseLines | env/Lib/site-packages/wikitrans/wikimarkup.py:1022-1043 | the markup object tokenizes, disambiguates and parses; tokenizer errors and disambiguation errors propagate, and a parsed tree holds only blocks |
| TextRender.Fmtpara | env/Lib/site-packages/wikitrans/wiki2text.py:325-346 | the filling loop returns exactly `FmtPara(input, width)` |
| TextRender.FmtParaWords | env/Lib/site-packages/wikitrans/wiki2text.py:325-346 | splitting the output on whitespace gives `input.split()` |
| TextRender.FillFits | env/Lib/site-packages/wikitrans/wiki2text.py:331-344 | every line fits the width (two spaces after a word ending in `.`, one otherwise) unless it is a single word longer than the width |
| TextRender.FillKeepsWords | env/Lib/site-packages/wikitrans/wiki2text.py:331-344 | the filled lines, concatenated, are the input words in order |
| TextRender.Indent | env/Lib/site-packages/wikitrans/wiki2text.py:313-324 | the loop returns exactly `IndentText(lev, text)` |
| TextRender.IndentShape | env/Lib/site-packages/wikitrans/wiki2text.py:313-324 | single-line text gets exactly `lev` leading spaces; multi-line text keeps its non-empty lines, each prefixed, with a trailing newline only if the input had one |
| TextRender.IndentLines | env/Lib/site-packages/wikitrans/wiki2text.py:316-323 | the multi-line case of `IndentShape` |
| TextNodes.Render | env/Lib/site-packages/wikitrans/wiki2text.py:347-353 | the tree renders to the concatenation `CatText` of its formatted nodes |
| TextNodes.CatAppend | env/Lib/site-packages/wikitrans/wiki2text.py:347-352 | `__str__` (and the TextPreNode/TextParaNode loops at wiki2text.py:65-78) appends each node's rendering in turn: rendering two node lists in turn gives the concatenation of their renderings |
| TextNodes.FormatEnv | env/Lib/site-packages/wikitrans/wiki2text.py:181-207 | the environment loop equals `EnvBody`, with the level clamped to 1 past `width-4` |
| TextNodes.FormatItem | env/Lib/site-packages/wikitrans/wiki2text.py:186-205 | item n renders as `ItemPiece` with the item number n |
| TextNodes.EnvNext | env/Lib/site-packages/wikitrans/wiki2text.py:186-205 | one more item extends `EnvBody` by one piece |
| TextNodes.EnvShape | env/Lib/site-packages/wikitrans/wiki2text.py:181-207 | an environment renders empty iff it has no items, and otherwise starts and ends with a newline |
| TextNodes.NumberedItem | env/Lib/site-packages/wikitrans/wiki2text.py:181-207 | the k-th item of a numbered list appears as its own line `k+1. text`, indented by the level |
| TextNodes.RuleShape | env/Lib/site-packages/wikitrans/wiki2text.py:155-162 | the width is clamped to at least 5, and the rule is `\n`, `w-5` dashes centred in `w-1` columns, `\n` |
| TextNodes.HeaderShape | env/Lib/site-packages/wikitrans/wiki2text.py:163-171 | a header renders as `HeadingLine` of its formatted title |
| TextNodes.HeadingShape | env/Lib/site-packages/wikitrans/wiki2text.py:163-171 | `HeadingLine` is `\n`, `level` asterisks, a space, the left-stripped title, `\n\n` |
| TextNodes.HeaderMissing | env/Lib/site-packages/wikitrans/wiki2text.py:163-171 | a title that formats to `None` raises AttributeError |
| TextNodes.BoldUpper | env/Lib/site-packages/wikitrans/wiki2text.py:93-104 | bold output has no lower-case letter |
| TextNodes.ItalicShape | env/Lib/site-packages/wikitrans/wiki2text.py:83-92 | italic output is `_`, the left-stripped text, `_` |
| TextNodes.LinkSentinel | env/Lib/site-packages/wikitrans/wiki2text.py:105-119 | a link whose first part is `disambigR` or `wikiquote`, or whose second is `thumb`, renders as empty (a template as `[]`) |
| TextNodes.LinkShowsTarget | env/Lib/site-packages/wikitrans/wiki2text.py:143-144 | with URLs shown, a link renders empty or ends in `) ` |
| TextNodes.Shown | env/Lib/site-packages/wikitrans/wiki2text.py:143-148 | with URLs shown, `text (see target) `; otherwise the text when truthy, else the argument |
| TextNodes.LinkTarget | env/Lib/site-packages/wikitrans/wiki2text.py:106-148 | with URLs shown, a successful link text is empty or ends in `) ` |
| TextNodes.ReferencesListed | env/Lib/site-packages/wikitrans/wiki2text.py:213-232 | the references tag starts with `\nReferences:\n` and lists every recorded reference |
| HtmlNodes.Escape | env/Lib/site-packages/wikitrans/wiki2html.py:119-127 | escaped text has no `<` or `>`, and text without `&`, `<`, `>` is unchanged |
| HtmlNodes.EscapeRoundTrip | env/Lib/site-packages/wikitrans/wiki2html.py:119-127 | unescaping the escaped text gives back the text |
| HtmlNodes.ItemTag | env/Lib/site-packages/wikitrans/wiki2html.py:266-271 | unnumbered and numbered items are `li`; definition subtype 0 is `dt` and 1 is `dd` (Python indexing, so -2 and -1 too); other subtypes are outside the table |
| HtmlNodes.FormatEnv | env/Lib/site-packages/wikitrans/wiki2html.py:141-158 | the environment loop equals `EnvHtml` |
| HtmlNodes.EnvMapping | env/Lib/site-packages/wikitrans/wiki2html.py:141-158 | environments map to ul/ol/dl, and each item appears wrapped in li, dt or dd |
| HtmlNodes.EnvIndexError | env/Lib/site-packages/wikitrans/wiki2html.py:149-152 | an item subtype outside the table raises IndexError |
| HtmlNodes.HeaderClamp | env/Lib/site-packages/wikitrans/wiki2html.py:128-135 | a header renders as `<hN>…</hN>` with N = min(level, 6) |
| HtmlNodes.FontWrap | env/Lib/site-packages/wikitrans/wiki2html.py:108-118 | IT wraps its content in `<i>…</i>` and BOLD in `<b>…</b>` |
| HtmlNodes.IndentBalanced | env/Lib/site-packages/wikitrans/wiki2html.py:208-211 | an indent emits `level` copies of `<dl><dd>` and of `</dd></dl>` around its content |
| HtmlNodes.PreNested | env/Lib/site-packages/wikitrans/wiki2html.py:199-206 | preformatted content is wrapped in `<pre>` only when `nested` is 0 |
| HtmlNodes.CodePre | env/Lib/site-packages/wikitrans/wiki2html.py:161-165 | `code` around preformatted content gives `<pre><code>…</code></pre>` and renders the content with `nested` one higher |
| HtmlNodes.HtmlTranslator.FormatCode | env/Lib/site-packages/wikitrans/wiki2html.py:161-165 | `code` raises `nested` while rendering and restores it afterwards, unless rendering raises |
| HtmlNodes.AnchorTag | env/Lib/site-packages/wikitrans/wiki2html.py:94-95 | `<a href="tgt">` followed by the text when truthy, else the fallback, then `</a>` |
| HtmlNodes.Anchor | env/Lib/site-packages/wikitrans/wiki2html.py:55-97 | a link renders as empty or as an anchor element |
| HtmlNodes.LinkSentinel | env/Lib/site-packages/wikitrans/wiki2html.py:59-64 | sentinel links and templates render as the empty string |
| HtmlNodes.LinkImage | env/Lib/site-packages/wikitrans/wiki2html.py:76-80 | a target in the image namespace renders as the empty string |
| HtmlNodes.LinkFallback | env/Lib/site-packages/wikitrans/wiki2html.py:90-95 | a link without a qualifier or text links to `mktgt(arg)` and shows the argument |
| HtmlNodes.TmplSign | env/Lib/site-packages/wikitrans/wiki2html.py:65-69 | a `t+`/`t-` template shows its third part, or the template span when it has only two |
| HtmlNodes.WordRun | env/Lib/site-packages/wikitrans/wiki2html.py:284-284 | the longest prefix of word characters |
| HtmlNodes.KeyOf | env/Lib/site-packages/wikitrans/wiki2html.py:284-287 | a key is a non-empty prefix followed by `=` |
| HtmlNodes.TmplTerm | env/Lib/site-packages/wikitrans/wiki2html.py:278-294 | the loop returns exactly `TermSpec(s)` |
| HtmlNodes.TermSingle | env/Lib/site-packages/wikitrans/wiki2html.py:279-280 | with two parts, the second part |
| HtmlNodes.TermWithTrans | env/Lib/site-packages/wikitrans/wiki2html.py:281-293 | the first argument without `key=`, plus a trans span holding the last `tr=` value |
| HtmlNodes.TermWithoutTrans | env/Lib/site-packages/wikitrans/wiki2html.py:281-293 | without a `tr=` argument, just the first argument without `key=` |
| HtmlNodes.TmplProto | env/Lib/site-packages/wikitrans/wiki2html.py:295-306 | the loop returns exactly `ProtoSpec(s)` |
| HtmlNodes.ProtoEveryForm | env/Lib/site-packages/wikitrans/wiki2html.py:295-306 | the output starts with the proto header and lists every form, each with the gloss |
| HtmlNodes.Citation | env/Lib/site-packages/wikitrans/wiki2html.py:166-168 | a `ref` tag renders as a citation numbered `idx+1`; without an index it raises TypeError |
| HtmlNodes.FormatReferences | env/Lib/site-packages/wikitrans/wiki2html.py:169-183 | the references loop equals `RefsHtml` |
| HtmlNodes.ReferenceEntry | env/Lib/site-packages/wikitrans/wiki2html.py:174-182 | one more reference extends the list by its entry, or raises its error |
| HtmlNodes.RefsListed | env/Lib/site-packages/wikitrans/wiki2html.py:169-183 | the list is framed by its open and close tags, and reference k appears as item `k+1` |
| HtmlNodes.ReferencesTag | env/Lib/site-packages/wikitrans/wiki2html.py:169-183 | the references tag renders the recorded references (RecursionError when the depth is exhausted) |
| HtmlNodes.ReferencePercent | env/Lib/site-packages/wikitrans/wiki2html.py:175-182 | a reference whose text ends in `%` raises TypeError in the `%` formatting |
| HtmlNodes.PercentBeforeTag | env/Lib/site-packages/wikitrans/wiki2html.py:175-182 | `%` followed by `<` in the formatted entry is read as a directive that fetches an argument the `%` operator does not have, so it raises TypeError (not enough arguments for format string) |
| HtmlNodes.HtmlTranslator.Render | env/Lib/site-packages/wikitrans/wiki2html.py:307-313 | the tree renders to the concatenation `CatHtml` of its formatted nodes |
| Site.SubstLang | env/Lib/site-packages/wikitrans/wiki2html.py:276-276 | a base without `%` is unchanged |
| Site.SubstOne | env/Lib/site-packages/wikitrans/wiki2html.py:276-276 | one `%(lang)s` in an otherwise plain base is replaced by the language |
| Site.Mktgt | env/Lib/site-packages/wikitrans/wiki2html.py:273-277 | the target ends with the quoted page name |
| Site.DefaultTarget | env/Lib/site-packages/wikitrans/wikimarkup.py:963-963 | with the default base, `http://<lang>.wikipedia.org/wiki/<quoted>`, falling back to the site language |
| Site.NsName | env/Lib/site-packages/wikitrans/wiki2html.py:257-265 | a qualifier in the names table gives its namespace, and no namespace iff it is in neither table |
| PyStr.Upper | env/Lib/site-packages/wikitrans/wiki2text.py:102-102 | the same length, each character upper-cased |
| PyStr.Partition | env/Lib/site-packages/wikitrans/wiki2text.py:120-120 | the three parts concatenate to the input; the head has no separator; a missing separator gives `(s, "", "")` |
| PyStr.Find | env/Lib/site-packages/wikitrans/wiki2text.py:314-314 | the first occurrence of the character, or none when it does not occur |
| PyStr.PyIndex | env/Lib/site-packages/wikitrans/wikimarkup.py:403-408 | a Python list index is valid iff `-n <= i < n`, and a negative one counts from the end |
| PyStr.Strip | env/Lib/site-packages/wikitrans/wikimarkup.py:79-79 | the result has no blank at either end |
| PyStr.StripSlice | env/Lib/site-packages/wikitrans/wikimarkup.py:79-79 | `s.strip()` is the slice of `s` that starts after its leading blanks (where `lstrip` stops), with only blanks after it |
| PyStr.LStrip | env/Lib/site-packages/wikitrans/wiki2text.py:90-90 | the result is a suffix without leading blank, and everything dropped was blank |
| Texi.Acc.Prepend | env/Lib/site-packages/wikitrans/wiki2texi.py:35-36 | the element is inserted at the front |
| Texi.Acc.IsEmpty | env/Lib/site-packages/wikitrans/wiki2texi.py:38-39 | true iff the accumulated text is empty |
| Texi.Acc.Clear | env/Lib/site-packages/wikitrans/wiki2texi.py:41-42 | the accumulator is unchanged |
| Texi.Acc.Extend | env/Lib/site-packages/wikitrans/wiki2texi.py:394-399 | `acc += text` appends the characters of the text |
| Texi.Acc.Tail | env/Lib/site-packages/wikitrans/wiki2texi.py:44-57 | the last min(n, total) characters of the joined text |
| Texi.Acc.Trim | env/Lib/site-packages/wikitrans/wiki2texi.py:59-68 | exactly the last n characters are removed |
| Texi.Acc.EndsWith | env/Lib/site-packages/wikitrans/wiki2texi.py:78-79 | true iff the text ends with x |
| Texi.Acc.TrimNl | env/Lib/site-packages/wikitrans/wiki2texi.py:70-72 | a trailing newline is removed only when present |
| Texi.Acc.TrimPara | env/Lib/site-packages/wikitrans/wiki2texi.py:74-76 | a trailing `\n\n` is removed only when present |
| Texi.Acc.InNewPara | env/Lib/site-packages/wikitrans/wiki2texi.py:81-82 | true iff the text is empty or ends with `\n\n` |
| Texi.TailSuffix | env/Lib/site-packages/wikitrans/wiki2texi.py:78-79 | `tail(len(x)) == x` iff the text ends with x |
| Texi.TrimTail | env/Lib/site-packages/wikitrans/wiki2texi.py:44-68 | the trimmed text followed by the tail gives back the text |
| Texi.EscapeRoundTrip | env/Lib/site-packages/wikitrans/wiki2texi.py:397-397 | unescaping the `@`-escaped text gives back the text |
| Texi.PrintAppends | env/Lib/site-packages/wikitrans/wiki2texi.py:390-400 | printing only appends, and appends the text, escaped when escaping is on |
| Texi.PrintNewline | env/Lib/site-packages/wikitrans/wiki2texi.py:393-394 | `nl` adds a newline only if the accumulator does not already end with one |
| Texi.TexiTranslator.Print | env/Lib/site-packages/wikitrans/wiki2texi.py:390-400 | the accumulator's text becomes `Printed` of the old text |
| Texi.TexiTranslator.BeginPrint | env/Lib/site-packages/wikitrans/wiki2texi.py:401-405 | returns the old accumulator and installs a fresh empty one |
| Texi.TexiTranslator.EndPrint | env/Lib/site-packages/wikitrans/wiki2texi.py:406-410 | the accumulator becomes `val`, and the old text is returned (`None` when there was none) |
| Texi.Configure | env/Lib/site-packages/wikitrans/wiki2texi.py:374-385 | ValueError iff the model is not a table name or the start is outside 0..4; otherwise the chosen table (default `numbered`) and start (default 0) |
| Texi.TexiTranslator.Create | env/Lib/site-packages/wikitrans/wiki2texi.py:324-385 | the constructor raises what `Configure` raises, or makes a translator with that configuration |
| Texi.SectionCommand | env/Lib/site-packages/wikitrans/wiki2texi.py:170-182 | `@*` past the table, otherwise `table[level-start]` with Python's negative indexing, and IndexError below it |
| TexiProps.StartMovesUp | env/Lib/site-packages/wikitrans/wiki2texi.py:170-182 | raising `sectioning_start` by one gives a level the command of the level below it |
| TexiProps.NumberedStartOne | env/Lib/site-packages/wikitrans/wiki2texi.py:352-356 | with the numbered table, level 2 is `@section` at start 0 and `@chapter` at start 1 |
| TexiProps.HeadingTableShort | env/Lib/site-packages/wikitrans/wiki2texi.py:313-314 | the heading table has 4 entries, its first being the two commands run together |
| Texi.TexiTranslator.Format | env/Lib/site-packages/wikitrans/wiki2texi.py:88-274 | formatting a node leaves the accumulator text `Emit(n, old text)`, or raises the error `Emit` gives |
| Texi.TexiTranslator.FormatSimple | env/Lib/site-packages/wikitrans/wiki2texi.py:88-96 | text, bar and the other leaf nodes equal `Emit` |
| Texi.TexiTranslator.FormatContainer | env/Lib/site-packages/wikitrans/wiki2texi.py:133-261 | paragraphs, preformatted text, fonts, environments and links equal `Emit` |
| Texi.TexiTranslator.FormatWrapper | env/Lib/site-packages/wikitrans/wiki2texi.py:98-274 | tags, headers, indents and references equal `Emit` |
| Texi.TexiTranslator.FormatAll | env/Lib/site-packages/wikitrans/wiki2texi.py:137-141 | formatting a list equals `EmitAll`, node after node |
| Texi.TexiTranslator.FormatPara | env/Lib/site-packages/wikitrans/wiki2texi.py:133-142 | equals `ParaEmit` |
| Texi.TexiTranslator.FormatPre | env/Lib/site-packages/wikitrans/wiki2texi.py:144-153 | equals `PreEmit` |
| Texi.TexiTranslator.FormatFont | env/Lib/site-packages/wikitrans/wiki2texi.py:155-164 | equals `FontEmit` |
| Texi.TexiTranslator.FormatHdr | env/Lib/site-packages/wikitrans/wiki2texi.py:166-182 | equals `HdrEmit` |
| Texi.TexiTranslator.FormatNode | env/Lib/site-packages/wikitrans/wiki2texi.py:166-182 | equals `NodeEmit` |
| Texi.TexiTranslator.FormatInd | env/Lib/site-packages/wikitrans/wiki2texi.py:190-195 | equals `IndEmit` |
| Texi.TexiTranslator.FormatItem | env/Lib/site-packages/wikitrans/wiki2texi.py:198-229 | equals `ItemEmit` |
| Texi.TexiTranslator.FormatEnv | env/Lib/site-packages/wikitrans/wiki2texi.py:198-229 | equals `EnvEmit` |
| Texi.TexiTranslator.FormatLink | env/Lib/site-packages/wikitrans/wiki2texi.py:231-261 | equals `LinkEmit` |
| Texi.TexiTranslator.FormatRef | env/Lib/site-packages/wikitrans/wiki2texi.py:263-274 | equals `RefEmit` |
| Texi.TexiTranslator.FormatTag | env/Lib/site-packages/wikitrans/wiki2texi.py:98-131 | equals `TagEmit` |
| Texi.TexiTranslator.FormatCode | env/Lib/site-packages/wikitrans/wiki2texi.py:100-112 | equals `CodeEmit` |
| Texi.TexiTranslator.FormatFootnote | env/Lib/site-packages/wikitrans/wiki2texi.py:118-121 | equals `FootnoteEmit` |
| Texi.TexiTranslator.FormatOtherTag | env/Lib/site-packages/wikitrans/wiki2texi.py:124-131 | equals `OtherTagEmit` |
| Texi.TexiTranslator.Render | env/Lib/site-packages/wikitrans/wiki2texi.py:411-416 | the result is `Rendered`: every node formatted into a fresh accumulator, then `trimpara`; the accumulator is left as `None` |
| TexiProps.EmitKeeps | env/Lib/site-packages/wikitrans/wiki2texi.py:88-274 | formatting any node only appends to the accumulated text |
| TexiProps.ParaBreaks | env/Lib/site-packages/wikitrans/wiki2texi.py:133-142 | a paragraph starts on a paragraph break and ends in a new paragraph |
| TexiProps.PreExample | env/Lib/site-packages/wikitrans/wiki2texi.py:144-153 | at `nested` 0, preformatted text is framed by `@example` and `@end example`; nested, it is just its content |
| TexiProps.FontBraces | env/Lib/site-packages/wikitrans/wiki2texi.py:155-164 | font content is wrapped in `@i{…}` or `@b{…}` |
| TexiProps.HdrCommand | env/Lib/site-packages/wikitrans/wiki2texi.py:166-182 | a header starts with its section command, and an out-of-table level raises IndexError |
| TexiProps.NodeTitle | env/Lib/site-packages/wikitrans/wiki2texi.py:166-182 | the node line ends in a newline and starts with `@node` when the table starts with `@top` |
| TexiProps.IndIndent | env/Lib/site-packages/wikitrans/wiki2texi.py:190-195 | an indent starts with `level` copies of `@w{ }` and ends with a newline |
| TexiProps.ItemLines | env/Lib/site-packages/wikitrans/wiki2texi.py:198-229 | a list item or a definition term starts with `@item`, and a definition (subtype ≠ 0) prints none; a list item and a definition end with a blank line, a term with one newline; a non-ELT item, which `parse_env` never builds (wikimarkup.py:826), is modelled as AttributeError |
| TexiProps.EnvFramed | env/Lib/site-packages/wikitrans/wiki2texi.py:198-229 | an environment is framed by its opening and `@end` commands |
| TexiProps.LinkRefs | env/Lib/site-packages/wikitrans/wiki2texi.py:231-261 | `@ref{qual,text}` when there is text and `@ref{qual}` otherwise; an empty link raises IndexError |
| TexiProps.RefUref | env/Lib/site-packages/wikitrans/wiki2texi.py:263-274 | `@uref{url}` for an empty body, `@uref{url,text}` otherwise |
| TexiProps.TagOutput | env/Lib/site-packages/wikitrans/wiki2texi.py:98-131 | `references` emits nothing, and an unknown tag with arguments raises TypeError |
| TexiProps.CodeOutput | env/Lib/site-packages/wikitrans/wiki2texi.py:100-112 | inline code is `@code{…}` rendered one level more nested; block code is framed by `@example` |
| TexiProps.FootnoteBraces | env/Lib/site-packages/wikitrans/wiki2texi.py:118-121 | a `ref` tag is `@footnote{…}` |
| TexiProps.OtherTagEscaped | env/Lib/site-packages/wikitrans/wiki2texi.py:124-131 | an unknown tag is printed escaped as `<t>…</t>`; with arguments it raises TypeError |

## Left out

- `PyStr.Upper` is ASCII-only: it maps `a`..`z` and leaves every other character alone. Python's `str.upper()` (wiki2text.py:102) is Unicode-aware ("é" becomes "É", and "ß" becomes "SS", which changes the length). So `TextNodes.Render` and `TextNodes.BoldUpper` are exact only for ASCII text. Unicode case tables are outside what the model can state.
- `HtmlNodes.IsWordChar` is the ASCII class `[A-Za-z0-9_]`. Python's `\w` in `re.match('(\w+)=', x)` (wiki2html.py:284) is Unicode. So `HtmlNodes.WordRun` stops at the first non-ASCII letter, `HtmlNodes.KeyOf` finds no key in "año=x", and `HtmlNodes.TmplTerm` does not treat "año=x" as keyed, while the source does.
- `Site.SubstLang` handles only the directives `%(lang)s` and `%%` of `html_base % {'lang': lang}` (wiki2text.py:311, wiki2html.py:276). For any other directive it emits a literal "%". Python raises instead: TypeError for `%s`, KeyError for `%(x)s`, and ValueError for a trailing `%`. The default bases use only `%(lang)s`, so `Site.Mktgt` is exact for them.
- `Parser.Parser.ParseHeader` and the other parser methods carry a step budget (`fuel`). `Out.NoFuel` stands for a parse that never ends, such as a last file line `== Title` with no newline. The model does not claim that every other parse ends within a given budget.
- `nested` is a field of the HTML and Texinfo translator classes, which their `FormatCode` methods raise before the body and lower after it. When the body raises, it stays raised, as in the source (wiki2html.py:161-165, wiki2texi.py:102-106). The pure `Fmt` and `Emit` functions take `nested` as a parameter. `depth` is a parameter that bounds the recursion in place of Python's RecursionError.
- `WikiToken.Node` stores the content of a TEXT node as one string. TEXT nodes whose content is a list of strings (wiki2texi.py:91, wiki2text.py:51, wiki2html.py:121) cannot be represented. The parser never builds one.
- The class-level shared attributes `acc` (wiki2texi.py:388), `mark` (wikimarkup.py:389) and `references` are per-instance fields. The source shares them between all instances of a class. The model does not capture state leaking from one parser or translator to the next.
- `WikiToken.DecodeEncode` is proved for the `Plain` flavour only. In the other flavours the `wikinode` class name differs and the same decoding applies, but that is not proved.
- `Parser.Parser.ParsePara` and the other `parse_*` methods state the kind and shape of what they build. They do not state which tokens ended up in it.
- Reading markup from a file, `__del__`, `dprint` and `dump` are left out: they are I/O and debugging output. The input is the list of lines that `input()` returns.
- `Tokenizer.Tokread` and `Tokenizer.Raw` take a line list that mixes the two input modes of `input()` (wikimarkup.py:1048-1054). A line may lack its final `\n`, which only file input gives. The end of the input is `None`, which only `text=` input gives (a file gives "" forever). The never-ending header above is the file case, and the TypeError of an open `<nowiki>` is the `text=` case. The model does not capture the file case's endless raw read.
- `TexiProps.ItemLines` states AttributeError for an item that is not an ELT. The source would format a TEXT or other node's content instead, but `parse_env` builds only ELT items (wikimarkup.py:826), so the case is unreachable.
- `TextNodes.ItemPiece` and `TextNodes.FormatItem` give AttributeError for an item that is not an ELT. For the unnumbered and numbered types, `TextEnvNode.format` (wiki2text.py:186-205) would format the item's `content` and indent it, and only the `defn` type reads `s.subtype` and fails. The case is unreachable for the same reason: `parse_env` builds only ELT items.
- `url_quote`, the namespace tables of the `wikins` module, and the ISO 639 language table (wikimarkup.py:1056-1353) are parameters of `Site.Site`: a quoting function and maps. `wiki_ns_name` calls `str.beginswith`, which does not exist. The model reaches that call only through an abstract pattern count and reports it as AttributeError.
- `html_escape(..., quote=False)` is modelled by `HtmlNodes.Escape`, which escapes `&`, `<` and `>`. `json.dumps` is modelled by the JSON value `WikiToken.Encode` builds. Only the dump of a quote delimiter (`WikiToken.DelimDump`) is written out as text.
- After an exception, the Texinfo accumulator is left in whatever state it had reached. The model does not state that state (`Texi.TexiTranslator.Format` says nothing about the accumulator on error).
- `wikidump.py` and the command-line front end are not part of this model.
