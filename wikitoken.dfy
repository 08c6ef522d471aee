/** The nodes of the wiki parse tree (tokens and tree nodes share one type),
    their JSON encoding, and the keyword check every node constructor runs. */
module WikiToken {
  import opened PyStr

  /** A tag attribute value: a quoted string, or 1 for a bare attribute name. */
  datatype AttrVal = AStr(s: string) | AOne

  /** Parsed tag attributes: the string they were parsed from and the table.
      A `TagAttrs` is truthy exactly when its table is non-empty. */
  datatype TagAttrs = TagAttrs(printable: string, tab: map<string, AttrVal>)
  {
    predicate Truthy() { |tab| > 0 }
  }

  /** The opening of an unknown tag, with its attributes when it has any. */
  function TagOpen(t: string, args: TagAttrs): string
  {
    "<" + t + (if args.Truthy() then " " + args.printable else "") + ">"
  }

  const NoAttrs := TagAttrs("", map[])

  datatype EnvType = Unnumbered | Numbered | Defn

  function EnvTypeName(e: EnvType): string
  {
    match e
    case Unnumbered => "unnumbered"
    case Numbered => "numbered"
    case Defn => "defn"
  }

  /** One constructor per node type. Tokens (NIL, NL, TEXT, DELIM, OTAG, CTAG)
      come from the tokenizer, the others from the parser. `Seq`, `Para`,
      `Pre`, `Tmpl`, `It`, `Bold` and `Link` hold a list of nodes; `Tag`,
      `Ind`, `Ref`, `Elt` and `Hdr` hold one node (always a `Seq` as the
      parser builds them). */
  datatype Node =
    | Nil
    | Nl
    | Text(text: string)
    | Delim(delim: string, isblock: bool, continuation: bool)
    | OTag(otag: string, oblock: bool, oargs: TagAttrs)
    | CTag(ctag: string)
    | Tag(tag: string, args: TagAttrs, tblock: bool, body: Node, idx: Option<int>)
    | Pre(items: seq<Node>)
    | Para(items: seq<Node>)
    | Bar
    | Seq(items: seq<Node>)
    | Ind(level: int, body: Node)
    | Ref(ref: string, body: Node)
    | Tmpl(items: seq<Node>)
    | It(items: seq<Node>)
    | Bold(items: seq<Node>)
    | Elt(subtype: int, body: Node)
    | Env(envtype: EnvType, level: int, items: seq<Node>)
    | Link(items: seq<Node>)
    | Hdr(level: int, body: Node)

  /** The node's `type` attribute. */
  function TypeName(n: Node): string
  {
    match n
    case Nil => "NIL"
    case Nl => "NL"
    case Text(_) => "TEXT"
    case Delim(_, _, _) => "DELIM"
    case OTag(_, _, _) => "OTAG"
    case CTag(_) => "CTAG"
    case Tag(_, _, _, _, _) => "TAG"
    case Pre(_) => "PRE"
    case Para(_) => "PARA"
    case Bar => "BAR"
    case Seq(_) => "SEQ"
    case Ind(_, _) => "IND"
    case Ref(_, _) => "REF"
    case Tmpl(_) => "TMPL"
    case It(_) => "IT"
    case Bold(_) => "BOLD"
    case Elt(_, _) => "ELT"
    case Env(_, _, _) => "ENV"
    case Link(_) => "LINK"
    case Hdr(_, _) => "HDR"
  }

  /** Is this a `DELIM` token whose text is a bold or italic quote run? */
  predicate IsQuote(n: Node)
  {
    n.Delim? && (n.delim == "''" || n.delim == "'''")
  }

  /** Which parser built the tree: each translator installs its own node
      classes, which changes the class name in the JSON and, for HTML text
      nodes, the encoding itself. */
  datatype Flavor = Plain | Html | TextOut | Texi

  /** The base classes of the node hierarchy. */
  datatype NodeClass =
    | WikiNode | WikiContentNode | WikiSeqNode | WikiTextNode | WikiDelimNode
    | WikiTagNode | WikiRefNode | WikiHdrNode | WikiEltNode | WikiEnvNode | WikiIndNode

  /** The base class the parser instantiates for each node type. */
  function BaseClass(n: Node): NodeClass
  {
    match n
    case Nil => WikiNode
    case Nl => WikiNode
    case Bar => WikiNode
    case Text(_) => WikiTextNode
    case Delim(_, _, _) => WikiDelimNode
    case OTag(_, _, _) => WikiTagNode
    case CTag(_) => WikiTagNode
    case Tag(_, _, _, _, _) => WikiTagNode
    case Pre(_) => WikiContentNode
    case Ind(_, _) => WikiIndNode
    case Ref(_, _) => WikiRefNode
    case Elt(_, _) => WikiEltNode
    case Env(_, _, _) => WikiEnvNode
    case Hdr(_, _) => WikiHdrNode
    case _ => WikiSeqNode
  }

  function BaseClassName(c: NodeClass): string
  {
    match c
    case WikiNode => "WikiNode"
    case WikiContentNode => "WikiContentNode"
    case WikiSeqNode => "WikiSeqNode"
    case WikiTextNode => "WikiTextNode"
    case WikiDelimNode => "WikiDelimNode"
    case WikiTagNode => "WikiTagNode"
    case WikiRefNode => "WikiRefNode"
    case WikiHdrNode => "WikiHdrNode"
    case WikiEltNode => "WikiEltNode"
    case WikiEnvNode => "WikiEnvNode"
    case WikiIndNode => "WikiIndNode"
  }

  /** The class name that `json_encode` stores under `wikinode`. */
  function ClassName(n: Node, fl: Flavor): string
  {
    match fl
    case Plain => BaseClassName(BaseClass(n))
    case Html =>
      (match n
       case Link(_) => "HtmlLinkNode"
       case Tmpl(_) => "HtmlLinkNode"
       case Ref(_, _) => "HtmlRefNode"
       case It(_) => "HtmlFontNode"
       case Bold(_) => "HtmlFontNode"
       case Hdr(_, _) => "HtmlHdrNode"
       case Bar => "HtmlBarNode"
       case Env(_, _, _) => "HtmlEnvNode"
       case Tag(_, _, _, _, _) => "HtmlTagNode"
       case Para(_) => "HtmlParaNode"
       case Pre(_) => "HtmlPreNode"
       case Ind(_, _) => "HtmlIndNode"
       case Text(_) => "HtmlTextNode"
       case Seq(_) => "HtmlSeqNode"
       case _ => BaseClassName(BaseClass(n)))
    case TextOut =>
      (match n
       case Seq(_) => "TextSeqNode"
       case Text(_) => "TextTextNode"
       case Pre(_) => "TextPreNode"
       case Para(_) => "TextParaNode"
       case It(_) => "TextItNode"
       case Bold(_) => "TextBoldNode"
       case Link(_) => "TextLinkNode"
       case Tmpl(_) => "TextTmplNode"
       case Bar => "TextBarNode"
       case Hdr(_, _) => "TextHdrNode"
       case Ref(_, _) => "TextRefNode"
       case Env(_, _, _) => "TextEnvNode"
       case Ind(_, _) => "TextIndNode"
       case Tag(_, _, _, _, _) => "TextTagNode"
       case _ => BaseClassName(BaseClass(n)))
    case Texi =>
      (match n
       case Text(_) => "TexiTextNode"
       case Tag(_, _, _, _, _) => "TexiTagNode"
       case Para(_) => "TexiParaNode"
       case Pre(_) => "TexiPreNode"
       case It(_) => "TexiFontNode"
       case Bold(_) => "TexiFontNode"
       case Hdr(_, _) => "TexiHdrNode"
       case Bar => "TexiBarNode"
       case Ind(_, _) => "TexiIndNode"
       case Env(_, _, _) => "TexiEnvNode"
       case Link(_) => "TexiLinkNode"
       case Ref(_, _) => "TexiRefNode"
       case _ => BaseClassName(BaseClass(n)))
  }

  // ---------------------------------------------------------------------
  // Keyword check of the node constructor

  /** The attributes `hasattr` finds on an instance of each class: the
      class attributes and methods it declares or inherits (dunder names are
      not modelled). */
  function Declared(c: NodeClass): set<string>
  {
    var base := {"type", "parser", "format", "json_encode"};
    match c
    case WikiNode => base
    case WikiDelimNode => base + {"content", "isblock", "continuation"}
    case WikiTagNode => base + {"content", "tag", "isblock", "args", "idx"}
    case WikiRefNode => base + {"content", "ref"}
    case WikiHdrNode => base + {"content", "level"}
    case WikiEltNode => base + {"content", "subtype"}
    case WikiEnvNode => base + {"content", "envtype", "level"}
    case WikiIndNode => base + {"content", "level"}
    case _ => base + {"content"}
  }

  /** Runs the constructor's keyword loop: the first keyword that the class
      does not declare raises AttributeError; `None` means every keyword was
      stored. */
  method CheckKeywords(c: NodeClass, keys: seq<string>) returns (bad: Option<string>)
    ensures bad.None? <==> forall k :: 0 <= k < |keys| ==> keys[k] in Declared(c)
    ensures bad.Some? ==>
      exists j :: 0 <= j < |keys| && keys[j] == bad.value && keys[j] !in Declared(c)
        && forall k :: 0 <= k < j ==> keys[k] in Declared(c)
  {
    var decl := Declared(c);
    var i := 0;
    while i < |keys|
      invariant 0 <= i <= |keys|
      invariant forall k :: 0 <= k < i ==> keys[k] in decl
    {
      if keys[i] !in decl {
        return Some(keys[i]);
      }
      i := i + 1;
    }
    return None;
  }

  // ---------------------------------------------------------------------
  // JSON encoding

  datatype Json =
    | JNull
    | JBool(b: bool)
    | JInt(i: int)
    | JStr(s: string)
    | JArr(arr: seq<Json>)
    | JObj(obj: map<string, Json>)

  function EncodeAttr(v: AttrVal): Json
  {
    match v
    case AStr(s) => JStr(s)
    case AOne => JInt(1)
  }

  function EncodeAttrs(a: TagAttrs): Json
  {
    if a.Truthy() then JObj(map k | k in a.tab :: EncodeAttr(a.tab[k])) else JNull
  }

  function EncodeIdx(i: Option<int>): Json
  {
    match i
    case None => JNull
    case Some(v) => JInt(v)
  }

  /** `WikiSeqNode.json_encode` of a list: None when empty, otherwise the
      encoding of each element in order. */
  function EncodeContent(items: seq<Node>, fl: Flavor): (r: Json)
    ensures items == [] <==> r == JNull
    ensures r.JArr? ==> |r.arr| == |items|
    decreases items, 1
  {
    if items == [] then JNull else JArr(EncodeList(items, fl))
  }

  function EncodeList(items: seq<Node>, fl: Flavor): (r: seq<Json>)
    ensures |r| == |items|
    ensures forall k :: 0 <= k < |items| ==> r[k] == Encode(items[k], fl)
    decreases items, 0
  {
    if items == [] then [] else [Encode(items[0], fl)] + EncodeList(items[1..], fl)
  }

  /** The fields a node's own `json_encode` produces, before the decorator
      adds `wikinode` and `type`. */
  function Fields(n: Node, fl: Flavor): map<string, Json>
    decreases n, 0
  {
    match n
    case Nil => map[]
    case Nl => map[]
    case Bar => map[]
    case Text(t) =>
      // HtmlTextNode inherits WikiSeqNode.json_encode, which maps '' to None.
      map["content" := if fl == Html && t == "" then JNull else JStr(t)]
    case Delim(d, _, _) => map["content" := if d == "" then JNull else JStr(d)]
    case OTag(t, b, a) =>
      map["tag" := JStr(t), "isblock" := JBool(b), "args" := EncodeAttrs(a),
          "content" := JNull, "idx" := JNull]
    case CTag(t) =>
      map["tag" := JStr(t), "isblock" := JBool(false), "args" := JNull,
          "content" := JNull, "idx" := JNull]
    case Tag(t, a, b, body, i) =>
      map["tag" := JStr(t), "isblock" := JBool(b), "args" := EncodeAttrs(a),
          "content" := Encode(body, fl), "idx" := EncodeIdx(i)]
    case Ind(l, body) => map["level" := JInt(l), "content" := Encode(body, fl)]
    case Ref(r, body) => map["ref" := JStr(r), "content" := Encode(body, fl)]
    case Elt(s, body) => map["subtype" := JInt(s), "content" := Encode(body, fl)]
    case Hdr(l, body) => map["level" := JInt(l), "content" := Encode(body, fl)]
    case Env(e, l, items) =>
      map["envtype" := JStr(EnvTypeName(e)), "level" := JInt(l),
          "content" := JArr(EncodeList(items, fl))]
    case Pre(items) => map["content" := EncodeContent(items, fl)]
    case Para(items) => map["content" := EncodeContent(items, fl)]
    case Seq(items) => map["content" := EncodeContent(items, fl)]
    case Tmpl(items) => map["content" := EncodeContent(items, fl)]
    case It(items) => map["content" := EncodeContent(items, fl)]
    case Bold(items) => map["content" := EncodeContent(items, fl)]
    case Link(items) => map["content" := EncodeContent(items, fl)]
  }

  /** `json_encode` as decorated by `jsonencoder`: the node's fields plus its
      class name under `wikinode` and its type under `type`. */
  function Encode(n: Node, fl: Flavor): (r: Json)
    ensures r.JObj?
    ensures "wikinode" in r.obj && r.obj["wikinode"] == JStr(ClassName(n, fl))
    ensures "type" in r.obj && r.obj["type"] == JStr(TypeName(n))
    decreases n, 1
  {
    JObj(Fields(n, fl)["wikinode" := JStr(ClassName(n, fl))]["type" := JStr(TypeName(n))])
  }

  /** The key set of every encoding: exactly the node's declared fields plus
      `wikinode` and `type`. */
  function EncodedKeys(n: Node): set<string>
  {
    var deco := {"wikinode", "type"};
    match n
    case Nil => deco
    case Nl => deco
    case Bar => deco
    case OTag(_, _, _) => deco + {"tag", "isblock", "args", "content", "idx"}
    case CTag(_) => deco + {"tag", "isblock", "args", "content", "idx"}
    case Tag(_, _, _, _, _) => deco + {"tag", "isblock", "args", "content", "idx"}
    case Ind(_, _) => deco + {"level", "content"}
    case Hdr(_, _) => deco + {"level", "content"}
    case Ref(_, _) => deco + {"ref", "content"}
    case Elt(_, _) => deco + {"subtype", "content"}
    case Env(_, _, _) => deco + {"envtype", "level", "content"}
    case _ => deco + {"content"}
  }

  /** An object whose `type` is a node's type name decodes by that node's
      kind. */
  lemma DecodeAt(j: Json, n: Node)
    requires j.JObj? && "type" in j.obj && j.obj["type"] == JStr(TypeName(n))
    ensures Decode(j) == DecodeKind(j, NodeKind(n))
  {
    KindOfTypeName(n);
  }

  lemma EncodeObj(n: Node, fl: Flavor)
    ensures Encode(n, fl).obj == Fields(n, fl)["wikinode" := JStr(ClassName(n, fl))]["type" := JStr(TypeName(n))]
  {
  }

  lemma EncodeKeys(n: Node, fl: Flavor)
    ensures Encode(n, fl).obj.Keys == EncodedKeys(n)
  {
  }

  /** HDR, ELT, ENV and IND encode exactly their declared fields, with the
      level, subtype or environment type stored as given. */
  lemma EncodeLevelled(n: Node, fl: Flavor)
    requires n.Hdr? || n.Elt? || n.Env? || n.Ind?
    ensures var o := Encode(n, fl).obj;
      && (n.Hdr? ==>
            o.Keys == {"level", "content", "wikinode", "type"} && o["level"] == JInt(n.level)
            && o["content"] == Encode(n.body, fl))
      && (n.Ind? ==>
            o.Keys == {"level", "content", "wikinode", "type"} && o["level"] == JInt(n.level)
            && o["content"] == Encode(n.body, fl))
      && (n.Elt? ==>
            o.Keys == {"subtype", "content", "wikinode", "type"} && o["subtype"] == JInt(n.subtype)
            && o["content"] == Encode(n.body, fl))
      && (n.Env? ==>
            o.Keys == {"envtype", "level", "content", "wikinode", "type"}
            && o["envtype"] == JStr(EnvTypeName(n.envtype)) && o["level"] == JInt(n.level)
            && o["content"].JArr? && |o["content"].arr| == |n.items|)
  {
    EncodeKeys(n, fl);
  }

  // ---------------------------------------------------------------------
  // Decoding: the inverse of the encoding, up to what the encoding drops

  /** What the encoding keeps of a node: a delimiter's flags and the
      attribute string of a tag are not encoded, so they come back with the
      class defaults (`isblock` and `continuation` False). */
  function Known(n: Node): Node
    decreases n, 1
  {
    match n
    case Delim(d, _, _) => Delim(d, false, false)
    case OTag(t, b, a) => OTag(t, b, TagAttrs("", a.tab))
    case Tag(t, a, b, body, i) => Tag(t, TagAttrs("", a.tab), b, Known(body), i)
    case Ind(l, body) => Ind(l, Known(body))
    case Ref(r, body) => Ref(r, Known(body))
    case Elt(s, body) => Elt(s, Known(body))
    case Hdr(l, body) => Hdr(l, Known(body))
    case Env(e, l, items) => Env(e, l, KnownList(items))
    case Pre(items) => Pre(KnownList(items))
    case Para(items) => Para(KnownList(items))
    case Seq(items) => Seq(KnownList(items))
    case Tmpl(items) => Tmpl(KnownList(items))
    case It(items) => It(KnownList(items))
    case Bold(items) => Bold(KnownList(items))
    case Link(items) => Link(KnownList(items))
    case _ => n
  }

  function KnownList(items: seq<Node>): (r: seq<Node>)
    ensures |r| == |items|
    decreases items, 0
  {
    if items == [] then [] else [Known(items[0])] + KnownList(items[1..])
  }

  function DecodeAttr(j: Json): Option<AttrVal>
  {
    match j
    case JStr(s) => Some(AStr(s))
    case JInt(i) => if i == 1 then Some(AOne) else None
    case _ => None
  }

  function DecodeAttrs(j: Json): Option<TagAttrs>
  {
    match j
    case JNull => Some(TagAttrs("", map[]))
    case JObj(o) =>
      if |o| > 0 && forall k | k in o :: DecodeAttr(o[k]).Some? then
        Some(TagAttrs("", map k | k in o :: DecodeAttr(o[k]).value))
      else None
    case _ => None
  }

  function DecodeIdx(j: Json): Option<Option<int>>
  {
    match j
    case JNull => Some(None)
    case JInt(i) => Some(Some(i))
    case _ => None
  }

  function DecodeEnvType(s: string): Option<EnvType>
  {
    if s == "unnumbered" then Some(Unnumbered)
    else if s == "numbered" then Some(Numbered)
    else if s == "defn" then Some(Defn)
    else None
  }

  function DecodeList(js: seq<Json>): (r: Option<seq<Node>>)
    ensures r.Some? ==> |r.value| == |js|
    decreases js, 2
  {
    if js == [] then Some([])
    else match (Decode(js[0]), DecodeList(js[1..]))
      case (Some(x), Some(xs)) => Some([x] + xs)
      case _ => None
  }

  /** A node list stored as None (empty) or as an array. */
  function DecodeContent(j: Json): Option<seq<Node>>
    decreases j, 3
  {
    match j
    case JNull => Some([])
    case JArr(a) => DecodeList(a)
    case _ => None
  }

  function DecodeStr(j: Json): Option<string>
  {
    match j
    case JStr(s) => Some(s)
    case _ => None
  }

  function DecodeInt(j: Json): Option<int>
  {
    match j
    case JInt(i) => Some(i)
    case _ => None
  }

  /** The node types, as read back from the `type` field. */
  datatype Kind =
    | KNil | KNl | KBar | KText | KDelim | KOTag | KCTag | KTag | KInd | KHdr
    | KElt | KRef | KEnv | KPre | KPara | KSeq | KTmpl | KIt | KBold | KLink

  function KindOf(t: string): Option<Kind>
  {
    if t == "NIL" then Some(KNil)
    else if t == "NL" then Some(KNl)
    else if t == "BAR" then Some(KBar)
    else if t == "TEXT" then Some(KText)
    else if t == "DELIM" then Some(KDelim)
    else if t == "OTAG" then Some(KOTag)
    else if t == "CTAG" then Some(KCTag)
    else if t == "TAG" then Some(KTag)
    else if t == "IND" then Some(KInd)
    else if t == "HDR" then Some(KHdr)
    else if t == "ELT" then Some(KElt)
    else if t == "REF" then Some(KRef)
    else if t == "ENV" then Some(KEnv)
    else if t == "PRE" then Some(KPre)
    else if t == "PARA" then Some(KPara)
    else if t == "SEQ" then Some(KSeq)
    else if t == "TMPL" then Some(KTmpl)
    else if t == "IT" then Some(KIt)
    else if t == "BOLD" then Some(KBold)
    else if t == "LINK" then Some(KLink)
    else None
  }

  function NodeKind(n: Node): Kind
  {
    match n
    case Nil => KNil
    case Nl => KNl
    case Bar => KBar
    case Text(_) => KText
    case Delim(_, _, _) => KDelim
    case OTag(_, _, _) => KOTag
    case CTag(_) => KCTag
    case Tag(_, _, _, _, _) => KTag
    case Ind(_, _) => KInd
    case Hdr(_, _) => KHdr
    case Elt(_, _) => KElt
    case Ref(_, _) => KRef
    case Env(_, _, _) => KEnv
    case Pre(_) => KPre
    case Para(_) => KPara
    case Seq(_) => KSeq
    case Tmpl(_) => KTmpl
    case It(_) => KIt
    case Bold(_) => KBold
    case Link(_) => KLink
  }

  /** The `type` strings are pairwise distinct, so the type names the node. */
  lemma KindOfTypeName(n: Node)
    ensures KindOf(TypeName(n)) == Some(NodeKind(n))
  {
  }

  /** Rebuilds a node from the encoding the base parser produces. */
  function Decode(j: Json): Option<Node>
    decreases j, 4
  {
    if !j.JObj? || "type" !in j.obj || !j.obj["type"].JStr? then None
    else
      match KindOf(j.obj["type"].s)
      case None => None
      case Some(k) => DecodeKind(j, k)
  }

  /** Dispatches on the node type read from `type`. */
  function DecodeKind(j: Json, k: Kind): Option<Node>
    decreases j, 3
  {
    match k
    case KNil => Some(Nil)
    case KNl => Some(Nl)
    case KBar => Some(Bar)
    case KText => DecodeLeaf(j, k)
    case KDelim => DecodeLeaf(j, k)
    case KOTag => DecodeTag(j, k)
    case KCTag => DecodeTag(j, k)
    case KTag => DecodeTag(j, k)
    case KInd => DecodeBody(j, k)
    case KHdr => DecodeBody(j, k)
    case KElt => DecodeBody(j, k)
    case KRef => DecodeBody(j, k)
    case KEnv => DecodeEnv(j)
    case _ => DecodeItems(j, k)
  }

  /** TEXT and DELIM keep their string in `content`; a DELIM stored as None
      has the empty spelling. */
  function DecodeLeaf(j: Json, k: Kind): Option<Node>
  {
    if !j.JObj? || "content" !in j.obj then None
    else if k == KText then
      (match DecodeStr(j.obj["content"]) case Some(s) => Some(Text(s)) case None => None)
    else if j.obj["content"] == JNull then Some(Delim("", false, false))
    else (match DecodeStr(j.obj["content"]) case Some(s) => Some(Delim(s, false, false)) case None => None)
  }

  function DecodeEnv(j: Json): Option<Node>
    decreases j, 2
  {
    if !j.JObj? || "content" !in j.obj || "envtype" !in j.obj || "level" !in j.obj
       || !j.obj["content"].JArr? then None
    else
      var o := j.obj;
      match (DecodeStr(o["envtype"]), DecodeInt(o["level"]), DecodeList(o["content"].arr))
      case (Some(e), Some(l), Some(items)) =>
        (match DecodeEnvType(e) case Some(et) => Some(Env(et, l, items)) case None => None)
      case _ => None
  }

  function DecodeItems(j: Json, k: Kind): Option<Node>
    decreases j, 2
  {
    if !j.JObj? || "content" !in j.obj then None
    else match DecodeContent(j.obj["content"])
      case None => None
      case Some(items) =>
        (match k
         case KPre => Some(Pre(items))
         case KPara => Some(Para(items))
         case KSeq => Some(Seq(items))
         case KTmpl => Some(Tmpl(items))
         case KIt => Some(It(items))
         case KBold => Some(Bold(items))
         case KLink => Some(Link(items))
         case _ => None)
  }

  function DecodeTag(j: Json, k: Kind): Option<Node>
    decreases j, 2
  {
    if !j.JObj? then None
    else
    var o := j.obj;
    if "content" !in o || "tag" !in o || "isblock" !in o || "args" !in o || "idx" !in o then None
    else match (DecodeStr(o["tag"]), o["isblock"], DecodeAttrs(o["args"]), DecodeIdx(o["idx"]))
      case (Some(tg), JBool(b), Some(a), Some(i)) =>
        if k == KOTag then Some(OTag(tg, b, a))
        else if k == KCTag then Some(CTag(tg))
        else (match Decode(o["content"]) case Some(body) => Some(Tag(tg, a, b, body, i)) case None => None)
      case _ => None
  }

  function DecodeBody(j: Json, k: Kind): Option<Node>
    decreases j, 2
  {
    if !j.JObj? then None
    else
    var o := j.obj;
    var key := if k == KElt then "subtype" else if k == KRef then "ref" else "level";
    if "content" !in o || key !in o then None
    else match Decode(o["content"])
      case None => None
      case Some(body) =>
        if k == KRef then (match DecodeStr(o[key]) case Some(r) => Some(Ref(r, body)) case None => None)
        else match DecodeInt(o[key])
          case None => None
          case Some(v) =>
            if k == KInd then Some(Ind(v, body))
            else if k == KHdr then Some(Hdr(v, body))
            else if k == KElt then Some(Elt(v, body))
            else None
  }

  lemma DecodeEncodeAttrs(a: TagAttrs)
    ensures DecodeAttrs(EncodeAttrs(a)) == Some(TagAttrs("", a.tab))
  {
    if a.Truthy() {
      var o := map k | k in a.tab :: EncodeAttr(a.tab[k]);
      assert o.Keys == a.tab.Keys;
      assert forall k | k in o :: DecodeAttr(o[k]) == Some(a.tab[k]) by {
        forall k | k in o ensures DecodeAttr(o[k]) == Some(a.tab[k]) {
          match a.tab[k]
          case AStr(s) =>
          case AOne =>
        }
      }
      assert (map k | k in o :: DecodeAttr(o[k]).value) == a.tab;
    } else {
      assert a.tab == map[];
    }
  }

  /** Decoding the base parser's encoding of any node gives the node back,
      except for the parts the encoding drops (see `Known`). */
  lemma {:induction false} DecodeEncode(n: Node)
    ensures Decode(Encode(n, Plain)) == Some(Known(n))
    decreases n, 2
  {
    match n
    case Nil => DecodeEncodeBare(n);
    case Nl => DecodeEncodeBare(n);
    case Bar => DecodeEncodeBare(n);
    case Text(_) => DecodeEncodeLeaf(n);
    case Delim(_, _, _) => DecodeEncodeLeaf(n);
    case OTag(t, b, a) => DecodeEncodeOTag(t, b, a);
    case CTag(t) => DecodeEncodeCTag(t);
    case Tag(t, a, b, body, i) =>
      DecodeEncode(body);
      DecodeEncodeTag(t, a, b, body, i);
    case Ind(l, body) =>
      DecodeEncode(body);
      EncodeInd(l, body);
      DecodeEncodeBody(n);
    case Hdr(l, body) =>
      DecodeEncode(body);
      EncodeHdr(l, body);
      DecodeEncodeBody(n);
    case Elt(st, body) =>
      DecodeEncode(body);
      EncodeElt(st, body);
      DecodeEncodeBody(n);
    case Ref(r, body) =>
      DecodeEncode(body);
      EncodeRef(r, body);
      DecodeEncodeBody(n);
    case Env(e, l, items) =>
      DecodeEncodeList(items);
      DecodeEncodeEnv(e, l, items);
    case Pre(_) => DecodeEncodeItems(n);
    case Para(_) => DecodeEncodeItems(n);
    case Seq(_) => DecodeEncodeItems(n);
    case Tmpl(_) => DecodeEncodeItems(n);
    case It(_) => DecodeEncodeItems(n);
    case Bold(_) => DecodeEncodeItems(n);
    case Link(_) => DecodeEncodeItems(n);
  }

  lemma DecodeEncodeBare(n: Node)
    requires n.Nil? || n.Nl? || n.Bar?
    ensures Decode(Encode(n, Plain)) == Some(Known(n))
  {
    DecodeAt(Encode(n, Plain), n);
  }

  lemma DecodeEncodeLeaf(n: Node)
    requires n.Text? || n.Delim?
    ensures Decode(Encode(n, Plain)) == Some(Known(n))
  {
    DecodeAt(Encode(n, Plain), n);
    EncodeLeaf(n);
  }

  lemma EncodeLeaf(n: Node)
    requires n.Text? || n.Delim?
    ensures var o := Encode(n, Plain).obj;
      && "content" in o
      && (n.Text? ==> o["content"] == JStr(n.text))
      && (n.Delim? ==> o["content"] == if n.delim == "" then JNull else JStr(n.delim))
  {
    var c := if n.Text? then JStr(n.text) else if n.delim == "" then JNull else JStr(n.delim);
    assert Fields(n, Plain) == map["content" := c];
    EncodeField(n, Plain, "content");
  }

  /** A stored field other than the two the decorator adds reads back as the
      node's own field. */
  lemma EncodeField(n: Node, fl: Flavor, key: string)
    requires key in Fields(n, fl) && key != "wikinode" && key != "type"
    ensures key in Encode(n, fl).obj && Encode(n, fl).obj[key] == Fields(n, fl)[key]
  {
  }

  /** The five fields every tag node stores read back as given. */
  lemma EncodeTagFields(n: Node)
    requires n.OTag? || n.CTag? || n.Tag?
    ensures var o := Encode(n, Plain).obj;
      && "tag" in o && "isblock" in o && "args" in o && "idx" in o && "content" in o
      && o["tag"] == Fields(n, Plain)["tag"] && o["isblock"] == Fields(n, Plain)["isblock"]
      && o["args"] == Fields(n, Plain)["args"] && o["idx"] == Fields(n, Plain)["idx"]
      && o["content"] == Fields(n, Plain)["content"]
  {
    assert "tag" in Fields(n, Plain) && "isblock" in Fields(n, Plain) && "args" in Fields(n, Plain);
    assert "idx" in Fields(n, Plain) && "content" in Fields(n, Plain);
    EncodeField(n, Plain, "tag");
    EncodeField(n, Plain, "isblock");
    EncodeField(n, Plain, "args");
    EncodeField(n, Plain, "idx");
    EncodeField(n, Plain, "content");
  }

  lemma EncodeOTag(t: string, b: bool, a: TagAttrs)
    ensures var o := Encode(OTag(t, b, a), Plain).obj;
      && "tag" in o && "isblock" in o && "args" in o && "idx" in o && "content" in o
      && o["tag"] == JStr(t) && o["isblock"] == JBool(b) && o["args"] == EncodeAttrs(a)
      && o["idx"] == JNull && o["content"] == JNull
  {
    EncodeTagFields(OTag(t, b, a));
  }

  lemma EncodeCTag(t: string)
    ensures var o := Encode(CTag(t), Plain).obj;
      && "tag" in o && "isblock" in o && "args" in o && "idx" in o && "content" in o
      && o["tag"] == JStr(t) && o["isblock"] == JBool(false) && o["args"] == JNull
      && o["idx"] == JNull && o["content"] == JNull
  {
    EncodeTagFields(CTag(t));
  }

  lemma EncodeTag(t: string, a: TagAttrs, b: bool, body: Node, i: Option<int>)
    ensures var o := Encode(Tag(t, a, b, body, i), Plain).obj;
      && "tag" in o && "isblock" in o && "args" in o && "idx" in o && "content" in o
      && o["tag"] == JStr(t) && o["isblock"] == JBool(b) && o["args"] == EncodeAttrs(a)
      && o["idx"] == EncodeIdx(i) && o["content"] == Encode(body, Plain)
  {
    EncodeTagFields(Tag(t, a, b, body, i));
  }

  lemma DecodeEncodeOTag(t: string, b: bool, a: TagAttrs)
    ensures Decode(Encode(OTag(t, b, a), Plain)) == Some(Known(OTag(t, b, a)))
  {
    var n := OTag(t, b, a);
    DecodeAt(Encode(n, Plain), n);
    DecodeEncodeAttrs(a);
    EncodeOTag(t, b, a);
    DecodeTagFields(Encode(n, Plain), KOTag, t, b, EncodeAttrs(a), JNull, JNull, TagAttrs("", a.tab), None);
    KnownTags(n);
  }

  lemma DecodeEncodeCTag(t: string)
    ensures Decode(Encode(CTag(t), Plain)) == Some(Known(CTag(t)))
  {
    var n := CTag(t);
    DecodeAt(Encode(n, Plain), n);
    EncodeCTag(t);
    DecodeTagFields(Encode(n, Plain), KCTag, t, false, JNull, JNull, JNull, TagAttrs("", map[]), None);
    KnownTags(n);
  }

  lemma DecodeEncodeTag(t: string, a: TagAttrs, b: bool, body: Node, i: Option<int>)
    requires Decode(Encode(body, Plain)) == Some(Known(body))
    ensures Decode(Encode(Tag(t, a, b, body, i), Plain)) == Some(Known(Tag(t, a, b, body, i)))
  {
    var n := Tag(t, a, b, body, i);
    DecodeAt(Encode(n, Plain), n);
    DecodeEncodeAttrs(a);
    assert DecodeIdx(EncodeIdx(i)) == Some(i) by { match i case None => case Some(_) => }
    EncodeTag(t, a, b, body, i);
    DecodeTagFields(Encode(n, Plain), KTag, t, b, EncodeAttrs(a), Encode(body, Plain), EncodeIdx(i),
                    TagAttrs("", a.tab), i);
    KnownTags(n);
  }

  lemma KnownTags(n: Node)
    requires n.OTag? || n.CTag? || n.Tag?
    ensures n.OTag? ==> NodeKind(n) == KOTag && Known(n) == OTag(n.otag, n.oblock, TagAttrs("", n.oargs.tab))
    ensures n.CTag? ==> NodeKind(n) == KCTag && Known(n) == n
    ensures n.Tag? ==> NodeKind(n) == KTag && Known(n) == Tag(n.tag, TagAttrs("", n.args.tab), n.tblock, Known(n.body), n.idx)
  {
  }

  lemma DecodeTagFields(j: Json, k: Kind, tg: string, b: bool, a: Json, c: Json, i: Json,
                        at: TagAttrs, ix: Option<int>)
    requires j.JObj?
    requires "tag" in j.obj && "isblock" in j.obj && "args" in j.obj && "idx" in j.obj && "content" in j.obj
    requires j.obj["tag"] == JStr(tg) && j.obj["isblock"] == JBool(b) && j.obj["args"] == a
    requires j.obj["idx"] == i && j.obj["content"] == c
    requires DecodeAttrs(a) == Some(at) && DecodeIdx(i) == Some(ix)
    ensures k == KOTag ==> DecodeKind(j, k) == Some(OTag(tg, b, at))
    ensures k == KCTag ==> DecodeKind(j, k) == Some(CTag(tg))
    ensures k == KTag && Decode(c).Some? ==> DecodeKind(j, k) == Some(Tag(tg, at, b, Decode(c).value, ix))
  {
  }

  /** IND, HDR, ELT and REF store their body and one more field. */
  function BodyKey(n: Node): string
    requires n.Ind? || n.Hdr? || n.Elt? || n.Ref?
  {
    if n.Elt? then "subtype" else if n.Ref? then "ref" else "level"
  }

  function BodyField(n: Node): Json
    requires n.Ind? || n.Hdr? || n.Elt? || n.Ref?
  {
    if n.Ref? then JStr(n.ref) else if n.Elt? then JInt(n.subtype) else JInt(n.level)
  }

  /** What an IND, HDR, ELT or REF encoding holds besides the decorator's
      fields: the body and the one extra field. */
  predicate BodyEncoded(n: Node)
    requires n.Ind? || n.Hdr? || n.Elt? || n.Ref?
  {
    var o := Encode(n, Plain).obj;
    BodyKey(n) in o && o[BodyKey(n)] == BodyField(n) && "content" in o && o["content"] == Encode(n.body, Plain)
  }

  lemma EncodeInd(l: int, body: Node)
    ensures BodyEncoded(Ind(l, body))
  {
    EncodeField(Ind(l, body), Plain, "level");
    EncodeField(Ind(l, body), Plain, "content");
  }

  lemma EncodeHdr(l: int, body: Node)
    ensures BodyEncoded(Hdr(l, body))
  {
    EncodeField(Hdr(l, body), Plain, "level");
    EncodeField(Hdr(l, body), Plain, "content");
  }

  lemma EncodeElt(st: int, body: Node)
    ensures BodyEncoded(Elt(st, body))
  {
    EncodeField(Elt(st, body), Plain, "subtype");
    EncodeField(Elt(st, body), Plain, "content");
  }

  lemma EncodeRef(r: string, body: Node)
    ensures BodyEncoded(Ref(r, body))
  {
    EncodeField(Ref(r, body), Plain, "ref");
    EncodeField(Ref(r, body), Plain, "content");
  }

  lemma KnownBody(n: Node)
    requires n.Ind? || n.Hdr? || n.Elt? || n.Ref?
    ensures Known(n) == n.(body := Known(n.body))
  {
  }

  /** A node with a body and one more field decodes from those two fields
      alone. */
  lemma DecodeBodyFields(j: Json, n: Node, body: Node)
    requires n.Ind? || n.Hdr? || n.Elt? || n.Ref?
    requires j.JObj? && BodyKey(n) in j.obj && "content" in j.obj && j.obj[BodyKey(n)] == BodyField(n)
    requires Decode(j.obj["content"]) == Some(body)
    ensures DecodeKind(j, NodeKind(n)) == Some(n.(body := body))
  {
  }

  lemma DecodeEncodeBody(n: Node)
    requires n.Ind? || n.Hdr? || n.Elt? || n.Ref?
    requires BodyEncoded(n) && Decode(Encode(n.body, Plain)) == Some(Known(n.body))
    ensures Decode(Encode(n, Plain)) == Some(Known(n))
  {
    DecodeAt(Encode(n, Plain), n);
    DecodeBodyFields(Encode(n, Plain), n, Known(n.body));
    KnownBody(n);
  }

  /** An environment decodes from its type, level and item array. */
  lemma DecodeEnvFields(j: Json, e: EnvType, l: int, c: seq<Json>, items: seq<Node>)
    requires j.JObj? && "envtype" in j.obj && "level" in j.obj && "content" in j.obj
    requires j.obj["envtype"] == JStr(EnvTypeName(e)) && j.obj["level"] == JInt(l)
    requires j.obj["content"] == JArr(c) && DecodeList(c) == Some(items)
    ensures DecodeKind(j, KEnv) == Some(Env(e, l, items))
  {
    assert DecodeEnvType(EnvTypeName(e)) == Some(e);
  }

  lemma EncodeEnv(e: EnvType, l: int, items: seq<Node>)
    ensures var o := Encode(Env(e, l, items), Plain).obj;
      && "envtype" in o && "level" in o && "content" in o
      && o["envtype"] == JStr(EnvTypeName(e)) && o["level"] == JInt(l)
      && o["content"] == JArr(EncodeList(items, Plain))
  {
    var n := Env(e, l, items);
    EncodeField(n, Plain, "envtype");
    EncodeField(n, Plain, "level");
    EncodeField(n, Plain, "content");
  }

  lemma KnownEnv(e: EnvType, l: int, items: seq<Node>)
    ensures NodeKind(Env(e, l, items)) == KEnv && Known(Env(e, l, items)) == Env(e, l, KnownList(items))
  {
  }

  lemma DecodeEncodeEnv(e: EnvType, l: int, items: seq<Node>)
    requires DecodeList(EncodeList(items, Plain)) == Some(KnownList(items))
    ensures Decode(Encode(Env(e, l, items), Plain)) == Some(Known(Env(e, l, items)))
  {
    var n := Env(e, l, items);
    DecodeAt(Encode(n, Plain), n);
    EncodeEnv(e, l, items);
    DecodeEnvFields(Encode(n, Plain), e, l, EncodeList(items, Plain), KnownList(items));
    KnownEnv(e, l, items);
  }

  lemma {:induction false} DecodeEncodeItems(n: Node)
    requires n.Pre? || n.Para? || n.Seq? || n.Tmpl? || n.It? || n.Bold? || n.Link?
    ensures Decode(Encode(n, Plain)) == Some(Known(n))
    decreases n, 1
  {
    DecodeEncodeList(n.items);
    var c := EncodeContent(n.items, Plain);
    ItemsFields(n);
    EncodeField(n, Plain, "content");
    assert DecodeContent(c) == Some(KnownList(n.items));
    DecodeItemsFields(Encode(n, Plain), NodeKind(n), KnownList(n.items));
    KnownItems(n);
    DecodeAt(Encode(n, Plain), n);
  }

  lemma KnownItems(n: Node)
    requires n.Pre? || n.Para? || n.Seq? || n.Tmpl? || n.It? || n.Bold? || n.Link?
    ensures n.Pre? ==> NodeKind(n) == KPre && Known(n) == Pre(KnownList(n.items))
    ensures n.Para? ==> NodeKind(n) == KPara && Known(n) == Para(KnownList(n.items))
    ensures n.Seq? ==> NodeKind(n) == KSeq && Known(n) == Seq(KnownList(n.items))
    ensures n.Tmpl? ==> NodeKind(n) == KTmpl && Known(n) == Tmpl(KnownList(n.items))
    ensures n.It? ==> NodeKind(n) == KIt && Known(n) == It(KnownList(n.items))
    ensures n.Bold? ==> NodeKind(n) == KBold && Known(n) == Bold(KnownList(n.items))
    ensures n.Link? ==> NodeKind(n) == KLink && Known(n) == Link(KnownList(n.items))
  {
  }

  lemma ItemsFields(n: Node)
    requires n.Pre? || n.Para? || n.Seq? || n.Tmpl? || n.It? || n.Bold? || n.Link?
    ensures Fields(n, Plain) == map["content" := EncodeContent(n.items, Plain)]
  {
  }

  lemma DecodeItemsFields(j: Json, k: Kind, items: seq<Node>)
    requires j.JObj? && "content" in j.obj && DecodeContent(j.obj["content"]) == Some(items)
    ensures k == KPre ==> DecodeKind(j, k) == Some(Pre(items))
    ensures k == KPara ==> DecodeKind(j, k) == Some(Para(items))
    ensures k == KSeq ==> DecodeKind(j, k) == Some(Seq(items))
    ensures k == KTmpl ==> DecodeKind(j, k) == Some(Tmpl(items))
    ensures k == KIt ==> DecodeKind(j, k) == Some(It(items))
    ensures k == KBold ==> DecodeKind(j, k) == Some(Bold(items))
    ensures k == KLink ==> DecodeKind(j, k) == Some(Link(items))
  {
  }

  lemma {:induction false} DecodeEncodeList(items: seq<Node>)
    ensures DecodeList(EncodeList(items, Plain)) == Some(KnownList(items))
    decreases items, 0
  {
    if items != [] {
      DecodeEncode(items[0]);
      DecodeEncodeList(items[1..]);
      assert EncodeList(items, Plain)[1..] == EncodeList(items[1..], Plain);
    }
  }

  /** `str()` of an unmatched quote delimiter: its JSON dump with sorted keys. */
  function DelimDump(c: string): (r: string)
  {
    "{\"content\": \"" + c + "\", \"type\": \"DELIM\", \"wikinode\": \"WikiDelimNode\"}"
  }

  /** The dump keeps the quote run but is never the run itself, so an
      unmatched `''` does not come out as `''`. */
  lemma DelimDumpNotSpelling(c: string)
    requires c == "''" || c == "'''"
    ensures DelimDump(c) != c
    ensures |DelimDump(c)| > 13 + |c| && DelimDump(c)[13..13 + |c|] == c
  {
  }
}
