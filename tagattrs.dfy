/** `TagAttributes`: the parser of the attribute string of an HTML-like tag,
    `name="value"` pairs and bare names, as the wiki markup tokenizer feeds
    it the text between the tag name and the closing `>`. */
module AttrParser {
  import opened PyStr
  import opened WikiToken

  /** The class `[a-zA-Z0-9_-]` of the `attrstart` expression. */
  predicate IsNameChar(c: char)
  {
    IsAsciiLetter(c) || IsDigit(c) || c == '_' || c == '-'
  }

  /** What `^[a-zA-Z0-9_-]+` matches at the start of `s` (empty: no match). */
  function NameRun(s: string): (r: string)
    ensures |r| <= |s| && r == s[..|r|]
    ensures forall i :: 0 <= i < |r| ==> IsNameChar(r[i])
    ensures |r| == |s| || !IsNameChar(s[|r|])
  {
    if |s| == 0 || !IsNameChar(s[0]) then "" else [s[0]] + NameRun(s[1..])
  }

  /** What `valseg` matches at the start of `s`: the longest run without a
      double quote (empty: no match). */
  function ValueRun(s: string): (r: string)
    ensures |r| <= |s| && r == s[..|r|]
    ensures forall i :: 0 <= i < |r| ==> r[i] != '"'
    ensures |r| == |s| || s[|r|] == '"'
  {
    if |s| == 0 || s[0] == '"' then "" else [s[0]] + ValueRun(s[1..])
  }

  /** The exceptions the constructor can raise: its own syntax error, and
      the ones a missing value match or a missing closing quote cause. */
  predicate Raises(e: PyError)
  {
    e == TagAttributeSyntaxError || e == AttributeError || e == IndexError
  }

  /** The attribute table built from what is left of the string, `s`, on top
      of the pairs `tab` read so far: one turn of the `while s != ''` loop per
      call. */
  function Scan(s: string, tab: map<string, AttrVal>): (r: Result<map<string, AttrVal>>)
    ensures r.Ok? ==> tab.Keys <= r.value.Keys
    ensures r.Ok? && s != "" ==> |r.value| > 0
    ensures r.Err? ==> Raises(r.error)
    decreases |s|, 1
  {
    if s == "" then Ok(tab) else Step(Strip(s), tab)
  }

  /** One turn of the loop on the stripped string `t`: an attribute name,
      then either a quoted value or nothing. */
  function Step(t: string, tab: map<string, AttrVal>): (r: Result<map<string, AttrVal>>)
    ensures r.Ok? ==> tab.Keys <= r.value.Keys && |r.value| > 0
    ensures r.Err? ==> Raises(r.error)
    decreases |t|, 0
  {
    var name := NameRun(t);
    if name == "" then Err(TagAttributeSyntaxError)
    else
      var rest := t[|name|..];
      if StartsWith(rest, "=\"") then
        var v := ValueRun(rest[2..]);
        var after := rest[2 + |v|..];
        if v == "" then Err(AttributeError)
        else if after == "" then Err(IndexError)
        else Scan(after[1..], tab[name := AStr(v)])
      else Scan(rest, tab[name := AOne])
  }

  /** `TagAttributes(string)`: None and the empty string give no attributes
      and an empty printable form; otherwise the printable form is the string
      itself. */
  function Attributes(arg: Option<string>): (r: Result<TagAttrs>)
    ensures r.Ok? && arg.Some? && arg.value != "" ==> r.value.Truthy() && r.value.printable == arg.value
    ensures r.Err? ==> Raises(r.error)
  {
    if arg.None? || arg.value == "" then Ok(TagAttrs("", map[]))
    else match Scan(arg.value, map[])
      case Ok(tab) => Ok(TagAttrs(arg.value, tab))
      case Err(e) => Err(e)
  }

  /** The constructor's loop, consuming `s` from the front. */
  method ParseTagAttributes(arg: Option<string>) returns (r: Result<TagAttrs>)
    ensures r == Attributes(arg)
  {
    if arg.None? || arg.value == "" {
      return Ok(TagAttrs("", map[]));
    }
    var s := arg.value;
    var tab: map<string, AttrVal> := map[];
    while s != ""
      invariant Scan(s, tab) == Scan(arg.value, map[])
      decreases |s|
    {
      s := Strip(s);
      var name := NameRun(s);
      if name == "" {
        return Err(TagAttributeSyntaxError);
      }
      s := s[|name|..];
      var val: AttrVal;
      if StartsWith(s, "=\"") {
        s := s[2..];
        var seg := ValueRun(s);
        if seg == "" {
          // valseg found nothing to match; reading its group raises.
          return Err(AttributeError);
        }
        s := s[|seg|..];
        if s == "" {
          return Err(IndexError);
        }
        // `seg` stopped at a double quote, so the backslash branch is never taken.
        s := s[1..];
        val := AStr(seg);
      } else {
        val := AOne;
      }
      tab := tab[name := val];
    }
    return Ok(TagAttrs(arg.value, tab));
  }

  // ---------------------------------------------------------------------
  // Writing an attribute list out and reading it back

  datatype Attr = Attr(name: string, val: AttrVal)

  /** An attribute that can be written: a non-empty name of name characters
      and, for a quoted value, a non-empty value without double quotes. */
  predicate Writable(a: Attr)
  {
    && a.name != ""
    && (forall i :: 0 <= i < |a.name| ==> IsNameChar(a.name[i]))
    && (a.val.AStr? ==> a.val.s != "" && forall i :: 0 <= i < |a.val.s| ==> a.val.s[i] != '"')
  }

  predicate AllWritable(attrs: seq<Attr>)
  {
    forall k :: 0 <= k < |attrs| ==> Writable(attrs[k])
  }

  function Render(a: Attr): (r: string)
    requires Writable(a)
    ensures r != "" && !IsSpace(r[0]) && !IsSpace(r[|r| - 1])
  {
    match a.val
    case AOne => a.name
    case AStr(v) => a.name + "=\"" + v + "\""
  }

  /** The attributes written one after the other, separated by single spaces. */
  function Unparse(attrs: seq<Attr>): (r: string)
    requires AllWritable(attrs)
    ensures attrs == [] <==> r == ""
    ensures r != "" ==> !IsSpace(r[0]) && !IsSpace(r[|r| - 1])
  {
    if attrs == [] then ""
    else if |attrs| == 1 then Render(attrs[0])
    else Render(attrs[0]) + " " + Unparse(attrs[1..])
  }

  /** The table the attributes make, a later name overriding an earlier one. */
  function Table(tab: map<string, AttrVal>, attrs: seq<Attr>): map<string, AttrVal>
    decreases attrs
  {
    if attrs == [] then tab else Table(tab[attrs[0].name := attrs[0].val], attrs[1..])
  }

  lemma StripUnchanged(s: string)
    requires s != "" && !IsSpace(s[0]) && !IsSpace(s[|s| - 1])
    ensures Strip(s) == s
  {
  }

  lemma StripLeadingSpace(s: string)
    ensures Strip(" " + s) == Strip(s)
  {
    assert (" " + s)[1..] == s;
  }

  lemma {:induction false} NameRunOf(p: string, q: string)
    requires p != "" && forall i :: 0 <= i < |p| ==> IsNameChar(p[i])
    requires q == "" || !IsNameChar(q[0])
    ensures NameRun(p + q) == p
    decreases |p|
  {
    assert (p + q)[0] == p[0];
    if |p| == 1 {
      assert (p + q)[1..] == q;
      assert NameRun(q) == "";
    } else {
      assert (p + q)[1..] == p[1..] + q;
      NameRunOf(p[1..], q);
      assert [p[0]] + p[1..] == p;
    }
  }

  lemma {:induction false} ValueRunOf(v: string, q: string)
    requires forall i :: 0 <= i < |v| ==> v[i] != '"'
    ensures ValueRun(v + "\"" + q) == v
    decreases |v|
  {
    var s := v + "\"" + q;
    if v == "" {
      assert s[0] == '"';
    } else {
      assert s[0] == v[0];
      assert s[1..] == v[1..] + "\"" + q;
      ValueRunOf(v[1..], q);
      assert [v[0]] + v[1..] == v;
    }
  }

  /** One attribute followed by the rest of the string (`tail` is empty or a
      space and more attributes) is read as that attribute, then the tail. */
  lemma {:induction false} ScanRender(a: Attr, tail: string, tab: map<string, AttrVal>)
    requires Writable(a)
    requires tail == "" || tail[0] == ' '
    requires tail == "" || !IsSpace(tail[|tail| - 1])
    ensures Scan(Render(a) + tail, tab) == Scan(tail, tab[a.name := a.val])
  {
    RenderStripped(a, tail, tab);
    match a.val {
      case AOne =>
        assert Render(a) + tail == a.name + tail;
        StepBare(a.name, tail, tab);
      case AStr(v) =>
        RegroupQuoted(a.name, v, tail);
        StepQuoted(a.name, v, tail, tab);
    }
  }

  lemma RegroupQuoted(name: string, v: string, tail: string)
    ensures name + "=\"" + v + "\"" + tail == name + ("=\"" + v + "\"" + tail)
  {
  }

  /** Stripping an attribute followed by its tail changes nothing. */
  lemma RenderStripped(a: Attr, tail: string, tab: map<string, AttrVal>)
    requires Writable(a)
    requires tail == "" || tail[0] == ' '
    requires tail == "" || !IsSpace(tail[|tail| - 1])
    ensures Scan(Render(a) + tail, tab) == Step(Render(a) + tail, tab)
  {
    var s := Render(a) + tail;
    assert s[0] == Render(a)[0];
    assert s[|s| - 1] == if tail == "" then Render(a)[|Render(a)| - 1] else tail[|tail| - 1];
    StripUnchanged(s);
  }

  lemma StepBare(name: string, tail: string, tab: map<string, AttrVal>)
    requires name != "" && forall i :: 0 <= i < |name| ==> IsNameChar(name[i])
    requires tail == "" || tail[0] == ' '
    ensures Step(name + tail, tab) == Scan(tail, tab[name := AOne])
  {
    NameRunOf(name, tail);
    assert (name + tail)[|name|..] == tail;
    assert !StartsWith(tail, "=\"") by {
      if |tail| >= 2 { assert tail[..2][0] == ' '; }
    }
  }

  lemma StepQuoted(name: string, v: string, tail: string, tab: map<string, AttrVal>)
    requires name != "" && forall i :: 0 <= i < |name| ==> IsNameChar(name[i])
    requires v != "" && forall i :: 0 <= i < |v| ==> v[i] != '"'
    ensures Step(name + ("=\"" + v + "\"" + tail), tab) == Scan(tail, tab[name := AStr(v)])
  {
    var q := "=\"" + v + "\"" + tail;
    QuotedParts(v, tail);
    NameRunOf(name, q);
    assert (name + q)[|name|..] == q;
  }

  /** The pieces `Step` cuts a quoted value and what follows it into. */
  lemma QuotedParts(v: string, tail: string)
    requires forall i :: 0 <= i < |v| ==> v[i] != '"'
    ensures var q := "=\"" + v + "\"" + tail;
      !IsNameChar(q[0]) && StartsWith(q, "=\"") && ValueRun(q[2..]) == v
      && q[2 + |v|..] == "\"" + tail && q[2 + |v|..][1..] == tail
  {
    var q := "=\"" + v + "\"" + tail;
    assert q[2..] == v + "\"" + tail;
    ValueRunOf(v, tail);
    assert q[2 + |v|..] == "\"" + tail;
    assert ("\"" + tail)[1..] == tail;
  }

  /** Writing attributes out and parsing them gives back their table. */
  lemma {:induction false} ScanUnparse(attrs: seq<Attr>, tab: map<string, AttrVal>)
    requires AllWritable(attrs)
    ensures Scan(Unparse(attrs), tab) == Ok(Table(tab, attrs))
    decreases |attrs|
  {
    if |attrs| == 1 {
      ScanRender(attrs[0], "", tab);
      assert Render(attrs[0]) + "" == Render(attrs[0]);
      assert Table(tab[attrs[0].name := attrs[0].val], attrs[1..]) == tab[attrs[0].name := attrs[0].val];
    } else if |attrs| > 1 {
      var tab' := tab[attrs[0].name := attrs[0].val];
      assert AllWritable(attrs[1..]) by {
        forall k | 0 <= k < |attrs[1..]| ensures Writable(attrs[1..][k]) {
          assert attrs[1..][k] == attrs[k + 1];
        }
      }
      ScanUnparseStep(attrs, tab);
      ScanUnparse(attrs[1..], tab');
    }
  }

  lemma ScanUnparseStep(attrs: seq<Attr>, tab: map<string, AttrVal>)
    requires |attrs| > 1 && AllWritable(attrs) && AllWritable(attrs[1..])
    ensures Scan(Unparse(attrs), tab) == Scan(Unparse(attrs[1..]), tab[attrs[0].name := attrs[0].val])
  {
    var rest := Unparse(attrs[1..]);
    var tail := " " + rest;
    var tab' := tab[attrs[0].name := attrs[0].val];
    assert Writable(attrs[0]);
    assert Unparse(attrs) == Render(attrs[0]) + tail;
    assert tail[|tail| - 1] == rest[|rest| - 1];
    ScanRender(attrs[0], tail, tab);
    StripLeadingSpace(rest);
    assert Scan(tail, tab') == Scan(rest, tab');
  }

  lemma {:induction false} AttributesUnparse(attrs: seq<Attr>)
    requires attrs != []
    requires AllWritable(attrs)
    ensures Attributes(Some(Unparse(attrs))) == Ok(TagAttrs(Unparse(attrs), Table(map[], attrs)))
  {
    ScanUnparse(attrs, map[]);
  }

  // ---------------------------------------------------------------------
  // The error paths

  /** A non-empty string that is blank, or whose first non-blank character
      cannot start a name, is a syntax error. */
  lemma AttributesSyntaxError(s: string)
    requires s != ""
    requires Strip(s) == "" || !IsNameChar(Strip(s)[0])
    ensures Attributes(Some(s)) == Err(TagAttributeSyntaxError)
  {
    assert NameRun(Strip(s)) == "";
    assert Scan(s, map[]) == Step(Strip(s), map[]);
  }

  /** An empty quoted value (`name=""`) fails when the value expression
      finds nothing to match. */
  lemma AttributesEmptyValue(name: string)
    requires name != "" && forall i :: 0 <= i < |name| ==> IsNameChar(name[i])
    ensures Attributes(Some(name + "=\"\"")) == Err(AttributeError)
  {
    var e := name + "=\"\"";
    assert e[0] == name[0] && e[|e| - 1] == '"';
    StripUnchanged(e);
    NameRunOf(name, "=\"\"");
    assert e[|name|..] == "=\"\"";
    assert ValueRun("\"") == "";
    assert Scan(e, map[]) == Step(e, map[]);
  }

  /** An unterminated quoted value (`name="value`) fails when the closing
      quote is looked for past the end. */
  lemma AttributesUnterminated(name: string, v: string)
    requires name != "" && forall i :: 0 <= i < |name| ==> IsNameChar(name[i])
    requires v != "" && forall i :: 0 <= i < |v| ==> v[i] != '"'
    requires !IsSpace(v[|v| - 1])
    ensures Attributes(Some(name + "=\"" + v)) == Err(IndexError)
  {
    var u := name + "=\"" + v;
    assert u == name + ("=\"" + v);
    assert u[0] == name[0] && u[|u| - 1] == v[|v| - 1];
    StripUnchanged(u);
    StepUnterminated(name, v);
    assert Scan(u, map[]) == Step(u, map[]);
  }

  lemma StepUnterminated(name: string, v: string)
    requires name != "" && forall i :: 0 <= i < |name| ==> IsNameChar(name[i])
    requires v != "" && forall i :: 0 <= i < |v| ==> v[i] != '"'
    ensures Step(name + ("=\"" + v), map[]) == Err(IndexError)
  {
    var q := "=\"" + v;
    UnterminatedParts(v);
    NameRunOf(name, q);
    assert (name + q)[|name|..] == q;
  }

  /** The pieces `Step` cuts an unterminated quoted value into. */
  lemma UnterminatedParts(v: string)
    requires forall i :: 0 <= i < |v| ==> v[i] != '"'
    ensures var q := "=\"" + v;
      !IsNameChar(q[0]) && StartsWith(q, "=\"") && ValueRun(q[2..]) == v && q[2 + |v|..] == ""
  {
    var q := "=\"" + v;
    assert q[2..] == v;
    ValueRunAll(v);
  }

  lemma {:induction false} ValueRunAll(v: string)
    requires forall i :: 0 <= i < |v| ==> v[i] != '"'
    ensures ValueRun(v) == v
    decreases |v|
  {
    if v != "" {
      ValueRunAll(v[1..]);
      assert [v[0]] + v[1..] == v;
    }
  }
}
