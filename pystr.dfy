/** The Python built-ins the wiki translator leans on (string methods, list
    indexing, exceptions), written out as pure functions so that the rest of
    the model can use them with Python's own edge cases. */
module PyStr {

  datatype Option<T> = None | Some(value: T)

  /** The exceptions the translator can raise. */
  datatype PyError =
    | IndexError
    | TypeError
    | AttributeError
    | ValueError
    | KeyError
    | UnexpectedTokenError
    | TagAttributeSyntaxError
    | RecursionError

  /** A computation that either returns a value or raises. */
  datatype Result<T> = Ok(value: T) | Err(error: PyError)

  /** Python's `str.isspace` for one character. */
  predicate IsSpace(c: char)
  {
    c == ' ' || c == '\t' || c == '\n' || c == '\r' || c == '\U{000B}' || c == '\U{000C}'
    || ('\U{001C}' <= c <= '\U{001F}') || c == '\U{0085}' || c == '\U{00A0}' || c == '\U{1680}'
    || ('\U{2000}' <= c <= '\U{200A}') || c == '\U{2028}' || c == '\U{2029}' || c == '\U{202F}'
    || c == '\U{205F}' || c == '\U{3000}'
  }

  /** The regular-expression class `[ \t]`. */
  predicate IsBlank(c: char)
  {
    c == ' ' || c == '\t'
  }

  predicate IsAsciiLetter(c: char)
  {
    ('a' <= c <= 'z') || ('A' <= c <= 'Z')
  }

  predicate IsDigit(c: char)
  {
    '0' <= c <= '9'
  }

  predicate StartsWith(s: string, p: string)
  {
    |p| <= |s| && s[..|p|] == p
  }

  predicate EndsWith(s: string, p: string)
  {
    |p| <= |s| && s[|s| - |p|..] == p
  }

  /** `c * n`: a negative or zero count gives the empty string, as in Python. */
  function Repeat(s: string, n: int): (r: string)
    ensures n <= 0 ==> r == ""
    ensures n > 0 ==> StartsWith(r, s) && |r| >= |s|
    ensures forall i :: 0 <= i < |r| ==> r[i] in s
    decreases if n <= 0 then 0 else n
  {
    if n <= 0 then "" else s + Repeat(s, n - 1)
  }

  lemma {:induction false} RepeatLength(s: string, n: int)
    ensures |Repeat(s, n)| == if n <= 0 then 0 else n * |s|
    decreases if n <= 0 then 0 else n
  {
    if n > 0 {
      RepeatLength(s, n - 1);
    }
  }

  /** `s.lstrip()`: drop leading whitespace. */
  function LStrip(s: string): (r: string)
    ensures |r| <= |s| && r == s[|s| - |r|..]
    ensures r == "" || !IsSpace(r[0])
    ensures forall i :: 0 <= i < |s| - |r| ==> IsSpace(s[i])
  {
    if |s| > 0 && IsSpace(s[0]) then LStrip(s[1..]) else s
  }

  /** `s.rstrip()`: drop trailing whitespace. */
  function RStrip(s: string): (r: string)
    ensures |r| <= |s| && r == s[..|r|]
    ensures r == "" || !IsSpace(r[|r| - 1])
    ensures forall i :: |r| <= i < |s| ==> IsSpace(s[i])
  {
    if |s| > 0 && IsSpace(s[|s| - 1]) then RStrip(s[..|s| - 1]) else s
  }

  /** `r` sits in `s` at offset `a` with only whitespace before and after
      it. */
  predicate Within(s: string, a: nat, r: string)
  {
    && a + |r| <= |s|
    && r == s[a..a + |r|]
    && (forall i :: 0 <= i < a ==> IsSpace(s[i]))
    && (forall i :: a + |r| <= i < |s| ==> IsSpace(s[i]))
  }

  /** A prefix `r` of a suffix `l` of `s`, where only whitespace was cut
      off to reach each of them, sits in `s` where `l` starts. */
  lemma StripSpan(s: string, l: string, r: string)
    requires |l| <= |s| && l == s[|s| - |l|..]
    requires forall i :: 0 <= i < |s| - |l| ==> IsSpace(s[i])
    requires |r| <= |l| && r == l[..|r|]
    requires forall i :: |r| <= i < |l| ==> IsSpace(l[i])
    ensures Within(s, |s| - |l|, r)
  {
    var a := |s| - |l|;
    assert s[a..a + |r|] == l[..|r|];
    forall i | a + |r| <= i < |s|
      ensures IsSpace(s[i])
    {
      assert s[i] == l[i - a];
    }
  }

  /** `s.strip()`: the middle of `s` left once whitespace is dropped from
      both ends (`StripSlice` says where it sits in `s`). */
  function Strip(s: string): (r: string)
    ensures |r| <= |s|
    ensures r == "" || (!IsSpace(r[0]) && !IsSpace(r[|r| - 1]))
  {
    RStrip(LStrip(s))
  }

  /** `s.strip()` is the slice of `s` that starts after the leading
      whitespace, which `LStrip` measures, and is followed only by
      whitespace. */
  lemma StripSlice(s: string)
    ensures Within(s, |s| - |LStrip(s)|, Strip(s))
  {
    StripSpan(s, LStrip(s), RStrip(LStrip(s)));
  }

  /** `s.lstrip(c)` for one character `c`. */
  function LStripChar(s: string, c: char): (r: string)
    ensures |r| <= |s| && r == s[|s| - |r|..]
    ensures r == "" || r[0] != c
  {
    if |s| > 0 && s[0] == c then LStripChar(s[1..], c) else s
  }

  /** `s.rstrip(c)` for one character `c`. */
  function RStripChar(s: string, c: char): (r: string)
    ensures |r| <= |s| && r == s[..|r|]
    ensures r == "" || r[|r| - 1] != c
  {
    if |s| > 0 && s[|s| - 1] == c then RStripChar(s[..|s| - 1], c) else s
  }

  /** Index of the first occurrence of `c` in `s`, if any. */
  function Find(s: string, c: char): (r: Option<nat>)
    ensures r.Some? ==> r.value < |s| && s[r.value] == c
    ensures r.Some? ==> forall i :: 0 <= i < r.value ==> s[i] != c
    ensures r.None? ==> forall i :: 0 <= i < |s| ==> s[i] != c
  {
    if |s| == 0 then None
    else if s[0] == c then Some(0)
    else match Find(s[1..], c)
      case None => None
      case Some(k) => Some(k + 1)
  }

  /** `s.partition(c)`: the text before the first `c`, the separator, the rest. */
  function Partition(s: string, c: char): (r: (string, string, string))
    ensures r.0 + r.1 + r.2 == s
    ensures r.1 == "" ==> r.0 == s && r.2 == ""
    ensures r.1 == "" || r.1 == [c]
    ensures forall i :: 0 <= i < |r.0| ==> r.0[i] != c
  {
    match Find(s, c)
    case None => (s, "", "")
    case Some(k) => (s[..k], [c], s[k + 1..])
  }

  /** The first whitespace-free word of `s` (which starts with a non-space). */
  function WordAt(s: string): (r: string)
    ensures |r| <= |s| && r == s[..|r|]
    ensures forall i :: 0 <= i < |r| ==> !IsSpace(r[i])
    ensures |r| == |s| || IsSpace(s[|r|])
  {
    if |s| == 0 || IsSpace(s[0]) then "" else [s[0]] + WordAt(s[1..])
  }

  /** `s.split()`: the maximal runs of non-whitespace characters, in order. */
  function Split(s: string): seq<string>
    decreases |s|, 1
  {
    SplitStripped(LStrip(s))
  }

  /** `Split` of a string that starts with a word (or is empty). */
  function SplitStripped(t: string): seq<string>
    requires t == "" || !IsSpace(t[0])
    decreases |t|, 0
  {
    if t == "" then []
    else
      var w := WordAt(t);
      [w] + Split(t[|w|..])
  }

  /** Python's `str.upper` on the ASCII letters. */
  function UpperChar(c: char): char
  {
    if 'a' <= c <= 'z' then (c as int - 32) as char else c
  }

  function Upper(s: string): (r: string)
    ensures |r| == |s|
    ensures forall i :: 0 <= i < |s| ==> r[i] == UpperChar(s[i])
  {
    if |s| == 0 then "" else [UpperChar(s[0])] + Upper(s[1..])
  }

  function DigitChar(d: nat): char
    requires d < 10
  {
    ('0' as int + d) as char
  }

  /** `'%d' % n`. */
  function NatToStr(n: nat): (r: string)
    ensures |r| > 0
    ensures forall i :: 0 <= i < |r| ==> IsDigit(r[i])
  {
    if n < 10 then [DigitChar(n)] else NatToStr(n / 10) + [DigitChar(n % 10)]
  }

  function IntToStr(i: int): (r: string)
    ensures |r| > 0
  {
    if i < 0 then "-" + NatToStr(-i) else NatToStr(i)
  }

  function Concat(parts: seq<string>): (r: string)
    ensures |parts| == 0 ==> r == ""
  {
    if |parts| == 0 then "" else Concat(parts[..|parts| - 1]) + parts[|parts| - 1]
  }

  /** Python's list subscript: a negative index counts from the end, anything
      outside `-n .. n-1` raises IndexError (here: None). */
  function PyIndex(i: int, n: nat): (r: Option<nat>)
    ensures r.Some? ==> r.value < n
    ensures r.Some? <==> -(n as int) <= i < n
    ensures 0 <= i < n ==> r == Some(i)
    ensures -(n as int) <= i < 0 ==> r == Some(n + i)
  {
    if 0 <= i < n then Some(i) else if -(n as int) <= i < 0 then Some(n + i) else None
  }

  /** Where a Python slice `xs[i:]` starts, after clamping. */
  function SliceStart(i: int, n: nat): (r: nat)
    ensures r <= n
    ensures 0 <= i <= n ==> r == i
  {
    if i < 0 then (if i + n < 0 then 0 else i + n) else if i > n then n else i
  }

  /** The values of a run of computations done one after another, or the
      exception of the first one that raised. */
  function Collect<T>(rs: seq<Result<T>>): Result<seq<T>>
  {
    if rs == [] then Ok([])
    else match Collect(rs[..|rs| - 1])
      case Err(e) => Err(e)
      case Ok(vs) =>
        match rs[|rs| - 1]
        case Err(e) => Err(e)
        case Ok(v) => Ok(vs + [v])
  }

  /** The run succeeds exactly when every computation does, and then
      yields each one's value in order. */
  lemma {:induction false} CollectOk<T>(rs: seq<Result<T>>)
    ensures Collect(rs).Ok? <==> forall k :: 0 <= k < |rs| ==> rs[k].Ok?
    ensures Collect(rs).Ok? ==>
      |Collect(rs).value| == |rs| && forall k :: 0 <= k < |rs| ==> rs[k] == Ok(Collect(rs).value[k])
  {
    if rs != [] {
      var pre := rs[..|rs| - 1];
      CollectOk(pre);
      assert forall k :: 0 <= k < |pre| ==> pre[k] == rs[k];
    }
  }

  /** A failed run fails with the exception of its first failure. */
  lemma {:induction false} CollectErr<T>(rs: seq<Result<T>>, j: nat)
    requires j < |rs| && rs[j].Err? && forall k :: 0 <= k < j ==> rs[k].Ok?
    ensures Collect(rs) == Err(rs[j].error)
  {
    var pre := rs[..|rs| - 1];
    if j < |pre| {
      assert forall k :: 0 <= k < j ==> pre[k] == rs[k];
      CollectErr(pre, j);
    } else {
      CollectOk(pre);
    }
  }

  /** Running one more computation. */
  lemma CollectStep<T>(rs: seq<Result<T>>, i: nat)
    requires i < |rs|
    ensures Collect(rs[..i + 1]) ==
      match Collect(rs[..i])
      case Err(e) => Err(e)
      case Ok(vs) =>
        match rs[i]
        case Err(e) => Err(e)
        case Ok(v) => Ok(vs + [v])
  {
    assert rs[..i + 1][..i] == rs[..i];
  }

  /** Once a leading part of the run has failed, so has the whole run. */
  lemma {:induction false} CollectErrPersists<T>(rs: seq<Result<T>>, j: nat)
    requires j <= |rs| && Collect(rs[..j]).Err?
    ensures Collect(rs) == Collect(rs[..j])
    decreases |rs|
  {
    if j < |rs| {
      var pre := rs[..|rs| - 1];
      assert pre[..j] == rs[..j];
      CollectErrPersists(pre, j);
    } else {
      assert rs[..j] == rs;
    }
  }

  lemma TakeNext<T>(xs: seq<T>, i: nat)
    requires i < |xs|
    ensures xs[..i + 1] == xs[..i] + [xs[i]]
  {
  }

  lemma LastOfAppend<T>(x: seq<T>, y: seq<T>)
    requires y != []
    ensures (x + y)[|x + y| - 1] == y[|y| - 1]
  {
  }

  // ---------------------------------------------------------------------
  // Python values seen from a formatter

  /** A node's `format()` where a string is required: concatenating `None`
      raises `TypeError`. */
  function Str(r: Result<Option<string>>): (s: Result<string>)
    ensures s.Ok? <==> r.Ok? && r.value.Some?
    ensures s.Ok? ==> s.value == r.value.value
  {
    match r
    case Err(e) => Err(e)
    case Ok(None) => Err(TypeError)
    case Ok(Some(x)) => Ok(x)
  }

  /** `"%s" % x`. */
  function Show(x: Option<string>): string
  {
    if x.None? then "None" else x.value
  }

  /** Python truth of a string that may be `None`. */
  predicate Truthy(x: Option<string>)
  {
    x.Some? && x.value != ""
  }

  /** A string result with text put before and after it. */
  function Wrap(r: Result<string>, pre: string, post: string): (o: Result<Option<string>>)
    ensures r.Err? ==> o == Err(r.error)
    ensures r.Ok? ==> o == Ok(Some(pre + r.value + post))
  {
    match r
    case Err(e) => Err(e)
    case Ok(s) => Ok(Some(pre + s + post))
  }

  /** `u` occurs somewhere in `t`. */
  predicate Contains(t: string, u: string)
  {
    exists i, j | 0 <= i <= j <= |t| :: t[i..j] == u
  }

  lemma PrefixTrans(a: string, b: string, c: string)
    requires StartsWith(a, b) && StartsWith(b, c)
    ensures StartsWith(a, c)
  {
    assert a[..|c|] == a[..|b|][..|c|];
  }

  /** A prefix of the output keeps every occurrence it holds. */
  lemma ContainsPrefix(t: string, pre: string, u: string, i: nat)
    requires StartsWith(t, pre) && i + |u| <= |pre| && pre[i..i + |u|] == u
    ensures Contains(t, u)
  {
    assert t[..|pre|] == pre;
    assert t[..|pre|][i..i + |u|] == t[i..i + |u|];
  }

  /** Every part of a concatenation occurs in it. */
  lemma {:induction false} ConcatContains(ls: seq<string>, k: nat)
    requires k < |ls|
    ensures Contains(Concat(ls), ls[k])
    decreases |ls|
  {
    var pre := ls[..|ls| - 1];
    var t := Concat(ls);
    assert t == Concat(pre) + ls[|ls| - 1];
    if k == |ls| - 1 {
      assert t[|Concat(pre)|..|t|] == ls[k];
    } else {
      ConcatContains(pre, k);
      assert pre[k] == ls[k];
      ContainsBefore(Concat(pre), ls[|ls| - 1], ls[k]);
    }
  }

  /** A heading followed by a concatenation starts with the heading and
      contains every part. */
  lemma HeadedContains(h: string, ls: seq<string>, k: nat)
    requires k < |ls|
    ensures StartsWith(h + Concat(ls), h) && Contains(h + Concat(ls), ls[k])
  {
    ConcatContains(ls, k);
    ContainsAfter(h, Concat(ls), ls[k]);
    assert (h + Concat(ls))[..|h|] == h;
  }

  /** Text put after a prefix keeps its occurrences. */
  lemma ContainsAfter(h: string, b: string, u: string)
    requires Contains(b, u)
    ensures Contains(h + b, u)
  {
    var i, j :| 0 <= i <= j <= |b| && b[i..j] == u;
    assert (h + b)[|h| + i..|h| + j] == b[i..j];
  }

  /** Text put before a suffix keeps its occurrences. */
  lemma ContainsBefore(a: string, b: string, u: string)
    requires Contains(a, u)
    ensures Contains(a + b, u)
  {
    var i, j :| 0 <= i <= j <= |a| && a[i..j] == u;
    assert (a + b)[i..j] == a[i..j];
  }

  /** An element's opening and closing tags enclose whatever its body
      holds. */
  lemma Enclosed(open: string, body: string, close: string, u: string)
    requires Contains(body, u)
    ensures var o := open + body + close;
      StartsWith(o, open) && EndsWith(o, close) && Contains(o, u)
  {
    var o := open + body + close;
    ContainsAfter(open, body, u);
    ContainsBefore(open + body, close, u);
    assert o[..|open|] == open;
    assert o[|o| - |close|..] == close;
  }

  /** Joining two lists of parts is joining each and concatenating. */
  lemma {:induction false} ConcatAppend(a: seq<string>, b: seq<string>)
    ensures Concat(a + b) == Concat(a) + Concat(b)
    decreases |b|
  {
    if b == [] {
      assert a + b == a;
    } else {
      var c := b[..|b| - 1];
      assert (a + b)[..|a + b| - 1] == a + c;
      ConcatAppend(a, c);
    }
  }

}
