/** The plain-text renderer (`TextWikiMarkup` and its `Text*Node.format`
    methods): paragraph filling, indentation, list numbering and the
    formatting of every node kind. */
module TextRender {
  import opened PyStr
  import opened WikiToken

  // ---------------------------------------------------------------------
  // Paragraph filling (`fmtpara`)

  /** The spaces `fmtpara` puts before the next word of a line holding
      `line`: none at the start, two after a word ending in a full stop, one
      otherwise. */
  function Gap(line: seq<string>): nat
  {
    if line == [] then 0 else if EndsWith(line[|line| - 1], ".") then 2 else 1
  }

  /** A line of words as `fmtpara` lays it out. */
  function JoinWords(line: seq<string>): string
  {
    if line == [] then "" else JoinWords(line[..|line| - 1]) + Repeat(" ", Gap(line[..|line| - 1])) + line[|line| - 1]
  }

  /** The words `str.split` produces: non-empty and free of whitespace. */
  predicate IsWord(w: string)
  {
    w != "" && forall i :: 0 <= i < |w| ==> !IsSpace(w[i])
  }

  /** The lines already emitted and the line being filled. */
  datatype Layout = Layout(done: seq<seq<string>>, cur: seq<string>)

  /** One word: it goes on the current line unless that would pass `width`,
      in which case the current line is emitted first. */
  function Place(st: Layout, w: string, width: int): Layout
  {
    if |JoinWords(st.cur)| + Gap(st.cur) + |w| > width then Layout(st.done + [st.cur], [w])
    else Layout(st.done, st.cur + [w])
  }

  function Fill(words: seq<string>, width: int): Layout
  {
    if words == [] then Layout([], []) else Place(Fill(words[..|words| - 1], width), words[|words| - 1], width)
  }

  /** Emitted lines, each ended by a newline. */
  function Lines(done: seq<seq<string>>): string
  {
    if done == [] then "" else Lines(done[..|done| - 1]) + JoinWords(done[|done| - 1]) + "\n"
  }

  /** `fmtpara(input)`: the words of `input` filled into lines of `width`. */
  function FmtPara(input: string, width: int): string
  {
    var st := Fill(Split(input), width);
    Lines(st.done) + JoinWords(st.cur)
  }

  function Flatten(gs: seq<seq<string>>): seq<string>
  {
    if gs == [] then [] else Flatten(gs[..|gs| - 1]) + gs[|gs| - 1]
  }

  /** A laid-out line fits the width, or holds at most one (overlong) word. */
  predicate Fits(g: seq<string>, width: int)
  {
    |JoinWords(g)| <= width || |g| <= 1
  }

  lemma FlattenSnoc(gs: seq<seq<string>>, g: seq<string>)
    ensures Flatten(gs + [g]) == Flatten(gs) + g
  {
    assert (gs + [g])[..|gs|] == gs;
  }

  lemma PlaceKeepsWords(st: Layout, w: string, width: int)
    ensures var st' := Place(st, w, width); Flatten(st'.done + [st'.cur]) == Flatten(st.done + [st.cur]) + [w]
  {
    FlattenSnoc(st.done, st.cur);
    if |JoinWords(st.cur)| + Gap(st.cur) + |w| > width {
      FlattenSnoc(st.done + [st.cur], [w]);
    } else {
      FlattenSnoc(st.done, st.cur + [w]);
    }
  }

  /** Filling keeps the words, in order: the lines read back give the input
      words. */
  lemma {:induction false} FillKeepsWords(words: seq<string>, width: int)
    ensures var st := Fill(words, width); Flatten(st.done + [st.cur]) == words
  {
    if words != [] {
      var pre := words[..|words| - 1];
      var w := words[|words| - 1];
      FillKeepsWords(pre, width);
      PlaceKeepsWords(Fill(pre, width), w, width);
      assert pre + [w] == words;
    }
  }

  /** No line is wider than `width` unless it is a single word. */
  lemma {:induction false} FillFits(words: seq<string>, width: int)
    ensures var st := Fill(words, width); forall g | g in st.done + [st.cur] :: Fits(g, width)
  {
    if words != [] {
      var pre := words[..|words| - 1];
      var w := words[|words| - 1];
      FillFits(pre, width);
      var st := Fill(pre, width);
      if |JoinWords(st.cur)| + Gap(st.cur) + |w| <= width {
        assert JoinWords(st.cur + [w]) == JoinWords(st.cur) + Repeat(" ", Gap(st.cur)) + w by {
          assert (st.cur + [w])[..|st.cur|] == st.cur;
        }
        assert |Repeat(" ", Gap(st.cur))| == Gap(st.cur) by {
          RepeatLength(" ", Gap(st.cur));
        }
      }
    }
  }

  /** A laid-out line of words starts with a word, not a space, and holds
      no newline. */
  lemma {:induction false} JoinWordsShape(g: seq<string>)
    requires AllWords(g)
    ensures g != [] ==> JoinWords(g) != "" && !IsSpace(JoinWords(g)[0])
    ensures g != [] ==> !IsSpace(JoinWords(g)[|JoinWords(g)| - 1])
    ensures forall i :: 0 <= i < |JoinWords(g)| ==> JoinWords(g)[i] != '\n'
  {
    if g != [] {
      var pre := g[..|g| - 1];
      JoinWordsShape(pre);
      var gap := Repeat(" ", Gap(pre));
      var w := g[|g| - 1];
      assert JoinWords(g) == JoinWords(pre) + gap + w;
      if pre != [] {
        assert JoinWords(g)[0] == JoinWords(pre)[0];
      } else {
        assert gap == "";
        assert JoinWords(g) == w;
      }
      forall i | 0 <= i < |JoinWords(g)|
        ensures JoinWords(g)[i] != '\n'
      {
        if i < |JoinWords(pre)| {
          assert JoinWords(g)[i] == JoinWords(pre)[i];
        } else if i < |JoinWords(pre)| + |gap| {
          assert JoinWords(g)[i] == gap[i - |JoinWords(pre)|];
        } else {
          assert JoinWords(g)[i] == w[i - |JoinWords(pre)| - |gap|];
        }
      }
    }
  }

  /** `fmtpara` as a loop over the words, with the line buffer and its
      length. */
  method Fmtpara(input: string, width: int) returns (output: string)
    ensures output == FmtPara(input, width)
  {
    var words := Split(input);
    SplitGivesWords(input);
    output := "";
    var linebuf := "";
    var length := 0;
    ghost var st := Layout([], []);
    for i := 0 to |words|
      invariant st == Fill(words[..i], width)
      invariant output == Lines(st.done) && linebuf == JoinWords(st.cur) && length == |linebuf|
      invariant AllWords(st.cur)
    {
      var s := words[i];
      var wlen := |s|;
      var wsc := if |linebuf| == 0 then 0 else if EndsWith(linebuf, ".") then 2 else 1;
      GapOfBuffer(st.cur);
      PlaceBuffer(st, s, width);
      if length + wsc + wlen > width {
        output := output + linebuf + "\n";
        wsc := 0;
        length := 0;
        linebuf := "";
      }
      RepeatLength(" ", wsc);
      linebuf := linebuf + Repeat(" ", wsc) + s;
      length := length + wsc + wlen;
      TakeNext(words, i);
      st := Place(st, s, width);
    }
    assert words[..|words|] == words;
    output := output + linebuf;
  }

  lemma SnocAt<T>(xs: seq<T>, x: T, k: nat)
    requires k <= |xs|
    ensures (xs + [x])[k] == if k < |xs| then xs[k] else x
  {
  }

  lemma DropLastAt<T>(xs: seq<T>, k: nat)
    requires k < |xs| - 1
    ensures xs[..|xs| - 1][k] == xs[k]
  {
  }

  /** Placing a word, in terms of the emitted text and the line buffer. */
  lemma PlaceBuffer(st: Layout, w: string, width: int)
    requires IsWord(w) && AllWords(st.cur)
    ensures var st' := Place(st, w, width);
      var over := |JoinWords(st.cur)| + Gap(st.cur) + |w| > width;
      && Lines(st'.done) == (if over then Lines(st.done) + JoinWords(st.cur) + "\n" else Lines(st.done))
      && JoinWords(st'.cur) == (if over then "" + Repeat(" ", 0) + w else JoinWords(st.cur) + Repeat(" ", Gap(st.cur)) + w)
      && AllWords(st'.cur)
  {
    var st' := Place(st, w, width);
    if |JoinWords(st.cur)| + Gap(st.cur) + |w| > width {
      assert (st.done + [st.cur])[..|st.done|] == st.done;
      assert JoinWords([w]) == w by {
        assert [w][..0] == [];
      }
    } else {
      assert (st.cur + [w])[..|st.cur|] == st.cur;
    }
  }

  /** The buffer test of the loop agrees with `Gap` on lines of words. */
  lemma GapOfBuffer(cur: seq<string>)
    requires AllWords(cur)
    ensures Gap(cur) == if |JoinWords(cur)| == 0 then 0 else if EndsWith(JoinWords(cur), ".") then 2 else 1
  {
    if cur != [] {
      var pre := cur[..|cur| - 1];
      assert JoinWords(cur) == JoinWords(pre) + Repeat(" ", Gap(pre)) + cur[|cur| - 1];
    }
  }

  // ---------------------------------------------------------------------
  // `str.split` across a whitespace boundary

  lemma {:induction false} LStripAppend(a: string, b: string)
    ensures LStrip(a) == "" ==> LStrip(a + b) == LStrip(b)
    ensures LStrip(a) != "" ==> LStrip(a + b) == LStrip(a) + b
  {
    if |a| > 0 {
      assert (a + b)[0] == a[0];
      if IsSpace(a[0]) {
        assert (a + b)[1..] == a[1..] + b;
        LStripAppend(a[1..], b);
      }
    } else {
      assert a + b == b;
    }
  }

  lemma {:induction false} WordAtAppend(t: string, b: string)
    requires |WordAt(t)| < |t| || b == "" || IsSpace(b[0])
    ensures WordAt(t + b) == WordAt(t)
  {
    if |t| == 0 {
      assert t + b == b;
    } else {
      assert (t + b)[0] == t[0];
      if !IsSpace(t[0]) {
        assert (t + b)[1..] == t[1..] + b;
        WordAtAppend(t[1..], b);
      }
    }
  }

  /** The seam of `a + b` is whitespace, or one side is empty. */
  predicate Seam(a: string, b: string)
  {
    a == "" || b == "" || IsSpace(a[|a| - 1]) || IsSpace(b[0])
  }

  /** Splitting a concatenation whose seam is whitespace (or an end) splits
      each side. */
  lemma {:induction false} SplitAppend(a: string, b: string)
    requires Seam(a, b)
    ensures Split(a + b) == Split(a) + Split(b)
    decreases |a|, 1
  {
    LStripAppend(a, b);
    if LStrip(a) == "" {
      SplitBlankFront(a, b);
    } else {
      SplitAppendWord(a, b);
    }
  }

  lemma SplitBlankFront(a: string, b: string)
    requires LStrip(a) == "" && LStrip(a + b) == LStrip(b)
    ensures Split(a + b) == Split(a) + Split(b)
  {
    calc {
      Split(a + b);
      SplitStripped(LStrip(a + b));
      SplitStripped(LStrip(b));
      Split(b);
    }
    calc {
      Split(a);
      SplitStripped(LStrip(a));
      SplitStripped("");
      [];
    }
    assert [] + Split(b) == Split(b);
  }

  lemma {:induction false} SplitAppendWord(a: string, b: string)
    requires Seam(a, b)
    requires LStrip(a) != "" && LStrip(a + b) == LStrip(a) + b
    ensures Split(a + b) == Split(a) + Split(b)
    decreases |a|, 0
  {
    var t := LStrip(a);
    var w := WordAt(t);
    SeamWord(a, t, b);
    WordAtAppend(t, b);
    var a' := t[|w|..];
    DropAppend(t, b, |w|);
    SplitAppend(a', b);
    SplitStep(a + b);
    SplitStep(a);
    Assoc([w], Split(a'), Split(b));
  }

  /** The word at the front of `t`, a non-blank suffix of `a`, ends before
      the seam or at a whitespace seam; what follows it keeps the seam. */
  lemma SeamWord(a: string, t: string, b: string)
    requires Seam(a, b) && t != "" && |t| <= |a| && t == a[|a| - |t|..] && !IsSpace(t[0])
    ensures 0 < |WordAt(t)|
    ensures |WordAt(t)| < |t| || b == "" || IsSpace(b[0])
    ensures Seam(t[|WordAt(t)|..], b)
  {
    var w := WordAt(t);
    LastOfSuffix(a, t);
    if |w| == |t| {
      assert !IsSpace(w[|w| - 1]);
    } else {
      LastOfDrop(t, |w|);
    }
  }

  /** `str.split` gives words. */
  lemma {:induction false} SplitGivesWords(s: string)
    ensures AllWords(Split(s))
    decreases |s|
  {
    var t := LStrip(s);
    if t != "" {
      var w := WordAt(t);
      assert |w| > 0 by {
        assert !IsSpace(t[0]);
      }
      SplitGivesWords(t[|w|..]);
      SplitStep(s);
      assert IsWord(w);
      var rest := Split(t[|w|..]);
      assert Split(s) == [w] + rest;
      forall k | 0 <= k < |Split(s)|
        ensures IsWord(Split(s)[k])
      {
        if k > 0 {
          assert Split(s)[k] == rest[k - 1];
        }
      }
    }
  }

  lemma SnocLast<T>(g: seq<T>)
    requires g != []
    ensures g[..|g| - 1] + [] + [g[|g| - 1]] == g
  {
  }

  lemma SplitNewline()
    ensures IsSpace("\n"[0]) && Split("\n") == []
  {
    SplitBlank("\n");
  }

  lemma LastOfSuffix<T>(a: seq<T>, t: seq<T>)
    requires |t| <= |a| && t == a[|a| - |t|..] && t != []
    ensures t[|t| - 1] == a[|a| - 1]
  {
  }

  lemma DropAppend<T>(t: seq<T>, b: seq<T>, k: nat)
    requires k <= |t|
    ensures (t + b)[k..] == t[k..] + b
  {
  }

  lemma LastOfDrop<T>(t: seq<T>, k: nat)
    requires k < |t|
    ensures t[k..][|t| - k - 1] == t[|t| - 1]
  {
  }

  lemma Assoc<T>(x: seq<T>, y: seq<T>, z: seq<T>)
    ensures x + y + z == x + (y + z)
  {
  }

  /** One step of `Split` on a string holding a word. */
  lemma SplitStep(s: string)
    requires LStrip(s) != ""
    ensures Split(s) == [WordAt(LStrip(s))] + Split(LStrip(s)[|WordAt(LStrip(s))|..])
  {
  }

  lemma SplitWord(w: string)
    requires IsWord(w)
    ensures Split(w) == [w]
  {
    assert LStrip(w) == w;
    WordAllOf(w);
    assert w[|w|..] == "";
    assert Split("") == [];
    assert SplitStripped(w) == [w] + Split("");
  }

  lemma {:induction false} WordAllOf(w: string)
    requires forall i :: 0 <= i < |w| ==> !IsSpace(w[i])
    ensures WordAt(w) == w
  {
    if |w| > 0 {
      WordAllOf(w[1..]);
    }
  }

  lemma {:induction false} SplitBlank(sp: string)
    requires forall i :: 0 <= i < |sp| ==> IsSpace(sp[i])
    ensures Split(sp) == []
  {
    if |sp| > 0 {
      LStripBlank(sp);
    }
  }

  lemma {:induction false} LStripBlank(sp: string)
    requires forall i :: 0 <= i < |sp| ==> IsSpace(sp[i])
    ensures LStrip(sp) == ""
  {
    if |sp| > 0 {
      LStripBlank(sp[1..]);
    }
  }

  predicate AllWords(g: seq<string>)
  {
    forall k :: 0 <= k < |g| ==> IsWord(g[k])
  }

  predicate AllLinesWords(done: seq<seq<string>>)
  {
    forall j :: 0 <= j < |done| ==> AllWords(done[j])
  }

  /** A run of spaces `fmtpara` puts between words. */
  lemma Spaces(n: nat)
    requires n > 0
    ensures Repeat(" ", n) != [] && Repeat(" ", n)[0] == ' ' && Repeat(" ", n)[|Repeat(" ", n)| - 1] == ' '
    ensures Split(Repeat(" ", n)) == []
  {
    var sp := Repeat(" ", n);
    assert forall i :: 0 <= i < |sp| ==> sp[i] in " ";
    assert forall i :: 0 <= i < |sp| ==> IsSpace(sp[i]);
    SplitBlank(sp);
  }

  lemma {:induction false} SplitJoinWords(g: seq<string>)
    requires AllWords(g)
    ensures Split(JoinWords(g)) == g
  {
    if g != [] {
      var pre := g[..|g| - 1];
      var w := g[|g| - 1];
      assert AllWords(pre) && IsWord(w);
      SplitJoinWords(pre);
      SplitWord(w);
      if pre == [] {
        assert JoinWords(g) == JoinWords(pre) + Repeat(" ", 0) + w;
        assert JoinWords(g) == w;
      } else {
        var gap := Repeat(" ", Gap(pre));
        var jp := JoinWords(pre);
        Spaces(Gap(pre));
        SplitAppend(jp, gap);
        LastOfAppend(jp, gap);
        SplitAppend(jp + gap, w);
        assert JoinWords(g) == jp + gap + w;
        assert Split(jp + gap + w) == pre + [] + [w];
        SnocLast(g);
      }
    }
  }

  lemma {:induction false} SplitLines(done: seq<seq<string>>)
    requires AllLinesWords(done)
    ensures Split(Lines(done)) == Flatten(done)
    ensures Lines(done) == "" || Lines(done)[|Lines(done)| - 1] == '\n'
  {
    if done != [] {
      var pre := done[..|done| - 1];
      var g := done[|done| - 1];
      assert AllLinesWords(pre) && AllWords(g);
      SplitLines(pre);
      SplitJoinWords(g);
      var lp := Lines(pre);
      var jg := JoinWords(g);
      SplitAppend(lp, jg);
      SplitNewline();
      SplitAppend(lp + jg, "\n");
      assert Lines(done) == lp + jg + "\n";
      LastOfAppend(lp + jg, "\n");
    }
  }

  /** Every word the filling handles is a word of the input. */
  lemma {:induction false} FillWords(words: seq<string>, width: int)
    requires AllWords(words)
    ensures AllLinesWords(Fill(words, width).done) && AllWords(Fill(words, width).cur)
  {
    if words != [] {
      var pre := words[..|words| - 1];
      assert AllWords(pre);
      FillWords(pre, width);
      var st := Fill(pre, width);
      var w := words[|words| - 1];
      if |JoinWords(st.cur)| + Gap(st.cur) + |w| > width {
        assert Fill(words, width) == Layout(st.done + [st.cur], [w]);
        assert AllLinesWords(st.done + [st.cur]) by {
          forall j | 0 <= j < |st.done| + 1
            ensures AllWords((st.done + [st.cur])[j])
          {
            if j < |st.done| {
              assert (st.done + [st.cur])[j] == st.done[j];
            }
          }
        }
      } else {
        assert Fill(words, width) == Layout(st.done, st.cur + [w]);
        assert AllWords(st.cur + [w]) by {
          forall k | 0 <= k < |st.cur| + 1
            ensures IsWord((st.cur + [w])[k])
          {
            if k < |st.cur| {
              assert (st.cur + [w])[k] == st.cur[k];
            }
          }
        }
      }
    }
  }

  /** `fmtpara` keeps the words: splitting its output gives the words of
      its input. */
  lemma FmtParaWords(input: string, width: int)
    ensures Split(FmtPara(input, width)) == Split(input)
  {
    var words := Split(input);
    var st := Fill(words, width);
    SplitGivesWords(input);
    FillWords(words, width);
    FillKeepsWords(words, width);
    SplitLines(st.done);
    SplitJoinWords(st.cur);
    SplitAppend(Lines(st.done), JoinWords(st.cur));
    FlattenSnoc(st.done, st.cur);
  }

  // ---------------------------------------------------------------------
  // Indentation (`indent`)

  /** `s.split('\n')`: the pieces between newlines. */
  function SplitNl(s: string): (r: seq<string>)
    ensures |r| > 0
    ensures forall k :: 0 <= k < |r| ==> '\n' !in r[k]
    decreases |s|
  {
    match Find(s, '\n')
    case None => [s]
    case Some(k) => [s[..k]] + SplitNl(s[k + 1..])
  }

  /** `'\n'.join(parts)`. */
  function JoinNl(parts: seq<string>): string
  {
    if |parts| == 0 then "" else if |parts| == 1 then parts[0] else parts[0] + "\n" + JoinNl(parts[1..])
  }

  /** Splitting on newlines and joining back gives the text again. */
  lemma {:induction false} JoinSplitNl(s: string)
    ensures JoinNl(SplitNl(s)) == s
    decreases |s|
  {
    match Find(s, '\n')
    case None =>
    case Some(k) =>
      JoinSplitNl(s[k + 1..]);
      assert s == s[..k] + "\n" + s[k + 1..];
  }

  /** The non-empty pieces, in order. */
  function NonEmpty(parts: seq<string>): (r: seq<string>)
    ensures forall k :: 0 <= k < |r| ==> r[k] != "" && r[k] in parts
  {
    if parts == [] then []
    else if parts[0] == "" then NonEmpty(parts[1..])
    else [parts[0]] + NonEmpty(parts[1..])
  }

  /** Each non-empty piece behind `lev` spaces. */
  function Indented(lev: int, parts: seq<string>): (r: seq<string>)
    ensures |r| == |NonEmpty(parts)|
    ensures forall k :: 0 <= k < |r| ==> r[k] == Repeat(" ", lev) + NonEmpty(parts)[k]
  {
    if parts == [] then []
    else if parts[0] == "" then Indented(lev, parts[1..])
    else [Repeat(" ", lev) + parts[0]] + Indented(lev, parts[1..])
  }

  /** Lines each ended by a newline. */
  function Terminated(lines: seq<string>): string
  {
    if lines == [] then "" else lines[0] + "\n" + Terminated(lines[1..])
  }

  /** `indent(lev, text)`. */
  function IndentText(lev: int, text: string): string
  {
    if Find(text, '\n').None? then Repeat(" ", lev) + text
    else
      var s := Terminated(Indented(lev, SplitNl(text)));
      if EndsWith(text, "\n") then s else RStripChar(s, '\n')
  }

  lemma {:induction false} IndentedSnoc(lev: int, ps: seq<string>, p: string)
    ensures Terminated(Indented(lev, ps + [p]))
            == Terminated(Indented(lev, ps)) + (if p != "" then Repeat(" ", lev) + p + "\n" else "")
  {
    if ps == [] {
      assert [p][1..] == [];
    } else {
      assert (ps + [p])[1..] == ps[1..] + [p];
      IndentedSnoc(lev, ps[1..], p);
    }
  }

  /** `indent` as a loop over the lines. */
  method Indent(lev: int, text: string) returns (s: string)
    ensures s == IndentText(lev, text)
  {
    if Find(text, '\n').None? {
      return Repeat(" ", lev) + text;
    }
    s := "";
    var parts := SplitNl(text);
    for i := 0 to |parts|
      invariant s == Terminated(Indented(lev, parts[..i]))
    {
      var elt := parts[i];
      if elt != "" {
        s := s + Repeat(" ", lev) + elt + "\n";
      }
      IndentedSnoc(lev, parts[..i], elt);
      TakeNext(parts, i);
    }
    assert parts[..|parts|] == parts;
    if !EndsWith(text, "\n") {
      s := RStripChar(s, '\n');
    }
  }

  lemma {:induction false} TerminatedJoin(lines: seq<string>)
    requires lines != []
    ensures Terminated(lines) == JoinNl(lines) + "\n"
  {
    if |lines| > 1 {
      TerminatedJoin(lines[1..]);
    }
  }

  /** The last character of joined lines is that of the last line. */
  lemma {:induction false} JoinNlLast(lines: seq<string>)
    requires lines != [] && lines[|lines| - 1] != ""
    ensures JoinNl(lines) != "" && JoinNl(lines)[|JoinNl(lines)| - 1] == lines[|lines| - 1][|lines[|lines| - 1]| - 1]
  {
    if |lines| > 1 {
      JoinNlLast(lines[1..]);
      var rest := JoinNl(lines[1..]);
      LastOfAppend(lines[0] + "\n", rest);
    }
  }

  lemma RStripNewline(j: string)
    requires j != "" && j[|j| - 1] != '\n'
    ensures RStripChar(j + "\n", '\n') == j
  {
    assert (j + "\n")[..|j|] == j;
  }

  /** An indented line ends with a character of its piece, never a newline. */
  lemma IndentedEnd(lev: int, parts: seq<string>)
    requires forall k :: 0 <= k < |parts| ==> '\n' !in parts[k]
    requires Indented(lev, parts) != []
    ensures var lines := Indented(lev, parts);
      lines[|lines| - 1] != "" && lines[|lines| - 1][|lines[|lines| - 1]| - 1] != '\n'
  {
    var lines := Indented(lev, parts);
    var p := NonEmpty(parts)[|lines| - 1];
    assert p in parts;
    LastOfAppend(Repeat(" ", lev), p);
  }

  /** `indent` puts `lev` spaces before single-line text. Multi-line text
      keeps only its non-empty lines, each behind `lev` spaces, joined by
      newlines, with a final newline only if the text ended with one. */
  lemma IndentShape(lev: int, text: string)
    ensures Find(text, '\n').None? ==> IndentText(lev, text) == Repeat(" ", lev) + text
    ensures Find(text, '\n').Some? ==>
              var lines := Indented(lev, SplitNl(text));
              IndentText(lev, text) == if EndsWith(text, "\n") && lines != [] then JoinNl(lines) + "\n" else JoinNl(lines)
  {
    if Find(text, '\n').Some? {
      IndentLines(lev, text);
    }
  }

  lemma IndentLines(lev: int, text: string)
    requires Find(text, '\n').Some?
    ensures var lines := Indented(lev, SplitNl(text));
      IndentText(lev, text) == if EndsWith(text, "\n") && lines != [] then JoinNl(lines) + "\n" else JoinNl(lines)
  {
    var lines := Indented(lev, SplitNl(text));
    if lines != [] {
      TerminatedJoin(lines);
      if !EndsWith(text, "\n") {
        IndentedEnd(lev, SplitNl(text));
        JoinNlLast(lines);
        RStripNewline(JoinNl(lines));
      }
    }
  }
}
