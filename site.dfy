/** The settings every translator inherits from the markup class (the source
    language, the base URLs, the table of language names) and the two
    helpers the text and HTML translators share: building a link target and
    looking a link qualifier up in the namespace tables. */
module Site {
  import opened PyStr

  /** The translator's configuration.  The namespace tables are indexed by
      language, as the module that defines them is; `nsPatterns` records, per
      language and qualifier, how many pattern entries that qualifier has.
      `quote` is the URL-quoting function, which the model takes as given. */
  datatype Site = Site(
    lang: string,
    htmlBase: string,
    imageBase: string,
    mediaBase: string,
    langtab: map<string, Option<string>>,
    nsNames: map<string, map<string, string>>,
    nsPatterns: map<string, map<string, nat>>,
    quote: string -> string)

  const LangKey: string := "%(lang)s"

  predicate NoPercent(s: string)
  {
    forall i :: 0 <= i < |s| ==> s[i] != '%'
  }

  /** `base % {'lang': lang}` for a base whose only directives are
      `%(lang)s` and `%%`. */
  function SubstLang(base: string, lang: string): (r: string)
    ensures NoPercent(base) ==> r == base
  {
    if base == "" then ""
    else if base[0] != '%' then [base[0]] + SubstLang(base[1..], lang)
    else if StartsWith(base, LangKey) then lang + SubstLang(base[|LangKey|..], lang)
    else if StartsWith(base, "%%") then "%" + SubstLang(base[2..], lang)
    else "%" + SubstLang(base[1..], lang)
  }

  /** A base with one `%(lang)s` between two plain parts gets the language
      there and nowhere else. */
  lemma {:induction false} SubstOne(a: string, b: string, lang: string)
    requires NoPercent(a) && NoPercent(b)
    ensures SubstLang(a + LangKey + b, lang) == a + lang + b
    decreases |a|
  {
    if a == "" {
      assert a + LangKey + b == LangKey + b;
      SubstKey(b, lang);
    } else {
      var rest := a[1..] + LangKey + b;
      assert a + LangKey + b == [a[0]] + rest;
      SubstPlain(a[0], rest, lang);
      SubstOne(a[1..], b, lang);
      assert a == [a[0]] + a[1..];
    }
  }

  lemma SubstKey(b: string, lang: string)
    ensures SubstLang(LangKey + b, lang) == lang + SubstLang(b, lang)
  {
    var s := LangKey + b;
    assert s[0] == '%';
    assert s[..|LangKey|] == LangKey && s[|LangKey|..] == b;
  }

  lemma SubstPlain(ch: char, rest: string, lang: string)
    requires ch != '%'
    ensures SubstLang([ch] + rest, lang) == [ch] + SubstLang(rest, lang)
  {
    var s := [ch] + rest;
    assert s[0] == ch && s[1..] == rest;
  }

  /** `mktgt`: the page URL for `tgt`, in language `lang` or, when that is
      empty, in the translator's own language. */
  function Mktgt(site: Site, tgt: string, lang: string): (r: string)
    ensures EndsWith(r, site.quote(tgt))
  {
    var l := if lang == "" then site.lang else lang;
    SubstLang(site.htmlBase, l) + site.quote(tgt)
  }

  /** The default base of the markup class. */
  const DefaultHtmlBase: string := "http://%(lang)s.wikipedia.org/wiki/"

  /** With the default base a target lands on the Wikipedia of the chosen
      language. */
  lemma DefaultTarget(site: Site, tgt: string, lang: string)
    requires site.htmlBase == DefaultHtmlBase
    ensures Mktgt(site, tgt, lang)
      == "http://" + (if lang == "" then site.lang else lang) + ".wikipedia.org/wiki/" + site.quote(tgt)
  {
    var a, b := "http://", ".wikipedia.org/wiki/";
    assert DefaultHtmlBase == a + LangKey + b;
    SubstOne(a, b, if lang == "" then site.lang else lang);
  }

  /** `wiki_ns_name`: the namespace a link qualifier names, if any.  A
      language missing from a table raises `KeyError`; a qualifier with
      pattern entries raises `AttributeError`, because the pattern loop calls
      a string method that does not exist. */
  function NsName(site: Site, qual: string): (r: Result<Option<string>>)
    ensures r == Ok(None) <==>
      site.lang in site.nsNames && qual !in site.nsNames[site.lang]
      && site.lang in site.nsPatterns
      && (qual !in site.nsPatterns[site.lang] || site.nsPatterns[site.lang][qual] == 0)
    ensures r.Ok? && r.value.Some? <==>
      site.lang in site.nsNames && qual in site.nsNames[site.lang]
    ensures r.Ok? && r.value.Some? ==> r.value.value == site.nsNames[site.lang][qual]
  {
    if site.lang !in site.nsNames then Err(KeyError)
    else if qual in site.nsNames[site.lang] then Ok(Some(site.nsNames[site.lang][qual]))
    else if site.lang !in site.nsPatterns then Err(KeyError)
    else if qual in site.nsPatterns[site.lang] && site.nsPatterns[site.lang][qual] > 0 then Err(AttributeError)
    else Ok(None)
  }

  /** Formatted link parts that make the link vanish: a disambiguation or
      quotation template, or a thumbnail. */
  predicate Sentinel(s: seq<Option<string>>)
  {
    |s| > 1 && (s[0] == Some("disambigR") || s[0] == Some("wikiquote") || s[1] == Some("thumb"))
  }

}
