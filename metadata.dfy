/** The metadata document of a dataset, and the views over it that both
    lineages compute with identical code: the id taken from the dataset URL,
    the language -> text maps, and the keyword grouping. The fetch of the
    document itself is not modelled; it is a parameter. */
module Metadata {
  import opened Py

  /** One `{'_lang': ..., '_value': ...}` object of a multilingual field. */
  type Entry = map<string, string>

  /** One object of the `distribution` list. A field the document lacks is `None`. */
  datatype DistMeta = DistMeta(
    accessURL: Option<string>,
    byteSize: Option<string>,
    format: Option<map<string, string>>,
    title: Option<seq<Entry>>)

  /** `response.json()["result"]["items"][0]` for a dataset, reduced to the
      fields the views read. */
  datatype DatasetMeta = DatasetMeta(
    title: Option<seq<Entry>>,
    description: Option<seq<Entry>>,
    keyword: Option<seq<Entry>>,
    distribution: Option<seq<DistMeta>>)

  /** `metadata.get('distribution', [])`. */
  function DistributionEntries(meta: DatasetMeta): seq<DistMeta> {
    if meta.distribution.Some? then meta.distribution.value else []
  }

  /** `metadata.get(field, [])`. */
  function Entries(field: Option<seq<Entry>>): seq<Entry> {
    if field.Some? then field.value else []
  }

  // ---------------------------------------------------------------------------
  // The dataset id: `url.split('/')[-1]`
  // ---------------------------------------------------------------------------

  /** `str.split(sep)`: the pieces between separators; never empty. */
  function Split(s: string, sep: char): (parts: seq<string>)
    ensures |parts| >= 1
    ensures forall i :: 0 <= i < |parts| ==> sep !in parts[i]
  {
    if s == [] then [""]
    else
      var init := Split(s[..|s| - 1], sep);
      var c := s[|s| - 1];
      if c == sep then init + [""]
      else init[..|init| - 1] + [init[|init| - 1] + [c]]
  }

  /** `sep.join(parts)`. */
  function Join(parts: seq<string>, sep: char): string
    requires |parts| >= 1
  {
    if |parts| == 1 then parts[0] else Join(parts[..|parts| - 1], sep) + [sep] + parts[|parts| - 1]
  }

  /** Joining one more piece puts a separator before it. */
  lemma JoinSnoc(parts: seq<string>, x: string, sep: char)
    requires |parts| >= 1
    ensures Join(parts + [x], sep) == Join(parts, sep) + [sep] + x
  {
    assert (parts + [x])[..|parts|] == parts;
  }

  /** Extending the last piece extends the joined string. */
  lemma JoinExtendLast(parts: seq<string>, c: char, sep: char)
    requires |parts| >= 1
    ensures Join(parts[..|parts| - 1] + [parts[|parts| - 1] + [c]], sep) == Join(parts, sep) + [c]
  {
    var n := |parts| - 1;
    if n > 0 {
      var init := parts[..n];
      assert parts == init + [parts[n]];
      JoinSnoc(init, parts[n] + [c], sep);
      JoinSnoc(init, parts[n], sep);
    }
  }

  /** Splitting loses nothing: joining the pieces gives the string back. */
  lemma {:induction false} SplitJoin(s: string, sep: char)
    ensures Join(Split(s, sep), sep) == s
    decreases |s|
  {
    if s != [] {
      var s' := s[..|s| - 1];
      var c := s[|s| - 1];
      SplitJoin(s', sep);
      assert s == s' + [c];
      if c == sep {
        JoinSnoc(Split(s', sep), "", sep);
      } else {
        JoinExtendLast(Split(s', sep), c, sep);
      }
    }
  }

  /** `OpenDataSet.id`: the last `/`-separated piece of the dataset URL. */
  function DatasetId(url: string): (id: string)
    ensures '/' !in id
  {
    var parts := Split(url, '/');
    parts[|parts| - 1]
  }

  /** Appending a character to the URL: a `/` starts a new, empty last piece;
      any other character extends the last piece. */
  lemma DatasetIdSnoc(u: string, c: char)
    ensures DatasetId(u + [c]) == if c == '/' then "" else DatasetId(u) + [c]
  {
    assert (u + [c])[..|u|] == u;
  }

  /** The id is the longest `/`-free suffix of the URL: the URL ends with it,
      and (holding no `/`) it is either the whole URL or preceded by a `/`. */
  lemma {:induction false} IdIsLastSegment(url: string)
    ensures EndsWith(url, DatasetId(url))
    ensures |DatasetId(url)| == |url| || url[|url| - |DatasetId(url)| - 1] == '/'
    decreases |url|
  {
    if url != [] {
      var u := url[..|url| - 1];
      var c := url[|url| - 1];
      assert url == u + [c];
      DatasetIdSnoc(u, c);
      if c != '/' {
        IdIsLastSegment(u);
        var d := DatasetId(u);
        assert url[|url| - |d| - 1..] == u[|u| - |d|..] + [c];
        if |d| < |u| {
          assert url[|url| - |d| - 2] == u[|u| - |d| - 1];
        }
      }
    }
  }

  /** Those three facts determine the id: any `/`-free suffix that is the whole
      URL or follows a `/` is the id. */
  lemma IdUnique(url: string, t: string)
    requires '/' !in t && EndsWith(url, t)
    requires |t| == |url| || url[|url| - |t| - 1] == '/'
    ensures DatasetId(url) == t
  {
    IdIsLastSegment(url);
    var d := DatasetId(url);
    assert |d| == |t|;
    assert url[|url| - |t|..] == url[|url| - |d|..];
  }

  /** An id without `/` placed after a `/` is recovered by the split. */
  lemma IdAfterSlash(prefix: string, id: string)
    requires '/' !in id
    ensures DatasetId(prefix + "/" + id) == id
  {
    var url := prefix + "/" + id;
    assert url[|url| - |id|..] == id;
    assert |id| == |url| || url[|url| - |id| - 1] == '/';
    IdUnique(url, id);
  }

  // ---------------------------------------------------------------------------
  // Multilingual fields: `{d['_lang']: d['_value'] for d in entries}`
  // ---------------------------------------------------------------------------

  predicate WellFormed(e: Entry) {
    "_lang" in e && "_value" in e
  }

  /** The `KeyError` an entry raises: `'_lang'` is read before `'_value'`. */
  function EntryError(e: Entry): PyError {
    if "_lang" !in e then KeyError("_lang") else KeyError("_value")
  }

  /** A loop over `es` that reads both keys of every entry raises `err`
      exactly as the first malformed entry would. */
  predicate RaisedAtFirstMalformed(es: seq<Entry>, err: PyError) {
    exists i :: 0 <= i < |es| && !WellFormed(es[i]) && err == EntryError(es[i]) &&
      forall j :: 0 <= j < i ==> WellFormed(es[j])
  }

  /** The languages present. */
  function Langs(es: seq<Entry>): set<string> {
    set i | 0 <= i < |es| && "_lang" in es[i] :: es[i]["_lang"]
  }

  /** Entry `i` is the last one with its language. */
  predicate LastForLang(es: seq<Entry>, i: int)
    requires 0 <= i < |es| && "_lang" in es[i]
  {
    forall j :: i < j < |es| && "_lang" in es[j] ==> es[j]["_lang"] != es[i]["_lang"]
  }

  /** The dict comprehension `{d['_lang']: d['_value'] for d in es}`. It raises
      exactly when some entry lacks a key, at the first such entry. */
  function LangMap(es: seq<Entry>): (r: Result<map<string, string>>)
    ensures r.Ok? <==> forall i :: 0 <= i < |es| ==> WellFormed(es[i])
    ensures r.Raises? ==> RaisedAtFirstMalformed(es, r.error)
  {
    if es == [] then Ok(map[])
    else
      var init := es[..|es| - 1];
      var e := es[|es| - 1];
      var m := LangMap(init);
      assert forall i :: 0 <= i < |init| ==> init[i] == es[i];
      if m.Raises? then m
      else if !WellFormed(e) then Raises(EntryError(e))
      else Ok(m.value[e["_lang"] := e["_value"]])
  }

  /** The map has one key per language present, and for a repeated language
      holds the value of its last entry. */
  lemma {:induction false} LangMapLastWins(es: seq<Entry>)
    requires LangMap(es).Ok?
    ensures LangMap(es).value.Keys == Langs(es)
    ensures forall i :: 0 <= i < |es| && WellFormed(es[i]) && LastForLang(es, i) ==>
      LangMap(es).value[es[i]["_lang"]] == es[i]["_value"]
    decreases |es|
  {
    if es != [] {
      var n := |es| - 1;
      var init := es[..n];
      var e := es[n];
      assert forall i :: 0 <= i < n ==> init[i] == es[i];
      LangMapLastWins(init);
      LangsSnoc(es);
      var m := LangMap(init).value;
      assert LangMap(es).value == m[e["_lang"] := e["_value"]];
      forall i | 0 <= i < |es| && WellFormed(es[i]) && LastForLang(es, i)
        ensures LangMap(es).value[es[i]["_lang"]] == es[i]["_value"]
      {
        if i < n {
          assert LastForLang(init, i);
          assert es[i]["_lang"] != e["_lang"];
        }
      }
    }
  }

  /** The languages of a list are those of all but its last entry, plus the
      last entry's. */
  lemma LangsSnoc(es: seq<Entry>)
    requires es != [] && "_lang" in es[|es| - 1]
    ensures Langs(es) == Langs(es[..|es| - 1]) + {es[|es| - 1]["_lang"]}
  {
    var init := es[..|es| - 1];
    assert forall i :: 0 <= i < |init| ==> init[i] == es[i];
    assert forall l :: l in Langs(es) ==> l in Langs(init) + {es[|es| - 1]["_lang"]};
  }

  /** `r` is what the comprehension gives for `es`: it raises at the first
      malformed entry; otherwise it maps every language present to the value
      of its last entry, and has no other key. */
  predicate LangMapOf(es: seq<Entry>, r: Result<map<string, string>>) {
    && (r.Ok? <==> forall i :: 0 <= i < |es| ==> WellFormed(es[i]))
    && (r.Ok? ==> r.value.Keys == Langs(es))
    && (r.Ok? ==> forall i :: 0 <= i < |es| && WellFormed(es[i]) && LastForLang(es, i) ==>
          es[i]["_lang"] in r.value && r.value[es[i]["_lang"]] == es[i]["_value"])
    && (r.Raises? ==> RaisedAtFirstMalformed(es, r.error))
  }

  lemma LangMapMeetsSpec(es: seq<Entry>)
    ensures LangMapOf(es, LangMap(es))
  {
    if LangMap(es).Ok? {
      LangMapLastWins(es);
    }
  }

  // ---------------------------------------------------------------------------
  // Keywords: grouped by language, duplicates removed
  // ---------------------------------------------------------------------------

  /** The `_value`s given for `lang`. */
  function ValuesFor(es: seq<Entry>, lang: string): set<string> {
    set i | 0 <= i < |es| && WellFormed(es[i]) && es[i]["_lang"] == lang :: es[i]["_value"]
  }

  predicate NoDuplicates(xs: seq<string>) {
    forall i, j :: 0 <= i < j < |xs| ==> xs[i] != xs[j]
  }

  /** `m` groups the keywords of `es`: a key per language present, and for each
      a duplicate-free list holding exactly the values given for it. */
  predicate GroupsKeywords(es: seq<Entry>, m: map<string, seq<string>>) {
    && m.Keys == Langs(es)
    && forall lang :: lang in m ==>
         NoDuplicates(m[lang]) && (set x | x in m[lang]) == ValuesFor(es, lang)
  }

  /** `r` is what `keywords` gives for `es`. */
  predicate KeywordsOf(es: seq<Entry>, r: Result<map<string, seq<string>>>) {
    && (r.Ok? <==> forall i :: 0 <= i < |es| ==> WellFormed(es[i]))
    && (r.Ok? ==> GroupsKeywords(es, r.value))
    && (r.Raises? ==> RaisedAtFirstMalformed(es, r.error))
  }

  /** `list(values)` of a set: some duplicate-free enumeration of it (Python
      fixes no order). */
  method ListOf(s: set<string>) returns (xs: seq<string>)
    ensures NoDuplicates(xs)
    ensures (set x | x in xs) == s
  {
    xs := [];
    var rest := s;
    while rest != {}
      invariant rest <= s
      invariant NoDuplicates(xs)
      invariant forall x :: x in xs ==> x !in rest
      invariant (set x | x in xs) == s - rest
      decreases rest
    {
      var x :| x in rest;
      assert (set y | y in xs + [x]) == (set y | y in xs) + {x};
      xs := xs + [x];
      rest := rest - {x};
    }
  }

  /** The first loop of `keywords`: `keywords.setdefault(lang, set()).add(value)`
      for every entry, in order. */
  method GroupSets(es: seq<Entry>) returns (r: Result<map<string, set<string>>>)
    ensures r.Ok? <==> forall i :: 0 <= i < |es| ==> WellFormed(es[i])
    ensures r.Ok? ==> r.value.Keys == Langs(es)
    ensures r.Ok? ==> forall l :: l in r.value ==> r.value[l] == ValuesFor(es, l)
    ensures r.Raises? ==> RaisedAtFirstMalformed(es, r.error)
  {
    var groups: map<string, set<string>> := map[];
    for i := 0 to |es|
      invariant forall j :: 0 <= j < i ==> WellFormed(es[j])
      invariant groups.Keys == Langs(es[..i])
      invariant forall l :: l in groups ==> groups[l] == ValuesFor(es[..i], l)
    {
      if !WellFormed(es[i]) {
        return Raises(EntryError(es[i]));
      }
      var lang := es[i]["_lang"];
      var values := if lang in groups then groups[lang] else {};
      GroupStep(es, i, groups);
      groups := groups[lang := values + {es[i]["_value"]}];
    }
    assert es[..|es|] == es;
    r := Ok(groups);
  }

  /** The final comprehension of `keywords`: every set becomes a list. */
  method ListValues(groups: map<string, set<string>>) returns (result: map<string, seq<string>>)
    ensures result.Keys == groups.Keys
    ensures forall l :: l in result ==>
      NoDuplicates(result[l]) && (set x | x in result[l]) == groups[l]
  {
    result := map[];
    var pending := groups.Keys;
    while pending != {}
      invariant pending <= groups.Keys
      invariant result.Keys == groups.Keys - pending
      invariant forall l :: l in result ==>
        NoDuplicates(result[l]) && (set x | x in result[l]) == groups[l]
      decreases pending
    {
      var lang :| lang in pending;
      var values := ListOf(groups[lang]);
      result := result[lang := values];
      pending := pending - {lang};
    }
  }

  /** The `keywords` property: groups the values of `es` by language. */
  method GroupKeywords(es: seq<Entry>) returns (r: Result<map<string, seq<string>>>)
    ensures r.Ok? <==> forall i :: 0 <= i < |es| ==> WellFormed(es[i])
    ensures r.Ok? ==> GroupsKeywords(es, r.value)
    ensures r.Raises? ==> RaisedAtFirstMalformed(es, r.error)
  {
    var groups := GroupSets(es);
    if groups.Raises? {
      return Raises(groups.error);
    }
    var lists := ListValues(groups.value);
    r := Ok(lists);
  }

  /** A language that no entry has has no values. */
  lemma NoValuesWithoutLang(es: seq<Entry>, lang: string)
    requires lang !in Langs(es)
    ensures ValuesFor(es, lang) == {}
  {
    forall i | 0 <= i < |es| && WellFormed(es[i])
      ensures es[i]["_lang"] != lang
    {
      assert es[i]["_lang"] in Langs(es);
    }
  }

  /** Adding entry `i` to its language's set keeps the grouping exact. */
  lemma GroupStep(es: seq<Entry>, i: int, groups: map<string, set<string>>)
    requires 0 <= i < |es| && WellFormed(es[i])
    requires groups.Keys == Langs(es[..i])
    requires forall l :: l in groups ==> groups[l] == ValuesFor(es[..i], l)
    ensures var lang := es[i]["_lang"];
      var updated := groups[lang := (if lang in groups then groups[lang] else {}) + {es[i]["_value"]}];
      && updated.Keys == Langs(es[..i + 1])
      && forall l :: l in updated ==> updated[l] == ValuesFor(es[..i + 1], l)
  {
    var lang := es[i]["_lang"];
    SnocLangs(es, i);
    if lang !in groups {
      NoValuesWithoutLang(es[..i], lang);
    }
  }

  /** How the languages and value sets grow by one well-formed entry. */
  lemma SnocLangs(es: seq<Entry>, i: int)
    requires 0 <= i < |es| && WellFormed(es[i])
    ensures Langs(es[..i + 1]) == Langs(es[..i]) + {es[i]["_lang"]}
    ensures forall l :: ValuesFor(es[..i + 1], l) ==
                        ValuesFor(es[..i], l) + (if es[i]["_lang"] == l then {es[i]["_value"]} else {})
  {
    var a, b := es[..i], es[..i + 1];
    assert forall j :: 0 <= j < i ==> b[j] == a[j];
    assert b[i] == es[i];
    assert forall l :: l in Langs(b) ==> l in Langs(a) + {es[i]["_lang"]};
    forall l
      ensures ValuesFor(b, l) == ValuesFor(a, l) + (if es[i]["_lang"] == l then {es[i]["_value"]} else {})
    {
      assert forall v :: v in ValuesFor(b, l) ==>
        v in ValuesFor(a, l) + (if es[i]["_lang"] == l then {es[i]["_value"]} else {});
    }
  }
}
