/** contexts/LanguageContext.tsx: the translation function `t` and the
    initial display language. The translation tables are a parameter:
    utils/translations.ts is not part of this model. */
module LanguageContext {
  import opened Wrappers
  import opened Strings
  import opened HskTypes

  /** `translations[lang]` for the three display languages; a missing key
      reads as `undefined`. */
  datatype Translations = Translations(vi: map<string, string>, en: map<string, string>, zh: map<string, string>)

  function TableFor(tr: Translations, lang: Language): map<string, string> {
    match lang
    case Vi => tr.vi
    case En => tr.en
    case Zh => tr.zh
  }

  /** `translations[lang][key]`, with `undefined` and "" both falsy. */
  function Entry(tr: Translations, lang: Language, key: string): (r: string)
    ensures r != "" ==> key in TableFor(tr, lang) && r == TableFor(tr, lang)[key]
    ensures key !in TableFor(tr, lang) ==> r == ""
  {
    var m := TableFor(tr, lang);
    if key in m then m[key] else ""
  }

  /** `translations[language][key] || translations['en'][key] || key`. */
  function Lookup(tr: Translations, lang: Language, key: string): (text: string)
    ensures Entry(tr, lang, key) != "" ==> text == Entry(tr, lang, key)
    ensures Entry(tr, lang, key) == "" && Entry(tr, En, key) != "" ==> text == Entry(tr, En, key)
    ensures Entry(tr, lang, key) == "" && Entry(tr, En, key) == "" ==> text == key
  {
    var here := Entry(tr, lang, key);
    if here != "" then here
    else
      var english := Entry(tr, En, key);
      if english != "" then english else key
  }

  /** A language without a usable entry reads exactly what English reads,
      and English falls back only to the key itself. */
  lemma LookupFallsBackToEnglish(tr: Translations, lang: Language, key: string)
    ensures Entry(tr, lang, key) == "" ==> Lookup(tr, lang, key) == Lookup(tr, En, key)
    ensures Lookup(tr, En, key) == Entry(tr, En, key) || Lookup(tr, En, key) == key
    ensures key != "" ==> Lookup(tr, lang, key) != ""
  {
  }

  /** `Record<string, string | number>` values; `String(v)` renders them.
      Only integral numbers are modelled. */
  datatype ParamValue = Text(s: string) | Number(n: int)

  function ParamText(v: ParamValue): string {
    match v
    case Text(s) => s
    case Number(n) => IntToString(n)
  }

  /** The pattern `{name}`. */
  function Placeholder(name: string): (p: string)
    ensures |p| == |name| + 2 && p[0] == '{' && p[|p| - 1] == '}'
    ensures forall i :: 0 <= i < |name| ==> p[i + 1] == name[i]
  {
    "{" + name + "}"
  }

  /** The params applied in entry order, each replacing the first
      `{name}` of the text the previous ones left. */
  function ApplyParams(text: string, params: seq<(string, ParamValue)>): (r: string)
    ensures params == [] ==> r == text
    ensures NoOpenBrace(text) ==> r == text
    decreases |params|
  {
    if params == [] then text
    else
      NoPlaceholderWithoutBrace(text, params[0].0);
      ApplyParams(ReplaceFirst(text, Placeholder(params[0].0), ParamText(params[0].1)), params[1..])
  }

  /** Every placeholder starts with '{', so a text without one holds none. */
  lemma NoPlaceholderWithoutBrace(text: string, name: string)
    ensures NoOpenBrace(text) ==> !Contains(text, Placeholder(name))
  {
    if NoOpenBrace(text) && Contains(text, Placeholder(name)) {
      OccursAtChar(text, Placeholder(name), IndexOf(text, Placeholder(name)).value, 0);
    }
  }

  /** `t(key, params)`. */
  method T(tr: Translations, lang: Language, key: string, params: Option<seq<(string, ParamValue)>>)
    returns (text: string)
    ensures params.None? ==> text == Lookup(tr, lang, key)
    ensures params.Some? ==> text == ApplyParams(Lookup(tr, lang, key), params.value)
  {
    text := Lookup(tr, lang, key);
    if params.Some? {
      var ps := params.value;
      for i := 0 to |ps|
        invariant ApplyParams(text, ps[i..]) == ApplyParams(Lookup(tr, lang, key), ps)
      {
        assert ps[i..][1..] == ps[i + 1..];
        var (k, v) := ps[i];
        text := ReplaceFirst(text, Placeholder(k), ParamText(v));
      }
      assert ps[|ps|..] == [];
    }
  }

  /** Only the first placeholder of a name is replaced: a repeated
      placeholder keeps its later occurrences. */
  lemma ReplacesFirstOccurrenceOnly()
    ensures ApplyParams("{n}/{n}", [("n", Number(3))]) == "3/{n}"
  {
    var s := "{n}/{n}";
    assert OccursAt(s, Placeholder("n"), 0);
    assert IndexOf(s, Placeholder("n")) == Some(0);
    assert ApplyParams("3/{n}", []) == "3/{n}";
  }

  predicate NoBraces(s: string) {
    forall i :: 0 <= i < |s| ==> s[i] != '{' && s[i] != '}'
  }

  /** In `{name}` with a brace-free name, the only '{' is the first
      character and the only '}' the last. */
  lemma BracesOnlyAtEnds(name: string, t: nat)
    requires NoBraces(name) && t < |name| + 2
    ensures Placeholder(name)[t] == '{' ==> t == 0
    ensures Placeholder(name)[t] == '}' ==> t == |name| + 1
  {
    if 0 < t <= |name| {
      assert Placeholder(name)[t] == name[t - 1];
    }
  }

  /** Two brace-free placeholders found at the same index have names of
      the same length: the shorter one's closing brace would otherwise sit
      inside the longer name. */
  lemma SameStartSameLength(s: string, a: string, b: string, i: nat)
    requires NoBraces(b) && |a| <= |b|
    requires OccursAt(s, Placeholder(a), i) && OccursAt(s, Placeholder(b), i)
    ensures |a| == |b|
  {
    OccursAtChar(s, Placeholder(a), i, |a| + 1);
    OccursAtChar(s, Placeholder(b), i, |a| + 1);
    BracesOnlyAtEnds(b, |a| + 1);
  }

  /** Two placeholders whose names hold no braces either start at the same
      index with the same name, or the earlier one ends before the later
      one starts. */
  lemma PlaceholdersDoNotOverlap(s: string, a: string, b: string, i: nat, j: nat)
    requires NoBraces(a) && NoBraces(b)
    requires OccursAt(s, Placeholder(a), i) && OccursAt(s, Placeholder(b), j) && i <= j
    ensures (i == j && a == b) || i + |a| + 2 <= j
  {
    var pa, pb := Placeholder(a), Placeholder(b);
    if j < i + |a| + 2 {
      OccursAtChar(s, pb, j, 0);
      OccursAtChar(s, pa, i, j - i);
      BracesOnlyAtEnds(a, j - i);
      assert i == j;
      if |a| <= |b| {
        SameStartSameLength(s, a, b, i);
      } else {
        SameStartSameLength(s, b, a, i);
      }
      forall t | 0 <= t < |a| ensures a[t] == b[t] {
        OccursAtChar(s, pa, i, t + 1);
        OccursAtChar(s, pb, j, t + 1);
      }
    }
  }

  /** An occurrence wholly before or wholly after a replaced stretch
      `s[i..i + n]` is still there after the replacement, shifted when it
      was after. */
  lemma SpliceKeepsOccurrence(s: string, i: nat, n: nat, v: string, pat: string, p: nat)
    requires i + n <= |s| && OccursAt(s, pat, p)
    requires p + |pat| <= i || i + n <= p
    ensures p + |pat| <= i ==> OccursAt(s[..i] + v + s[i + n..], pat, p)
    ensures i + n <= p ==> OccursAt(s[..i] + v + s[i + n..], pat, p - n + |v|)
  {
    var r := s[..i] + v + s[i + n..];
    if p + |pat| <= i {
      assert r[..i] == s[..i];
      assert r[p..p + |pat|] == r[..i][p..p + |pat|];
    } else {
      var q := p - n + |v|;
      assert r[i + |v|..] == s[i + n..];
      assert r[q..q + |pat|] == r[i + |v|..][p - i - n..p - i - n + |pat|];
    }
  }

  /** Placeholders of two different brace-free names never overlap. */
  lemma DifferentPlaceholdersApart(s: string, k: string, x: string, i: nat, p: nat)
    requires NoBraces(k) && NoBraces(x) && k != x
    requires OccursAt(s, Placeholder(k), i) && OccursAt(s, Placeholder(x), p)
    ensures p + |Placeholder(x)| <= i || i + |Placeholder(k)| <= p
  {
    if p <= i {
      PlaceholdersDoNotOverlap(s, x, k, p, i);
    } else {
      PlaceholdersDoNotOverlap(s, k, x, i, p);
    }
  }

  /** An occurrence outside a replaced stretch is still found afterwards. */
  lemma SpliceKeepsContains(s: string, i: nat, n: nat, v: string, pat: string, p: nat)
    requires i + n <= |s| && OccursAt(s, pat, p)
    requires p + |pat| <= i || i + n <= p
    ensures Contains(s[..i] + v + s[i + n..], pat)
  {
    SpliceKeepsOccurrence(s, i, n, v, pat, p);
    if p + |pat| <= i {
      ContainsAt(s[..i] + v + s[i + n..], pat, p);
    } else {
      ContainsAt(s[..i] + v + s[i + n..], pat, p - n + |v|);
    }
  }

  /** Replacing the placeholder found at `i` keeps the placeholder found
      at `p`, which has another name. */
  lemma SpliceKeepsPlaceholder(s: string, k: string, v: string, x: string, i: nat, p: nat)
    requires NoBraces(k) && NoBraces(x) && k != x
    requires OccursAt(s, Placeholder(k), i) && OccursAt(s, Placeholder(x), p)
    ensures Contains(s[..i] + v + s[i + |Placeholder(k)|..], Placeholder(x))
  {
    DifferentPlaceholdersApart(s, k, x, i, p);
    SpliceKeepsContains(s, i, |Placeholder(k)|, v, Placeholder(x), p);
  }

  /** Replacing one placeholder keeps any placeholder of another name. */
  lemma ReplaceKeepsPlaceholder(s: string, k: string, v: string, x: string)
    requires NoBraces(k) && NoBraces(x) && k != x
    requires Contains(s, Placeholder(x))
    ensures Contains(ReplaceFirst(s, Placeholder(k), v), Placeholder(x))
  {
    var pk := Placeholder(k);
    var first := IndexOf(s, pk);
    if first.Some? {
      var i := first.value;
      SpliceKeepsPlaceholder(s, k, v, x, i, IndexOf(s, Placeholder(x)).value);
      assert ReplaceFirst(s, pk, v) == s[..i] + v + s[i + |pk|..];
    } else {
      assert ReplaceFirst(s, pk, v) == s;
    }
  }

  /** A placeholder that no param names survives every replacement. */
  lemma {:induction false} UnmatchedPlaceholderSurvives(text: string, params: seq<(string, ParamValue)>, x: string)
    requires NoBraces(x)
    requires forall i :: 0 <= i < |params| ==> NoBraces(params[i].0) && params[i].0 != x
    requires Contains(text, Placeholder(x))
    ensures Contains(ApplyParams(text, params), Placeholder(x))
    decreases |params|
  {
    if params != [] {
      var (k, v) := params[0];
      ReplaceKeepsPlaceholder(text, k, ParamText(v), x);
      UnmatchedPlaceholderSurvives(ReplaceFirst(text, Placeholder(k), ParamText(v)), params[1..], x);
    }
  }

  /** `(localStorage.getItem('language') as Language) || 'vi'`: the saved
      code when truthy, otherwise Vietnamese. `None` is a saved code other
      than the three languages, which the cast keeps unchecked. */
  function InitialLanguage(saved: Option<string>): (lang: Option<Language>)
    ensures !Truthy(saved) ==> lang == Some(Vi)
    ensures lang.Some? && Truthy(saved) ==> LanguageCode(lang.value) == saved.value
    ensures Truthy(saved) && saved.value in {"vi", "en", "zh"} ==> lang.Some?
  {
    if !Truthy(saved) then Some(Vi)
    else if saved.value == "vi" then Some(Vi)
    else if saved.value == "en" then Some(En)
    else if saved.value == "zh" then Some(Zh)
    else None
  }

  /** What is stored is what is read back on the next start. */
  lemma SavedLanguageRestored(lang: Language)
    ensures InitialLanguage(Some(LanguageCode(lang))) == Some(lang)
  {
  }
}
