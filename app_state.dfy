/** App.tsx: the view state of the explorer, the query string it writes
    to and reads back from the address bar, the search guard, the search
    result tabs and the filter by tab. The query string is kept as the
    ordered list of name/value pairs of a `URLSearchParams`. */
module AppState {
  import opened Wrappers
  import opened Strings
  import opened HskTypes
  import LanguageContext

  // ---------------------------------------------------------------------------
  // URLSearchParams

  type Params = seq<(string, string)>

  /** `params.get(name)`: the first value under the name. */
  function GetParam(ps: Params, name: string): (r: Option<string>)
    ensures r.None? <==> forall i :: 0 <= i < |ps| ==> ps[i].0 != name
  {
    if ps == [] then None
    else if ps[0].0 == name then Some(ps[0].1)
    else GetParam(ps[1..], name)
  }

  lemma {:induction false} GetParamAppend(a: Params, b: Params, name: string)
    ensures GetParam(a + b, name) == if GetParam(a, name).Some? then GetParam(a, name) else GetParam(b, name)
  {
    if a != [] {
      assert (a + b)[0] == a[0];
      if a[0].0 != name {
        assert (a + b)[1..] == a[1..] + b;
        GetParamAppend(a[1..], b, name);
        assert GetParam(a + b, name) == GetParam(a[1..] + b, name);
      }
    } else {
      assert a + b == b;
    }
  }

  /** The pairs without any under the name. */
  function RemoveParam(ps: Params, name: string): (r: Params)
    ensures GetParam(r, name).None?
    ensures forall k :: k != name ==> GetParam(r, k) == GetParam(ps, k)
  {
    if ps == [] then []
    else if ps[0].0 == name then RemoveParam(ps[1..], name)
    else [ps[0]] + RemoveParam(ps[1..], name)
  }

  /** `params.set(name, value)`: the first pair under the name takes the
      value and later ones are dropped; a new name is appended. */
  function SetParam(ps: Params, name: string, value: string): (r: Params)
    ensures GetParam(r, name) == Some(value)
    ensures forall k :: k != name ==> GetParam(r, k) == GetParam(ps, k)
    ensures GetParam(ps, name).None? ==> r == ps + [(name, value)]
  {
    if ps == [] then [(name, value)]
    else if ps[0].0 == name then [(name, value)] + RemoveParam(ps[1..], name)
    else [ps[0]] + SetParam(ps[1..], name, value)
  }

  /** `params.toString()`, without percent-encoding. */
  function Serialize(ps: Params): (s: string)
    ensures ps == [] <==> s == ""
  {
    if ps == [] then ""
    else if |ps| == 1 then ps[0].0 + "=" + ps[0].1
    else Serialize(ps[..|ps| - 1]) + "&" + ps[|ps| - 1].0 + "=" + ps[|ps| - 1].1
  }

  /** The URL pushed: the path, then `?` and the query only when there is
      one. */
  function Href(pathname: string, ps: Params): (url: string)
    ensures url == pathname <==> ps == []
    ensures ps != [] ==> |url| > |pathname| && url[|pathname|] == '?'
  {
    var q := Serialize(ps);
    pathname + (if q != "" then "?" + q else "")
  }

  // ---------------------------------------------------------------------------
  // What updateUrl writes and what is read back

  datatype View = Home | Explorer

  function ViewName(v: View): string {
    match v
    case Home => "home"
    case Explorer => "explorer"
  }

  /** The pairs `updateUrl(view, level, category, query)` sets: none for
      home; for the explorer `view`, then `level`, `category` and `q`
      when truthy. */
  function UrlParams(v: View, level: Option<string>, category: Option<Category>, query: Option<string>): (r: Params)
    ensures v == Home <==> r == []
    ensures v == Explorer ==> 1 <= |r| <= 4 && r[0] == ("view", "explorer")
    ensures forall i, j :: 0 <= i < j < |r| ==> r[i].0 != r[j].0
  {
    if v == Home then []
    else [("view", "explorer")] + LevelParam(level) + CategoryParam(category) + QueryParam(query)
  }

  function LevelParam(level: Option<string>): (r: Params)
    ensures |r| <= 1 && forall i :: 0 <= i < |r| ==> r[i].0 == "level"
    ensures GetParam(r, "level") == (if Truthy(level) then level else None)
  {
    if Truthy(level) then [("level", level.value)] else []
  }

  function CategoryParam(category: Option<Category>): (r: Params)
    ensures |r| <= 1 && forall i :: 0 <= i < |r| ==> r[i].0 == "category"
    ensures GetParam(r, "category") == (if category.Some? then Some(CategoryName(category.value)) else None)
  {
    if category.Some? then [("category", CategoryName(category.value))] else []
  }

  function QueryParam(query: Option<string>): (r: Params)
    ensures |r| <= 1 && forall i :: 0 <= i < |r| ==> r[i].0 == "q"
    ensures GetParam(r, "q") == (if Truthy(query) then query else None)
  {
    if Truthy(query) then [("q", query.value)] else []
  }

  /** The state read from a query string on mount and on `popstate`. The
      casts to `HskLevel` and `Category` are unchecked, so the level and
      category stay strings. */
  datatype Location = Location(view: string, level: string, category: string, query: string)

  function OrElse(s: Option<string>, default: string): string {
    if Truthy(s) then s.value else default
  }

  function ReadLocation(ps: Params): (loc: Location)
    ensures loc.view != "" && loc.level != "" && loc.category != ""
  {
    Location(OrElse(GetParam(ps, "view"), "home"), OrElse(GetParam(ps, "level"), "1"),
             OrElse(GetParam(ps, "category"), "vocabulary"), OrElse(GetParam(ps, "q"), ""))
  }

  /** Reading back what `updateUrl` wrote recovers the view and every
      truthy argument, and the defaults for the rest. */
  lemma UrlReadsBack(v: View, level: Option<string>, category: Option<Category>, query: Option<string>)
    ensures var loc := ReadLocation(UrlParams(v, level, category, query));
      loc.view == ViewName(v) &&
      (v == Explorer ==>
         loc.level == OrElse(level, "1") &&
         loc.category == (if category.Some? then CategoryName(category.value) else "vocabulary") &&
         loc.query == OrElse(query, "")) &&
      (v == Home ==> loc == Location("home", "1", "vocabulary", ""))
  {
    if v == Explorer {
      var a, b, c, d := [("view", "explorer")], LevelParam(level), CategoryParam(category), QueryParam(query);
      assert UrlParams(v, level, category, query) == a + b + c + d;
      GetParamOfFour(a, b, c, d, "view");
      GetParamOfFour(a, b, c, d, "level");
      GetParamOfFour(a, b, c, d, "category");
      GetParamOfFour(a, b, c, d, "q");
    }
  }

  /** The first value under a name in four lists appended. */
  lemma GetParamOfFour(a: Params, b: Params, c: Params, d: Params, name: string)
    ensures GetParam(a + b + c + d, name) ==
      if GetParam(a, name).Some? then GetParam(a, name)
      else if GetParam(b, name).Some? then GetParam(b, name)
      else if GetParam(c, name).Some? then GetParam(c, name)
      else GetParam(d, name)
  {
    GetParamAppend(a + b + c, d, name);
    GetParamAppend(a + b, c, name);
    GetParamAppend(a, b, name);
  }

  /** The home page's URL is the bare path. */
  lemma HomeUrlIsPath(pathname: string)
    ensures Href(pathname, UrlParams(Home, None, None, None)) == pathname
  {
  }

  // ---------------------------------------------------------------------------
  // Search tabs and the filter by tab

  /** `items.map(item => item.section).filter(Boolean)`. */
  function Sections(items: seq<Item>): (cs: seq<Category>)
    ensures forall c :: c in cs <==> exists i :: 0 <= i < |items| && SectionOf(items[i]) == Some(c)
  {
    if items == [] then []
    else
      (match SectionOf(items[0]) case Some(c) => [c] case None => [])
      + Sections(items[1..])
  }

  /** JavaScript's default string order: by code unit, a prefix first. */
  predicate NameBefore(a: string, b: string) {
    if a == [] then b != []
    else b != [] && (a[0] < b[0] || (a[0] == b[0] && NameBefore(a[1..], b[1..])))
  }

  predicate CategoryBefore(a: Category, b: Category) {
    NameBefore(CategoryName(a), CategoryName(b))
  }

  /** The alphabetical position of each category name. */
  function NameRank(c: Category): nat {
    match c
    case Characters => 0
    case Grammar => 1
    case Search => 2
    case Tasks => 3
    case Topics => 4
    case Vocabulary => 5
  }

  /** No name comes before itself. */
  lemma {:induction false} NameBeforeIrreflexive(a: string)
    ensures !NameBefore(a, a)
  {
    if a != [] {
      NameBeforeIrreflexive(a[1..]);
    }
  }

  /** Names that differ in their first character are ordered by it. */
  lemma FirstCharDecides(a: string, b: string)
    requires a != [] && b != [] && a[0] != b[0]
    ensures NameBefore(a, b) <==> a[0] < b[0]
  {
  }

  /** The string order of the six names is the order of their ranks. */
  lemma CategoryOrder(a: Category, b: Category)
    ensures CategoryBefore(a, b) <==> NameRank(a) < NameRank(b)
  {
    var x, y := CategoryName(a), CategoryName(b);
    if a == b {
      NameBeforeIrreflexive(x);
    } else if a == Tasks && b == Topics {
      assert x[1..] == "asks" && y[1..] == "opics";
      FirstCharDecides(x[1..], y[1..]);
    } else if a == Topics && b == Tasks {
      assert x[1..] == "opics" && y[1..] == "asks";
      FirstCharDecides(x[1..], y[1..]);
    } else {
      FirstCharDecides(x, y);
    }
  }

  /** `Array.from(new Set(cs))`: first occurrences, in order. */
  function Distinct(cs: seq<Category>, seen: set<Category>): (r: seq<Category>)
    ensures forall c :: c in r <==> c in cs && c !in seen
    ensures forall i, j :: 0 <= i < j < |r| ==> r[i] != r[j]
  {
    if cs == [] then []
    else if cs[0] in seen then Distinct(cs[1..], seen)
    else [cs[0]] + Distinct(cs[1..], seen + {cs[0]})
  }

  predicate StrictlySorted(cs: seq<Category>) {
    forall i, j :: 0 <= i < j < |cs| ==> NameRank(cs[i]) < NameRank(cs[j])
  }

  /** One step of `.sort()`: `c` placed before the first name after it. */
  function Insert(c: Category, cs: seq<Category>): (r: seq<Category>)
    requires StrictlySorted(cs) && c !in cs
    ensures StrictlySorted(r)
    ensures forall x :: x in r <==> x == c || x in cs
  {
    if cs == [] then [c]
    else if CategoryBefore(c, cs[0]) then
      InsertFront(c, cs);
      [c] + cs
    else
      InsertLater(c, cs, Insert(c, cs[1..]));
      [cs[0]] + Insert(c, cs[1..])
  }

  lemma InsertFront(c: Category, cs: seq<Category>)
    requires StrictlySorted(cs) && cs != [] && CategoryBefore(c, cs[0])
    ensures StrictlySorted([c] + cs)
  {
    CategoryOrder(c, cs[0]);
  }

  lemma InsertLater(c: Category, cs: seq<Category>, rest: seq<Category>)
    requires StrictlySorted(cs) && cs != [] && c !in cs && !CategoryBefore(c, cs[0])
    requires StrictlySorted(rest) && forall x :: x in rest <==> x == c || x in cs[1..]
    ensures StrictlySorted([cs[0]] + rest)
  {
    CategoryOrder(c, cs[0]);
    assert NameRank(cs[0]) < NameRank(c) by {
      RankInjective(c, cs[0]);
    }
    forall j | 0 <= j < |rest| ensures NameRank(cs[0]) < NameRank(rest[j]) {
      assert rest[j] in rest;
    }
  }

  lemma RankInjective(a: Category, b: Category)
    ensures NameRank(a) == NameRank(b) ==> a == b
  {
  }

  function SortNames(cs: seq<Category>): (r: seq<Category>)
    requires forall i, j :: 0 <= i < j < |cs| ==> cs[i] != cs[j]
    ensures StrictlySorted(r)
    ensures forall x :: x in r <==> x in cs
  {
    if cs == [] then []
    else
      assert cs[0] !in cs[1..] by {
        forall k | 0 <= k < |cs| - 1 ensures cs[1..][k] != cs[0] {
          assert cs[1..][k] == cs[k + 1];
        }
      }
      Insert(cs[0], SortNames(cs[1..]))
  }

  /** The tabs over search results: each truthy section once, in the
      string order of the names. */
  function SearchTabs(items: seq<Item>): (tabs: seq<Category>)
    ensures StrictlySorted(tabs)
    ensures forall c :: c in tabs <==> exists i :: 0 <= i < |items| && SectionOf(items[i]) == Some(c)
  {
    SortNames(Distinct(Sections(items), {}))
  }

  /** The tabs follow the string order of their names, so no tab repeats. */
  lemma TabsInNameOrder(items: seq<Item>, i: nat, j: nat)
    requires i < j < |SearchTabs(items)|
    ensures CategoryBefore(SearchTabs(items)[i], SearchTabs(items)[j])
    ensures SearchTabs(items)[i] != SearchTabs(items)[j]
  {
    CategoryOrder(SearchTabs(items)[i], SearchTabs(items)[j]);
  }

  /** `data.items.filter(i => i.section === searchCategory)` when a tab is
      chosen; `None` is the 'all' tab and keeps every item. */
  function FilterBySection(items: seq<Item>, tab: Option<Category>): (r: seq<Item>)
    ensures tab.None? ==> r == items
    ensures tab.Some? ==> forall i :: 0 <= i < |r| ==> SectionOf(r[i]) == Some(tab.value)
    ensures multiset(r) <= multiset(items)
  {
    if tab.None? || items == [] then items
    else
      var rest := FilterBySection(items[1..], tab);
      assert items == [items[0]] + items[1..];
      if SectionOf(items[0]) == Some(tab.value) then [items[0]] + rest else rest
  }

  /** Every item of the chosen section stays: the filter drops only items
      of other sections. */
  lemma {:induction false} FilterKeepsSection(items: seq<Item>, tab: Category, i: nat)
    requires i < |items| && SectionOf(items[i]) == Some(tab)
    ensures items[i] in FilterBySection(items, Some(tab))
  {
    if i > 0 {
      assert items[i] == items[1..][i - 1];
      FilterKeepsSection(items[1..], tab, i - 1);
    }
  }

  // ---------------------------------------------------------------------------
  // The app's state

  /** `t('foundMatches', { count: results.length, query })`, given the
      looked-up template. */
  function FoundMatches(template: string, count: nat, query: string): (r: string)
    ensures !Contains(template, "{count}") && !Contains(template, "{query}") ==> r == template
    ensures r == LanguageContext.ApplyParams(template, MatchParams(count, query))
  {
    MatchParamsApplied(template, count, query);
    ReplaceFirst(ReplaceFirst(template, "{count}", NatToString(count)), "{query}", query)
  }

  function MatchParams(count: nat, query: string): seq<(string, LanguageContext.ParamValue)> {
    [("count", LanguageContext.Number(count)), ("query", LanguageContext.Text(query))]
  }

  lemma MatchParamsApplied(template: string, count: nat, query: string)
    ensures LanguageContext.ApplyParams(template, MatchParams(count, query)) ==
      ReplaceFirst(ReplaceFirst(template, "{count}", NatToString(count)), "{query}", query)
  {
    var ps := MatchParams(count, query);
    var pc, pq := LanguageContext.Placeholder("count"), LanguageContext.Placeholder("query");
    assert pc == "{count}";
    assert pq == "{query}";
    var once := ReplaceFirst(template, pc, NatToString(count));
    assert ps[1..] == [("query", LanguageContext.Text(query))];
    assert LanguageContext.ApplyParams(template, ps) == LanguageContext.ApplyParams(once, ps[1..]);
    assert LanguageContext.ApplyParams(once, ps[1..]) == ReplaceFirst(once, pq, query) by {
      assert ps[1..][1..] == [];
    }
  }

  /** A template holding `{count}` shows the number of results in
      decimal, whatever the query substituted after it. */
  lemma FoundMatchesShowsCount(template: string, count: nat, query: string)
    requires Contains(template, "{count}")
    ensures Contains(FoundMatches(template, count, query), NatToString(count))
  {
    var d := NatToString(count);
    ReplacementOccurs(template, "{count}", d);
    var once := ReplaceFirst(template, "{count}", d);
    assert forall b :: 0 <= b < |"{query}"| ==> !IsDigit("{query}"[b]);
    ReplacementKeeps(once, d, IndexOf(template, "{count}").value, "{query}", query);
  }

  /** The replacement text stands where the first occurrence stood. */
  lemma ReplacementOccurs(s: string, pat: string, v: string)
    requires Contains(s, pat)
    ensures OccursAt(ReplaceFirst(s, pat, v), v, IndexOf(s, pat).value)
  {
    var i := IndexOf(s, pat).value;
    var r := ReplaceFirst(s, pat, v);
    assert r[i..i + |v|] == v;
  }

  /** An occurrence of digits survives replacing a pattern without digits:
      the two cannot overlap. */
  lemma ReplacementKeeps(s: string, d: string, i: nat, pat: string, v: string)
    requires OccursAt(s, d, i) && |d| > 0 && forall a :: 0 <= a < |d| ==> IsDigit(d[a])
    requires forall b :: 0 <= b < |pat| ==> !IsDigit(pat[b])
    ensures Contains(ReplaceFirst(s, pat, v), d)
  {
    if Contains(s, pat) {
      var j := IndexOf(s, pat).value;
      if !(j + |pat| <= i || i + |d| <= j) {
        var t := if i <= j then j else i;
        OccursAtChar(s, d, i, t - i);
        OccursAtChar(s, pat, j, t - j);
        assert false;
      }
      LanguageContext.SpliceKeepsContains(s, j, |pat|, v, d, i);
    } else {
      ContainsAt(s, d, i);
    }
  }

  /** `!query.trim()`: true exactly for a query of nothing but white
      space, which `trim` removes entirely. */
  function Blank(query: string): (b: bool)
    ensures b <==> AllWhitespace(query)
  {
    TrimEmptyIffBlank(query);
    Trim(query) == ""
  }

  datatype LoadingState = Idle | Loading | Succeeded | Failed(message: string)

  /** The `URLSearchParams` built by `updateUrl`: `set` called for the view
      and then for each truthy argument, on an empty query string. */
  method BuildParams(v: View, level: Option<string>, category: Option<Category>, query: Option<string>)
    returns (params: Params)
    ensures params == UrlParams(v, level, category, query)
  {
    params := [];
    if v != Home {
      var a, b, c, d := [("view", "explorer")], LevelParam(level), CategoryParam(category), QueryParam(query);
      params := SetParam(params, "view", "explorer");
      assert params == a;
      if Truthy(level) {
        params := SetParam(params, "level", level.value);
      }
      assert params == a + b;
      if category.Some? {
        GetParamAppend(a, b, "category");
        params := SetParam(params, "category", CategoryName(category.value));
      }
      assert params == a + b + c;
      if Truthy(query) {
        GetParamOfFour(a, b, c, [], "q");
        assert a + b + c + [] == a + b + c;
        params := SetParam(params, "q", query.value);
      } else {
        assert a + b + c + d == a + b + c;
      }
      assert params == a + b + c + d;
    }
  }

  class App {
    /** `view`: typed 'home' | 'explorer', but the URL's `view` value is
      stored unchecked, so any string can end up here. */
    var view: string
    var currentLevel: string
    var currentCategory: string
    var searchQuery: string
    var isSearching: bool
    /** `searchCategory`; `None` is 'all'. */
    var searchCategory: Option<Category>
    var loading: LoadingState
    var data: Option<SyllabusResponse>
    /** `window.location.pathname`. */
    const pathname: string
    /** The query strings of the URLs pushed onto the history, in order. */
    var history: seq<Params>

    constructor(pathname: string)
      ensures view == "home" && currentLevel == "1" && currentCategory == "vocabulary"
      ensures searchQuery == "" && !isSearching && searchCategory.None?
      ensures loading == Idle && data.None?
      ensures this.pathname == pathname && history == []
    {
      view := "home";
      currentLevel := "1";
      currentCategory := "vocabulary";
      searchQuery := "";
      isSearching := false;
      searchCategory := None;
      loading := Idle;
      data := None;
      this.pathname := pathname;
      history := [];
    }

    /** `updateUrl(viewState, level, category, query)`: the params are set
      one after another and the URL pushed. */
    method UpdateUrl(v: View, level: Option<string>, category: Option<Category>, query: Option<string>)
      modifies this
      ensures history == old(history) + [UrlParams(v, level, category, query)]
      ensures view == old(view) && currentLevel == old(currentLevel) && currentCategory == old(currentCategory)
      ensures searchQuery == old(searchQuery) && isSearching == old(isSearching)
      ensures searchCategory == old(searchCategory) && loading == old(loading) && data == old(data)
    {
      var params := BuildParams(v, level, category, query);
      history := history + [params];
    }

    /** `navigateToExplorer(level, category)`: the explorer opens on the
      level and category with the search cleared, and the URL records the
      level and category. */
    method NavigateToExplorer(level: string, category: Category)
      modifies this
      ensures view == "explorer" && currentLevel == level && currentCategory == CategoryName(category)
      ensures searchQuery == "" && !isSearching
      ensures history == old(history) + [UrlParams(Explorer, Some(level), Some(category), None)]
      ensures searchCategory == old(searchCategory) && loading == old(loading) && data == old(data)
    {
      currentLevel := level;
      currentCategory := CategoryName(category);
      view := "explorer";
      searchQuery := "";
      isSearching := false;
      UpdateUrl(Explorer, Some(level), Some(category), None);
    }

    /** `performSearch(query)`: a blank query only ends searching. Otherwise
      searching starts and the outcome of the search (`None` when it
      threw) is received. */
    method PerformSearch(query: string, foundMatches: string, outcome: Option<seq<Item>>) returns (searched: bool)
      modifies this
      ensures searched <==> !Blank(query)
      ensures !searched ==> !isSearching && loading == old(loading) && data == old(data)
      ensures !searched ==> searchCategory == old(searchCategory)
      ensures searched ==> isSearching && loading != Loading
      ensures searched && outcome.Some? ==> data.Some? && data.value.items == outcome.value && searchCategory.None?
      ensures searched && outcome.None? ==> data == old(data) && searchCategory == old(searchCategory)
      ensures view == old(view) && currentLevel == old(currentLevel) && currentCategory == old(currentCategory)
      ensures searchQuery == old(searchQuery) && history == old(history)
    {
      if Blank(query) {
        isSearching := false;
        return false;
      }
      searched := true;
      isSearching := true;
      loading := Loading;
      ReceiveSearch(query, foundMatches, outcome);
    }

    /** The continuation after `await searchContent(query)`: results become
      the data, with `foundMatches` (`count` and `query` filled in) as the
      description, and the 'all' tab is chosen; an exception only sets the
      error. */
    method ReceiveSearch(query: string, foundMatches: string, outcome: Option<seq<Item>>)
      modifies this
      ensures outcome.Some? ==>
        loading == Succeeded && searchCategory.None? &&
        data == Some(SyllabusResponse(outcome.value, FoundMatches(foundMatches, |outcome.value|, query)))
      ensures outcome.None? ==>
        loading == Failed("Search failed") && data == old(data) && searchCategory == old(searchCategory)
      ensures view == old(view) && currentLevel == old(currentLevel) && currentCategory == old(currentCategory)
      ensures searchQuery == old(searchQuery) && isSearching == old(isSearching) && history == old(history)
    {
      match outcome
      case Some(results) =>
        data := Some(SyllabusResponse(results, FoundMatches(foundMatches, |results|, query)));
        searchCategory := None;
        loading := Succeeded;
      case None =>
        loading := Failed("Search failed");
    }

    /** The `popstate` handler: the view, and for the explorer the level,
      category and query, are read from the query string; a non-empty
      query is returned to be searched. */
    method PopState(ps: Params) returns (search: Option<string>)
      modifies this
      ensures var loc := ReadLocation(ps);
        view == loc.view &&
        (loc.view == "explorer" ==>
           currentLevel == loc.level && currentCategory == loc.category && searchQuery == loc.query &&
           (isSearching <==> loc.query != "") &&
           search == (if loc.query != "" then Some(loc.query) else None)) &&
        (loc.view != "explorer" ==>
           searchQuery == "" && !isSearching && search.None? &&
           currentLevel == old(currentLevel) && currentCategory == old(currentCategory))
      ensures history == old(history) && data == old(data) && loading == old(loading)
    {
      var loc := ReadLocation(ps);
      search := None;
      view := loc.view;
      if loc.view == "explorer" {
        currentLevel := loc.level;
        currentCategory := loc.category;
        searchQuery := loc.query;
        if loc.query != "" {
          isSearching := true;
          search := Some(loc.query);
        } else {
          isSearching := false;
        }
      } else {
        searchQuery := "";
        isSearching := false;
      }
    }

    /** The mount effect: unlike `popstate`, the level and category are
      read whatever the view, and a query is only ever switched on. */
    method Mount(ps: Params) returns (search: Option<string>)
      modifies this
      ensures var loc := ReadLocation(ps);
        view == loc.view &&
        currentLevel == loc.level && currentCategory == loc.category &&
        (loc.query != "" ==> searchQuery == loc.query && isSearching && search == Some(loc.query)) &&
        (loc.query == "" ==>
           searchQuery == old(searchQuery) && isSearching == old(isSearching) && search.None?)
      ensures history == old(history) && data == old(data) && loading == old(loading)
    {
      var loc := ReadLocation(ps);
      search := None;
      view := loc.view;
      currentLevel := loc.level;
      currentCategory := loc.category;
      if loc.query != "" {
        searchQuery := loc.query;
        isSearching := true;
        search := Some(loc.query);
      }
    }

    /** `loadData`: the data is cleared while loading, then set to what
      the content service returned, or left empty with its error. */
    method LoadData(outcome: Result<SyllabusResponse>)
      modifies this
      ensures outcome.Ok? ==> data == Some(outcome.value) && loading == Succeeded
      ensures outcome.Err? ==> data.None? && loading == Failed(outcome.error)
      ensures view == old(view) && currentLevel == old(currentLevel) && currentCategory == old(currentCategory)
      ensures searchQuery == old(searchQuery) && isSearching == old(isSearching)
      ensures searchCategory == old(searchCategory) && history == old(history)
    {
      loading := Loading;
      data := None;
      match outcome
      case Ok(response) =>
        data := Some(response);
        loading := Succeeded;
      case Err(message) =>
        loading := Failed(message);
    }

    /** The page rendered: the home page only for the view "home"; every
      other value, an unrecognised one included, renders the explorer
      layout. */
    function Page(): (p: View)
      reads this
      ensures p == Home <==> view == "home"
      ensures view == "explorer" ==> p == Explorer
    {
      if view == "home" then Home else Explorer
    }

    /** The items handed to the list: while searching with a tab chosen,
      only that tab's items. */
    function ShownItems(): (items: seq<Item>)
      reads this
      ensures data.None? ==> items == []
      ensures data.Some? && (!isSearching || searchCategory.None?) ==> items == data.value.items
      ensures data.Some? && isSearching && searchCategory.Some? ==>
        forall i :: 0 <= i < |items| ==> SectionOf(items[i]) == searchCategory
    {
      if data.None? then []
      else if isSearching && searchCategory.Some? then FilterBySection(data.value.items, searchCategory)
      else data.value.items
    }
  }

  /** Going to the explorer and coming back to that URL restores the level
      and category and leaves the search off. */
  method NavigateThenPop(app: App, level: string, category: Category) returns (search: Option<string>)
    requires level != ""
    modifies app
    ensures app.view == "explorer" && app.currentLevel == level && app.currentCategory == CategoryName(category)
    ensures !app.isSearching && search.None?
  {
    app.NavigateToExplorer(level, category);
    var ps := app.history[|app.history| - 1];
    UrlReadsBack(Explorer, Some(level), Some(category), None);
    search := app.PopState(ps);
  }
}
