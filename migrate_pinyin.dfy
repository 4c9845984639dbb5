/** The one-off script scripts/migratePinyinData.ts, which fills the
    `pinyin_clean` search column of the vocabulary and character tables.

    Unicode canonical decomposition (`String.prototype.normalize("NFD")`)
    is host behaviour; it is a parameter `nfd` of the functions that use
    it.  The tables are sequences of `(id, pinyin)` rows in the order the
    database pages them, and whether each attempt of each request fails is
    an input. */
module MigratePinyin {
  import opened Wrappers
  import opened Strings
  import opened Sequences
  import opened HskTypes

  // ---------------------------------------------------------------------------
  // Character filters

  /** The characters of `s` that satisfy `keep`, in order (`replace` of a
      global character class by ""). */
  function Filter(s: string, keep: char -> bool): (r: string)
    ensures |r| <= |s|
    ensures forall i :: 0 <= i < |r| ==> keep(r[i])
  {
    if s == [] then [] else (if keep(s[0]) then [s[0]] else []) + Filter(s[1..], keep)
  }

  lemma {:induction false} FilterAppend(a: string, b: string, keep: char -> bool)
    ensures Filter(a + b, keep) == Filter(a, keep) + Filter(b, keep)
  {
    if a == [] {
      assert a + b == b;
    } else {
      assert (a + b)[0] == a[0] && (a + b)[1..] == a[1..] + b;
      FilterAppend(a[1..], b, keep);
    }
  }

  /** Whatever holds of every character of `s` holds of every character
      that `Filter` keeps. */
  lemma {:induction false} FilterPreserves(s: string, keep: char -> bool, p: char -> bool)
    requires forall i :: 0 <= i < |s| ==> p(s[i])
    ensures forall i :: 0 <= i < |Filter(s, keep)| ==> p(Filter(s, keep)[i])
  {
    if s != [] {
      FilterPreserves(s[1..], keep, p);
    }
  }

  lemma {:induction false} FilterKeepsAll(s: string, keep: char -> bool)
    requires forall i :: 0 <= i < |s| ==> keep(s[i])
    ensures Filter(s, keep) == s
  {
    if s != [] {
      FilterKeepsAll(s[1..], keep);
    }
  }

  /** `[̀-ͯ]`: the combining diacritical marks. */
  predicate IsCombiningMark(c: char) {
    '\U{0300}' <= c <= '\U{036F}'
  }

  predicate NotCombiningMark(c: char) {
    !IsCombiningMark(c)
  }

  predicate IsAsciiAlnum(c: char) {
    'a' <= c <= 'z' || 'A' <= c <= 'Z' || '0' <= c <= '9'
  }

  predicate IsLowerAlnum(c: char) {
    'a' <= c <= 'z' || '0' <= c <= '9'
  }

  predicate AllLowerAlnum(s: string) {
    forall i :: 0 <= i < |s| ==> IsLowerAlnum(s[i])
  }

  predicate NotWhitespace(c: char) {
    !IsWhitespace(c)
  }

  /** The `toneMap` lookup for the characters of the class
      `[āáǎàēéěèīíǐìōóǒòūúǔùüǖǘǚǜńň\u{E7C7}]`; the last one is a
      private-use code point the map sends to "m". */
  function ToneBase(c: char): (r: Option<char>)
    ensures c < '\U{00E0}' ==> r.None?
  {
    if c == '\U{0101}' || c == '\U{00E1}' || c == '\U{01CE}' || c == '\U{00E0}' then Some('a')
    else if c == '\U{0113}' || c == '\U{00E9}' || c == '\U{011B}' || c == '\U{00E8}' then Some('e')
    else if c == '\U{012B}' || c == '\U{00ED}' || c == '\U{01D0}' || c == '\U{00EC}' then Some('i')
    else if c == '\U{014D}' || c == '\U{00F3}' || c == '\U{01D2}' || c == '\U{00F2}' then Some('o')
    else if c == '\U{016B}' || c == '\U{00FA}' || c == '\U{01D4}' || c == '\U{00F9}' then Some('u')
    else if c == '\U{00FC}' || c == '\U{01D6}' || c == '\U{01D8}' || c == '\U{01DA}' || c == '\U{01DC}' then Some('v')
    else if c == '\U{0144}' || c == '\U{0148}' then Some('n')
    else if c == '\U{E7C7}' then Some('m')
    else None
  }

  /** `clean.replace(/[...]/g, match => toneMap[match] || match)`. */
  function MapTones(s: string): (r: string)
    ensures |r| == |s|
    ensures forall i :: 0 <= i < |s| ==> r[i] == ToneBase(s[i]).GetOr(s[i])
  {
    seq(|s|, i requires 0 <= i < |s| => ToneBase(s[i]).GetOr(s[i]))
  }

  // ---------------------------------------------------------------------------
  // The two normalisers

  /** `normalizePinyin`: decompose, drop combining marks, map the tone
      letters left over, drop everything but ASCII letters and digits, and
      lower-case.  Absent or empty input gives "". */
  function NormalizePinyin(nfd: string -> string, pinyin: Option<string>): (r: string)
    ensures AllLowerAlnum(r)
    ensures !Truthy(pinyin) ==> r == ""
  {
    if !Truthy(pinyin) then ""
    else
      var kept := Filter(MapTones(Filter(nfd(pinyin.value), NotCombiningMark)), IsAsciiAlnum);
      var r := ToLower(kept);
      assert forall i :: 0 <= i < |r| ==> r[i] == LowerChar(kept[i]) && IsAsciiAlnum(kept[i]);
      r
  }

  /** `toLowerCase()` then `replace(/ü/g, 'v')`, one character at a time:
      capitals become small letters and `ü` becomes `v`; white space stays
      white space and nothing else does. */
  function FoldChar(c: char): (d: char)
    ensures !('A' <= d <= 'Z') && d != '\U{00FC}'
    ensures c == '\U{00FC}' ==> d == 'v'
    ensures IsWhitespace(d) <==> IsWhitespace(c)
    ensures IsCombiningMark(d) <==> IsCombiningMark(c)
  {
    if c == '\U{00FC}' then 'v' else LowerChar(c)
  }

  function FoldAll(s: string): (r: string)
    ensures |r| == |s| && forall i :: 0 <= i < |s| ==> r[i] == FoldChar(s[i])
  {
    seq(|s|, i requires 0 <= i < |s| => FoldChar(s[i]))
  }

  /** `removeTones` (defined next to it, not called by the migration):
      decompose, drop combining marks, lower-case, turn `ü` into `v` and
      drop white space. */
  function RemoveTones(nfd: string -> string, pinyin: Option<string>): (r: string)
    ensures forall i :: 0 <= i < |r| ==>
      !IsWhitespace(r[i]) && !IsCombiningMark(r[i]) && r[i] != '\U{00FC}' && !('A' <= r[i] <= 'Z')
    ensures !Truthy(pinyin) ==> r == ""
    ensures Truthy(pinyin) ==> |r| <= |nfd(pinyin.value)|
  {
    if !Truthy(pinyin) then ""
    else
      var stripped := Filter(nfd(pinyin.value), NotCombiningMark);
      var folded := FoldAll(stripped);
      FilterPreserves(folded, NotWhitespace, c => !IsCombiningMark(c) && c != '\U{00FC}' && !('A' <= c <= 'Z'));
      Filter(folded, NotWhitespace)
  }

  /** Folding and dropping white space commute, since folding keeps white
      space exactly where it was. */
  lemma {:induction false} FoldThenFilter(s: string)
    ensures Filter(FoldAll(s), NotWhitespace) == FoldAll(Filter(s, NotWhitespace))
  {
    if s != [] {
      var f := FoldAll(s);
      assert f[1..] == FoldAll(s[1..]);
      FoldThenFilter(s[1..]);
      var head := if NotWhitespace(s[0]) then [s[0]] else [];
      FoldAllAppend(head, Filter(s[1..], NotWhitespace));
      assert FoldAll(head) == if NotWhitespace(f[0]) then [f[0]] else [];
    }
  }

  lemma FoldAllAppend(a: string, b: string)
    ensures FoldAll(a + b) == FoldAll(a) + FoldAll(b)
  {
    assert forall i :: 0 <= i < |a| + |b| ==> FoldAll(a + b)[i] == (FoldAll(a) + FoldAll(b))[i] by {
      forall i | 0 <= i < |a| + |b| ensures FoldAll(a + b)[i] == (FoldAll(a) + FoldAll(b))[i] {
        if i >= |a| {
          assert (a + b)[i] == b[i - |a|];
        }
      }
    }
  }

  /** The characters `removeTones` returns are, in order, the characters of
      the decomposition that are neither combining marks nor white space,
      each lower-cased with `ü` turned into `v`. */
  lemma RemoveTonesKeeps(nfd: string -> string, pinyin: Option<string>)
    requires Truthy(pinyin)
    ensures var kept := Filter(Filter(nfd(pinyin.value), NotCombiningMark), NotWhitespace);
      RemoveTones(nfd, pinyin) == FoldAll(kept)
  {
    FoldThenFilter(Filter(nfd(pinyin.value), NotCombiningMark));
  }

  /** "Lü  Xing", left as it is by the decomposition, becomes "lvxing". */
  lemma RemoveTonesExample()
    ensures RemoveTones(s => s, Some("L\U{00FC}  Xing")) == "lvxing"
  {
    var p := "L\U{00FC}  Xing";
    RemoveTonesKeeps(s => s, Some(p));
    ExampleKept();
    ExampleFolded();
  }

  lemma ExampleKept()
    ensures Filter(Filter("L\U{00FC}  Xing", NotCombiningMark), NotWhitespace) == "L\U{00FC}Xing"
  {
    ExampleHasNoMarks();
    ExampleSpacesDropped();
  }

  lemma ExampleHasNoMarks()
    ensures Filter("L\U{00FC}  Xing", NotCombiningMark) == "L\U{00FC}  Xing"
  {
    var p := "L\U{00FC}  Xing";
    assert forall i :: 0 <= i < |p| ==> p[i] < '\U{0300}';
    FilterKeepsAll(p, NotCombiningMark);
  }

  lemma ExampleSpacesDropped()
    ensures Filter("L\U{00FC}  Xing", NotWhitespace) == "L\U{00FC}Xing"
  {
    var a, b := "L\U{00FC}", "Xing";
    var s := a + "  " + b;
    assert s == "L\U{00FC}  Xing" && a + b == "L\U{00FC}Xing";
    LettersKept(a);
    LettersKept(b);
    SeparatorDropped(a, "  ", b);
  }

  /** ASCII letters and `ü` are not white space. */
  lemma LettersKept(s: string)
    requires forall i :: 0 <= i < |s| ==> 'A' <= s[i] <= 'z' || s[i] == '\U{00FC}'
    ensures Filter(s, NotWhitespace) == s
  {
    FilterKeepsAll(s, NotWhitespace);
  }

  lemma SeparatorDropped(a: string, sep: string, b: string)
    requires Filter(a, NotWhitespace) == a && Filter(b, NotWhitespace) == b
    requires forall i :: 0 <= i < |sep| ==> sep[i] == ' '
    ensures Filter(a + sep + b, NotWhitespace) == a + b
  {
    FilterAppend(a + sep, b, NotWhitespace);
    FilterAppend(a, sep, NotWhitespace);
    SpacesFiltered(sep);
    assert Filter(a + sep, NotWhitespace) == a + [] == a;
  }

  lemma {:induction false} SpacesFiltered(sep: string)
    requires forall i :: 0 <= i < |sep| ==> sep[i] == ' '
    ensures Filter(sep, NotWhitespace) == []
  {
    if sep != [] {
      SpacesFiltered(sep[1..]);
    }
  }

  lemma ExampleFolded()
    ensures FoldAll("L\U{00FC}Xing") == "lvxing"
  {
  }

  /** A decomposition that leaves lower-case ASCII letters and digits alone,
      as Unicode NFD does. */
  ghost predicate FixesLowerAlnum(nfd: string -> string) {
    forall s :: AllLowerAlnum(s) ==> nfd(s) == s
  }

  lemma LowerAlnumIsNormal(s: string)
    requires AllLowerAlnum(s)
    ensures Filter(s, NotCombiningMark) == s
    ensures MapTones(s) == s
    ensures Filter(s, IsAsciiAlnum) == s
    ensures ToLower(s) == s
  {
    FilterKeepsAll(s, NotCombiningMark);
    FilterKeepsAll(s, IsAsciiAlnum);
    forall i | 0 <= i < |s| ensures MapTones(s)[i] == s[i] && ToLower(s)[i] == s[i] {
      assert IsLowerAlnum(s[i]);
    }
  }

  /** Normalising is idempotent, so re-running the migration on its own
      output changes nothing. */
  lemma NormalizePinyinIdempotent(nfd: string -> string, pinyin: Option<string>)
    requires FixesLowerAlnum(nfd)
    ensures NormalizePinyin(nfd, Some(NormalizePinyin(nfd, pinyin))) == NormalizePinyin(nfd, pinyin)
  {
    var r := NormalizePinyin(nfd, pinyin);
    if r != "" {
      assert nfd(r) == r;
      LowerAlnumIsNormal(r);
    }
  }

  /** A character other than a combining mark or a tone letter survives
      the first two steps of `normalizePinyin` unchanged. */
  predicate Untouched(c: char) {
    !IsCombiningMark(c) && ToneBase(c).None?
  }

  lemma UntouchedSteps(s: string)
    requires forall i :: 0 <= i < |s| ==> Untouched(s[i])
    ensures Filter(s, NotCombiningMark) == s
    ensures MapTones(s) == s
  {
    FilterKeepsAll(s, NotCombiningMark);
  }

  /** The non-alphanumeric separator between two alphanumeric words is the
      only character the alphanumeric filter drops. */
  lemma SeparatorFiltered(a: string, c: char, b: string)
    requires AllLowerAlnum(a) && AllLowerAlnum(b) && !IsAsciiAlnum(c)
    ensures Filter(a + [c] + b, IsAsciiAlnum) == a + b
  {
    FilterAppend(a + [c], b, IsAsciiAlnum);
    FilterAppend(a, [c], IsAsciiAlnum);
    FilterKeepsAll(a, IsAsciiAlnum);
    FilterKeepsAll(b, IsAsciiAlnum);
    assert Filter([c], IsAsciiAlnum) == [];
  }

  /** Spaces and punctuation vanish: two lower-case words joined by such a
      separator normalise to the words run together, provided the
      decomposition leaves them alone. */
  lemma SeparatorRemoved(nfd: string -> string, a: string, c: char, b: string)
    requires AllLowerAlnum(a) && AllLowerAlnum(b)
    requires !IsAsciiAlnum(c) && Untouched(c)
    requires nfd(a + [c] + b) == a + [c] + b
    ensures NormalizePinyin(nfd, Some(a + [c] + b)) == a + b
  {
    var s := a + [c] + b;
    assert forall i :: 0 <= i < |s| ==> s[i] == c || IsLowerAlnum(s[i]);
    UntouchedSteps(s);
    SeparatorFiltered(a, c, b);
    assert AllLowerAlnum(a + b);
    LowerAlnumIsNormal(a + b);
    assert (a + [c] + b) != "";
  }

  /** "wo men" and "women" normalise alike. */
  lemma SpacesRemoved(nfd: string -> string)
    requires nfd("wo men") == "wo men" && nfd("women") == "women"
    ensures NormalizePinyin(nfd, Some("wo men")) == "women"
    ensures NormalizePinyin(nfd, Some("women")) == "women"
  {
    var a, b := "wo", "men";
    assert a + [' '] + b == "wo men" && a + b == "women";
    SeparatorRemoved(nfd, a, ' ', b);
    assert AllLowerAlnum("women");
    LowerAlnumIsNormal("women");
  }

  /** Tone marks are dropped whether the decomposition separates them
      (NFD: "nǐ" is n, i, U+030C) or leaves them precomposed (the tone
      map then catches them). */
  lemma ToneMarksDropped(nfd: string -> string)
    requires nfd("n\U{01D0}") == "ni\U{030C}"
    ensures NormalizePinyin(nfd, Some("n\U{01D0}")) == "ni"
    ensures NormalizePinyin(s => s, Some("n\U{01D0}")) == "ni"
  {
    assert AllLowerAlnum("ni");
    LowerAlnumIsNormal("ni");
    assert "ni\U{030C}" == "ni" + "\U{030C}";
    FilterAppend("ni", "\U{030C}", NotCombiningMark);
    assert Filter("\U{030C}", NotCombiningMark) == [];
    var p := "n\U{01D0}";
    FilterKeepsAll(p, NotCombiningMark);
    assert MapTones(p) == "ni";
  }

  /** Under a true NFD, `ü` (u followed by U+0308) loses its diaeresis
      before the tone map can turn it into `v`, so "lü" and "lu" share a
      search key; only a decomposition that keeps `ü` whole yields "lv". */
  lemma UmlautUnderDecomposition(nfd: string -> string)
    requires nfd("l\U{00FC}") == "lu\U{0308}" && nfd("lu") == "lu"
    ensures NormalizePinyin(nfd, Some("l\U{00FC}")) == "lu"
    ensures NormalizePinyin(nfd, Some("lu")) == "lu"
    ensures NormalizePinyin(s => s, Some("l\U{00FC}")) == "lv"
  {
    assert AllLowerAlnum("lu");
    LowerAlnumIsNormal("lu");
    assert AllLowerAlnum("lv");
    LowerAlnumIsNormal("lv");
    DiaeresisDropped();
    PrecomposedUmlautMapped();
  }

  lemma DiaeresisDropped()
    ensures Filter("lu\U{0308}", NotCombiningMark) == "lu"
  {
    assert "lu\U{0308}" == "lu" + "\U{0308}";
    FilterAppend("lu", "\U{0308}", NotCombiningMark);
    FilterKeepsAll("lu", NotCombiningMark);
    assert Filter("\U{0308}", NotCombiningMark) == [];
  }

  lemma PrecomposedUmlautMapped()
    ensures Filter("l\U{00FC}", NotCombiningMark) == "l\U{00FC}"
    ensures MapTones("l\U{00FC}") == "lv"
  {
    var p := "l\U{00FC}";
    FilterKeepsAll(p, NotCombiningMark);
    assert MapTones(p) == "lv";
  }

  // ---------------------------------------------------------------------------
  // Retrying a request

  /** The `for (let i = 0; i < retries; i++) try ... catch` loop of
      `fetchWithRetry` and `updateWithRetry`: `attempt(i)` is what the i-th
      try gives.  The first success is returned; the error of the last
      allowed try is rethrown; with no tries at all the result is `null`
      (`Ok(None)`).  The back-off delays are not modelled. */
  method WithRetry<T>(retries: int, attempt: nat -> Result<T>) returns (r: Result<Option<T>>)
    ensures r == Ok(None) <==> retries <= 0
    ensures r.Ok? && r.value.Some? ==>
      exists i: nat :: i < retries && attempt(i) == Ok(r.value.value) &&
        forall j: nat :: j < i ==> attempt(j).Err?
    ensures r.Err? ==>
      retries >= 1 && attempt(retries - 1) == Err(r.error) &&
      forall j: nat :: j < retries ==> attempt(j).Err?
  {
    var i: nat := 0;
    while i < retries
      invariant forall j: nat :: j < i ==> attempt(j).Err?
      invariant 0 < retries ==> i < retries
      decreases retries - i
    {
      match attempt(i)
      case Ok(v) =>
        return Ok(Some(v));
      case Err(e) =>
        if i == retries - 1 {
          return Err(e);
        }
      i := i + 1;
    }
    return Ok(None);
  }

  // ---------------------------------------------------------------------------
  // Paging

  const MigrationBatchSize: nat := 50
  const Retries: nat := 5

  /** `range(page * size, (page + 1) * size - 1)`, both ends inclusive. */
  function PageRange(page: nat, size: nat): (int, int) {
    (page * size, (page + 1) * size - 1)
  }

  /** Consecutive pages tile the table: row `r` lies in page `r / size`
      and in no other. */
  lemma PageOfRow(r: nat, size: nat, page: nat)
    requires size > 0
    ensures PageRange(page, size).0 <= r <= PageRange(page, size).1 <==> page == r / size
  {
    var q := r / size;
    assert q * size <= r < (q + 1) * size;
    if page < q {
      assert (page + 1) * size <= q * size;
    } else if page > q {
      assert page * size >= (q + 1) * size;
    }
  }

  datatype PinyinRow = PinyinRow(id: string, pinyin: Option<string>)

  /** One upserted record `{ id, pinyin_clean }`. */
  datatype Update = Update(id: string, pinyinClean: string)

  function UpdatesFor(nfd: string -> string, rows: seq<PinyinRow>): (u: seq<Update>)
    ensures |u| == |rows|
    ensures forall i :: 0 <= i < |rows| ==> u[i] == Update(rows[i].id, NormalizePinyin(nfd, rows[i].pinyin))
  {
    seq(|rows|, i requires 0 <= i < |rows| => Update(rows[i].id, NormalizePinyin(nfd, rows[i].pinyin)))
  }

  /** Mapping rows to updates commutes with concatenation. */
  lemma UpdatesForAppend(nfd: string -> string, a: seq<PinyinRow>, b: seq<PinyinRow>)
    ensures UpdatesFor(nfd, a + b) == UpdatesFor(nfd, a) + UpdatesFor(nfd, b)
  {
    var l, r := UpdatesFor(nfd, a + b), UpdatesFor(nfd, a) + UpdatesFor(nfd, b);
    assert forall i :: 0 <= i < |l| ==> l[i] == r[i] by {
      forall i | 0 <= i < |l| ensures l[i] == r[i] {
        if i >= |a| {
          assert (a + b)[i] == b[i - |a|];
        }
      }
    }
  }

  /** Some of the five attempts to fetch `page` succeeds. */
  ghost predicate FetchSucceeds(fetchFails: (nat, nat) -> bool, page: nat) {
    exists i: nat :: i < Retries && !fetchFails(page, i)
  }

  /** The rows `range(page * size, (page + 1) * size - 1)` selects: at most
      a page of them, starting at row `page * size`, in table order. */
  function PageRows(table: seq<PinyinRow>, page: nat): (d: seq<PinyinRow>)
    ensures |d| == Max(0, Min(MigrationBatchSize, |table| - page * MigrationBatchSize))
    ensures d != [] ==>
              page * MigrationBatchSize + |d| <= |table| &&
              d == table[page * MigrationBatchSize..page * MigrationBatchSize + |d|]
  {
    table[Min(page * MigrationBatchSize, |table|)..Min((page + 1) * MigrationBatchSize, |table|)]
  }

  /** A non-empty page extends the processed prefix of the table by itself. */
  lemma PageStep(table: seq<PinyinRow>, page: nat, processed: nat)
    requires processed == Min(page * MigrationBatchSize, |table|)
    requires PageRows(table, page) != []
    ensures page * MigrationBatchSize < |table|
    ensures processed + |PageRows(table, page)| == Min((page + 1) * MigrationBatchSize, |table|)
    ensures table[..processed + |PageRows(table, page)|] == table[..processed] + PageRows(table, page)
  {
  }

  /** `fetchWithRetry(table, page, 50)`: the page's rows when one of the five
      tries succeeds, the last try's error when all of them fail. */
  method FetchPage(table: seq<PinyinRow>, page: nat, fetchFails: (nat, nat) -> bool)
    returns (r: Result<Option<seq<PinyinRow>>>)
    ensures r.Err? <==> !FetchSucceeds(fetchFails, page)
    ensures r.Ok? ==> r == Ok(Some(PageRows(table, page)))
  {
    var data := PageRows(table, page);
    var attempt := (i: nat) => if fetchFails(page, i) then Err("fetch failed") else Ok(data);
    r := WithRetry(Retries, attempt);
    if r.Err? {
      forall i: nat | i < Retries ensures fetchFails(page, i) {
        assert attempt(i).Err?;
      }
    } else {
      var i: nat :| i < Retries && attempt(i) == Ok(r.value.value);
    }
  }

  /** `updateWithRetry(table, updates)` for the updates of `page`: whether
      one of the five upserts succeeded (its error is only logged). */
  method UpdatePage(page: nat, updateFails: (nat, nat) -> bool) returns (ok: bool)
    ensures ok <==> UpdateSucceeds(updateFails, page)
    ensures !updateFails(page, 0) ==> ok
  {
    var upsert := (i: nat) => if updateFails(page, i) then Err("update failed") else Ok(());
    var written := WithRetry(Retries, upsert);
    ok := written.Ok?;
    if ok {
      var i: nat :| i < Retries && upsert(i) == Ok(written.value.value);
      assert !updateFails(page, i);
    } else {
      forall i: nat | i < Retries ensures updateFails(page, i) {
        assert upsert(i).Err?;
      }
    }
  }

  /** Some of the five upserts of `page`'s updates succeeds. */
  ghost predicate UpdateSucceeds(updateFails: (nat, nat) -> bool, page: nat) {
    exists i: nat :: i < Retries && !updateFails(page, i)
  }

  /** The updates of the first `pages` pages whose upsert succeeded, in
      page order. */
  ghost function StoredUpdates(nfd: string -> string, table: seq<PinyinRow>,
                               updateFails: (nat, nat) -> bool, pages: nat): seq<Update>
  {
    if pages == 0 then []
    else
      StoredUpdates(nfd, table, updateFails, pages - 1) +
      (if UpdateSucceeds(updateFails, pages - 1) then UpdatesFor(nfd, PageRows(table, pages - 1)) else [])
  }

  /** How many pages the first `processed` rows fill, the last one
      possibly partly. */
  function PagesOf(processed: nat): nat {
    (processed + MigrationBatchSize - 1) / MigrationBatchSize
  }

  /** When the loop stops at page `page`, the processed rows fill exactly
      the pages before it. */
  lemma PagesProcessed(n: nat, page: nat)
    requires page > 0 ==> (page - 1) * MigrationBatchSize < n
    ensures PagesOf(Min(page * MigrationBatchSize, n)) == page
  {
  }

  /** Before page `page` is fetched, the rows already processed are exactly
      the pages before it, so their count is a multiple of the page size
      unless the table is exhausted. */
  lemma PagesBefore(n: nat, page: nat)
    requires page > 0 ==> (page - 1) * MigrationBatchSize < n
    ensures Min(page * MigrationBatchSize, n) < n ==>
      Min(page * MigrationBatchSize, n) / MigrationBatchSize == page &&
      Min(page * MigrationBatchSize, n) % MigrationBatchSize == 0
  {
  }

  /** One table's `while (true)` loop: fetch page after page (each with up
      to five tries) until a page is empty or every try of a fetch fails,
      and upsert the normalised pinyin of every fetched row (an upsert whose
      five tries all fail is only logged).  Returns how many rows were
      processed, every update sent, and the updates that were stored. */
  method MigrateTable(nfd: string -> string, table: seq<PinyinRow>,
                      fetchFails: (nat, nat) -> bool, updateFails: (nat, nat) -> bool)
    returns (processed: nat, sent: seq<Update>, stored: seq<Update>)
    ensures processed <= |table|
    ensures sent == UpdatesFor(nfd, table[..processed])
    ensures processed == |table| || !FetchSucceeds(fetchFails, processed / MigrationBatchSize)
    ensures processed < |table| ==> processed % MigrationBatchSize == 0
    ensures forall u :: u in stored ==> u in sent
    ensures stored == StoredUpdates(nfd, table, updateFails, PagesOf(processed))
    ensures (forall p: nat :: !updateFails(p, 0)) ==> stored == sent
  {
    processed := 0;
    sent := [];
    stored := [];
    var page: nat := 0;
    while true
      invariant processed == Min(page * MigrationBatchSize, |table|)
      invariant page > 0 ==> (page - 1) * MigrationBatchSize < |table|
      invariant sent == UpdatesFor(nfd, table[..processed])
      invariant forall u :: u in stored ==> u in sent
      invariant stored == StoredUpdates(nfd, table, updateFails, page)
      invariant (forall p: nat :: !updateFails(p, 0)) ==> stored == sent
      decreases |table| - processed, if page * MigrationBatchSize <= |table| then 1 else 0
    {
      PagesBefore(|table|, page);
      PagesProcessed(|table|, page);
      var fetched := FetchPage(table, page, fetchFails);
      if fetched.Err? {
        return;
      }
      if fetched.value.None? || fetched.value.value == [] {
        return;
      }
      var data := fetched.value.value;
      PageStep(table, page, processed);
      UpdatesForAppend(nfd, table[..processed], data);
      var updates := UpdatesFor(nfd, data);
      var ok := UpdatePage(page, updateFails);
      sent := sent + updates;
      if ok {
        stored := stored + updates;
      }
      processed := processed + |data|;
      page := page + 1;
    }
  }
}
