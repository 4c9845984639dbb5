/** services/contentService.ts: turning database rows into frontend items,
    choosing between the database and the AI generator for a syllabus
    page, and assembling search results.

    The database is a value (`Database`, the five tables in the order the
    queries return them), and the AI generator is a function from the
    request it is sent to its parsed answer, `None` when it fails. */
module ContentService {
  import opened Wrappers
  import opened Strings
  import opened Sequences
  import opened HskTypes

  // ---------------------------------------------------------------------------
  // Row mapping

  /** `item.source || 'official'`: a stored source is kept, a missing one
      reads as official. */
  function SourceOrOfficial(s: Option<Source>): (r: Source)
    ensures s.Some? ==> r == s.value
    ensures s.None? ==> r == Official
  {
    s.GetOr(Official)
  }

  /** A localized text column with its fallback: for `vi` and `en` the
      column of that language when truthy, otherwise the base column; `zh`
      always reads the base column. */
  function LocalizedText(lang: Language, vi: Option<string>, en: Option<string>, base: string): (r: string)
    ensures r == base || (lang == Vi && vi.Some? && r == vi.value) || (lang == En && en.Some? && r == en.value)
    ensures lang == Vi ==> r == (if Truthy(vi) then vi.value else base)
    ensures lang == En ==> r == (if Truthy(en) then en.value else base)
    ensures lang == Zh ==> r == base
    ensures r != base ==> r != ""
  {
    match lang
    case Vi => if Truthy(vi) then vi.value else base
    case En => if Truthy(en) then en.value else base
    case Zh => base
  }

  /** A localized list column: used only when present and non-empty. */
  function LocalizedList(lang: Language, vi: Option<seq<string>>, en: Option<seq<string>>, base: seq<string>): (r: seq<string>)
    ensures r == base || (lang == Vi && vi.Some? && r == vi.value) || (lang == En && en.Some? && r == en.value)
    ensures lang == Vi ==> r == (if vi.Some? && |vi.value| > 0 then vi.value else base)
    ensures lang == En ==> r == (if en.Some? && |en.value| > 0 then en.value else base)
    ensures lang == Zh ==> r == base
    ensures r != base ==> r != []
  {
    match lang
    case Vi => if vi.Some? && |vi.value| > 0 then vi.value else base
    case En => if en.Some? && |en.value| > 0 then en.value else base
    case Zh => base
  }

  /** The rows that `mapDbItemToFrontend` is called with for a category:
      rows of the table that category reads; any other category (grammar,
      and also 'search') takes the grammar branch. */
  predicate RowFitsCategory(row: Row, cat: Category) {
    match cat
    case Vocabulary => row.VocabRecord?
    case Characters => row.CharRecord?
    case Tasks => row.TaskRecord?
    case Topics => row.TopicRecord?
    case _ => row.GrammarRecord?
  }

  function RowLevel(row: Row): string {
    match row
    case VocabRecord(r) => r.level
    case CharRecord(r) => r.level
    case GrammarRecord(r) => r.level
    case TaskRecord(r) => r.level
    case TopicRecord(r) => r.level
  }

  function RowSource(row: Row): Option<Source> {
    match row
    case VocabRecord(r) => r.source
    case CharRecord(r) => r.source
    case GrammarRecord(r) => r.source
    case TaskRecord(r) => r.source
    case TopicRecord(r) => r.source
  }

  /** `mapDbItemToFrontend(item, category, language)`. */
  function MapDbItem(row: Row, cat: Category, lang: Language): (item: Item)
    requires RowFitsCategory(row, cat)
    ensures SectionOf(item) == Some(cat)
    ensures LevelOf(item) == Some(RowLevel(row))
    ensures SourceOf(item) == Some(SourceOrOfficial(RowSource(row)))
    ensures cat == Vocabulary <==> item.VocabEntry?
    ensures cat == Characters <==> item.CharEntry?
    ensures cat == Tasks <==> item.TaskEntry?
    ensures cat == Topics <==> item.TopicEntry?
    ensures cat in {Grammar, Search} <==> item.GrammarEntry?
  {
    var src := Some(SourceOrOfficial(RowSource(row)));
    match cat
    case Vocabulary =>
      var r := row.vr;
      VocabEntry(VocabItem(r.ordinal, r.hanzi, r.pinyin, r.partOfSpeech, r.definition,
                           r.exampleSentence, src, Some(r.level), Some(cat)))
    case Characters =>
      var r := row.cr;
      CharEntry(CharItem(r.ordinal, r.glyph, r.pinyin, r.meaning, r.strokes, r.charType,
                         src, Some(r.level), Some(cat)))
    case Tasks =>
      var r := row.tr;
      TaskEntry(TaskItem(
        LocalizedText(lang, r.categoryVi, r.categoryEn, r.category),
        LocalizedText(lang, r.descriptionVi, r.descriptionEn, r.description),
        LocalizedList(lang, r.canDoVi, r.canDoEn, r.canDo),
        src, Some(r.level), Some(cat)))
    case Topics =>
      var r := row.pr;
      TopicEntry(TopicItem(
        LocalizedText(lang, r.primaryTopicVi, r.primaryTopicEn, r.primaryTopic),
        LocalizedText(lang, r.secondaryTopicVi, r.secondaryTopicEn, r.secondaryTopic),
        LocalizedList(lang, r.tertiaryItemsVi, r.tertiaryItemsEn, r.tertiaryItems),
        src, Some(r.level), Some(cat)))
    case _ =>
      var r := row.gr;
      GrammarEntry(GrammarItem(r.category, r.subCategory, r.pattern, r.name, r.explanation,
                               r.example, src, Some(r.level), Some(cat)))
  }

  /** In Chinese the task and topic texts are the base columns, whatever
      translations a row carries. */
  lemma ChineseUsesBaseColumns(t: TaskRow, p: TopicRow)
    ensures var x := MapDbItem(TaskRecord(t), Tasks, Zh).task;
            x.category == t.category && x.description == t.description && x.canDo == t.canDo
    ensures var y := MapDbItem(TopicRecord(p), Topics, Zh).topic;
            y.primary == p.primaryTopic && y.secondary == p.secondaryTopic && y.items == p.tertiaryItems
  {
  }

  /** In Vietnamese and English a task or topic shows the translated
      column whenever the row carries a truthy (or non-empty) one. */
  lemma TranslationsUsed(t: TaskRow, p: TopicRow, lang: Language)
    requires lang != Zh
    ensures var x := MapDbItem(TaskRecord(t), Tasks, lang).task;
            var cat := if lang == Vi then t.categoryVi else t.categoryEn;
            var canDo := if lang == Vi then t.canDoVi else t.canDoEn;
            (Truthy(cat) ==> x.category == cat.value) &&
            (canDo.Some? && canDo.value != [] ==> x.canDo == canDo.value)
    ensures var y := MapDbItem(TopicRecord(p), Topics, lang).topic;
            var primary := if lang == Vi then p.primaryTopicVi else p.primaryTopicEn;
            var items := if lang == Vi then p.tertiaryItemsVi else p.tertiaryItemsEn;
            (Truthy(primary) ==> y.primary == primary.value) &&
            (!Truthy(primary) ==> y.primary == p.primaryTopic) &&
            (items.Some? && items.value != [] ==> y.items == items.value)
  {
  }

  function MapAll(rows: seq<Row>, cat: Category, lang: Language): (items: seq<Item>)
    requires forall i :: 0 <= i < |rows| ==> RowFitsCategory(rows[i], cat)
    ensures |items| == |rows|
    ensures forall i :: 0 <= i < |rows| ==> items[i] == MapDbItem(rows[i], cat, lang)
  {
    seq(|rows|, i requires 0 <= i < |rows| => MapDbItem(rows[i], cat, lang))
  }

  // ---------------------------------------------------------------------------
  // Syllabus content: database first, AI otherwise

  datatype Database = Database(
    vocabulary: seq<VocabRow>, characters: seq<CharRow>, grammar: seq<GrammarRow>,
    tasks: seq<TaskRow>, topics: seq<TopicRow>)

  /** The levels a character query matches: levels '1' and '2' also take
      the mixed '1-2' rows, every other level only itself. */
  function CharacterLevels(level: string): (levels: set<string>)
    ensures level in levels
    ensures "1-2" in levels <==> level in {"1", "2", "1-2"}
    ensures |levels| <= 2
    ensures level == "1" || level == "2" ==> levels == {level, "1-2"}
    ensures level != "1" && level != "2" ==> levels == {level}
  {
    if level == "1" || level == "2" then {level, "1-2"} else {level}
  }

  /** The rows the database returns for a syllabus page: the table of the
      category, filtered by level (`eq`, or `in` for characters). */
  function Query(db: Database, cat: Category, level: string): (rows: seq<Row>)
    ensures forall i :: 0 <= i < |rows| ==> RowFitsCategory(rows[i], cat)
    ensures forall i :: 0 <= i < |rows| ==>
      if cat == Characters then RowLevel(rows[i]) in CharacterLevels(level) else RowLevel(rows[i]) == level
    ensures cat == Vocabulary ==>
      forall x :: x in db.vocabulary && x.level == level ==> VocabRecord(x) in rows
    ensures cat == Characters ==>
      forall x :: x in db.characters && x.level in CharacterLevels(level) ==> CharRecord(x) in rows
    ensures cat == Tasks ==>
      forall x :: x in db.tasks && x.level == level ==> TaskRecord(x) in rows
    ensures cat == Topics ==>
      forall x :: x in db.topics && x.level == level ==> TopicRecord(x) in rows
    ensures cat in {Grammar, Search} ==>
      forall x :: x in db.grammar && x.level == level ==> GrammarRecord(x) in rows
  {
    match cat
    case Vocabulary =>
      Records(FilterLevel(db.vocabulary, (x: VocabRow) => x.level, {level}), (x: VocabRow) => VocabRecord(x))
    case Characters =>
      Records(FilterLevel(db.characters, (x: CharRow) => x.level, CharacterLevels(level)), (x: CharRow) => CharRecord(x))
    case Tasks =>
      Records(FilterLevel(db.tasks, (x: TaskRow) => x.level, {level}), (x: TaskRow) => TaskRecord(x))
    case Topics =>
      Records(FilterLevel(db.topics, (x: TopicRow) => x.level, {level}), (x: TopicRow) => TopicRecord(x))
    case _ =>
      Records(FilterLevel(db.grammar, (x: GrammarRow) => x.level, {level}), (x: GrammarRow) => GrammarRecord(x))
  }

  /** The rows of one table, wrapped as rows of any table. */
  function Records<R(!new)>(rs: seq<R>, wrap: R -> Row): (rows: seq<Row>)
    ensures |rows| == |rs| && forall i :: 0 <= i < |rs| ==> rows[i] == wrap(rs[i])
    ensures forall x :: x in rs ==> wrap(x) in rows
  {
    seq(|rs|, i requires 0 <= i < |rs| => wrap(rs[i]))
  }

  /** `.eq('level', level)` or `.in('level', levels)` on one table: a row
      is returned exactly when its level is one of those asked for. */
  function FilterLevel<R(==, !new)>(rows: seq<R>, levelOf: R -> string, levels: set<string>): (r: seq<R>)
    ensures forall i :: 0 <= i < |r| ==> levelOf(r[i]) in levels
    ensures forall x :: x in r <==> x in rows && levelOf(x) in levels
  {
    if rows == [] then []
    else
      var rest := FilterLevel(rows[1..], levelOf, levels);
      assert forall x :: x in rows <==> x == rows[0] || x in rows[1..];
      (if levelOf(rows[0]) in levels then [rows[0]] else []) + rest
  }

  /** Every character row of a level-'1' page is either a level-'1' or a
      mixed '1-2' row, and a level-'3' page holds only level-'3' rows. */
  lemma CharacterPagesByLevel(db: Database)
    ensures forall x :: x in Query(db, Characters, "1") ==> RowLevel(x) in {"1", "1-2"}
    ensures forall x :: x in Query(db, Characters, "3") ==> RowLevel(x) == "3"
  {
    var q1 := Query(db, Characters, "1");
    forall x | x in q1 ensures RowLevel(x) in {"1", "1-2"} {
      var i :| 0 <= i < |q1| && q1[i] == x;
    }
    var q3 := Query(db, Characters, "3");
    forall x | x in q3 ensures RowLevel(x) == "3" {
      var i :| 0 <= i < |q3| && q3[i] == x;
    }
  }

  /** The description shown with database content. */
  function DbDescription(lang: Language): (d: string)
    ensures d != ""
    ensures lang == En ==> d == "Content from Database"
  {
    match lang
    case Vi => "Nội dung từ cơ sở dữ liệu"
    case Zh => "来自数据库的内容"
    case En => "Content from Database"
  }

  /** The three prompts and schemas; tasks, topics and search use the
      grammar one. */
  datatype PromptKind = VocabularyPrompt | CharactersPrompt | GrammarPrompt

  function PromptKindFor(cat: Category): (k: PromptKind)
    ensures k == VocabularyPrompt <==> cat == Vocabulary
    ensures k == CharactersPrompt <==> cat == Characters
  {
    match cat
    case Vocabulary => VocabularyPrompt
    case Characters => CharactersPrompt
    case _ => GrammarPrompt
  }

  /** The language named in the prompt and system instruction. */
  function LanguageName(lang: Language): string {
    match lang
    case Vi => "Vietnamese"
    case Zh => "Chinese (Simplified)"
    case En => "English"
  }

  /** What is sent to the generator: the prompt kind, the level and the
      language name interpolated into it. */
  datatype AiRequest = AiRequest(kind: PromptKind, level: string, languageName: string)

  function WithSource(x: Item, s: Source): (y: Item)
    ensures SourceOf(y) == Some(s)
    ensures SectionOf(y) == SectionOf(x) && LevelOf(y) == LevelOf(x)
  {
    match x
    case VocabEntry(v) => VocabEntry(v.(source := Some(s)))
    case CharEntry(c) => CharEntry(c.(source := Some(s)))
    case GrammarEntry(g) => GrammarEntry(g.(source := Some(s)))
    case TaskEntry(t) => TaskEntry(t.(source := Some(s)))
    case TopicEntry(t) => TopicEntry(t.(source := Some(s)))
  }

  /** `{ ...item, source: 'ai' }` over the parsed items. */
  function TagAi(items: seq<Item>): (r: seq<Item>)
    ensures |r| == |items|
    ensures forall i :: 0 <= i < |r| ==> SourceOf(r[i]) == Some(Ai) && r[i] == WithSource(items[i], Ai)
  {
    seq(|items|, i requires 0 <= i < |items| => WithSource(items[i], Ai))
  }

  const AiFailureMessage: string := "Failed to fetch HSK content. Please check your API Key or network."

  /** `fetchSyllabusContent(level, category, forceAi, language)`.  Unless
      `forceAi`, the database is asked first (`db` is `None` when the
      query fails or throws, which only logs); non-empty rows are mapped
      and returned without calling the generator.  Otherwise the
      generator is asked, its items are tagged as AI content, and its
      failure becomes the fixed error. */
  method FetchSyllabusContent(level: string, cat: Category, forceAi: bool, lang: Language,
                              db: Option<Database>, generate: AiRequest -> Option<SyllabusResponse>)
    returns (r: Result<SyllabusResponse>, asked: Option<AiRequest>)
    ensures var fromDb := !forceAi && db.Some? && |Query(db.value, cat, level)| > 0;
      && (fromDb ==>
            asked == None &&
            r == Ok(SyllabusResponse(MapAll(Query(db.value, cat, level), cat, lang), DbDescription(lang))))
      && (!fromDb ==>
            var req := AiRequest(PromptKindFor(cat), level, LanguageName(lang));
            asked == Some(req) &&
            match generate(req)
            case None => r == Err(AiFailureMessage)
            case Some(p) => r == Ok(SyllabusResponse(TagAi(p.items), p.description)))
    ensures asked.Some? && r.Ok? ==> forall i :: 0 <= i < |r.value.items| ==> SourceOf(r.value.items[i]) == Some(Ai)
    ensures asked.None? ==> r.Ok? && |r.value.items| > 0
    ensures asked.None? ==> forall i :: 0 <= i < |r.value.items| ==> SectionOf(r.value.items[i]) == Some(cat)
    ensures forceAi ==> asked.Some?
  {
    asked := None;
    if !forceAi {
      var data: seq<Row> := [];
      if db.Some? {
        data := Query(db.value, cat, level);
      }
      if |data| > 0 {
        var items := MapAll(data, cat, lang);
        r := Ok(SyllabusResponse(items, DbDescription(lang)));
        return;
      }
    }
    var req := AiRequest(PromptKindFor(cat), level, LanguageName(lang));
    asked := Some(req);
    match generate(req)
    case None =>
      r := Err(AiFailureMessage);
    case Some(parsed) =>
      r := Ok(SyllabusResponse(TagAi(parsed.items), parsed.description));
  }

  // ---------------------------------------------------------------------------
  // Search

  /** What one search query yields: its rows (all rows the filter matches,
      in database order), no data (an error reply), or an exception, which
      abandons the remaining queries. */
  datatype Reply<T> = Rows(rows: seq<T>) | NoData | Threw

  const SearchLimit: nat := 10

  function Take<T>(s: seq<T>, n: nat): (r: seq<T>)
    ensures |r| == Min(|s|, n) && r == s[..|r|]
  {
    if |s| <= n then s else s[..n]
  }

  /** The items one reply contributes: at most ten, mapped in Chinese. */
  function VocabHits(reply: Reply<VocabRow>): (items: seq<Item>)
    ensures |items| <= SearchLimit
    ensures forall i :: 0 <= i < |items| ==> items[i].VocabEntry? && SectionOf(items[i]) == Some(Vocabulary)
    ensures |items| == (if reply.Rows? then Min(|reply.rows|, SearchLimit) else 0)
    ensures reply.Rows? ==>
      forall i :: 0 <= i < |items| ==> items[i] == MapDbItem(VocabRecord(reply.rows[i]), Vocabulary, Zh)
  {
    if reply.Rows? then
      var rs := Take(reply.rows, SearchLimit);
      seq(|rs|, i requires 0 <= i < |rs| => MapDbItem(VocabRecord(rs[i]), Vocabulary, Zh))
    else []
  }

  function CharHits(reply: Reply<CharRow>): (items: seq<Item>)
    ensures |items| <= SearchLimit
    ensures forall i :: 0 <= i < |items| ==> items[i].CharEntry? && SectionOf(items[i]) == Some(Characters)
    ensures |items| == (if reply.Rows? then Min(|reply.rows|, SearchLimit) else 0)
    ensures reply.Rows? ==>
      forall i :: 0 <= i < |items| ==> items[i] == MapDbItem(CharRecord(reply.rows[i]), Characters, Zh)
  {
    if reply.Rows? then
      var rs := Take(reply.rows, SearchLimit);
      seq(|rs|, i requires 0 <= i < |rs| => MapDbItem(CharRecord(rs[i]), Characters, Zh))
    else []
  }

  function GrammarHits(reply: Reply<GrammarRow>): (items: seq<Item>)
    ensures |items| <= SearchLimit
    ensures forall i :: 0 <= i < |items| ==> items[i].GrammarEntry? && SectionOf(items[i]) == Some(Grammar)
    ensures |items| == (if reply.Rows? then Min(|reply.rows|, SearchLimit) else 0)
    ensures reply.Rows? ==>
      forall i :: 0 <= i < |items| ==> items[i] == MapDbItem(GrammarRecord(reply.rows[i]), Grammar, Zh)
  {
    if reply.Rows? then
      var rs := Take(reply.rows, SearchLimit);
      seq(|rs|, i requires 0 <= i < |rs| => MapDbItem(GrammarRecord(rs[i]), Grammar, Zh))
    else []
  }

  /** `searchContent(query)`: an empty query gives nothing; otherwise the
      vocabulary, character and grammar hits are appended in that order,
      and an exception keeps what was collected before it. */
  method SearchContent(query: string, vocab: Reply<VocabRow>, chars: Reply<CharRow>, grammar: Reply<GrammarRow>)
    returns (results: seq<Item>)
    ensures query == "" ==> results == []
    ensures |results| <= 3 * SearchLimit
    ensures query != "" ==>
      results == VocabHits(vocab) +
                 (if vocab.Threw? then [] else CharHits(chars)) +
                 (if vocab.Threw? || chars.Threw? then [] else GrammarHits(grammar))
    ensures forall i, j :: 0 <= i < j < |results| ==> SectionRank(results[i]) <= SectionRank(results[j])
  {
    if query == "" {
      return [];
    }
    results := [];
    if vocab.Threw? {
      return;
    }
    results := results + VocabHits(vocab);
    if chars.Threw? {
      return;
    }
    results := results + CharHits(chars);
    if grammar.Threw? {
      return;
    }
    results := results + GrammarHits(grammar);
  }

  /** The position of an item's kind in the search order. */
  function SectionRank(x: Item): nat {
    match x
    case VocabEntry(_) => 0
    case CharEntry(_) => 1
    case _ => 2
  }
}
