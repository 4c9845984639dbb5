/** The records of types.ts (the frontend items) and the rows of the five
    `entries_*` tables that the services read and the seeding script writes.
    Optional TypeScript fields and nullable columns are `Option`s. */
module HskTypes {
  import opened Wrappers

  /** `Category` (types.ts:3). */
  datatype Category = Vocabulary | Characters | Grammar | Tasks | Topics | Search

  function CategoryName(c: Category): string {
    match c
    case Vocabulary => "vocabulary"
    case Characters => "characters"
    case Grammar => "grammar"
    case Tasks => "tasks"
    case Topics => "topics"
    case Search => "search"
  }

  /** The display languages 'vi', 'en' and 'zh'. */
  datatype Language = Vi | En | Zh

  function LanguageCode(l: Language): string {
    match l
    case Vi => "vi"
    case En => "en"
    case Zh => "zh"
  }

  /** `source?: 'official' | 'ai'` (types.ts:6). */
  datatype Source = Official | Ai

  /** JavaScript truthiness of an optional string: absent and "" are falsy. */
  predicate Truthy(s: Option<string>) {
    s.Some? && s.value != ""
  }

  /** JavaScript truthiness of an optional number: absent and 0 are falsy. */
  predicate TruthyNum(n: Option<int>) {
    n.Some? && n.value != 0
  }

  // ---- frontend items (types.ts:11-55); the last three fields are BaseItem's

  datatype VocabItem = VocabItem(
    ordinal: Option<int>, hanzi: string, pinyin: string, partOfSpeech: string,
    definition: string, exampleSentence: Option<string>,
    source: Option<Source>, level: Option<string>, section: Option<Category>)

  /** `CharItem`; the field `char` is called `glyph` and `type` is `charType`. */
  datatype CharItem = CharItem(
    ordinal: Option<int>, glyph: string, pinyin: Option<string>, meaning: Option<string>,
    strokes: Option<int>, charType: Option<string>,
    source: Option<Source>, level: Option<string>, section: Option<Category>)

  datatype GrammarItem = GrammarItem(
    category: string, subCategory: Option<string>, pattern: string, name: string,
    explanation: string, example: string,
    source: Option<Source>, level: Option<string>, section: Option<Category>)

  datatype TaskItem = TaskItem(
    category: string, description: string, canDo: seq<string>,
    source: Option<Source>, level: Option<string>, section: Option<Category>)

  datatype TopicItem = TopicItem(
    primary: string, secondary: string, items: seq<string>,
    source: Option<Source>, level: Option<string>, section: Option<Category>)

  /** An element of `SyllabusResponse.items` (types.ts:58). */
  datatype Item =
    | VocabEntry(vocab: VocabItem)
    | CharEntry(ch: CharItem)
    | GrammarEntry(grammar: GrammarItem)
    | TaskEntry(task: TaskItem)
    | TopicEntry(topic: TopicItem)

  function SectionOf(x: Item): Option<Category> {
    match x
    case VocabEntry(v) => v.section
    case CharEntry(c) => c.section
    case GrammarEntry(g) => g.section
    case TaskEntry(t) => t.section
    case TopicEntry(t) => t.section
  }

  function LevelOf(x: Item): Option<string> {
    match x
    case VocabEntry(v) => v.level
    case CharEntry(c) => c.level
    case GrammarEntry(g) => g.level
    case TaskEntry(t) => t.level
    case TopicEntry(t) => t.level
  }

  function SourceOf(x: Item): Option<Source> {
    match x
    case VocabEntry(v) => v.source
    case CharEntry(c) => c.source
    case GrammarEntry(g) => g.source
    case TaskEntry(t) => t.source
    case TopicEntry(t) => t.source
  }

  /** `SyllabusResponse` (types.ts:57-60). */
  datatype SyllabusResponse = SyllabusResponse(items: seq<Item>, description: string)

  // ---- rows of the entries_* tables (snake_case columns named in camelCase)

  datatype VocabRow = VocabRow(
    level: string, hanzi: string, pinyin: string, partOfSpeech: string, definition: string,
    exampleSentence: Option<string>, ordinal: Option<int>, source: Option<Source>)

  datatype CharRow = CharRow(
    level: string, glyph: string, pinyin: Option<string>, meaning: Option<string>,
    strokes: Option<int>, charType: Option<string>, ordinal: Option<int>, source: Option<Source>)

  datatype GrammarRow = GrammarRow(
    level: string, category: string, subCategory: Option<string>, name: string, pattern: string,
    explanation: string, example: string, source: Option<Source>)

  datatype TaskRow = TaskRow(
    level: string,
    category: string, categoryVi: Option<string>, categoryEn: Option<string>,
    description: string, descriptionVi: Option<string>, descriptionEn: Option<string>,
    canDo: seq<string>, canDoVi: Option<seq<string>>, canDoEn: Option<seq<string>>,
    source: Option<Source>)

  datatype TopicRow = TopicRow(
    level: string,
    primaryTopic: string, primaryTopicVi: Option<string>, primaryTopicEn: Option<string>,
    secondaryTopic: string, secondaryTopicVi: Option<string>, secondaryTopicEn: Option<string>,
    tertiaryItems: seq<string>, tertiaryItemsVi: Option<seq<string>>, tertiaryItemsEn: Option<seq<string>>,
    source: Option<Source>)

  /** A row as returned by a `select('*')` on one of the five tables. */
  datatype Row =
    | VocabRecord(vr: VocabRow)
    | CharRecord(cr: CharRow)
    | GrammarRecord(gr: GrammarRow)
    | TaskRecord(tr: TaskRow)
    | TopicRecord(pr: TopicRow)
}
