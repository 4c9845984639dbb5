/** scripts/seedSupabase.ts: the rows written for the official syllabus
    data. Each level's item list becomes one upsert of rows that carry
    that level. These row builders and the database mappers of the
    content service are inverses of each other. */
module SeedSupabase {
  import opened Wrappers
  import opened HskTypes
  import opened ContentService

  /** `Object.entries(OFFICIAL_DATA.x)`: level keys with their items, in order. */
  type Entries<T> = seq<(string, seq<T>)>

  // ---------------------------------------------------------------------------
  // Row builders

  /** The row inserted for an item: its columns, with the level it is
      listed under.  Read back in Chinese it is the item again, with its
      level and section set and an unset source read as official. */
  function VocabRowOf(level: string, x: VocabItem): (r: VocabRow)
    ensures r.level == level
    ensures MapDbItem(VocabRecord(r), Vocabulary, Zh) ==
      VocabEntry(x.(source := Some(SourceOrOfficial(x.source)), level := Some(level), section := Some(Vocabulary)))
  {
    VocabRow(level, x.hanzi, x.pinyin, x.partOfSpeech, x.definition, x.exampleSentence, x.ordinal, x.source)
  }

  function CharRowOf(level: string, x: CharItem): (r: CharRow)
    ensures r.level == level
    ensures MapDbItem(CharRecord(r), Characters, Zh) ==
      CharEntry(x.(source := Some(SourceOrOfficial(x.source)), level := Some(level), section := Some(Characters)))
  {
    CharRow(level, x.glyph, x.pinyin, x.meaning, x.strokes, x.charType, x.ordinal, x.source)
  }

  function GrammarRowOf(level: string, x: GrammarItem): (r: GrammarRow)
    ensures r.level == level
    ensures MapDbItem(GrammarRecord(r), Grammar, Zh) ==
      GrammarEntry(x.(source := Some(SourceOrOfficial(x.source)), level := Some(level), section := Some(Grammar)))
  {
    GrammarRow(level, x.category, x.subCategory, x.name, x.pattern, x.explanation, x.example, x.source)
  }

  /** The `items.map(...)` of one vocabulary level: one row per item, in
      item order, each carrying the level it was listed under. */
  function VocabRows(level: string, items: seq<VocabItem>): (rows: seq<Row>)
    ensures |rows| == |items|
    ensures forall i :: 0 <= i < |rows| ==>
      rows[i].VocabRecord? && rows[i].vr.level == level && rows[i].vr.hanzi == items[i].hanzi
  {
    seq(|items|, i requires 0 <= i < |items| => VocabRecord(VocabRowOf(level, items[i])))
  }

  function CharRows(level: string, items: seq<CharItem>): (rows: seq<Row>)
    ensures |rows| == |items|
    ensures forall i :: 0 <= i < |rows| ==>
      rows[i].CharRecord? && rows[i].cr.level == level && rows[i].cr.glyph == items[i].glyph
  {
    seq(|items|, i requires 0 <= i < |items| => CharRecord(CharRowOf(level, items[i])))
  }

  function GrammarRows(level: string, items: seq<GrammarItem>): (rows: seq<Row>)
    ensures |rows| == |items|
    ensures forall i :: 0 <= i < |rows| ==>
      rows[i].GrammarRecord? && rows[i].gr.level == level && rows[i].gr.name == items[i].name
  {
    seq(|items|, i requires 0 <= i < |items| => GrammarRecord(GrammarRowOf(level, items[i])))
  }

  // ---------------------------------------------------------------------------
  // Round trips with the content service's mapper

  /** Mapping a seeded vocabulary row back gives the item it came from,
      with its level and section filled in and an unset source read as
      official; the language does not matter. */
  lemma VocabRoundTrip(level: string, x: VocabItem, lang: Language)
    ensures MapDbItem(VocabRecord(VocabRowOf(level, x)), Vocabulary, lang) ==
      VocabEntry(x.(source := Some(SourceOrOfficial(x.source)), level := Some(level), section := Some(Vocabulary)))
  {
  }

  lemma CharRoundTrip(level: string, x: CharItem, lang: Language)
    ensures MapDbItem(CharRecord(CharRowOf(level, x)), Characters, lang) ==
      CharEntry(x.(source := Some(SourceOrOfficial(x.source)), level := Some(level), section := Some(Characters)))
  {
  }

  lemma GrammarRoundTrip(level: string, x: GrammarItem, lang: Language)
    ensures MapDbItem(GrammarRecord(GrammarRowOf(level, x)), Grammar, lang) ==
      GrammarEntry(x.(source := Some(SourceOrOfficial(x.source)), level := Some(level), section := Some(Grammar)))
  {
  }

  /** An item that already carries its source, level and section comes
      back unchanged from a whole seeded level. */
  lemma {:induction false} SeededVocabularyComesBack(level: string, items: seq<VocabItem>, lang: Language)
    requires forall i :: 0 <= i < |items| ==>
      items[i].source.Some? && items[i].level == Some(level) && items[i].section == Some(Vocabulary)
    ensures forall i :: 0 <= i < |items| ==> RowFitsCategory(VocabRows(level, items)[i], Vocabulary)
    ensures MapAll(VocabRows(level, items), Vocabulary, lang) ==
      seq(|items|, i requires 0 <= i < |items| => VocabEntry(items[i]))
  {
    var rows := VocabRows(level, items);
    var back := MapAll(rows, Vocabulary, lang);
    forall i | 0 <= i < |items|
      ensures back[i] == VocabEntry(items[i])
    {
      VocabRoundTrip(level, items[i], lang);
      assert items[i].(source := Some(SourceOrOfficial(items[i].source)), level := Some(level), section := Some(Vocabulary)) == items[i];
    }
  }

  /** The other direction: a row with a source set is rebuilt exactly from
      the item it maps to. */
  lemma RowsComeBack(v: VocabRow, c: CharRow, g: GrammarRow, lang: Language)
    requires v.source.Some? && c.source.Some? && g.source.Some?
    ensures VocabRowOf(v.level, MapDbItem(VocabRecord(v), Vocabulary, lang).vocab) == v
    ensures CharRowOf(c.level, MapDbItem(CharRecord(c), Characters, lang).ch) == c
    ensures GrammarRowOf(g.level, MapDbItem(GrammarRecord(g), Grammar, lang).grammar) == g
  {
  }

  // ---------------------------------------------------------------------------
  // The seeding loop

  datatype Table = EntriesVocabulary | EntriesCharacter | EntriesGrammar

  /** One `supabase.from(table).upsert(rows)` call. */
  datatype Upsert = Upsert(table: Table, rows: seq<Row>)

  function VocabUpserts(data: Entries<VocabItem>): (us: seq<Upsert>)
    ensures |us| == |data|
    ensures forall i :: 0 <= i < |us| ==> us[i] == Upsert(EntriesVocabulary, VocabRows(data[i].0, data[i].1))
  {
    seq(|data|, i requires 0 <= i < |data| => Upsert(EntriesVocabulary, VocabRows(data[i].0, data[i].1)))
  }

  function CharUpserts(data: Entries<CharItem>): (us: seq<Upsert>)
    ensures |us| == |data|
    ensures forall i :: 0 <= i < |us| ==> us[i] == Upsert(EntriesCharacter, CharRows(data[i].0, data[i].1))
  {
    seq(|data|, i requires 0 <= i < |data| => Upsert(EntriesCharacter, CharRows(data[i].0, data[i].1)))
  }

  function GrammarUpserts(data: Entries<GrammarItem>): (us: seq<Upsert>)
    ensures |us| == |data|
    ensures forall i :: 0 <= i < |us| ==> us[i] == Upsert(EntriesGrammar, GrammarRows(data[i].0, data[i].1))
  {
    seq(|data|, i requires 0 <= i < |data| => Upsert(EntriesGrammar, GrammarRows(data[i].0, data[i].1)))
  }

  /** `seed()`: one upsert per level, vocabulary levels first, then
      characters, then grammar. A failed upsert is only logged, so the
      calls issued do not depend on the replies. */
  method Seed(vocab: Entries<VocabItem>, chars: Entries<CharItem>, grammar: Entries<GrammarItem>)
    returns (calls: seq<Upsert>)
    ensures calls == VocabUpserts(vocab) + CharUpserts(chars) + GrammarUpserts(grammar)
  {
    calls := [];
    for i := 0 to |vocab|
      invariant calls == VocabUpserts(vocab)[..i]
    {
      var (level, items) := vocab[i];
      calls := calls + [Upsert(EntriesVocabulary, VocabRows(level, items))];
    }
    var pre := calls;
    for i := 0 to |chars|
      invariant calls == pre + CharUpserts(chars)[..i]
    {
      var (level, items) := chars[i];
      calls := calls + [Upsert(EntriesCharacter, CharRows(level, items))];
    }
    pre := calls;
    for i := 0 to |grammar|
      invariant calls == pre + GrammarUpserts(grammar)[..i]
    {
      var (level, items) := grammar[i];
      calls := calls + [Upsert(EntriesGrammar, GrammarRows(level, items))];
    }
  }

  /** Every seeded row lands in the table of its kind and carries the level
      key it was listed under. */
  lemma SeedRowsCarryTheirLevel(vocab: Entries<VocabItem>, chars: Entries<CharItem>, grammar: Entries<GrammarItem>,
                                k: nat, j: nat)
    requires k < |vocab| + |chars| + |grammar|
    requires var calls := VocabUpserts(vocab) + CharUpserts(chars) + GrammarUpserts(grammar);
             j < |calls[k].rows|
    ensures var calls := VocabUpserts(vocab) + CharUpserts(chars) + GrammarUpserts(grammar);
            var row := calls[k].rows[j];
            if k < |vocab| then calls[k].table == EntriesVocabulary && row.vr.level == vocab[k].0
            else if k < |vocab| + |chars| then calls[k].table == EntriesCharacter && row.cr.level == chars[k - |vocab|].0
            else calls[k].table == EntriesGrammar && row.gr.level == grammar[k - |vocab| - |chars|].0
  {
  }
}
