# HSK 3.0 Explorer — a Dafny model of its core

HSK 3.0 Explorer is a web app for browsing the syllabus of the Chinese
proficiency test (HSK 3.0). It lists vocabulary, characters, grammar points,
tasks and topics by level, searches across them, and reads words aloud. It
also ships Node scripts that seed, clean and migrate the Supabase tables
behind it. This project models the core of that code in Dafny and proves
properties of the model.

| file | models |
|---|---|
| `hsk_types.dfy` | the syllabus records (`types.ts`): categories, languages, items, JavaScript truthiness |
| `strings.dfy`, `sequences.dfy` | the JavaScript string and array operations the core relies on: `trim`, `replace` of the first match, `indexOf`, `includes`, `slice` with index clamping, number-to-decimal conversion |
| `tts_service.dfy` | `services/ttsService.ts`: the singleton text-to-speech broker. It keeps a cache, a request queue and one WebSocket session at a time. The model covers the Edge TTS wire messages, the binary audio frame layout, the fallback UUID and the request id. |
| `deduplicate.dfy` | `scripts/deduplicate.ts`: paged fetch, first-wins duplicate scan, deletion in batches of 100 |
| `migrate_pinyin.dfy` | `scripts/migratePinyinData.ts`: `removeTones` and `normalizePinyin`, fetch and upsert with five retries, the page-by-page migration loop |
| `seed_supabase.dfy` | `scripts/seedSupabase.ts`: the rows upserted for each level, and how they read back through the content service |
| `content_service.dfy` | `services/contentService.ts`: database-first syllabus loading with an AI fallback, the mapping of database rows to items per display language, and the three-table search |
| `language_context.dfy` | `contexts/LanguageContext.tsx`: the initial language, translation lookup with English fallback, and `{param}` substitution |
| `pagination.dfy` | `components/Pagination.tsx`: the page-jump input. `parseInt` is modelled in full: white space, sign, `0x` prefix, digit prefix. |
| `content_list.dfy` | `components/ContentList.tsx`: 50 items per page, row numbers, the reading/writing split of characters, the search result cards |
| `app_state.dfy` | `App.tsx`: the view state, the `URLSearchParams` written by `updateUrl` and read back on `popstate`, the search guard, the sorted result tabs and the filter by tab |

## Model

| member | source | states |
|---|---|---|
| Strings.IndexOfFrom | contexts/LanguageContext.tsx:26 | the index found is the first occurrence at or after `from`; `None` means there is none |
| Strings.ReplaceFirst | contexts/LanguageContext.tsx:26 | a string replacement changes only the first occurrence; with no occurrence the text is unchanged |
| Strings.OccursAtChar | contexts/LanguageContext.tsx:26 | an occurrence matches the pattern character by character |
| Strings.ContainsAt | contexts/LanguageContext.tsx:26 | an occurrence at any index means `includes` is true |
| Strings.SkipWhitespace | services/ttsService.ts:51 | returns the end of the run of ECMAScript white space that starts at `i` |
| Strings.SkipWhitespaceBack | services/ttsService.ts:51 | returns the start of the run of white space that ends at `hi`, never crossing `lo` |
| Strings.TrimStart | components/Pagination.tsx:32 | the result is a suffix of the input; only white space was removed; it starts with a non-space |
| Strings.Trim | services/ttsService.ts:51 | the result is the middle of the input; the parts cut off are white space; it neither starts nor ends with white space |
| Strings.TrimEmptyIffBlank | services/ttsService.ts:51-52 | trimming gives the empty string exactly when the text is all white space |
| Strings.TrimIdempotent | services/ttsService.ts:51 | trimming twice is trimming once |
| Strings.DigitChar | components/Pagination.tsx:12 | the digit character has the given value |
| Strings.DigitValue | components/Pagination.tsx:32 | a digit's value is below ten |
| Strings.NatToString | components/Pagination.tsx:12 | the decimal form of a number is a non-empty run of digits with no leading zero |
| Strings.DigitsValueOfNatToString | components/Pagination.tsx:12 | reading the decimal form back gives the number |
| Strings.NatToStringInjective | scripts/deduplicate.ts:58 | different numbers have different decimal forms |
| Sequences.RelativeIndex | components/ContentList.tsx:56-59 | a `slice` bound is clamped into `0..length` |
| Sequences.Slice | components/ContentList.tsx:56-59 | `slice(start, end)` is the ordinary subsequence in range; past the end it is cut short or empty |
| Sequences.FlattenAppend | services/ttsService.ts:147 | concatenating chunks distributes over appending one chunk |
| TtsService.CacheKeyInjective | services/ttsService.ts:55 | two cache keys are equal exactly when both the voice and the trimmed text are equal |
| TtsService.CacheKey | services/ttsService.ts:55 | the key is the voice name and a colon, followed by the text, which is read back after that prefix |
| TtsService.ParseFrame | services/ttsService.ts:158-161 | a binary message splits into the two-byte big-endian header size, the header and the audio payload; the payload is empty when the header covers the message; fewer than two bytes do not parse |
| TtsService.ParseEncodeFrame | services/ttsService.ts:155-161 | parsing a framed header and payload gives back both |
| TtsService.ReassemblyExample | services/ttsService.ts:147-161 | two framed messages yield exactly their audio bytes, concatenated in order |
| TtsService.HexDigit | services/ttsService.ts:20 | `toString(16)` of a nibble is a hex digit |
| TtsService.UuidTemplate | services/ttsService.ts:18 | the template has 36 characters, each as the fallback generator lays out |
| TtsService.UuidTemplateText | services/ttsService.ts:18 | the template is the literal `xxxxxxxx-xxxx-4xxx-yxxx-xxxxxxxxxxxx` |
| TtsService.VariantNibble | services/ttsService.ts:19 | `r & 0x3 \| 0x8` is one of 8, 9, a, b |
| TtsService.FillTemplate | services/ttsService.ts:18-21 | filling the template keeps its length |
| TtsService.FillTemplateAt | services/ttsService.ts:18-21 | each `x` becomes a hex digit, each `y` a variant digit, and every other character is kept |
| TtsService.FallbackUuidIsVersion4 | services/ttsService.ts:14-22 | the fallback UUID is shaped 8-4-4-4-12 of hex digits, with version 4 and the RFC 4122 variant |
| TtsService.GetUuid | services/ttsService.ts:14-22 | `crypto.randomUUID()` when the host has it; otherwise a UUID shaped 8-4-4-4-12 of hex digits with version 4 and the RFC 4122 variant |
| TtsService.RemoveChar | services/ttsService.ts:108 | removing dashes never lengthens a string and leaves no dash |
| TtsService.RemoveCharAppend | services/ttsService.ts:108 | removing dashes distributes over concatenation |
| TtsService.RemoveCharAbsent | services/ttsService.ts:108 | a string without dashes is unchanged |
| TtsService.RemoveDashAfter | services/ttsService.ts:108 | a dash after a dash-free prefix is removed and the prefix kept |
| TtsService.RemoveFirstDash | services/ttsService.ts:108 | removing dashes from a suffix cuts it at its first dash |
| TtsService.UuidGroupsHaveNoDash | services/ttsService.ts:108 | no group of a UUID holds a dash |
| TtsService.RemoveUuidDashes | services/ttsService.ts:108 | removing the dashes of a UUID joins its five groups |
| TtsService.DashlessUuidGroups | services/ttsService.ts:108 | a UUID without its dashes is its five groups, joined |
| TtsService.DashlessUuidIs32Hex | services/ttsService.ts:108 | a well-formed UUID without its dashes is 32 hex digits |
| TtsService.DashlessCases | services/ttsService.ts:108 | removing the dashes leaves a dash-free UUID unchanged and turns a well-formed one into 32 hex digits |
| TtsService.RequestId | services/ttsService.ts:108 | the request id has no dash; a UUID without dashes is its own request id; a well-formed UUID gives 32 hex digits |
| TtsService.StripPrefix | services/ttsService.ts:115 | succeeds exactly when the text starts with the prefix, and returns the rest |
| TtsService.StripSuffix | services/ttsService.ts:115-128 | succeeds exactly when the text ends with the suffix, and returns the rest |
| TtsService.StripPrefixOf | services/ttsService.ts:115 | stripping a prefix that was prepended gives the original |
| TtsService.StripSuffixOf | services/ttsService.ts:115-128 | stripping a suffix that was appended gives the original |
| TtsService.BetweenOf | services/ttsService.ts:115-128 | a value framed by a prefix and a suffix is read back |
| TtsService.ConfigMessage | services/ttsService.ts:115-129 | the timestamp is read back out of the `speech.config` message |
| TtsService.ParseVoiceOf | services/ttsService.ts:133 | the voice name is read back from the `<voice name='…'>` element |
| TtsService.Regroup | services/ttsService.ts:132-137 | the SSML message splits into header, voice element and text |
| TtsService.SsmlMessage | services/ttsService.ts:132-138 | with a 32-character request id, the request id, voice and text are all read back out of the SSML message |
| TtsService.SsmlDocument | services/ttsService.ts:132-135 | the text stands unescaped just before the closing `</voice></speak>` |
| TtsService.SsmlRoundTrip | services/ttsService.ts:132-138 | the parser reads the request id, voice and text back out of the header and document laid out as the source sends them |
| TtsService.Received | services/ttsService.ts:152-162 | a binary message of at least two bytes appends one chunk; the chunk is the message minus its header; earlier chunks are kept |
| TtsService.TicketsOfAppend | services/ttsService.ts:80-97 | settling one more request appends its ticket |
| TtsService.HeadTicketFirst | services/ttsService.ts:84 | the head of a queue in ticket order has the smallest ticket |
| TtsService.InvStart | services/ttsService.ts:80-87 | starting the head request keeps the broker invariant |
| TtsService.InvStartFails | services/ttsService.ts:102-106 | a socket that cannot be created settles the head request by fallback and keeps the invariant |
| TtsService.InvSettle | services/ttsService.ts:143-151 | settling the in-flight request keeps the invariant |
| TtsService.InvEnqueue | services/ttsService.ts:63-74 | queueing a request with the next ticket keeps the invariant |
| TtsService.InvSession | services/ttsService.ts:113-139 | updating the in-flight session of the same request keeps the invariant |
| TtsService.EdgeTtsService.constructor | services/ttsService.ts:26-28 | a new broker has an empty cache and queue and is idle |
| TtsService.EdgeTtsService.ProcessQueue | services/ttsService.ts:80-106 | when idle with a non-empty queue, the head request is started; with no socket it falls back at once; otherwise nothing changes |
| TtsService.EdgeTtsService.Enqueue | services/ttsService.ts:63-74 | the request is appended with the next ticket |
| TtsService.EdgeTtsService.Speak | services/ttsService.ts:50-78 | blank text does nothing; a cached voice and text plays the cached URL; anything else is queued and processing starts |
| TtsService.EdgeTtsService.OnOpen | services/ttsService.ts:113-139 | on open, the config message and then the SSML message for the in-flight request are sent |
| TtsService.EdgeTtsService.OnBinary | services/ttsService.ts:152-162 | a binary message adds the audio part of the frame to the in-flight chunks |
| TtsService.EdgeTtsService.OnText | services/ttsService.ts:141-151 | `turn.end` caches the URL under the request's key; the request is settled with all the audio received, in order; the broker becomes idle |
| TtsService.EdgeTtsService.FallBack | services/ttsService.ts:88-96 | the in-flight request is settled by speech synthesis and the broker becomes idle |
| TtsService.EdgeTtsService.OnError | services/ttsService.ts:165-168 | a socket error on a live session settles it by fallback |
| TtsService.EdgeTtsService.OnClose | services/ttsService.ts:170-182 | closing only marks the socket closed and settles nothing |
| TtsService.EdgeTtsService.OnTimeout | services/ttsService.ts:185-190 | a timeout with no audio settles by fallback; with audio it closes the socket and the broker stays busy for good |
| TtsService.SettledInStartOrder | services/ttsService.ts:80-97 | requests settle one at a time, in the order they were queued |
| Deduplicate.VocabKeyOrdinalZero | scripts/deduplicate.ts:58 | a missing ordinal and ordinal 0 give the same key |
| Deduplicate.VocabKeySeparatesOrdinals | scripts/deduplicate.ts:58 | different non-zero ordinals give different keys |
| Deduplicate.GrammarKeyAmbiguous | scripts/deduplicate.ts:132 | grammar keys can collide: `A-1` at level `2` and `A` at level `1-2` |
| Deduplicate.KeyVocabulary | scripts/deduplicate.ts:56-58 | each fetched vocabulary row is scanned under its id and the key `${hanzi}-${level}-${ordinal or 0}` |
| Deduplicate.KeyCharacters | scripts/deduplicate.ts:93-95 | each fetched character row is scanned under its id and the key `${char}-${level}-${type}` |
| Deduplicate.KeyGrammar | scripts/deduplicate.ts:130-132 | each fetched grammar row is scanned under its id and the key `${name}-${level}` |
| Deduplicate.ScanCounts | scripts/deduplicate.ts:57-65 | every row is either kept or marked for deletion |
| Deduplicate.SurvivorKeys | scripts/deduplicate.ts:57-65 | the rows kept have distinct keys and cover every key not seen before |
| Deduplicate.FirstOfKeyIsKept | scripts/deduplicate.ts:57-65 | the first row with a key is kept |
| Deduplicate.KeptIsFirstOfKey | scripts/deduplicate.ts:57-65 | every row kept is the first with its key |
| Deduplicate.NoDuplicatesAmongDistinct | scripts/deduplicate.ts:57-65 | rows with distinct unseen keys produce nothing to delete |
| Deduplicate.DeduplicateIdempotent | scripts/deduplicate.ts:54-65 | a second run finds nothing to delete and keeps every row |
| Deduplicate.KeptAllDistinct | scripts/deduplicate.ts:57-65 | rows with distinct unseen keys are all kept |
| Deduplicate.RemoveIdsAgree | scripts/deduplicate.ts:70-79 | deleting by two id sets that agree on the table leaves the same rows |
| Deduplicate.DuplicatesAreIds | scripts/deduplicate.ts:57-65 | every id marked for deletion is an id of the table |
| Deduplicate.DeletingDuplicatesLeavesSurvivors | scripts/deduplicate.ts:57-79 | with unique ids, deleting the marked ids leaves exactly the rows kept |
| Deduplicate.FindDuplicates | scripts/deduplicate.ts:54-65 | the loop over the rows with the `seen` map finds exactly the duplicates |
| Deduplicate.SeenKeyDeleted | scripts/deduplicate.ts:60-61 | a row whose key is already in the `seen` map is marked for deletion |
| Deduplicate.LaterOfKeyDeleted | scripts/deduplicate.ts:57-65 | of two rows with the same key, the later one is marked for deletion |
| Deduplicate.RepeatedVocabularyDeleted | scripts/deduplicate.ts:56-65 | a later vocabulary row with the same hanzi, level and ordinal as an earlier one is deleted |
| Deduplicate.RepeatedCharacterDeleted | scripts/deduplicate.ts:93-102 | a later character row with the same character, level and type as an earlier one is deleted |
| Deduplicate.RepeatedGrammarDeleted | scripts/deduplicate.ts:130-139 | a later grammar row with the same name and level as an earlier one is deleted |
| Deduplicate.FetchAll | scripts/deduplicate.ts:17-43 | pages of 1000 are requested at offsets 0, 1000, …; all rows are fetched, or those before the first failed request |
| Deduplicate.Batches | scripts/deduplicate.ts:69-71 | the ids are cut into batches of 1 to 100 that concatenate back to them |
| Deduplicate.FlattenMembers | scripts/deduplicate.ts:70-75 | the ids of the batches are the ids in any batch |
| Deduplicate.DeduplicateTable | scripts/deduplicate.ts:45-83 | the batches hold the duplicates of what was fetched, in batches of 1 to 100, and there are none exactly when nothing is duplicated; the rows left are those whose ids were in no failed batch; with no failures, the first row of each key is left |
| MigratePinyin.Filter | scripts/migratePinyinData.ts:27 | a global regex removal keeps only characters of the class, never lengthening the text |
| MigratePinyin.FilterAppend | scripts/migratePinyinData.ts:40 | removal distributes over concatenation |
| MigratePinyin.FilterPreserves | scripts/migratePinyinData.ts:60 | removal keeps a property every character had |
| MigratePinyin.FilterKeepsAll | scripts/migratePinyinData.ts:60 | removal leaves a text alone when it has nothing to remove |
| MigratePinyin.ToneBase | scripts/migratePinyinData.ts:44-52 | characters below `à` are not in the tone map |
| MigratePinyin.MapTones | scripts/migratePinyinData.ts:55 | each mapped character becomes its base letter; the others are kept |
| MigratePinyin.NormalizePinyin | scripts/migratePinyinData.ts:35-61 | the result is lower-case ASCII letters and digits; a falsy input gives the empty string |
| MigratePinyin.RemoveTones | scripts/migratePinyinData.ts:23-31 | the result has no white space, combining mark, `ü` or ASCII capital, and is no longer than the decomposed input; a falsy input gives the empty string |
| MigratePinyin.FoldChar | scripts/migratePinyinData.ts:28-29 | lower-casing then the `ü` to `v` replacement: no capital and no `ü` is left, `ü` becomes `v`, and white space and combining marks are neither made nor lost |
| MigratePinyin.FoldAll | scripts/migratePinyinData.ts:28-29 | the fold applied to every character, keeping the length |
| MigratePinyin.FoldAllAppend | scripts/migratePinyinData.ts:28-29 | folding distributes over concatenation |
| MigratePinyin.FoldThenFilter | scripts/migratePinyinData.ts:28-30 | folding then removing white space equals removing white space then folding |
| MigratePinyin.RemoveTonesKeeps | scripts/migratePinyinData.ts:23-31 | the result is exactly the decomposed characters that are neither combining marks nor white space, in order, each lower-cased with `ü` turned into `v` |
| MigratePinyin.RemoveTonesExample | scripts/migratePinyinData.ts:23-31 | `Lü  Xing` becomes `lvxing` |
| MigratePinyin.ExampleKept | scripts/migratePinyinData.ts:27-30 | in `Lü  Xing` only the two spaces are removed |
| MigratePinyin.ExampleHasNoMarks | scripts/migratePinyinData.ts:27 | `Lü  Xing` has no combining mark to remove |
| MigratePinyin.ExampleSpacesDropped | scripts/migratePinyinData.ts:30 | removing white space from `Lü  Xing` gives `LüXing` |
| MigratePinyin.ExampleFolded | scripts/migratePinyinData.ts:28-29 | `LüXing` folds to `lvxing` |
| MigratePinyin.LettersKept | scripts/migratePinyinData.ts:30 | ASCII letters and `ü` survive the white-space removal |
| MigratePinyin.SeparatorDropped | scripts/migratePinyinData.ts:30 | a run of spaces between two words is removed and the words joined |
| MigratePinyin.SpacesFiltered | scripts/migratePinyinData.ts:30 | a run of spaces is removed entirely |
| MigratePinyin.LowerAlnumIsNormal | scripts/migratePinyinData.ts:40-60 | no step changes lower-case ASCII letters and digits |
| MigratePinyin.NormalizePinyinIdempotent | scripts/migratePinyinData.ts:35-61 | normalising twice is normalising once |
| MigratePinyin.UntouchedSteps | scripts/migratePinyinData.ts:40-55 | characters that are neither marks nor toned pass the first two steps unchanged |
| MigratePinyin.SeparatorFiltered | scripts/migratePinyinData.ts:60 | a separator between two normal words is removed |
| MigratePinyin.SeparatorRemoved | scripts/migratePinyinData.ts:57-60 | normalising two words with a separator gives the words joined |
| MigratePinyin.SpacesRemoved | scripts/migratePinyinData.ts:57-60 | `wo men` and `women` normalise to the same `women` |
| MigratePinyin.ToneMarksDropped | scripts/migratePinyinData.ts:38-55 | `nǐ` becomes `ni`, whether or not NFD decomposes it |
| MigratePinyin.UmlautUnderDecomposition | scripts/migratePinyinData.ts:40-55 | with NFD, `lü` becomes `lu`, the same as `lu`; without decomposition it becomes `lv` |
| MigratePinyin.DiaeresisDropped | scripts/migratePinyinData.ts:40 | the combining diaeresis is removed |
| MigratePinyin.PrecomposedUmlautMapped | scripts/migratePinyinData.ts:40-55 | a precomposed `ü` survives the removal and is mapped to `v` |
| MigratePinyin.WithRetry | scripts/migratePinyinData.ts:65-97 | up to five attempts; the first success is returned; the last error is thrown when all fail; no attempts gives `null` |
| MigratePinyin.PageOfRow | scripts/migratePinyinData.ts:71 | row `r` is in the inclusive range of page `p` exactly when `p = r / size` |
| MigratePinyin.UpdatesFor | scripts/migratePinyinData.ts:122-125 | one update per row, carrying its id and its normalised pinyin |
| MigratePinyin.UpdatesForAppend | scripts/migratePinyinData.ts:122-125 | the updates of two row lists are appended |
| MigratePinyin.PageRows | scripts/migratePinyinData.ts:68-71 | a page holds up to 50 rows, taken from the table at `page * 50` |
| MigratePinyin.PageStep | scripts/migratePinyinData.ts:111-136 | a non-empty page continues the rows processed so far |
| MigratePinyin.PagesBefore | scripts/migratePinyinData.ts:111-136 | a full run of pages ends on a page boundary |
| MigratePinyin.FetchPage | scripts/migratePinyinData.ts:65-81 | the fetch fails when all five attempts fail; otherwise it returns the page's rows |
| MigratePinyin.UpdatePage | scripts/migratePinyinData.ts:83-97 | the upsert succeeds exactly when one of the five attempts succeeds, so always when the first does |
| MigratePinyin.MigrateTable | scripts/migratePinyinData.ts:99-137 | updates are sent for a prefix of the table, in order; the run stops only at the end or at a page that cannot be fetched; the stored updates are exactly those of the processed pages whose upsert succeeded, in page order, so all are stored when no first attempt fails |
| MigratePinyin.PagesProcessed | scripts/migratePinyinData.ts:111-135 | when the loop stops, the processed rows fill exactly the pages fetched so far |
| SeedSupabase.VocabRows | scripts/seedSupabase.ts:26-35 | one vocabulary row per item, carrying its level and hanzi |
| SeedSupabase.CharRows | scripts/seedSupabase.ts:46-55 | one character row per item, carrying its level and character |
| SeedSupabase.GrammarRows | scripts/seedSupabase.ts:64-73 | one grammar row per item, carrying its level and name |
| SeedSupabase.VocabRowOf | scripts/seedSupabase.ts:26-35 | the row carries the level it is listed under and reads back in Chinese as the item, with level, section and source set |
| SeedSupabase.CharRowOf | scripts/seedSupabase.ts:46-55 | the same for a character |
| SeedSupabase.GrammarRowOf | scripts/seedSupabase.ts:64-73 | the same for a grammar point |
| SeedSupabase.VocabRoundTrip | scripts/seedSupabase.ts:26-35 | a seeded vocabulary row reads back as the item, tagged with its level, section and source |
| SeedSupabase.CharRoundTrip | scripts/seedSupabase.ts:46-55 | a seeded character row reads back as the item, tagged |
| SeedSupabase.GrammarRoundTrip | scripts/seedSupabase.ts:64-73 | a seeded grammar row reads back as the item, tagged |
| SeedSupabase.SeededVocabularyComesBack | scripts/seedSupabase.ts:24-41 | a level of tagged vocabulary reads back item for item |
| SeedSupabase.RowsComeBack | scripts/seedSupabase.ts:26-73 | a row with a source reads back and re-seeds to the same row |
| SeedSupabase.VocabUpserts | scripts/seedSupabase.ts:24-41 | one upsert into `entries_vocabulary` per level |
| SeedSupabase.CharUpserts | scripts/seedSupabase.ts:44-59 | one upsert into `entries_character` per level |
| SeedSupabase.GrammarUpserts | scripts/seedSupabase.ts:62-77 | one upsert into `entries_grammar` per level |
| SeedSupabase.Seed | scripts/seedSupabase.ts:20-80 | vocabulary, then characters, then grammar, level by level |
| SeedSupabase.SeedRowsCarryTheirLevel | scripts/seedSupabase.ts:24-77 | every row upserted goes to its category's table and carries its level |
| ContentService.LocalizedText | services/contentService.ts:232-237 | in Vietnamese the Vietnamese column when truthy, in English the English one, else the base column; Chinese always uses the base column |
| ContentService.LocalizedList | services/contentService.ts:238-240 | as for text, for the can-do and item lists, where a non-empty list counts as present |
| ContentService.MapDbItem | services/contentService.ts:205-273 | the item has the row's category as section, the row's level, and the row's source or `official`; grammar and search rows map to grammar items |
| ContentService.ChineseUsesBaseColumns | services/contentService.ts:230-259 | in Chinese, tasks and topics show their base columns |
| ContentService.TranslationsUsed | services/contentService.ts:230-259 | in Vietnamese and English, tasks and topics show the translated category, can-do list, topic and items whenever the row has them |
| ContentService.SourceOrOfficial | services/contentService.ts:214 | a stored source is kept; a missing one reads as official |
| ContentService.DbDescription | services/contentService.ts:138-140 | a non-empty description in each language, the English one `Content from Database` |
| ContentService.MapAll | services/contentService.ts:137 | every row is mapped, in order |
| ContentService.CharacterLevels | services/contentService.ts:98-103 | levels 1 and 2 fetch themselves and the combined level `1-2`; every other level fetches only itself |
| ContentService.Query | services/contentService.ts:85-129 | a row is returned when it fits the category and is at the level asked (for characters at one of its levels), and every such row of the table is returned |
| ContentService.FilterLevel | services/contentService.ts:85-129 | the level filter of each table query (`eq` on one level, `in` on the character levels): a row is returned exactly when its level is one of those asked for |
| ContentService.Records | services/contentService.ts:85-129 | each row of a table reply is wrapped in order, and every row filtered in is among the results |
| ContentService.CharacterPagesByLevel | services/contentService.ts:98-103 | level 1 shows characters of levels 1 and 1-2; level 3 only of level 3 |
| ContentService.PromptKindFor | services/contentService.ts:162-175 | vocabulary and characters have their own prompts; every other category gets the grammar prompt |
| ContentService.WithSource | services/contentService.ts:194 | retagging changes the source only |
| ContentService.TagAi | services/contentService.ts:194 | every generated item is tagged `ai` |
| ContentService.FetchSyllabusContent | services/contentService.ts:72-202 | database rows are used when there are any and AI is not forced; otherwise the AI is asked; AI items are tagged `ai`; an AI failure is the fixed error |
| ContentService.Take | services/contentService.ts:289 | `limit(n)` keeps the first `n` rows |
| ContentService.VocabHits | services/contentService.ts:281-293 | the first 10 vocabulary rows of the reply (all when fewer), in order, each mapped as a vocabulary item; nothing when the query failed or returned no data |
| ContentService.CharHits | services/contentService.ts:296-304 | the first 10 character rows of the reply, in order, each mapped as a character item; nothing on failure |
| ContentService.GrammarHits | services/contentService.ts:307-315 | the first 10 grammar rows of the reply, in order, each mapped as a grammar item; nothing on failure |
| ContentService.SearchContent | services/contentService.ts:278-322 | an empty query finds nothing; at most 30 results; vocabulary, then characters, then grammar; a query that throws drops its table and all later ones |
| LanguageContext.Entry | contexts/LanguageContext.tsx:23 | a usable entry is the value stored under the key in that language's table; a missing key reads as empty |
| LanguageContext.Lookup | contexts/LanguageContext.tsx:23 | the entry in the chosen language, else in English, else the key itself |
| LanguageContext.LookupFallsBackToEnglish | contexts/LanguageContext.tsx:23 | a missing entry falls back to English; a non-empty key never looks up to empty text |
| LanguageContext.Placeholder | contexts/LanguageContext.tsx:26 | `{name}` is the name in braces |
| LanguageContext.ApplyParams | contexts/LanguageContext.tsx:24-28 | with no parameters, or a text with no `{`, the text is unchanged |
| LanguageContext.NoPlaceholderWithoutBrace | contexts/LanguageContext.tsx:26 | a text without `{` holds no placeholder |
| LanguageContext.T | contexts/LanguageContext.tsx:22-30 | `t` is the lookup, with each parameter substituted in order when there are parameters |
| LanguageContext.ReplacesFirstOccurrenceOnly | contexts/LanguageContext.tsx:26 | only the first `{n}` of `{n}/{n}` is replaced |
| LanguageContext.BracesOnlyAtEnds | contexts/LanguageContext.tsx:26 | a brace-free name's placeholder holds braces only at its ends |
| LanguageContext.SameStartSameLength | contexts/LanguageContext.tsx:26 | two placeholders at the same index have the same length |
| LanguageContext.PlaceholdersDoNotOverlap | contexts/LanguageContext.tsx:26 | two occurrences of placeholders are equal or apart |
| LanguageContext.SpliceKeepsOccurrence | contexts/LanguageContext.tsx:26 | replacing a span keeps an occurrence outside it, shifted |
| LanguageContext.DifferentPlaceholdersApart | contexts/LanguageContext.tsx:26 | placeholders of different names never overlap |
| LanguageContext.SpliceKeepsContains | contexts/LanguageContext.tsx:26 | replacing a span keeps a pattern found outside it |
| LanguageContext.SpliceKeepsPlaceholder | contexts/LanguageContext.tsx:26 | replacing one placeholder keeps another |
| LanguageContext.ReplaceKeepsPlaceholder | contexts/LanguageContext.tsx:26 | substituting one parameter keeps the placeholders of other names |
| LanguageContext.UnmatchedPlaceholderSurvives | contexts/LanguageContext.tsx:24-28 | a placeholder with no parameter of its name is left in the text |
| LanguageContext.InitialLanguage | contexts/LanguageContext.tsx:13-16 | with nothing saved the language is Vietnamese; a saved code is restored as that language |
| LanguageContext.SavedLanguageRestored | contexts/LanguageContext.tsx:13-20 | saving a language and reloading gives it back |
| Pagination.DecimalPrefix | components/Pagination.tsx:32 | the longest prefix of decimal digits |
| Pagination.HexValue | components/Pagination.tsx:32 | a hex digit's value is below 16 |
| Pagination.HexPrefix | components/Pagination.tsx:32 | the longest prefix of hex digits |
| Pagination.ParseUnsigned | components/Pagination.tsx:32 | a number is read only from non-empty text |
| Pagination.ParseInt | components/Pagination.tsx:32 | empty or blank input is `NaN` |
| Pagination.TrimStartKeeps | components/Pagination.tsx:32 | text that starts with a non-space is not trimmed |
| Pagination.ParseDecimalPrefix | components/Pagination.tsx:32 | `parseInt` reads the leading decimal digits and ignores the rest |
| Pagination.ParseUnsignedDecimal | components/Pagination.tsx:32 | the unsigned part reads the leading decimal digits |
| Pagination.DecimalPrefixIs | components/Pagination.tsx:32 | a run of digits followed by a non-digit is the decimal prefix |
| Pagination.ParseDigits | components/Pagination.tsx:32 | a string of digits parses to its value |
| Pagination.ParseRenderedPage | components/Pagination.tsx:12-32 | the page number shown in the input parses back to itself |
| Pagination.HexPrefixIs | components/Pagination.tsx:32 | a run of hex digits followed by a non-hex character is the hex prefix |
| Pagination.ParseHonoursHexPrefix | components/Pagination.tsx:32 | `0x` followed by hex digits parses as hexadecimal |
| Pagination.ParseRejectsLetters | components/Pagination.tsx:32 | input starting with a letter or other symbol is `NaN` |
| Pagination.ParseMinus | components/Pagination.tsx:32 | a minus sign before digits gives the negative value |
| Pagination.ParseNegative | components/Pagination.tsx:32 | a leading minus negates whatever follows |
| Pagination.Pager.constructor | components/Pagination.tsx:12 | the input starts out showing the current page |
| Pagination.Pager.Renders | components/Pagination.tsx:42 | the control is shown exactly when there is a page 2 to go to |
| Pagination.Pager.Prev | components/Pagination.tsx:18-20 | asks for the previous page unless on the first; the page asked for is in range |
| Pagination.Pager.Next | components/Pagination.tsx:22-24 | asks for the next page unless on the last; the page asked for is in range |
| Pagination.Pager.Type | components/Pagination.tsx:26-28 | typing sets the input text |
| Pagination.Pager.KeyDown | components/Pagination.tsx:30-40 | Enter asks for the typed page when it parses and is in range, and otherwise resets the input to the current page; other keys do nothing |
| Pagination.Pager.Blur | components/Pagination.tsx:62 | leaving the input resets it to the current page |
| Pagination.Pager.Rerender | components/Pagination.tsx:14-16 | a new current page resets the input; an unchanged one keeps what was typed |
| Pagination.EnterAfterBlur | components/Pagination.tsx:30-40 | Enter after leaving the input asks for the current page |
| ContentList.TotalPages | components/ContentList.tsx:55 | the fewest pages of 50 that hold the items |
| ContentList.PageItems | components/ContentList.tsx:56-59 | a page in range shows 1 to 50 items, those at its offset; past the last page nothing |
| ContentList.FirstPagesFlatten | components/ContentList.tsx:55-59 | the first `k` pages together are the first `50 k` items |
| ContentList.PagesPartitionItems | components/ContentList.tsx:55-59 | all the pages together are the items, in order, and none is empty |
| ContentList.RowNumber | components/ContentList.tsx:89 | a truthy ordinal is shown as is; otherwise the position in the whole list |
| ContentList.RowNumbersCountThrough | components/ContentList.tsx:89 | the row number shown is the item's position in the whole list |
| ContentList.Readings | components/ContentList.tsx:124 | only reading or untyped characters |
| ContentList.Writings | components/ContentList.tsx:125 | only writing characters |
| ContentList.Unshown | components/ContentList.tsx:124-161 | characters in neither grid; none when every type is reading, writing or missing |
| ContentList.CharactersSplit | components/ContentList.tsx:124-161 | each character is in exactly one of the reading grid, the writing grid and the unshown ones |
| ContentList.ReadingsAndWritingsDisjoint | components/ContentList.tsx:124-125 | no character is in both grids |
| ContentList.ReadingsAndWritingsPartition | components/ContentList.tsx:124-161 | the two grids are disjoint and, when all types are known, show every character |
| ContentList.Displayed | components/ContentList.tsx:56-59 | tasks show all items on every page; the other categories show the current page |
| ContentList.SearchCard | components/ContentList.tsx:332-402 | tasks and topics get no search card; a character card is labelled writing exactly when it is level `1-2` or of writing type |
| ContentList.MixedLevelLabelsDiffer | components/ContentList.tsx:124-356 | a level `1-2` reading character shows in the reading grid but is labelled writing in search |
| AppState.GetParam | App.tsx:35-39 | `get` finds a value exactly when some pair has the name |
| AppState.GetParamAppend | App.tsx:35-39 | `get` on appended params looks in the first part, then the second |
| AppState.GetParamOfFour | App.tsx:35-39 | `get` on four appended parts takes the first part holding the name |
| AppState.RemoveParam | App.tsx:91-94 | removing a name leaves every other name's value unchanged |
| AppState.SetParam | App.tsx:91-94 | `set` makes `get` return the value, changes no other name, and appends a name not yet present |
| AppState.Serialize | App.tsx:97 | the query string is empty exactly when there are no params |
| AppState.Href | App.tsx:97 | the URL is the bare path exactly when there are no params; otherwise `?` follows the path |
| AppState.ReadLocation | App.tsx:35-39 | view, level and category are never empty, thanks to their defaults |
| AppState.UrlReadsBack | App.tsx:55-63 | reading back the URL written by `updateUrl` recovers the view and each truthy argument, and the defaults otherwise |
| AppState.UrlParams | App.tsx:86-96 | home writes no parameters; the explorer writes `view=explorer` first, then up to three more, and no name twice |
| AppState.LevelParam | App.tsx:92 | `level` is written exactly when the level is truthy, and nothing else |
| AppState.CategoryParam | App.tsx:93 | `category` is written exactly when a category is given, and nothing else |
| AppState.QueryParam | App.tsx:94 | `q` is written exactly when the query is truthy, and nothing else |
| AppState.HomeUrlIsPath | App.tsx:88-97 | the home URL has no query string |
| AppState.Sections | App.tsx:355 | the sections of the results, without missing ones |
| AppState.NameBeforeIrreflexive | App.tsx:356 | no name sorts before itself |
| AppState.FirstCharDecides | App.tsx:356 | names with different first characters sort by them |
| AppState.CategoryOrder | App.tsx:356 | the default string sort orders the six category names by a fixed rank |
| AppState.Distinct | App.tsx:355 | `new Set` keeps each section once and drops no section |
| AppState.Insert | App.tsx:356 | inserting keeps the tabs sorted and adds exactly the new one |
| AppState.InsertFront | App.tsx:356 | a name before the first goes in front and keeps the order |
| AppState.InsertLater | App.tsx:356 | a name after the first goes later and keeps the order |
| AppState.RankInjective | App.tsx:356 | different categories have different ranks |
| AppState.SortNames | App.tsx:356 | sorting gives the same categories in strict name order |
| AppState.SearchTabs | App.tsx:355-356 | the tabs are the result sections, each once, in name order |
| AppState.TabsInNameOrder | App.tsx:355-356 | an earlier tab sorts before a later one and differs from it |
| AppState.FilterBySection | App.tsx:396 | `all` keeps every item; a tab keeps only its section's items, drawn from the results |
| AppState.FilterKeepsSection | App.tsx:396 | every item of the chosen section is kept |
| AppState.Blank | App.tsx:125 | a query is blank exactly when it is all white space |
| AppState.FoundMatches | App.tsx:140 | the `foundMatches` text with `count` then `query` substituted; a template with neither placeholder is unchanged |
| AppState.MatchParamsApplied | App.tsx:140 | substituting the two parameters is replacing `{count}` by the decimal count, then `{query}` by the query |
| AppState.FoundMatchesShowsCount | App.tsx:140 | a template holding `{count}` shows the count in decimal, whatever query follows |
| AppState.ReplacementOccurs | App.tsx:140 | the replacement stands where the first occurrence stood |
| AppState.ReplacementKeeps | App.tsx:140 | a run of digits survives replacing a pattern without digits |
| AppState.BuildParams | App.tsx:86-96 | the successive `set` calls build exactly the params `updateUrl` means to write |
| AppState.App.constructor | App.tsx:18-29 | the app starts on the view `home`, at level 1 and vocabulary, not searching |
| AppState.App.UpdateUrl | App.tsx:86-99 | pushes one URL holding the params and changes nothing else |
| AppState.App.NavigateToExplorer | App.tsx:101-108 | opens the explorer on the level and category, clears the search and records the URL |
| AppState.App.PerformSearch | App.tsx:124-131 | a blank query only ends searching; otherwise searching starts and the outcome is received |
| AppState.App.ReceiveSearch | App.tsx:136-147 | results become the data, with a described count, and the `all` tab is chosen; a failure only sets the error |
| AppState.App.PopState | App.tsx:53-79 | the view string is read from the URL unchecked; for `explorer` the level, category and query are read back and a non-empty query is searched again; otherwise the search is cleared |
| AppState.App.Mount | App.tsx:34-50 | on mount, the view string, level and category come from the URL with their defaults, unchecked; a query in the URL starts a search |
| AppState.App.LoadData | App.tsx:110-121 | the loaded response becomes the data; a failure leaves no data and records its message |
| AppState.App.ShownItems | App.tsx:396-397 | while searching with a tab, only that tab's items; otherwise all the data |
| AppState.App.Page | App.tsx:303 | the home page shows only for the view `home`; every other view string, an unrecognised one included, renders the explorer layout |
| AppState.NavigateThenPop | App.tsx:53-108 | going to the explorer and back to that URL restores its level and category with no search |

## Left out

- `String.prototype.normalize("NFD")` is a parameter, `nfd`, of `MigratePinyin.NormalizePinyin` and `MigratePinyin.RemoveTones`. Unicode decomposition tables are not part of this model. The lemmas state what they need of `nfd` for their inputs.
- MigratePinyin.RemoveTones lower-cases ASCII letters only, so it may differ from the source on non-ASCII capitals. `MigratePinyin.NormalizePinyin` is exact, because after its removals only ASCII remains.
- MigratePinyin.WithRetry: the 2-second backoff delays, and the 300 ms and 200 ms pauses, are left out. Only the attempts and their order are modelled.
- The Supabase client is not part of this model. Query results, failures and the AI reply are inputs.
- ContentService.Query models the `eq`/`in` level filters only. The `ilike`/`or` text matching of `searchContent` is taken as the rows each table replies with, and row order is the database's.
- ContentService.MapDbItem requires that the row has the shape of its category. The source maps an untyped row and would produce `undefined` fields for a mismatched one.
- The Gemini prompt text and the JSON parsing of its reply are reduced to the request kind, level and language, and to a parsed reply or a failure.
- Audio playback (`playAudio`), `Blob`/object URLs and `speechSynthesis` are left out. A settled request records the URL and the audio bytes, or that it fell back.
- TtsService.EdgeTtsService.ProcessQueue does not model the `setTimeout` that re-runs the queue. The caller starts the next request.
- The singleton `getInstance` and `getWsUrl` (it reads `window.location`) are not modelled.
- `crypto.randomUUID()` and `Math.random` are inputs of a connection (`TtsService.Connection`). Nothing is assumed about the shape of what `crypto.randomUUID()` returns.
- Deduplicate.DeduplicateTable runs on rows already keyed. `Deduplicate.KeyVocabulary`, `Deduplicate.KeyCharacters` and `Deduplicate.KeyGrammar` give those rows for each table, so the script's three copies of the loop are one method here.
- LanguageContext.T: special `$` patterns in the replacement string are not interpreted. Parameter values are numbers or plain text.
- `localStorage`, React state, effects and JSX rendering are modelled only as the fields and calls they drive.
- LanguageContext.InitialLanguage returns no language for a saved code other than `vi`, `en` or `zh`. The source casts such a code unchecked.
- `utils/translations.ts` is not part of this model. Translation tables are an input.
- AppState.Serialize does not percent-encode names or values.
- Pagination.ParseInt reads unbounded integers. JavaScript numbers lose precision above 2^53; the model does not capture this.
- AppState.App.LoadData takes the content service's outcome as an input; the static `data/hskData.ts` tables are not modelled beyond the items they pass along.
- The diagnostic scripts (`debug_*.ts`, `test_content_service.ts`, `verify_search.*`) are not modelled.
- SeedSupabase.Seed models the sequence of upserts issued. Conflict handling inside the database is not modelled.
