/** The maintenance script scripts/deduplicate.ts.

    For each of the vocabulary, character and grammar tables it reads every
    row in pages of 1000 ordered by id, computes a textual key per row,
    keeps the first row of each key and deletes the ids of the later ones
    in batches of 100.  Rows are modelled by their id and key (`Keyed`); the
    table, as the database returns it ordered by id, is a sequence. */
module Deduplicate {
  import opened Wrappers
  import opened Strings
  import opened Sequences
  import opened HskTypes

  type Id = string

  datatype Keyed = Keyed(id: Id, key: string)

  // ---------------------------------------------------------------------------
  // Keys

  /** `${hanzi}-${level}-${ordinal || '0'}`: a missing ordinal and the
      ordinal 0 both render as "0". */
  function VocabKey(hanzi: string, level: string, ordinal: Option<int>): string {
    hanzi + "-" + level + "-" + (if TruthyNum(ordinal) then IntToString(ordinal.value) else "0")
  }

  /** `${char}-${level}-${type}`: a null type renders as "null". */
  function CharKey(glyph: string, level: string, charType: Option<string>): string {
    glyph + "-" + level + "-" + (if charType.Some? then charType.value else "null")
  }

  /** `${name}-${level}`. */
  function GrammarKey(name: string, level: string): string {
    name + "-" + level
  }

  /** The columns each table's `fetchAll` selects that the key uses. */
  datatype VocabSelection = VocabSelection(id: Id, hanzi: string, level: string, ordinal: Option<int>)
  datatype CharSelection = CharSelection(id: Id, glyph: string, level: string, charType: Option<string>)
  datatype GrammarSelection = GrammarSelection(id: Id, name: string, level: string)

  /** The rows as the scan sees them: each id with the key of its table. */
  function KeyVocabulary(rows: seq<VocabSelection>): (k: seq<Keyed>)
    ensures |k| == |rows|
    ensures forall i :: 0 <= i < |rows| ==>
      k[i].id == rows[i].id && k[i].key == VocabKey(rows[i].hanzi, rows[i].level, rows[i].ordinal)
  {
    seq(|rows|, i requires 0 <= i < |rows| =>
      Keyed(rows[i].id, VocabKey(rows[i].hanzi, rows[i].level, rows[i].ordinal)))
  }

  function KeyCharacters(rows: seq<CharSelection>): (k: seq<Keyed>)
    ensures |k| == |rows|
    ensures forall i :: 0 <= i < |rows| ==>
      k[i].id == rows[i].id && k[i].key == CharKey(rows[i].glyph, rows[i].level, rows[i].charType)
  {
    seq(|rows|, i requires 0 <= i < |rows| =>
      Keyed(rows[i].id, CharKey(rows[i].glyph, rows[i].level, rows[i].charType)))
  }

  function KeyGrammar(rows: seq<GrammarSelection>): (k: seq<Keyed>)
    ensures |k| == |rows|
    ensures forall i :: 0 <= i < |rows| ==>
      k[i].id == rows[i].id && k[i].key == GrammarKey(rows[i].name, rows[i].level)
  {
    seq(|rows|, i requires 0 <= i < |rows| => Keyed(rows[i].id, GrammarKey(rows[i].name, rows[i].level)))
  }

  /** The vocabulary key does not tell the ordinal 0 from a missing one. */
  lemma VocabKeyOrdinalZero(hanzi: string, level: string)
    ensures VocabKey(hanzi, level, Some(0)) == VocabKey(hanzi, level, None)
  {
  }

  /** Two vocabulary rows with different truthy, non-negative ordinals never
      share a key. */
  lemma VocabKeySeparatesOrdinals(hanzi: string, level: string, m: nat, n: nat)
    requires m != 0 && n != 0 && m != n
    ensures VocabKey(hanzi, level, Some(m)) != VocabKey(hanzi, level, Some(n))
  {
    var p := hanzi + "-" + level + "-";
    if VocabKey(hanzi, level, Some(m)) == VocabKey(hanzi, level, Some(n)) {
      assert NatToString(m) == (p + NatToString(m))[|p|..];
      assert NatToString(n) == (p + NatToString(n))[|p|..];
      NatToStringInjective(m, n);
    }
  }

  /** The hyphen separator is ambiguous: a grammar point named "A-1" at
      level "2" and one named "A" at level "1-2" share a key. */
  lemma GrammarKeyAmbiguous()
    ensures GrammarKey("A-1", "2") == GrammarKey("A", "1-2")
  {
  }

  // ---------------------------------------------------------------------------
  // What the scan computes

  /** Scanning `items` when the keys in `seen` are already taken: the ids of
      the rows whose key was taken earlier, in order. */
  function DuplicatesAfter(items: seq<Keyed>, seen: set<string>): seq<Id> {
    if items == [] then []
    else if items[0].key in seen then [items[0].id] + DuplicatesAfter(items[1..], seen)
    else DuplicatesAfter(items[1..], seen + {items[0].key})
  }

  /** The rows that the same scan keeps, in order. */
  function SurvivorsAfter(items: seq<Keyed>, seen: set<string>): seq<Keyed> {
    if items == [] then []
    else if items[0].key in seen then SurvivorsAfter(items[1..], seen)
    else [items[0]] + SurvivorsAfter(items[1..], seen + {items[0].key})
  }

  function Duplicates(items: seq<Keyed>): seq<Id> {
    DuplicatesAfter(items, {})
  }

  function Survivors(items: seq<Keyed>): seq<Keyed> {
    SurvivorsAfter(items, {})
  }

  function KeysOf(items: seq<Keyed>): set<string> {
    set x | x in items :: x.key
  }

  function IdsOf(items: seq<Keyed>): set<Id> {
    set x | x in items :: x.id
  }

  /** Row `i` is the first row of its key, and its key is not in `seen`. */
  predicate FirstOfKey(items: seq<Keyed>, seen: set<string>, i: int)
    requires 0 <= i < |items|
  {
    items[i].key !in seen && forall j :: 0 <= j < i ==> items[j].key != items[i].key
  }

  predicate DistinctKeys(items: seq<Keyed>) {
    forall i, j :: 0 <= i < j < |items| ==> items[i].key != items[j].key
  }

  predicate DistinctIds(items: seq<Keyed>) {
    forall i, j :: 0 <= i < j < |items| ==> items[i].id != items[j].id
  }

  // ---------------------------------------------------------------------------
  // Properties of the scan

  /** Every row is either kept or deleted. */
  lemma {:induction false} ScanCounts(items: seq<Keyed>, seen: set<string>)
    ensures |SurvivorsAfter(items, seen)| + |DuplicatesAfter(items, seen)| == |items|
    decreases |items|
  {
    if items != [] {
      if items[0].key in seen {
        ScanCounts(items[1..], seen);
      } else {
        ScanCounts(items[1..], seen + {items[0].key});
      }
    }
  }

  /** Every key of the table keeps exactly one row: the survivors carry
      each key not already taken, once. */
  lemma {:induction false} SurvivorKeys(items: seq<Keyed>, seen: set<string>)
    ensures KeysOf(SurvivorsAfter(items, seen)) == KeysOf(items) - seen
    ensures DistinctKeys(SurvivorsAfter(items, seen))
    decreases |items|
  {
    if items != [] {
      var x := items[0];
      assert items == [x] + items[1..];
      assert KeysOf(items) == {x.key} + KeysOf(items[1..]);
      if x.key in seen {
        SurvivorKeys(items[1..], seen);
      } else {
        var rest := SurvivorsAfter(items[1..], seen + {x.key});
        SurvivorKeys(items[1..], seen + {x.key});
        assert KeysOf([x] + rest) == {x.key} + KeysOf(rest);
        forall j | 0 <= j < |rest| ensures rest[j].key != x.key {
          assert rest[j] in rest;
        }
      }
    }
  }

  /** First occurrence wins, in one direction: the first row of each key
      is kept. */
  lemma {:induction false} FirstOfKeyIsKept(items: seq<Keyed>, seen: set<string>, i: int)
    requires 0 <= i < |items| && FirstOfKey(items, seen, i)
    ensures items[i] in SurvivorsAfter(items, seen)
    decreases i
  {
    if i > 0 {
      var seen' := if items[0].key in seen then seen else seen + {items[0].key};
      assert items[1..][i - 1] == items[i];
      FirstOfKeyIsKept(items[1..], seen', i - 1);
    }
  }

  /** ... and in the other: every kept row is the first row of its key. */
  lemma {:induction false} KeptIsFirstOfKey(items: seq<Keyed>, seen: set<string>, x: Keyed)
    requires x in SurvivorsAfter(items, seen)
    ensures exists i :: 0 <= i < |items| && items[i] == x && FirstOfKey(items, seen, i)
    decreases |items|
  {
    var y := items[0];
    if y.key !in seen && x == y {
      assert FirstOfKey(items, seen, 0);
    } else {
      var seen' := if y.key in seen then seen else seen + {y.key};
      KeptIsFirstOfKey(items[1..], seen', x);
      var i :| 0 <= i < |items[1..]| && items[1..][i] == x && FirstOfKey(items[1..], seen', i);
      assert items[i + 1] == x;
      assert FirstOfKey(items, seen, i + 1);
    }
  }

  /** Deduplication is idempotent: a table of survivors has no duplicates. */
  lemma {:induction false} NoDuplicatesAmongDistinct(items: seq<Keyed>, seen: set<string>)
    requires DistinctKeys(items) && forall x :: x in items ==> x.key !in seen
    ensures DuplicatesAfter(items, seen) == []
    decreases |items|
  {
    if items != [] {
      assert items[0] in items;
      NoDuplicatesAmongDistinct(items[1..], seen + {items[0].key});
    }
  }

  /** A row whose key is already taken is deleted. */
  lemma {:induction false} SeenKeyDeleted(items: seq<Keyed>, seen: set<string>, j: int)
    requires 0 <= j < |items| && items[j].key in seen
    ensures items[j].id in DuplicatesAfter(items, seen)
    decreases j
  {
    if j > 0 {
      var seen' := if items[0].key in seen then seen else seen + {items[0].key};
      assert items[1..][j - 1] == items[j];
      SeenKeyDeleted(items[1..], seen', j - 1);
    }
  }

  /** Of two rows with the same key, the later one is deleted. */
  lemma {:induction false} LaterOfKeyDeleted(items: seq<Keyed>, seen: set<string>, i: int, j: int)
    requires 0 <= i < j < |items| && items[i].key == items[j].key
    ensures items[j].id in DuplicatesAfter(items, seen)
    decreases |items|
  {
    var seen' := if items[0].key in seen then seen else seen + {items[0].key};
    assert items[1..][j - 1] == items[j];
    if i == 0 {
      SeenKeyDeleted(items[1..], seen', j - 1);
    } else {
      assert items[1..][i - 1] == items[i];
      LaterOfKeyDeleted(items[1..], seen', i - 1, j - 1);
    }
  }

  /** A later vocabulary row with the same characters, level and ordinal
      as an earlier one is among the ids to delete. */
  lemma RepeatedVocabularyDeleted(rows: seq<VocabSelection>, i: int, j: int)
    requires 0 <= i < j < |rows|
    requires rows[i].hanzi == rows[j].hanzi && rows[i].level == rows[j].level && rows[i].ordinal == rows[j].ordinal
    ensures rows[j].id in Duplicates(KeyVocabulary(rows))
  {
    LaterOfKeyDeleted(KeyVocabulary(rows), {}, i, j);
  }

  /** The same for characters with the same glyph, level and type. */
  lemma RepeatedCharacterDeleted(rows: seq<CharSelection>, i: int, j: int)
    requires 0 <= i < j < |rows|
    requires rows[i].glyph == rows[j].glyph && rows[i].level == rows[j].level && rows[i].charType == rows[j].charType
    ensures rows[j].id in Duplicates(KeyCharacters(rows))
  {
    LaterOfKeyDeleted(KeyCharacters(rows), {}, i, j);
  }

  /** The same for grammar points with the same name and level. */
  lemma RepeatedGrammarDeleted(rows: seq<GrammarSelection>, i: int, j: int)
    requires 0 <= i < j < |rows|
    requires rows[i].name == rows[j].name && rows[i].level == rows[j].level
    ensures rows[j].id in Duplicates(KeyGrammar(rows))
  {
    LaterOfKeyDeleted(KeyGrammar(rows), {}, i, j);
  }

  lemma DeduplicateIdempotent(items: seq<Keyed>)
    ensures Duplicates(Survivors(items)) == []
    ensures Survivors(Survivors(items)) == Survivors(items)
  {
    SurvivorKeys(items, {});
    NoDuplicatesAmongDistinct(Survivors(items), {});
    KeptAllDistinct(Survivors(items), {});
  }

  lemma {:induction false} KeptAllDistinct(items: seq<Keyed>, seen: set<string>)
    requires DistinctKeys(items) && forall x :: x in items ==> x.key !in seen
    ensures SurvivorsAfter(items, seen) == items
    decreases |items|
  {
    if items != [] {
      assert items[0] in items;
      KeptAllDistinct(items[1..], seen + {items[0].key});
    }
  }

  // ---------------------------------------------------------------------------
  // Deleting the duplicates

  /** The table after `.delete().in('id', ids)`. */
  function RemoveIds(items: seq<Keyed>, ids: set<Id>): seq<Keyed> {
    if items == [] then []
    else (if items[0].id in ids then [] else [items[0]]) + RemoveIds(items[1..], ids)
  }

  lemma {:induction false} RemoveIdsAgree(items: seq<Keyed>, a: set<Id>, b: set<Id>)
    requires forall x :: x in items ==> (x.id in a <==> x.id in b)
    ensures RemoveIds(items, a) == RemoveIds(items, b)
    decreases |items|
  {
    if items != [] {
      assert items[0] in items;
      RemoveIdsAgree(items[1..], a, b);
    }
  }

  lemma {:induction false} DuplicatesAreIds(items: seq<Keyed>, seen: set<string>)
    ensures forall id :: id in DuplicatesAfter(items, seen) ==> id in IdsOf(items)
    decreases |items|
  {
    if items != [] {
      var seen' := if items[0].key in seen then seen else seen + {items[0].key};
      DuplicatesAreIds(items[1..], seen');
      assert items == [items[0]] + items[1..];
      forall id | id in DuplicatesAfter(items[1..], seen') ensures id in IdsOf(items) {
        var x :| x in items[1..] && x.id == id;
        assert x in items;
      }
    }
  }

  function ElementSet(s: seq<Id>): set<Id> {
    set id | id in s
  }

  /** When ids are unique, deleting exactly the duplicate ids leaves the
      survivors. */
  lemma {:induction false} DeletingDuplicatesLeavesSurvivors(items: seq<Keyed>, seen: set<string>)
    requires DistinctIds(items)
    ensures RemoveIds(items, ElementSet(DuplicatesAfter(items, seen))) == SurvivorsAfter(items, seen)
    decreases |items|
  {
    if items != [] {
      var x := items[0];
      var tail := items[1..];
      var seen' := if x.key in seen then seen else seen + {x.key};
      var d := ElementSet(DuplicatesAfter(items, seen));
      var d' := ElementSet(DuplicatesAfter(tail, seen'));
      DeletingDuplicatesLeavesSurvivors(tail, seen');
      DuplicatesAreIds(tail, seen');
      forall y | y in tail ensures (y.id in d <==> y.id in d') {
        var j :| 0 <= j < |tail| && tail[j] == y;
        assert items[j + 1] == y;
        assert y.id != x.id;
      }
      RemoveIdsAgree(tail, d, d');
    }
  }

  // ---------------------------------------------------------------------------
  // The imperative script

  /** The `for (const item of rows)` scan with its `seen` map. */
  method FindDuplicates(items: seq<Keyed>) returns (idsToDelete: seq<Id>)
    ensures idsToDelete == Duplicates(items)
  {
    var seen: map<string, Id> := map[];
    idsToDelete := [];
    assert items[0..] == items && seen.Keys == {};
    assert idsToDelete + DuplicatesAfter(items[0..], seen.Keys) == Duplicates(items);
    for i := 0 to |items|
      invariant idsToDelete + DuplicatesAfter(items[i..], seen.Keys) == Duplicates(items)
    {
      var item := items[i];
      assert items[i..][1..] == items[i + 1..];
      if item.key in seen {
        assert DuplicatesAfter(items[i..], seen.Keys) == [item.id] + DuplicatesAfter(items[i + 1..], seen.Keys);
        idsToDelete := idsToDelete + [item.id];
      } else {
        var keys := seen.Keys;
        assert DuplicatesAfter(items[i..], keys) == DuplicatesAfter(items[i + 1..], keys + {item.key});
        seen := seen[item.key := item.id];
        assert seen.Keys == keys + {item.key};
      }
    }
  }

  const PageSize: nat := 1000
  const BatchSize: nat := 100

  /** `fetchAll`: requests `range(from, from + 999)` until a page is short
      or empty, or a request fails (`failingRequest`, counted from 0), in
      which case the rows fetched so far are returned.  `requests` lists
      the `from` offsets asked for. */
  method FetchAll<T>(table: seq<T>, failingRequest: Option<nat>) returns (rows: seq<T>, requests: seq<nat>)
    ensures failingRequest.None? ==> rows == table
    ensures failingRequest.Some? ==> rows == table[..Min(PageSize * failingRequest.value, |table|)]
    ensures |requests| == (if failingRequest.Some? then Min(failingRequest.value + 1, |table| / PageSize + 1)
                           else |table| / PageSize + 1)
    ensures forall i :: 0 <= i < |requests| ==> requests[i] == PageSize * i
  {
    rows := [];
    requests := [];
    var from := 0;
    while true
      invariant from == PageSize * |requests| && from <= |table|
      invariant rows == table[..from]
      invariant failingRequest.Some? ==> |requests| <= failingRequest.value
      invariant forall i :: 0 <= i < |requests| ==> requests[i] == PageSize * i
      decreases |table| - from
    {
      requests := requests + [from];
      if failingRequest == Some(|requests| - 1) {
        break;
      }
      var page := Slice(table, from, from + PageSize);
      if page == [] {
        break;
      }
      rows := rows + page;
      from := from + PageSize;
      if |page| < PageSize {
        break;
      }
    }
  }

  /** The deletion loop: `ids.slice(i, i + 100)` for i = 0, 100, ... */
  method Batches(ids: seq<Id>) returns (batches: seq<seq<Id>>)
    ensures Flatten(batches) == ids
    ensures forall b :: b in batches ==> 1 <= |b| <= BatchSize
    ensures |batches| == (|ids| + BatchSize - 1) / BatchSize
  {
    batches := [];
    var i := 0;
    while i < |ids|
      invariant i == BatchSize * |batches|
      invariant Flatten(batches) == ids[..Min(i, |ids|)]
      invariant forall b :: b in batches ==> 1 <= |b| <= BatchSize
      invariant i <= |ids| || |ids| <= i < |ids| + BatchSize
      decreases |ids| - i
    {
      var batch := Slice(ids, i, i + BatchSize);
      FlattenAppend(batches, batch);
      assert ids[..Min(i + BatchSize, |ids|)] == ids[..i] + batch;
      batches := batches + [batch];
      i := i + BatchSize;
    }
    assert ids[..Min(i, |ids|)] == ids;
  }

  /** The ids actually deleted when the batches at the indices in `failed`
      return an error (which is only logged). */
  function DeletedIds(batches: seq<seq<Id>>, failed: set<nat>): set<Id> {
    set k, id | 0 <= k < |batches| && k !in failed && id in batches[k] :: id
  }

  lemma FlattenMembers(batches: seq<seq<Id>>)
    ensures ElementSet(Flatten(batches)) == set k, id | 0 <= k < |batches| && id in batches[k] :: id
    decreases |batches|
  {
    if batches != [] {
      var init := batches[..|batches| - 1];
      FlattenMembers(init);
      assert batches == init + [batches[|batches| - 1]];
      assert Flatten(batches) == Flatten(init) + batches[|batches| - 1];
      assert forall k :: 0 <= k < |init| ==> batches[k] == init[k];
      assert ElementSet(Flatten(init) + batches[|batches| - 1])
          == ElementSet(Flatten(init)) + ElementSet(batches[|batches| - 1]);
    }
  }

  /** One table: fetch, scan, delete in batches.  Returns the table as it
      is afterwards, with the batches sent. */
  method DeduplicateTable(table: seq<Keyed>, failingRequest: Option<nat>, failedBatches: set<nat>)
    returns (remaining: seq<Keyed>, batches: seq<seq<Id>>)
    ensures var fetched := table[..if failingRequest.Some? then Min(PageSize * failingRequest.value, |table|) else |table|];
      Flatten(batches) == Duplicates(fetched)
    ensures var fetched := table[..if failingRequest.Some? then Min(PageSize * failingRequest.value, |table|) else |table|];
      batches == [] <==> Duplicates(fetched) == []
    ensures forall b :: b in batches ==> 1 <= |b| <= BatchSize
    ensures remaining == RemoveIds(table, DeletedIds(batches, failedBatches))
    ensures failingRequest.None? && failedBatches == {} && DistinctIds(table) ==>
      remaining == Survivors(table)
  {
    var rows, _ := FetchAll(table, failingRequest);
    batches := [];
    if |rows| > 0 {
      var ids := FindDuplicates(rows);
      if |ids| > 0 {
        batches := Batches(ids);
        assert Flatten<Id>([]) == [];
      }
      assert Flatten(batches) == Duplicates(rows);
    }
    assert rows == table[..if failingRequest.Some? then Min(PageSize * failingRequest.value, |table|) else |table|];
    remaining := RemoveIds(table, DeletedIds(batches, failedBatches));
    if failingRequest.None? && failedBatches == {} && DistinctIds(table) {
      FlattenMembers(batches);
      assert table[..|table|] == table;
      assert DeletedIds(batches, failedBatches) == ElementSet(Duplicates(table));
      DeletingDuplicatesLeavesSurvivors(table, {});
    }
  }
}
