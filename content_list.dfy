/** components/ContentList.tsx: the paging of a syllabus list, the row
    numbers, the split of characters into readings and writings, and the
    choice of card for a search result. */
module ContentList {
  import opened Wrappers
  import opened Sequences
  import opened HskTypes

  const ItemsPerPage: nat := 50

  /** `Math.ceil(n / itemsPerPage)`. */
  function TotalPages(n: nat): (t: nat)
    ensures t * ItemsPerPage >= n
    ensures t == 0 || (t - 1) * ItemsPerPage < n
    ensures t == 0 <==> n == 0
  {
    (n + ItemsPerPage - 1) / ItemsPerPage
  }

  /** `items.slice((page - 1) * itemsPerPage, page * itemsPerPage)`. */
  function PageItems<T>(items: seq<T>, page: int): (r: seq<T>)
    ensures 1 <= page <= TotalPages(|items|) ==>
      r == items[(page - 1) * ItemsPerPage..Min(page * ItemsPerPage, |items|)]
    ensures 1 <= page <= TotalPages(|items|) ==> 0 < |r| <= ItemsPerPage
    ensures page > TotalPages(|items|) ==> r == []
    ensures |r| <= ItemsPerPage
  {
    Slice(items, (page - 1) * ItemsPerPage, page * ItemsPerPage)
  }

  /** Pages 1 to k, in order. */
  function FirstPages<T>(items: seq<T>, k: nat): seq<seq<T>> {
    seq(k, i requires 0 <= i < k => PageItems(items, i + 1))
  }

  /** The first k pages together are the first k * 50 items. */
  lemma {:induction false} FirstPagesFlatten<T>(items: seq<T>, k: nat)
    requires k <= TotalPages(|items|)
    ensures Flatten(FirstPages(items, k)) == items[..Min(k * ItemsPerPage, |items|)]
  {
    if k > 0 {
      var ps := FirstPages(items, k);
      assert ps[..k - 1] == FirstPages(items, k - 1);
      FirstPagesFlatten(items, k - 1);
      var a := (k - 1) * ItemsPerPage;
      assert Flatten(ps) == items[..a] + items[a..Min(k * ItemsPerPage, |items|)];
      assert items[..a] + items[a..Min(k * ItemsPerPage, |items|)] == items[..Min(k * ItemsPerPage, |items|)];
    }
  }

  /** Pages 1 to totalPages partition the items in order. */
  lemma PagesPartitionItems<T>(items: seq<T>)
    ensures Flatten(FirstPages(items, TotalPages(|items|))) == items
    ensures forall p :: 1 <= p <= TotalPages(|items|) ==> 0 < |PageItems(items, p)| <= ItemsPerPage
  {
    FirstPagesFlatten(items, TotalPages(|items|));
  }

  /** The number in a vocabulary row: the item's ordinal when truthy,
      otherwise its position in the whole list, counted from one. */
  function RowNumber(ordinal: Option<int>, page: int, idx: nat): (n: int)
    ensures TruthyNum(ordinal) ==> n == ordinal.value
    ensures !TruthyNum(ordinal) ==> n == (page - 1) * ItemsPerPage + idx + 1
  {
    if TruthyNum(ordinal) then ordinal.value else (page - 1) * ItemsPerPage + idx + 1
  }

  /** Without ordinals the rows of all pages are numbered 1, 2, 3, ... :
      row idx of page p shows the position of that item in the list. */
  lemma RowNumbersCountThrough<T>(items: seq<T>, page: int, idx: nat)
    requires 1 <= page <= TotalPages(|items|) && idx < |PageItems(items, page)|
    ensures PageItems(items, page)[idx] == items[RowNumber(None, page, idx) - 1]
  {
  }

  // ---------------------------------------------------------------------------
  // Characters view

  /** `i.type === 'reading' || !i.type`. */
  predicate IsReading(c: CharItem) {
    c.charType == Some("reading") || !Truthy(c.charType)
  }

  predicate IsWritingType(c: CharItem) {
    c.charType == Some("writing")
  }

  function Readings(cs: seq<CharItem>): (r: seq<CharItem>)
    ensures forall i :: 0 <= i < |r| ==> IsReading(r[i])
  {
    if cs == [] then []
    else (if IsReading(cs[0]) then [cs[0]] else []) + Readings(cs[1..])
  }

  function Writings(cs: seq<CharItem>): (r: seq<CharItem>)
    ensures forall i :: 0 <= i < |r| ==> IsWritingType(r[i])
  {
    if cs == [] then []
    else (if IsWritingType(cs[0]) then [cs[0]] else []) + Writings(cs[1..])
  }

  /** The characters shown in neither group: a type other than 'reading'
      and 'writing'. */
  function Unshown(cs: seq<CharItem>): (r: seq<CharItem>)
    ensures forall i :: 0 <= i < |r| ==> !IsReading(r[i]) && !IsWritingType(r[i])
    ensures (forall i :: 0 <= i < |cs| ==> IsReading(cs[i]) || IsWritingType(cs[i])) ==> r == []
  {
    if cs == [] then []
    else (if !IsReading(cs[0]) && !IsWritingType(cs[0]) then [cs[0]] else []) + Unshown(cs[1..])
  }

  /** Every character of the page is in exactly one of the readings, the
      writings and the unshown ones. */
  lemma {:induction false} CharactersSplit(cs: seq<CharItem>)
    ensures multiset(Readings(cs)) + multiset(Writings(cs)) + multiset(Unshown(cs)) == multiset(cs)
  {
    if cs != [] {
      CharactersSplit(cs[1..]);
      assert cs == [cs[0]] + cs[1..];
    }
  }

  /** Multisets of items on opposite sides of the reading/writing test
      share nothing. */
  lemma ReadingsAndWritingsDisjoint(rs: seq<CharItem>, ws: seq<CharItem>)
    requires forall i :: 0 <= i < |rs| ==> IsReading(rs[i])
    requires forall i :: 0 <= i < |ws| ==> IsWritingType(ws[i])
    ensures multiset(rs) * multiset(ws) == multiset{}
  {
    forall x ensures (multiset(rs) * multiset(ws))[x] == 0 {
      if x in multiset(rs) {
        var i :| 0 <= i < |rs| && rs[i] == x;
        assert !IsWritingType(x);
        assert x !in ws;
      }
    }
  }

  /** No character is in both groups, and when every type is 'reading',
      'writing' or unset the two groups hold all the page's characters. */
  lemma ReadingsAndWritingsPartition(cs: seq<CharItem>)
    ensures multiset(Readings(cs)) * multiset(Writings(cs)) == multiset{}
    ensures (forall i :: 0 <= i < |cs| ==> IsReading(cs[i]) || IsWritingType(cs[i])) ==>
      multiset(Readings(cs)) + multiset(Writings(cs)) == multiset(cs)
  {
    CharactersSplit(cs);
    ReadingsAndWritingsDisjoint(Readings(cs), Writings(cs));
  }

  // ---------------------------------------------------------------------------
  // Which items each view shows

  /** The items rendered for a category on a page: the task view lists
      every item whatever the page, the others at most one page of them. */
  function Displayed(cat: Category, items: seq<Item>, page: int): (r: seq<Item>)
    ensures cat == Tasks ==> r == items
    ensures cat != Tasks ==> |r| <= ItemsPerPage
    ensures cat != Tasks && 1 <= page <= TotalPages(|items|) ==>
      r == items[(page - 1) * ItemsPerPage..Min(page * ItemsPerPage, |items|)]
  {
    if cat == Tasks then items else PageItems(items, page)
  }

  // ---------------------------------------------------------------------------
  // Search results

  /** A search result card, chosen by which field the item has. */
  datatype Card = WordCard(vocab: VocabItem) | CharacterCard(ch: CharItem, isWriting: bool) | GrammarCard(grammar: GrammarItem)

  /** `item.level === '1-2' || item.type === 'writing'`. */
  predicate LabelledWriting(c: CharItem) {
    c.level == Some("1-2") || c.charType == Some("writing")
  }

  /** `'hanzi' in item`, then `'char' in item`, then `'pattern' in item`;
      tasks and topics have none of these and render nothing. */
  function SearchCard(x: Item): (card: Option<Card>)
    ensures card.None? <==> x.TaskEntry? || x.TopicEntry?
    ensures card.Some? && card.value.CharacterCard? ==> x.CharEntry? && (card.value.isWriting <==> LabelledWriting(x.ch))
  {
    match x
    case VocabEntry(v) => Some(WordCard(v))
    case CharEntry(c) => Some(CharacterCard(c, LabelledWriting(c)))
    case GrammarEntry(g) => Some(GrammarCard(g))
    case _ => None
  }

  /** A level '1-2' character of type 'reading' is listed among the
      readings in the characters view but labelled writing in search. */
  lemma MixedLevelLabelsDiffer(c: CharItem)
    requires c.level == Some("1-2") && c.charType == Some("reading")
    ensures IsReading(c) && !IsWritingType(c)
    ensures SearchCard(CharEntry(c)) == Some(CharacterCard(c, true))
  {
  }
}
