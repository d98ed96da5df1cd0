/**
  The show-list page (`app/show-list/page.tsx`): a list of mock items that
  "load more" extends with renumbered copies of the mock batch, searched,
  sorted and drawn as a bar chart like the quote page's list.

  Unlike the quote page, this page numbers each appended copy by its
  position (`item.id + page * 3`), and the invariant `Seeded` below shows
  that the ids then stay exactly `1, 2, 3, ...`.
*/
module ShowList {
  import opened Text
  import ListView

  datatype Item = Item(id: int, title: string, votes: nat)

  const MockData: seq<Item> := [
    Item(1, "Quote 1", 12),
    Item(2, "Quote 2", 19),
    Item(3, "Quote 3", 3)
  ]

  /** The state every sequence of "load more" clicks from the seed reaches:
      `page` batches of three, item `i` a copy of `MockData[i % 3]`
      numbered `i + 1`. */
  ghost predicate Seeded(items: seq<Item>, page: int) {
    && |items| == 3 * page
    && forall i :: 0 <= i < |items| ==> items[i] == MockData[i % 3].(id := i + 1)
  }

  lemma MockDataSeeded()
    ensures Seeded(MockData, 1)
  {
    forall i | 0 <= i < 3 ensures MockData[i] == MockData[i % 3].(id := i + 1) {
      assert i % 3 == i;
    }
  }

  /** A seeded list is numbered `1, 2, 3, ...`. */
  lemma SeededIds(items: seq<Item>, page: int)
    requires Seeded(items, page)
    ensures forall i :: 0 <= i < |items| ==> items[i].id == i + 1
  {
  }

  /** In a seeded list no two items share an id. */
  lemma SeededIdsUnique(items: seq<Item>, page: int)
    requires Seeded(items, page)
    ensures forall i, j :: 0 <= i < |items| && 0 <= j < |items| && items[i].id == items[j].id ==> i == j
  {
  }

  // ---------------------------------------------------------------------
  // The derived views
  // ---------------------------------------------------------------------

  /** `items.filter(item => item.title.toLowerCase().includes(searchQuery.toLowerCase()))`. */
  function FilteredItems(items: seq<Item>, searchQuery: string, lib: StringLib): (r: seq<Item>)
    ensures ListView.IsSubsequence(r, items)
    ensures forall x :: multiset(r)[x] == if Matches(lib, x.title, searchQuery) then multiset(items)[x] else 0
    ensures forall x :: x in r <==> x in items && Matches(lib, x.title, searchQuery)
  {
    ListView.Filter(items, (x: Item) => Matches(lib, x.title, searchQuery))
  }

  /** With the empty query every item is kept. */
  lemma FilteredItemsEmptyQuery(items: seq<Item>, lib: StringLib)
    requires EmptyQueryMatches(lib)
    ensures FilteredItems(items, "", lib) == items
  {
    forall i | 0 <= i < |items| ensures Matches(lib, items[i].title, "") {
      EmptyQueryMatchesEverything(lib, items[i].title);
    }
    ListView.FilterKeepsAll(items, (x: Item) => Matches(lib, x.title, ""));
  }

  /** The comparator handed to `sort`: ascending by title when the order is
      the string "asc", descending for any other string. */
  function Comparator(sortOrder: string, lib: StringLib): (c: (Item, Item) -> int)
    ensures forall a, b :: c(a, b) == (if sortOrder == "asc" then lib.localeCompare(a.title, b.title)
                                         else lib.localeCompare(b.title, a.title))
  {
    var byTitle := ListView.ByKey(lib.localeCompare, (x: Item) => x.title);
    if sortOrder == "asc" then byTitle else ListView.Flip(byTitle)
  }

  /** Every order's comparator is a total preorder when `localeCompare` is. */
  lemma ComparatorPreorder(sortOrder: string, lib: StringLib)
    requires ListView.TotalPreorder(lib.localeCompare)
    ensures ListView.TotalPreorder(Comparator(sortOrder, lib))
  {
    var byTitle := ListView.ByKey(lib.localeCompare, (x: Item) => x.title);
    ListView.ByKeyPreorder(lib.localeCompare, (x: Item) => x.title);
    ListView.FlipPreorder(byTitle);
  }

  /** `[...filteredItems].sort(comparator)`: a reordering of its input. */
  function SortedItems(filtered: seq<Item>, sortOrder: string, lib: StringLib): (r: seq<Item>)
    ensures multiset(r) == multiset(filtered)
  {
    ListView.SortBy(filtered, Comparator(sortOrder, lib))
  }

  /** When `localeCompare` is a total preorder, every item of the sorted
      list has a title not greater ("asc") or not smaller (any other value)
      than every later one. */
  lemma SortedItemsOrdered(filtered: seq<Item>, sortOrder: string, lib: StringLib)
    requires ListView.TotalPreorder(lib.localeCompare)
    ensures var r := SortedItems(filtered, sortOrder, lib);
      forall i, j :: 0 <= i < j < |r| ==>
        if sortOrder == "asc" then lib.localeCompare(r[i].title, r[j].title) <= 0
        else lib.localeCompare(r[j].title, r[i].title) <= 0
  {
    var cmp := Comparator(sortOrder, lib);
    var r := SortedItems(filtered, sortOrder, lib);
    ComparatorPreorder(sortOrder, lib);
    ListView.SortBySorted(filtered, cmp);
    forall i, j | 0 <= i < j < |r| ensures cmp(r[i], r[j]) <= 0 {
      ListView.SortedPairwise(r, cmp, i, j);
    }
  }

  /** `chartData`: one label (the title) and one bar (the votes) per sorted
      item, in the same order. */
  function ChartDataOf(sorted: seq<Item>): (c: ListView.ChartData)
    ensures |c.labels| == |sorted| && |c.datasets| == 1 && |c.datasets[0].data| == |sorted|
    ensures forall i :: 0 <= i < |sorted| ==>
      c.labels[i] == sorted[i].title && c.datasets[0].data[i] == sorted[i].votes
    ensures c.datasets[0].name == ListView.VoteResults
  {
    ListView.Chart(sorted, (x: Item) => x.title, (x: Item) => x.votes)
  }

  // ---------------------------------------------------------------------
  // The page
  // ---------------------------------------------------------------------

  class ShowListPage {
    var items: seq<Item>
    var searchQuery: string
    var sortOrder: string
    var loading: bool
    var page: int

    ghost predicate Valid()
      reads this
    {
      1 <= page && Seeded(items, page)
    }

    constructor ()
      ensures Valid()
      ensures items == MockData && searchQuery == "" && sortOrder == "asc"
      ensures !loading && page == 1
    {
      items := MockData;
      searchQuery := "";
      sortOrder := "asc";
      loading := false;
      page := 1;
      MockDataSeeded();
    }

    /** The search box's `onChange`. */
    method SetSearchQuery(value: string)
      requires Valid()
      modifies this`searchQuery
      ensures Valid() && searchQuery == value
    {
      searchQuery := value;
    }

    /** The sort button: "asc" becomes "desc", anything else "asc". */
    method ToggleSortOrder()
      requires Valid()
      modifies this`sortOrder
      ensures Valid() && sortOrder == (if old(sortOrder) == "asc" then "desc" else "asc")
    {
      sortOrder := if sortOrder == "asc" then "desc" else "asc";
    }

    /** `loadMoreItems`: append the mock batch renumbered by the current page
        (`item.id + page * 3`), then advance the page; `loading` is off
        again afterwards. The ids continue the sequence `1, 2, 3, ...`. */
    method LoadMoreItems()
      requires Valid()
      modifies this`items, this`page, this`loading
      ensures Valid()
      ensures var shift := old(page) * 3;
        items == old(items) + [MockData[0].(id := 1 + shift), MockData[1].(id := 2 + shift), MockData[2].(id := 3 + shift)]
      ensures page == old(page) + 1 && !loading
    {
      loading := true;
      var shift := page * 3;
      var newItems := ListView.Map(MockData, (item: Item) => item.(id := item.id + shift));
      ghost var n := |items|;
      items := items + newItems;
      page := page + 1;
      loading := false;
      forall i | 0 <= i < |items| ensures items[i] == MockData[i % 3].(id := i + 1) {
        if i >= n {
          assert i == n + (i - n) && n == 3 * (page - 1);
          assert i % 3 == i - n;
        }
      }
    }

    /** The list the page renders (`sortedItems`): exactly the items whose
        title matches the search box, each as often as it occurs. */
    function Shown(lib: StringLib): (r: seq<Item>)
      reads this
      ensures forall x :: multiset(r)[x] == if Matches(lib, x.title, searchQuery) then multiset(items)[x] else 0
      ensures forall x :: x in r <==> x in items && Matches(lib, x.title, searchQuery)
    {
      var filtered := FilteredItems(items, searchQuery, lib);
      var r := SortedItems(filtered, sortOrder, lib);
      assert forall x :: x in r <==> x in filtered by {
        forall x ensures x in r <==> x in filtered {
          assert x in r <==> multiset(r)[x] > 0;
          assert x in filtered <==> multiset(filtered)[x] > 0;
        }
      }
      r
    }

    /** The chart the page renders (`chartData`): one label and one bar per
        shown item, in the order shown. */
    function Chart(lib: StringLib): (c: ListView.ChartData)
      reads this
      ensures var shown := Shown(lib);
        && |c.labels| == |shown| && |c.datasets| == 1 && |c.datasets[0].data| == |shown|
        && (forall i :: 0 <= i < |shown| ==>
              c.labels[i] == shown[i].title && c.datasets[0].data[i] == shown[i].votes)
        && c.datasets[0].name == ListView.VoteResults
    {
      ChartDataOf(Shown(lib))
    }
  }

  /** What a page renders: its chart's bars, read left to right, are the
      matching items in sorted title order, with their titles and votes. */
  lemma ShownIsMatchingItems(p: ShowListPage, lib: StringLib)
    requires ListView.TotalPreorder(lib.localeCompare)
    ensures var shown := p.Shown(lib);
      var chart := p.Chart(lib);
      && |chart.labels| == |shown| && |chart.datasets[0].data| == |shown|
      && (forall i :: 0 <= i < |shown| ==>
            && Matches(lib, chart.labels[i], p.searchQuery)
            && chart.labels[i] == shown[i].title && chart.datasets[0].data[i] == shown[i].votes)
      && (forall i, j :: 0 <= i < j < |shown| ==>
            if p.sortOrder == "asc" then lib.localeCompare(chart.labels[i], chart.labels[j]) <= 0
            else lib.localeCompare(chart.labels[j], chart.labels[i]) <= 0)
  {
    var shown := p.Shown(lib);
    SortedItemsOrdered(FilteredItems(p.items, p.searchQuery, lib), p.sortOrder, lib);
    forall i | 0 <= i < |shown| ensures Matches(lib, shown[i].title, p.searchQuery) {
      assert shown[i] in shown;
    }
  }

  /** A fresh page after two "load more" clicks holds the ids 1 to 9. */
  method LoadTwice() returns (ids: seq<int>)
    ensures ids == [1, 2, 3, 4, 5, 6, 7, 8, 9]
  {
    var p := new ShowListPage();
    p.LoadMoreItems();
    p.LoadMoreItems();
    SeededIds(p.items, p.page);
    ids := ListView.Map(p.items, (x: Item) => x.id);
  }
}
