/**
  The quote page (`app/quote/page.tsx`): a list of quotes that can be added
  to, voted for, searched, sorted, extended by "load more" and drawn as a
  bar chart.

  The component's state becomes the fields of `QuotePage`, each event
  handler a method on it; the values the page derives on every render
  (filtered, sorted, charted) are functions of that state.
*/
module Quotes {
  import opened Text
  import ListView

  datatype Quote = Quote(id: int, text: string, votes: nat)

  /** The seed list the page starts from, and the batch "load more" copies. */
  const InitialQuotes: seq<Quote> := [
    Quote(1, "อย่ายอมแพ้ แม้จะไม่ได้กำลังใจจากใคร", 5),
    Quote(2, "ทำวันนี้ให้ดีที่สุด แล้วพรุ่งนี้จะดีขึ้นเอง", 10),
    Quote(3, "ชีวิตก็เหมือนคณิตศาสตร์ บางครั้งก็มีแต่โจทย์ที่ยาก", 3)
  ]

  datatype SortOrder = Asc | Desc

  // ---------------------------------------------------------------------
  // Ids
  // ---------------------------------------------------------------------

  /** What the handlers keep true of the ids: each is positive and at most
      its position plus one, and they never decrease along the list. Every
      id is therefore smaller than `|quotes| + 1`, the id the next addition
      gets; ids are NOT unique, since one "load more" gives its whole batch
      the same id. */
  ghost predicate IdsBounded(quotes: seq<Quote>) {
    && (forall i :: 0 <= i < |quotes| ==> 1 <= quotes[i].id <= i + 1)
    && (forall i :: 0 < i < |quotes| ==> quotes[i - 1].id <= quotes[i].id)
  }

  // ---------------------------------------------------------------------
  // Voting
  // ---------------------------------------------------------------------

  /** `quotes.map(q => q.id === id ? { ...q, votes: q.votes + 1 } : q)`:
      every record with that id gains one vote, all else stays. */
  function Voted(quotes: seq<Quote>, id: int): (r: seq<Quote>)
    ensures |r| == |quotes|
    ensures forall i :: 0 <= i < |r| ==>
      && r[i].id == quotes[i].id
      && r[i].text == quotes[i].text
      && r[i].votes == quotes[i].votes + (if quotes[i].id == id then 1 else 0)
  {
    ListView.Map(quotes, (q: Quote) => if q.id == id then q.(votes := q.votes + 1) else q)
  }

  function TotalVotes(quotes: seq<Quote>): int {
    if quotes == [] then 0 else quotes[0].votes + TotalVotes(quotes[1..])
  }

  /** How many records carry `id`; zero exactly when none does. */
  function CountId(quotes: seq<Quote>, id: int): (n: nat)
    ensures n <= |quotes|
    ensures n == 0 <==> forall i :: 0 <= i < |quotes| ==> quotes[i].id != id
  {
    if quotes == [] then 0
    else (if quotes[0].id == id then 1 else 0) + CountId(quotes[1..], id)
  }

  /** A vote raises the total by the number of records that carry the id. */
  lemma {:induction false} VotedTotal(quotes: seq<Quote>, id: int)
    ensures TotalVotes(Voted(quotes, id)) == TotalVotes(quotes) + CountId(quotes, id)
  {
    if quotes != [] {
      var r := Voted(quotes, id);
      assert r[1..] == Voted(quotes[1..], id);
      VotedTotal(quotes[1..], id);
    }
  }

  /** Voting for an id nobody carries changes nothing. */
  lemma VotedNoMatch(quotes: seq<Quote>, id: int)
    requires CountId(quotes, id) == 0
    ensures Voted(quotes, id) == quotes
  {
    var r := Voted(quotes, id);
    assert forall i :: 0 <= i < |r| ==> r[i] == quotes[i];
  }

  // ---------------------------------------------------------------------
  // The derived views
  // ---------------------------------------------------------------------

  /** `quotes.filter(q => q.text.toLowerCase().includes(searchQuery.toLowerCase()))`. */
  function FilteredQuotes(quotes: seq<Quote>, searchQuery: string, lib: StringLib): (r: seq<Quote>)
    ensures ListView.IsSubsequence(r, quotes)
    ensures forall q :: multiset(r)[q] == if Matches(lib, q.text, searchQuery) then multiset(quotes)[q] else 0
    ensures forall q :: q in r <==> q in quotes && Matches(lib, q.text, searchQuery)
  {
    ListView.Filter(quotes, (q: Quote) => Matches(lib, q.text, searchQuery))
  }

  /** With the empty query every quote is kept. */
  lemma FilteredQuotesEmptyQuery(quotes: seq<Quote>, lib: StringLib)
    requires EmptyQueryMatches(lib)
    ensures FilteredQuotes(quotes, "", lib) == quotes
  {
    forall i | 0 <= i < |quotes| ensures Matches(lib, quotes[i].text, "") {
      EmptyQueryMatchesEverything(lib, quotes[i].text);
    }
    ListView.FilterKeepsAll(quotes, (q: Quote) => Matches(lib, q.text, ""));
  }

  /** The comparator handed to `sort`: `a.text.localeCompare(b.text)` for
      ascending, `b.text.localeCompare(a.text)` otherwise. */
  function Comparator(sortOrder: SortOrder, lib: StringLib): (c: (Quote, Quote) -> int)
    ensures forall a, b :: c(a, b) == (if sortOrder == Asc then lib.localeCompare(a.text, b.text)
                                         else lib.localeCompare(b.text, a.text))
  {
    var byText := ListView.ByKey(lib.localeCompare, (q: Quote) => q.text);
    if sortOrder == Asc then byText else ListView.Flip(byText)
  }

  /** Either order's comparator is a total preorder when `localeCompare` is. */
  lemma ComparatorPreorder(sortOrder: SortOrder, lib: StringLib)
    requires ListView.TotalPreorder(lib.localeCompare)
    ensures ListView.TotalPreorder(Comparator(sortOrder, lib))
  {
    var byText := ListView.ByKey(lib.localeCompare, (q: Quote) => q.text);
    ListView.ByKeyPreorder(lib.localeCompare, (q: Quote) => q.text);
    ListView.FlipPreorder(byText);
  }

  /** `[...filteredQuotes].sort(comparator)`: a reordering of its input. */
  function SortedQuotes(filtered: seq<Quote>, sortOrder: SortOrder, lib: StringLib): (r: seq<Quote>)
    ensures multiset(r) == multiset(filtered)
  {
    ListView.SortBy(filtered, Comparator(sortOrder, lib))
  }

  /** When `localeCompare` is a total preorder, every quote of the sorted
      list has a text not greater (`Asc`) or not smaller (`Desc`) than every
      later one. */
  lemma SortedQuotesOrdered(filtered: seq<Quote>, sortOrder: SortOrder, lib: StringLib)
    requires ListView.TotalPreorder(lib.localeCompare)
    ensures var r := SortedQuotes(filtered, sortOrder, lib);
      forall i, j :: 0 <= i < j < |r| ==>
        if sortOrder == Asc then lib.localeCompare(r[i].text, r[j].text) <= 0
        else lib.localeCompare(r[j].text, r[i].text) <= 0
  {
    var cmp := Comparator(sortOrder, lib);
    var r := SortedQuotes(filtered, sortOrder, lib);
    ComparatorPreorder(sortOrder, lib);
    ListView.SortBySorted(filtered, cmp);
    forall i, j | 0 <= i < j < |r| ensures cmp(r[i], r[j]) <= 0 {
      ListView.SortedPairwise(r, cmp, i, j);
    }
  }

  /** `chartData`: one label (the text) and one bar (the votes) per sorted
      quote, in the same order. */
  function ChartDataOf(sorted: seq<Quote>): (c: ListView.ChartData)
    ensures |c.labels| == |sorted| && |c.datasets| == 1 && |c.datasets[0].data| == |sorted|
    ensures forall i :: 0 <= i < |sorted| ==>
      c.labels[i] == sorted[i].text && c.datasets[0].data[i] == sorted[i].votes
    ensures c.datasets[0].name == ListView.VoteResults
  {
    ListView.Chart(sorted, (q: Quote) => q.text, (q: Quote) => q.votes)
  }

  // ---------------------------------------------------------------------
  // The page
  // ---------------------------------------------------------------------

  class QuotePage {
    var quotes: seq<Quote>
    var newQuote: string
    var searchQuery: string
    var sortOrder: SortOrder
    var page: int
    var loading: bool

    /** Every batch "load more" adds is three records long, so the list is
        at least three records per page, and the ids stay bounded. */
    ghost predicate Valid()
      reads this
    {
      1 <= page && 3 * page <= |quotes| && IdsBounded(quotes)
    }

    constructor ()
      ensures Valid()
      ensures quotes == InitialQuotes && newQuote == "" && searchQuery == ""
      ensures sortOrder == Asc && page == 1 && !loading
    {
      quotes := InitialQuotes;
      newQuote := "";
      searchQuery := "";
      sortOrder := Asc;
      page := 1;
      loading := false;
    }

    /** The text box's `onChange`. */
    method SetNewQuote(value: string)
      requires Valid()
      modifies this`newQuote
      ensures Valid() && newQuote == value
    {
      newQuote := value;
    }

    /** The search box's `onChange`. */
    method SetSearchQuery(value: string)
      requires Valid()
      modifies this`searchQuery
      ensures Valid() && searchQuery == value
    {
      searchQuery := value;
    }

    /** The sort button flips between the two orders. */
    method ToggleSortOrder()
      requires Valid()
      modifies this`sortOrder
      ensures Valid() && sortOrder == (if old(sortOrder) == Asc then Desc else Asc)
    {
      sortOrder := if sortOrder == Asc then Desc else Asc;
    }

    /** `addQuote`: a blank input (empty or whitespace only) does nothing;
        otherwise the trimmed text is appended with no votes and the id
        `|quotes| + 1`, which no earlier record carries, and the input is
        cleared. */
    method AddQuote()
      requires Valid()
      modifies this`quotes, this`newQuote
      ensures Valid()
      ensures Trim(old(newQuote)) == [] ==> quotes == old(quotes) && newQuote == old(newQuote)
      ensures Trim(old(newQuote)) != [] ==>
        && quotes == old(quotes) + [Quote(|old(quotes)| + 1, Trim(old(newQuote)), 0)]
        && newQuote == ""
        && forall i :: 0 <= i < |old(quotes)| ==> quotes[i].id < |old(quotes)| + 1
    {
      var trimmed := Trim(newQuote);
      if trimmed != [] {
        var newQuoteObj := Quote(|quotes| + 1, trimmed, 0);
        quotes := quotes + [newQuoteObj];
        newQuote := "";
      }
    }

    /** `voteForQuote(id)`: every record carrying `id` gains one vote. */
    method VoteForQuote(id: int)
      requires Valid()
      modifies this`quotes
      ensures Valid()
      ensures quotes == Voted(old(quotes), id)
      ensures TotalVotes(quotes) == TotalVotes(old(quotes)) + CountId(old(quotes), id)
    {
      VotedTotal(quotes, id);
      quotes := Voted(quotes, id);
    }

    /** `loadMoreItems`: append a copy of the seed list, every copy with the
        same id `|quotes| + 1`, and advance the page; `loading` is off again
        afterwards. */
    method LoadMoreItems()
      requires Valid()
      modifies this`quotes, this`page, this`loading
      ensures Valid()
      ensures var nextId := |old(quotes)| + 1;
        quotes == old(quotes) + [InitialQuotes[0].(id := nextId), InitialQuotes[1].(id := nextId), InitialQuotes[2].(id := nextId)]
      ensures page == old(page) + 1 && !loading
    {
      loading := true;
      var nextId := |quotes| + 1;
      var newItems := ListView.Map(InitialQuotes, (item: Quote) => item.(id := nextId));
      quotes := quotes + newItems;
      page := page + 1;
      loading := false;
    }

    /** The list the page renders (`sortedQuotes`): exactly the quotes whose
        text matches the search box, each as often as it occurs. */
    function Shown(lib: StringLib): (r: seq<Quote>)
      reads this
      ensures forall q :: multiset(r)[q] == if Matches(lib, q.text, searchQuery) then multiset(quotes)[q] else 0
      ensures forall q :: q in r <==> q in quotes && Matches(lib, q.text, searchQuery)
    {
      var filtered := FilteredQuotes(quotes, searchQuery, lib);
      var r := SortedQuotes(filtered, sortOrder, lib);
      assert forall q :: q in r <==> q in filtered by {
        forall q ensures q in r <==> q in filtered {
          assert q in r <==> multiset(r)[q] > 0;
          assert q in filtered <==> multiset(filtered)[q] > 0;
        }
      }
      r
    }

    /** The chart the page renders (`chartData`): one label and one bar per
        shown quote, in the order shown. */
    function Chart(lib: StringLib): (c: ListView.ChartData)
      reads this
      ensures var shown := Shown(lib);
        && |c.labels| == |shown| && |c.datasets| == 1 && |c.datasets[0].data| == |shown|
        && (forall i :: 0 <= i < |shown| ==>
              c.labels[i] == shown[i].text && c.datasets[0].data[i] == shown[i].votes)
        && c.datasets[0].name == ListView.VoteResults
    {
      ChartDataOf(Shown(lib))
    }
  }

  // ---------------------------------------------------------------------
  // Consequences
  // ---------------------------------------------------------------------

  /** What a page renders: its chart's bars, read left to right, are the
      matching quotes in sorted text order, with their texts and votes. */
  lemma ShownIsMatchingQuotes(p: QuotePage, lib: StringLib)
    requires ListView.TotalPreorder(lib.localeCompare)
    ensures var shown := p.Shown(lib);
      var chart := p.Chart(lib);
      && |chart.labels| == |shown| && |chart.datasets[0].data| == |shown|
      && (forall i :: 0 <= i < |shown| ==>
            && Matches(lib, chart.labels[i], p.searchQuery)
            && chart.labels[i] == shown[i].text && chart.datasets[0].data[i] == shown[i].votes)
      && (forall i, j :: 0 <= i < j < |shown| ==>
            if p.sortOrder == Asc then lib.localeCompare(chart.labels[i], chart.labels[j]) <= 0
            else lib.localeCompare(chart.labels[j], chart.labels[i]) <= 0)
  {
    var shown := p.Shown(lib);
    SortedQuotesOrdered(FilteredQuotes(p.quotes, p.searchQuery, lib), p.sortOrder, lib);
    forall i | 0 <= i < |shown| ensures Matches(lib, shown[i].text, p.searchQuery) {
      assert shown[i] in shown;
    }
  }

  /** A fresh page, one "load more", then a vote for id 4: the three appended
      copies all carry id 4, so all three gain a vote. */
  method LoadThenVote() returns (ids: seq<int>, votes: seq<int>)
    ensures ids == [1, 2, 3, 4, 4, 4]
    ensures votes == [5, 10, 3, 6, 11, 4]
  {
    var p := new QuotePage();
    p.LoadMoreItems();
    ghost var loaded := p.quotes;
    assert |loaded| == 6;
    assert loaded[3].id == 4 && loaded[4].id == 4 && loaded[5].id == 4;
    assert loaded[3].votes == 5 && loaded[4].votes == 10 && loaded[5].votes == 3;
    assert loaded[0] == InitialQuotes[0] && loaded[1] == InitialQuotes[1] && loaded[2] == InitialQuotes[2];
    p.VoteForQuote(4);
    ids := ListView.Map(p.quotes, (q: Quote) => q.id);
    votes := ListView.Map(p.quotes, (q: Quote) => q.votes);
    assert |ids| == 6 && |votes| == 6;
    assert ids[0] == 1 && ids[1] == 2 && ids[2] == 3 && ids[3] == 4 && ids[4] == 4 && ids[5] == 4;
    assert votes[0] == 5 && votes[1] == 10 && votes[2] == 3 && votes[3] == 6 && votes[4] == 11 && votes[5] == 4;
  }

  /** Two records `b` (id 1) and `a` (id 2), empty query, ascending order,
      ordinal comparison: `a` comes first. */
  lemma SortScenario()
    ensures var seed := [Quote(1, "b", 1), Quote(2, "a", 2)];
      SortedQuotes(FilteredQuotes(seed, "", Reference()), Asc, Reference()) == [seed[1], seed[0]]
  {
    var seed := [Quote(1, "b", 1), Quote(2, "a", 2)];
    ReferenceMatchesEmptyQuery();
    FilteredQuotesEmptyQuery(seed, Reference());
    var cmp := Comparator(Asc, Reference());
    assert cmp(seed[0], seed[1]) == OrdinalCompare("b", "a") == 1;
    assert ListView.SortBy([seed[1]], cmp) == [seed[1]];
  }

  /** Voting for id 2 in the same two records: only `a` gains a vote. */
  lemma VoteScenario()
    ensures Voted([Quote(1, "b", 1), Quote(2, "a", 2)], 2) == [Quote(1, "b", 1), Quote(2, "a", 3)]
  {
    var r := Voted([Quote(1, "b", 1), Quote(2, "a", 2)], 2);
    assert r[0] == Quote(1, "b", 1) && r[1] == Quote(2, "a", 3);
  }
}
