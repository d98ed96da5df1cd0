# Quote list pages: a Dafny model

This project models two list pages of a small client-side demo application.

- The **quote page** (`app/quote/page.tsx`) holds a list of quotes. Each quote has an id, a text and a vote count. The user can add a quote, vote for one, search, sort, "load more" and see a bar chart.
- The **show-list page** (`app/show-list/page.tsx`) holds a list of items with the same search, sort, "load more" and chart.

Each page is a Dafny `class` whose fields are the component's state (`quotes`/`items`, `newQuote`, `searchQuery`, `sortOrder`, `page`, `loading`). Each event handler is a method on that class. The method's `modifies` clause names exactly the fields the handler sets. Each handler runs as one atomic step.

The views a page derives on every render are functions over sequences of records. There are three: the search filter, the sorted copy, and the chart projection. They share one generic pipeline in `ListView.dfy`: `Filter`, `SortBy` (a stable insertion sort) and `Map`/`Chart`.

Files:

- `ListView.dfy`: the generic pipeline and its lemmas (subsequence and filter characterisation, permutation, sortedness, index alignment).
- `Text.dfy`: `String.prototype.trim` as ECMA-262 section 22.1.3.32 defines it, and `StringLib`, which carries `toLowerCase`, `includes` and `localeCompare` as function values. Properties that depend on those three state their assumptions as `requires`:
  - `ListView.TotalPreorder(lib.localeCompare)` for sortedness;
  - `EmptyQueryMatches(lib)` for "the empty query keeps everything".

  `Reference()` is one instance that meets both assumptions: ASCII lower-casing, code-point substring search and ordinal comparison.
- `QuotePage.dfy`: module `Quotes`, with the `Quote` record, the seed, the class `QuotePage` and the quote page's derivations.
- `ShowList.dfy`: module `ShowList`, with the `Item` record, the mock seed, the class `ShowListPage` and its derivations.

Behaviour kept as written:

- On the quote page, one "load more" gives all three appended records the same id, `|quotes| + 1`.
- A vote increments every record with the matching id. `Quotes.LoadThenVote` shows both effects: after one load, voting for id 4 adds a vote to all three copies.
- `Quotes.IdsBounded` is the id invariant the handlers keep. Ids are positive, at most their position plus one, and non-decreasing. So a newly added quote's id is always fresh, but ids in a loaded batch are not unique.
- On the show-list page the ids stay exactly `1, 2, 3, …`. This is `ShowList.Seeded`, preserved by `LoadMoreItems`.
- The quote page's `sortOrder` can only be `'asc'` or `'desc'`, so it is modelled as `SortOrder`. The show-list page's `sortOrder` is an unrestricted string: `"asc"` sorts ascending and any other value descending.

The shared batch id and the vote for every matching record are probably unintended, but the model keeps both as the code writes them.

Sorting works on a copy: `SortedQuotes` and `SortedItems` are functions of values, so they cannot reorder `quotes`, `items` or the filtered list.

## Model

| member | source | states |
|---|---|---|
| `ListView.Filter` | app/quote/page.tsx:77-79 | the result is an order-preserving subsequence of the input; each value occurs in it exactly as often as in the input if `keep` holds of it, and not at all otherwise |
| `ListView.FilterKeepsAll` | app/quote/page.tsx:77-79 | when every record is kept, the filter returns its input unchanged |
| `ListView.SortBy` | app/quote/page.tsx:81 | sorting a copy returns a permutation of it (same length and same multiset) |
| `ListView.SortBySorted` | app/quote/page.tsx:81-87 | under a total-preorder comparator, each element of the sorted copy is not greater than its successor |
| `ListView.InsertSorted` | app/quote/page.tsx:81-87 | inserting into a sorted list keeps it sorted under a total-preorder comparator |
| `ListView.SortedPairwise` | app/quote/page.tsx:81-87 | with a total-preorder comparator, neighbour-wise sortedness gives `cmp(s[i], s[j]) <= 0` for every `i <= j` (totality covers `i == j`) |
| `ListView.ByKeyPreorder` | app/quote/page.tsx:83 | comparing records by `localeCompare` on a string field is a total preorder when `localeCompare` is one |
| `ListView.FlipPreorder` | app/quote/page.tsx:85 | the swapped comparator `(a, b) => cmp(b, a)` of the descending branch is a total preorder when `cmp` is one |
| `ListView.Map` | app/quote/page.tsx:90 | the mapped array has the input's length and holds `f` of the element at every index |
| `ListView.Chart` | app/quote/page.tsx:89-100 | labels and the single dataset's data have the records' length, hold each record's label and votes at the same index, and the dataset is titled "Vote Results" |
| `Text.TrimStart` | app/quote/page.tsx:47 | the result is a suffix of the input, everything removed is whitespace, and it does not start with whitespace |
| `Text.TrimEnd` | app/quote/page.tsx:47 | the result is a prefix of the input, everything removed is whitespace, and it does not end with whitespace |
| `Text.Trim` | app/quote/page.tsx:47-48 | `trim()` returns a slice of the input with only whitespace outside it, that neither starts nor ends with whitespace, and that is empty exactly when the input is all whitespace |
| `Text.TrimIdempotent` | app/quote/page.tsx:47-48 | trimming a trimmed string changes nothing |
| `Text.EmptyQueryMatchesEverything` | app/quote/page.tsx:78 | if `"".toLowerCase()` is `""` and every string includes `""`, the empty query matches every text |
| `Text.AsciiLower` | app/quote/page.tsx:78 | the reference lower-casing keeps the length and maps each character independently |
| `Text.Contains` | app/quote/page.tsx:78 | the reference `includes` holds exactly when the needle occurs at some position of the haystack |
| `Text.OrdinalAntisymmetric` | app/quote/page.tsx:83 | reference comparison of `b` with `a` is the negation of comparing `a` with `b` |
| `Text.OrdinalTransitive` | app/quote/page.tsx:83 | reference comparison is transitive on "not greater than" |
| `Text.ReferenceIsPreorder` | app/quote/page.tsx:83 | the reference `localeCompare` is a total preorder, so the sortedness assumption can be met |
| `Text.ReferenceMatchesEmptyQuery` | app/quote/page.tsx:78 | the reference library meets the empty-query assumption |
| `Quotes.Voted` | app/quote/page.tsx:60-62 | voting keeps the length and every id and text; a record whose id equals the argument gains exactly one vote and every other record keeps its votes |
| `Quotes.CountId` | app/quote/page.tsx:60-62 | the number of records carrying an id is at most the length, and is zero exactly when no record carries it |
| `Quotes.VotedTotal` | app/quote/page.tsx:59-64 | a vote raises the total vote count by exactly the number of records carrying the id |
| `Quotes.VotedNoMatch` | app/quote/page.tsx:59-64 | voting for an id that no record carries leaves the list unchanged |
| `Quotes.FilteredQuotes` | app/quote/page.tsx:77-79 | the filtered list is an order-preserving subsequence of `quotes`; a quote is in it, as often as in `quotes`, exactly when its lowered text includes the lowered query |
| `Quotes.FilteredQuotesEmptyQuery` | app/quote/page.tsx:77-79 | with the empty query every quote is kept, in order |
| `Quotes.Comparator` | app/quote/page.tsx:81-87 | the comparator handed to `sort` is `localeCompare(a.text, b.text)` for ascending and `localeCompare(b.text, a.text)` for descending order |
| `Quotes.ComparatorPreorder` | app/quote/page.tsx:81-87 | both comparators are total preorders when `localeCompare` is one |
| `Quotes.SortedQuotes` | app/quote/page.tsx:81-87 | the sorted list is a permutation of the filtered list |
| `Quotes.SortedQuotesOrdered` | app/quote/page.tsx:81-87 | when `localeCompare` is a total preorder, for every `i < j` the i-th text is not greater than the j-th for ascending order and not smaller for descending order |
| `Quotes.ChartDataOf` | app/quote/page.tsx:89-100 | `labels` and `data` both have the sorted list's length, and `labels[i]` and `data[i]` are the text and votes of the i-th sorted quote |
| `Quotes.QuotePage.Shown` | app/quote/page.tsx:77-87 | the sorted list the page renders holds exactly the quotes whose text matches `searchQuery`, each as often as in `quotes` |
| `Quotes.QuotePage.Chart` | app/quote/page.tsx:89-100 | the page's chart has one label (the text) and one bar (the votes) per rendered quote, in the rendered order, in a single dataset titled "Vote Results" |
| `Quotes.ShownIsMatchingQuotes` | app/quote/page.tsx:77-100 | for any page state, when `localeCompare` is a total preorder, the chart's labels and data follow the rendered list index by index, every label matches the query, and the labels are in the page's sort order |
| `Quotes.QuotePage.constructor` | app/quote/page.tsx:38-44 | the page starts with the seed quotes, empty input and query, ascending order, page 1, not loading, and satisfies the invariant |
| `Quotes.QuotePage.SetNewQuote` | app/quote/page.tsx:134 | typing sets `newQuote` and changes nothing else |
| `Quotes.QuotePage.SetSearchQuery` | app/quote/page.tsx:150 | typing in the search box sets `searchQuery` and changes nothing else |
| `Quotes.QuotePage.ToggleSortOrder` | app/quote/page.tsx:155 | the sort button flips between ascending and descending |
| `Quotes.QuotePage.AddQuote` | app/quote/page.tsx:46-52 | a blank input leaves `quotes` and `newQuote` unchanged; otherwise exactly one quote with the trimmed text, 0 votes and id `old |quotes| + 1` (larger than every existing id) is appended and `newQuote` becomes ""; the invariant is kept |
| `Quotes.QuotePage.VoteForQuote` | app/quote/page.tsx:59-64 | `quotes` becomes the voted list, whose total votes rise by the number of matches; nothing else changes and the invariant is kept |
| `Quotes.QuotePage.LoadMoreItems` | app/quote/page.tsx:66-75 | `quotes` becomes the old list followed by the three seed quotes, each with id `old |quotes| + 1`; `page` goes up by one and `loading` is false; the invariant is kept |
| `Quotes.LoadThenVote` | app/quote/page.tsx:59-75 | from a fresh page, one load then a vote for id 4 gives ids 1,2,3,4,4,4 and votes 5,10,3,6,11,4: all three copies gain the vote |
| `Quotes.SortScenario` | app/quote/page.tsx:77-87 | records "b" (id 1) and "a" (id 2), empty query, ascending order, ordinal comparison: the record with id 2 comes first |
| `Quotes.VoteScenario` | app/quote/page.tsx:59-64 | voting for id 2 in those two records gives it 3 votes and leaves id 1 unchanged |
| `ShowList.MockDataSeeded` | app/show-list/page.tsx:25-36 | the initial state (the mock data, page 1) satisfies the page invariant |
| `ShowList.SeededIds` | app/show-list/page.tsx:25-44 | in any state satisfying the invariant, item i has id i + 1 |
| `ShowList.SeededIdsUnique` | app/show-list/page.tsx:25-44 | in any state satisfying the invariant, no two items share an id |
| `ShowList.FilteredItems` | app/show-list/page.tsx:46-48 | the filtered list is an order-preserving subsequence of `items`; an item is in it, as often as in `items`, exactly when its lowered title includes the lowered query |
| `ShowList.FilteredItemsEmptyQuery` | app/show-list/page.tsx:46-48 | with the empty query every item is kept, in order |
| `ShowList.Comparator` | app/show-list/page.tsx:50-56 | the comparator handed to `sort` is `localeCompare(a.title, b.title)` when `sortOrder` is "asc" and `localeCompare(b.title, a.title)` for any other value |
| `ShowList.ComparatorPreorder` | app/show-list/page.tsx:50-56 | every such comparator is a total preorder when `localeCompare` is one |
| `ShowList.SortedItems` | app/show-list/page.tsx:50-56 | the sorted list is a permutation of the filtered list |
| `ShowList.SortedItemsOrdered` | app/show-list/page.tsx:50-56 | when `localeCompare` is a total preorder, for every `i < j` the i-th title is not greater than the j-th for "asc" and not smaller for any other value of `sortOrder` |
| `ShowList.ChartDataOf` | app/show-list/page.tsx:58-69 | `labels` and `data` both have the sorted list's length, and `labels[i]` and `data[i]` are the title and votes of the i-th sorted item |
| `ShowList.ShowListPage.Shown` | app/show-list/page.tsx:46-56 | the sorted list the page renders holds exactly the items whose title matches `searchQuery`, each as often as in `items` |
| `ShowList.ShowListPage.Chart` | app/show-list/page.tsx:58-69 | the page's chart has one label (the title) and one bar (the votes) per rendered item, in the rendered order, in a single dataset titled "Vote Results" |
| `ShowList.ShownIsMatchingItems` | app/show-list/page.tsx:46-69 | for any page state, when `localeCompare` is a total preorder, the chart's labels and data follow the rendered list index by index, every label matches the query, and the labels are in the page's sort order |
| `ShowList.ShowListPage.constructor` | app/show-list/page.tsx:31-36 | the page starts with the mock data, empty query, "asc", not loading, page 1, and satisfies the invariant |
| `ShowList.ShowListPage.SetSearchQuery` | app/show-list/page.tsx:78 | typing in the search box sets `searchQuery` and changes nothing else |
| `ShowList.ShowListPage.ToggleSortOrder` | app/show-list/page.tsx:81 | "asc" becomes "desc" and every other value becomes "asc" |
| `ShowList.ShowListPage.LoadMoreItems` | app/show-list/page.tsx:38-44 | `items` becomes the old list followed by the three mock items with `id + old page * 3`, with title and votes unchanged; `page` goes up by one and `loading` is false; the invariant (`|items| == 3 * page`, item i a copy of `mockData[i % 3]` with id i + 1) is kept |
| `ShowList.LoadTwice` | app/show-list/page.tsx:38-44 | from a fresh page, two loads give the ids 1 to 9 |

## Left out

- Rendering (JSX, CSS classes, the `Bar` component) and the Chart.js registration are left out. They are UI and a foreign library, with no behaviour to state. The model stops at the `chartData` value handed to the chart.
- `getRandomQuote` and the `randomQuote` state are left out. They depend on `Math.random` and floating-point `Math.floor`.
- The login page (`app/page.tsx`) is not part of this model. It is a router navigation behind a fixed string comparison.
- React's batching, stale closures, the `async` marker on the show-list `loadMoreItems` and the `disabled={loading}` guard are left out. Each handler is one atomic step, and the `loading` flag is only display state.
- `toLowerCase`, `includes` and `localeCompare` are abstract. Their Unicode and locale semantics are host-defined. Only the assumptions each property needs are stated, and `Text.Reference()` shows that those assumptions can be met.
- Ids and votes are unbounded integers. JavaScript numbers are doubles, exact only up to 2^53, and the model does not capture that limit.
- Text.Trim: Dafny characters are Unicode scalar values, while JavaScript strings are UTF-16 code units. All whitespace code points lie in the Basic Multilingual Plane, but lone surrogates are not modelled.
- Quotes.SortedQuotesOrdered: sortedness is proved only when `localeCompare` is a total preorder. For an inconsistent comparator, the order `Array.prototype.sort` produces is implementation-defined, and the model's result is that of its insertion sort.
- ShowList.SortedItemsOrdered: same as `Quotes.SortedQuotesOrdered`.
- The sort is stable by construction (ECMAScript requires `Array.prototype.sort` to be stable), but stability is not stated as a lemma.
- One statement is not proved: that descending order is the reverse of ascending order. With equal keys the stable sort keeps input order in both directions, so the statement is false in general.
