/**
  The list-transformation pipeline that both list pages run on every render:
  keep the records that match the search box, sort a copy of them with a
  three-way comparator, and project the sorted list into the two
  index-aligned arrays a bar chart is drawn from.

  Everything here is generic in the record type; the pages instantiate it
  with their own field (`text` on the quote page, `title` on the show-list
  page).
*/
module ListView {

  // ---------------------------------------------------------------------
  // Comparators
  // ---------------------------------------------------------------------

  /** A three-way comparator (negative, zero or positive, as JavaScript's
      Array.prototype.sort expects) whose "not greater than" relation
      `cmp(a, b) <= 0` is total and transitive. */
  ghost predicate TotalPreorder<T(!new)>(cmp: (T, T) -> int) {
    && (forall a, b :: cmp(a, b) <= 0 || cmp(b, a) <= 0)
    && (forall a, b, c :: cmp(a, b) <= 0 && cmp(b, c) <= 0 ==> cmp(a, c) <= 0)
  }

  /** Compare records by a string key. */
  function ByKey<T>(cmp: (string, string) -> int, key: T -> string): (T, T) -> int {
    (a: T, b: T) => cmp(key(a), key(b))
  }

  /** The reversed comparator `(a, b) => cmp(b, a)`. */
  function Flip<T>(cmp: (T, T) -> int): (T, T) -> int {
    (a: T, b: T) => cmp(b, a)
  }

  lemma ByKeyPreorder<T(!new)>(cmp: (string, string) -> int, key: T -> string)
    requires TotalPreorder(cmp)
    ensures TotalPreorder(ByKey(cmp, key))
  {
    var c := ByKey(cmp, key);
    forall a: T, b: T ensures c(a, b) <= 0 || c(b, a) <= 0 {
      assert cmp(key(a), key(b)) <= 0 || cmp(key(b), key(a)) <= 0;
    }
    forall a: T, b: T, d: T | c(a, b) <= 0 && c(b, d) <= 0 ensures c(a, d) <= 0 {
      assert cmp(key(a), key(b)) <= 0 && cmp(key(b), key(d)) <= 0;
    }
  }

  lemma FlipPreorder<T(!new)>(cmp: (T, T) -> int)
    requires TotalPreorder(cmp)
    ensures TotalPreorder(Flip(cmp))
  {
    var c := Flip(cmp);
    forall a: T, b: T ensures c(a, b) <= 0 || c(b, a) <= 0 {
      assert cmp(b, a) <= 0 || cmp(a, b) <= 0;
    }
    forall a: T, b: T, d: T | c(a, b) <= 0 && c(b, d) <= 0 ensures c(a, d) <= 0 {
      assert cmp(d, b) <= 0 && cmp(b, a) <= 0;
    }
  }

  // ---------------------------------------------------------------------
  // Filtering
  // ---------------------------------------------------------------------

  /** `r` can be obtained from `s` by deleting elements, keeping the order. */
  ghost predicate IsSubsequence<T>(r: seq<T>, s: seq<T>)
    decreases |s|
  {
    r == [] || (s != [] && ((r[0] == s[0] && IsSubsequence(r[1..], s[1..])) || IsSubsequence(r, s[1..])))
  }

  /** Array.prototype.filter: the elements of `s` for which `keep` holds, in
      their original order. The first two postconditions pin the result down:
      it is an order-preserving subsequence that holds every kept occurrence
      and nothing else; the third restates this as membership. */
  function Filter<T(!new)>(s: seq<T>, keep: T -> bool): (r: seq<T>)
    ensures IsSubsequence(r, s)
    ensures forall x :: multiset(r)[x] == if keep(x) then multiset(s)[x] else 0
    ensures forall x :: x in r <==> x in s && keep(x)
  {
    if s == [] then []
    else
      var rest := Filter(s[1..], keep);
      assert s == [s[0]] + s[1..];
      if keep(s[0]) then
        var r := [s[0]] + rest;
        assert r[1..] == rest;
        r
      else
        rest
  }

  lemma {:induction false} FilterKeepsAll<T(!new)>(s: seq<T>, keep: T -> bool)
    requires forall i :: 0 <= i < |s| ==> keep(s[i])
    ensures Filter(s, keep) == s
  {
    if s != [] {
      FilterKeepsAll(s[1..], keep);
      assert s == [s[0]] + s[1..];
    }
  }

  // ---------------------------------------------------------------------
  // Sorting
  // ---------------------------------------------------------------------

  /** Every element is "not greater than" its successor. */
  ghost predicate Sorted<T>(s: seq<T>, cmp: (T, T) -> int) {
    forall i :: 0 < i < |s| ==> cmp(s[i - 1], s[i]) <= 0
  }

  /** Insert `x` in front of the first element it is not greater than. */
  function Insert<T>(x: T, s: seq<T>, cmp: (T, T) -> int): (r: seq<T>)
    ensures |r| == |s| + 1
    ensures multiset(r) == multiset(s) + multiset{x}
    ensures r[0] == x || (s != [] && r[0] == s[0])
  {
    if s == [] || cmp(x, s[0]) <= 0 then [x] + s
    else
      assert s == [s[0]] + s[1..];
      [s[0]] + Insert(x, s[1..], cmp)
  }

  /** A stable sort of a copy of `s` (insertion sort: each element goes in
      front of the equal elements that came after it). */
  function SortBy<T>(s: seq<T>, cmp: (T, T) -> int): (r: seq<T>)
    ensures |r| == |s|
    ensures multiset(r) == multiset(s)
  {
    if s == [] then []
    else
      assert s == [s[0]] + s[1..];
      Insert(s[0], SortBy(s[1..], cmp), cmp)
  }

  lemma {:induction false} InsertSorted<T(!new)>(x: T, s: seq<T>, cmp: (T, T) -> int)
    requires TotalPreorder(cmp)
    requires Sorted(s, cmp)
    ensures Sorted(Insert(x, s, cmp), cmp)
  {
    if s == [] || cmp(x, s[0]) <= 0 {
    } else {
      var tail := s[1..];
      assert Sorted(tail, cmp) by {
        forall i | 0 < i < |tail| ensures cmp(tail[i - 1], tail[i]) <= 0 {
          assert tail[i - 1] == s[i] && tail[i] == s[i + 1];
        }
      }
      InsertSorted(x, tail, cmp);
      var ins := Insert(x, tail, cmp);
      var r := [s[0]] + ins;
      assert cmp(s[0], ins[0]) <= 0 by {
        if ins[0] == x {
          assert cmp(x, s[0]) <= 0 || cmp(s[0], x) <= 0;
        } else {
          assert ins[0] == s[1];
        }
      }
      forall i | 0 < i < |r| ensures cmp(r[i - 1], r[i]) <= 0 {
        if i > 1 {
          assert r[i - 1] == ins[i - 2] && r[i] == ins[i - 1];
        }
      }
    }
  }

  lemma {:induction false} SortBySorted<T(!new)>(s: seq<T>, cmp: (T, T) -> int)
    requires TotalPreorder(cmp)
    ensures Sorted(SortBy(s, cmp), cmp)
  {
    if s != [] {
      SortBySorted(s[1..], cmp);
      InsertSorted(s[0], SortBy(s[1..], cmp), cmp);
    }
  }

  /** Under a total preorder, "sorted" between neighbours means "sorted"
      between every element and itself or any later element. */
  lemma {:induction false} SortedPairwise<T(!new)>(s: seq<T>, cmp: (T, T) -> int, i: nat, j: nat)
    requires TotalPreorder(cmp)
    requires Sorted(s, cmp)
    requires i <= j < |s|
    ensures cmp(s[i], s[j]) <= 0
    decreases j - i
  {
    if i == j {
      var x := s[i];
      assert cmp(x, x) <= 0 || cmp(x, x) <= 0;
    } else if i + 1 == j {
    } else {
      SortedPairwise(s, cmp, i + 1, j);
      assert cmp(s[i], s[i + 1]) <= 0;
    }
  }

  // ---------------------------------------------------------------------
  // Projection
  // ---------------------------------------------------------------------

  /** Array.prototype.map. */
  function Map<T, U>(s: seq<T>, f: T -> U): (r: seq<U>)
    ensures |r| == |s|
    ensures forall i :: 0 <= i < |s| ==> r[i] == f(s[i])
  {
    if s == [] then [] else [f(s[0])] + Map(s[1..], f)
  }

  /** One dataset of a bar chart, with the styling both pages give it. */
  datatype Dataset = Dataset(
    name: string,  // the dataset's `label` (a keyword in Dafny)
    data: seq<int>,
    backgroundColor: string,
    borderColor: string,
    borderWidth: int)

  /** The `{ labels, datasets }` object handed to the chart component. */
  datatype ChartData = ChartData(labels: seq<string>, datasets: seq<Dataset>)

  const VoteResults: string := "Vote Results"
  const Background: string := "rgba(75, 192, 192, 0.2)"
  const Border: string := "rgba(75, 192, 192, 1)"

  /** One label and one bar per record, in the order of `s`. */
  function Chart<T>(s: seq<T>, caption: T -> string, votes: T -> int): (c: ChartData)
    ensures |c.labels| == |s| && |c.datasets| == 1 && |c.datasets[0].data| == |s|
    ensures forall i :: 0 <= i < |s| ==> c.labels[i] == caption(s[i]) && c.datasets[0].data[i] == votes(s[i])
    ensures c.datasets[0].name == VoteResults
  {
    ChartData(Map(s, caption), [Dataset(VoteResults, Map(s, votes), Background, Border, 1)])
  }
}
