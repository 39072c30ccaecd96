/** Document statistics (app/api/sop/stats/route.ts, `GET`): the number of the
    user's documents, and their categories with a count each, most frequent
    first. The two queries are inputs; the category rows are the `category`
    values of the user's documents, in the order the query returned them.

    The counting loop fills a JavaScript `Map`, whose keys keep their insertion
    order: here the list of keys in insertion order and a map of counts. The
    entries are then sorted by count, descending, with a stable sort: the
    in-place insertion sort below, specified by the function `SortByCount`. */
module Stats {
  import opened Types

  // ---------------------------------------------------------------------------
  // Counting

  /** The number of rows equal to `x`. */
  function Occurrences(rows: seq<string>, x: string): nat
  {
    if rows == [] then 0
    else Occurrences(rows[..|rows| - 1], x) + (if rows[|rows| - 1] == x then 1 else 0)
  }

  /** The distinct rows in order of first appearance: the keys of the `Map`. */
  function FirstAppearances(rows: seq<string>): seq<string>
  {
    if rows == [] then []
    else
      var seen := FirstAppearances(rows[..|rows| - 1]);
      if rows[|rows| - 1] in seen then seen else seen + [rows[|rows| - 1]]
  }

  predicate NoDuplicates(names: seq<string>) {
    forall i, j :: 0 <= i < j < |names| ==> names[i] != names[j]
  }

  /** The index of the first row equal to `x`. */
  function FirstIndex(rows: seq<string>, x: string): (k: nat)
    requires x in rows
    ensures k < |rows| && rows[k] == x
    ensures forall j :: 0 <= j < k ==> rows[j] != x
  {
    if rows[0] == x then 0 else 1 + FirstIndex(rows[1..], x)
  }

  /** An entry per name of `names`, counting its rows. */
  function TallyOver(rows: seq<string>, names: seq<string>): seq<SopCategory>
  {
    if names == [] then []
    else [SopCategory(names[0], Occurrences(rows, names[0]))] + TallyOver(rows, names[1..])
  }

  /** The `Map`'s entries: each distinct category with its count, in order of first appearance. */
  function Tally(rows: seq<string>): seq<SopCategory>
  {
    TallyOver(rows, FirstAppearances(rows))
  }

  function SumCounts(entries: seq<SopCategory>): nat
  {
    if entries == [] then 0 else entries[0].count + SumCounts(entries[1..])
  }

  function Names(entries: seq<SopCategory>): seq<string>
  {
    seq(|entries|, i requires 0 <= i < |entries| => entries[i].name)
  }

  predicate UniqueNames(entries: seq<SopCategory>) {
    forall i, j :: 0 <= i < j < |entries| ==> entries[i].name != entries[j].name
  }

  lemma {:induction false} OccurrencesAppend(rows: seq<string>, y: string, x: string)
    ensures Occurrences(rows + [y], x) == Occurrences(rows, x) + (if y == x then 1 else 0)
  {
    assert (rows + [y])[..|rows|] == rows;
  }

  /** A category occurs at least once exactly when it is among the rows. */
  lemma {:induction false} OccurrencesPositive(rows: seq<string>, x: string)
    ensures Occurrences(rows, x) >= 1 <==> x in rows
  {
    if rows != [] {
      var init := rows[..|rows| - 1];
      OccurrencesPositive(init, x);
      assert rows == init + [rows[|rows| - 1]];
    }
  }

  /** The keys are distinct and are exactly the categories that occur. */
  lemma {:induction false} FirstAppearancesAreTheDistinctRows(rows: seq<string>)
    ensures NoDuplicates(FirstAppearances(rows))
    ensures forall x :: x in FirstAppearances(rows) <==> x in rows
  {
    if rows != [] {
      var init := rows[..|rows| - 1];
      FirstAppearancesAreTheDistinctRows(init);
      assert rows == init + [rows[|rows| - 1]];
    }
  }

  lemma {:induction false} FirstIndexAppend(rows: seq<string>, y: string, x: string)
    requires x in rows
    ensures FirstIndex(rows + [y], x) == FirstIndex(rows, x)
  {
    if rows[0] != x {
      assert (rows + [y])[1..] == rows[1..] + [y];
      FirstIndexAppend(rows[1..], y, x);
    }
  }

  /** The keys are listed in order of first appearance among the rows. */
  lemma {:induction false} FirstAppearancesInOrder(rows: seq<string>)
    ensures forall x :: x in FirstAppearances(rows) ==> x in rows
    ensures forall i, j :: 0 <= i < j < |FirstAppearances(rows)| ==>
      FirstIndex(rows, FirstAppearances(rows)[i]) < FirstIndex(rows, FirstAppearances(rows)[j])
  {
    FirstAppearancesAreTheDistinctRows(rows);
    if rows != [] {
      var init := rows[..|rows| - 1];
      var y := rows[|rows| - 1];
      assert rows == init + [y];
      FirstAppearancesInOrder(init);
      FirstAppearancesAreTheDistinctRows(init);
      var seen := FirstAppearances(init);
      var keys := FirstAppearances(rows);
      forall x | x in init ensures FirstIndex(rows, x) == FirstIndex(init, x) < |init| {
        FirstIndexAppend(init, y, x);
      }
      forall i, j | 0 <= i < j < |keys| ensures FirstIndex(rows, keys[i]) < FirstIndex(rows, keys[j]) {
        assert keys[i] == seen[i] && seen[i] in init;
        if j < |seen| {
          assert keys[j] == seen[j] && seen[j] in init;
        } else {
          assert keys[j] == y && y !in init;
          assert FirstIndex(rows, y) == |init|;
        }
      }
    }
  }

  lemma {:induction false} TallyOverAt(rows: seq<string>, names: seq<string>)
    ensures |TallyOver(rows, names)| == |names|
    ensures forall i :: 0 <= i < |names| ==>
      TallyOver(rows, names)[i] == SopCategory(names[i], Occurrences(rows, names[i]))
  {
    if names != [] {
      TallyOverAt(rows, names[1..]);
    }
  }

  lemma {:induction false} SumTallyAddRow(rows: seq<string>, y: string, names: seq<string>)
    requires NoDuplicates(names)
    ensures SumCounts(TallyOver(rows + [y], names)) == SumCounts(TallyOver(rows, names)) + (if y in names then 1 else 0)
  {
    if names != [] {
      OccurrencesAppend(rows, y, names[0]);
      SumTallyAddRow(rows, y, names[1..]);
      assert y in names <==> y == names[0] || y in names[1..];
      if y == names[0] {
        assert y !in names[1..];
      }
    }
  }

  lemma {:induction false} SumTallyAddName(rows: seq<string>, names: seq<string>, y: string)
    ensures SumCounts(TallyOver(rows, names + [y])) == SumCounts(TallyOver(rows, names)) + Occurrences(rows, y)
  {
    if names == [] {
      assert TallyOver(rows, [y]) == [SopCategory(y, Occurrences(rows, y))];
    } else {
      assert (names + [y])[1..] == names[1..] + [y];
      SumTallyAddName(rows, names[1..], y);
    }
  }

  /** The counts of the tally add up to the number of rows. */
  lemma {:induction false} TallySumsToRowCount(rows: seq<string>)
    ensures SumCounts(Tally(rows)) == |rows|
  {
    if rows != [] {
      var init := rows[..|rows| - 1];
      var y := rows[|rows| - 1];
      assert rows == init + [y];
      TallySumsToRowCount(init);
      FirstAppearancesAreTheDistinctRows(init);
      var seen := FirstAppearances(init);
      SumTallyAddRow(init, y, seen);
      if y !in seen {
        SumTallyAddName(rows, seen, y);
        OccurrencesPositive(init, y);
        OccurrencesAppend(init, y, y);
      }
    }
  }

  // ---------------------------------------------------------------------------
  // Sorting by count, descending, stably

  predicate SortedByCount(entries: seq<SopCategory>) {
    forall i, j :: 0 <= i < j < |entries| ==> entries[i].count >= entries[j].count
  }

  /** Put `x` after every entry whose count is at least its own. */
  function Insert(sorted: seq<SopCategory>, x: SopCategory): seq<SopCategory>
  {
    if sorted == [] then [x]
    else if sorted[0].count < x.count then [x] + sorted
    else [sorted[0]] + Insert(sorted[1..], x)
  }

  /** Stable insertion sort by count, descending: the order of
      `.sort((a, b) => b.count - a.count)`. */
  function SortByCount(entries: seq<SopCategory>): seq<SopCategory>
  {
    if entries == [] then []
    else Insert(SortByCount(entries[..|entries| - 1]), entries[|entries| - 1])
  }

  lemma {:induction false} InsertPermutes(sorted: seq<SopCategory>, x: SopCategory)
    ensures multiset(Insert(sorted, x)) == multiset(sorted) + multiset{x}
  {
    if sorted != [] && sorted[0].count >= x.count {
      InsertPermutes(sorted[1..], x);
      assert sorted == [sorted[0]] + sorted[1..];
    }
  }

  lemma {:induction false} InsertKeepsSorted(sorted: seq<SopCategory>, x: SopCategory)
    requires SortedByCount(sorted)
    ensures SortedByCount(Insert(sorted, x))
  {
    if sorted != [] && sorted[0].count >= x.count {
      InsertKeepsSorted(sorted[1..], x);
      InsertPermutes(sorted[1..], x);
      var rest := Insert(sorted[1..], x);
      forall j | 0 <= j < |rest| ensures sorted[0].count >= rest[j].count {
        assert rest[j] in multiset(rest);
        assert rest[j] in sorted[1..] || rest[j] == x;
      }
    }
  }

  /** Where the imperative insertion leaves `x`: after the entries of count at
      least its own, before the smaller ones. */
  lemma {:induction false} InsertAt(sorted: seq<SopCategory>, x: SopCategory, k: nat)
    requires SortedByCount(sorted)
    requires k <= |sorted|
    requires forall j :: k <= j < |sorted| ==> sorted[j].count < x.count
    requires k > 0 ==> sorted[k - 1].count >= x.count
    ensures Insert(sorted, x) == sorted[..k] + [x] + sorted[k..]
  {
    if sorted != [] {
      if sorted[0].count < x.count {
        assert k == 0;
      } else {
        InsertAt(sorted[1..], x, k - 1);
        assert sorted[1..][..k - 1] == sorted[1..k];
        assert sorted[1..][k - 1..] == sorted[k..];
      }
    }
  }

  /** The sort is a permutation of its input, ordered by count, non-increasing. */
  lemma {:induction false} SortByCountSortsAndPermutes(entries: seq<SopCategory>)
    ensures multiset(SortByCount(entries)) == multiset(entries)
    ensures SortedByCount(SortByCount(entries))
  {
    if entries != [] {
      var init := entries[..|entries| - 1];
      SortByCountSortsAndPermutes(init);
      InsertPermutes(SortByCount(init), entries[|entries| - 1]);
      InsertKeepsSorted(SortByCount(init), entries[|entries| - 1]);
      assert entries == init + [entries[|entries| - 1]];
    }
  }

  /** Entries of equal count keep their relative order, measured by `rank`. */
  predicate StableBy(entries: seq<SopCategory>, rank: SopCategory -> int) {
    forall i, j :: 0 <= i < j < |entries| && entries[i].count == entries[j].count ==>
      rank(entries[i]) < rank(entries[j])
  }

  lemma {:induction false} InsertKeepsStable(sorted: seq<SopCategory>, x: SopCategory, rank: SopCategory -> int)
    requires SortedByCount(sorted) && StableBy(sorted, rank)
    requires forall e :: e in sorted ==> rank(e) < rank(x)
    ensures StableBy(Insert(sorted, x), rank)
  {
    if sorted != [] {
      if sorted[0].count < x.count {
        forall j | 0 <= j < |sorted| ensures sorted[j].count < x.count {
          assert sorted[0].count >= sorted[j].count || j == 0;
        }
      } else {
        InsertKeepsStable(sorted[1..], x, rank);
        InsertPermutes(sorted[1..], x);
        var rest := Insert(sorted[1..], x);
        forall j | 0 <= j < |rest| && sorted[0].count == rest[j].count
          ensures rank(sorted[0]) < rank(rest[j])
        {
          assert rest[j] in multiset(rest);
          if rest[j] != x {
            assert rest[j] in sorted[1..];
            var m :| 0 <= m < |sorted[1..]| && sorted[1..][m] == rest[j];
            assert sorted[1 + m] == rest[j];
          }
        }
        assert Insert(sorted, x) == [sorted[0]] + rest;
      }
    }
  }

  /** When the input is ordered by `rank`, the sort keeps entries of equal count in that order. */
  lemma {:induction false} SortByCountIsStable(entries: seq<SopCategory>, rank: SopCategory -> int)
    requires forall i, j :: 0 <= i < j < |entries| ==> rank(entries[i]) < rank(entries[j])
    ensures StableBy(SortByCount(entries), rank)
  {
    if entries != [] {
      var init := entries[..|entries| - 1];
      var x := entries[|entries| - 1];
      SortByCountIsStable(init, rank);
      SortByCountSortsAndPermutes(init);
      forall e | e in SortByCount(init) ensures rank(e) < rank(x) {
        assert e in multiset(SortByCount(init));
        assert e in init;
      }
      InsertKeepsStable(SortByCount(init), x, rank);
    }
  }

  /** The array after one insertion step, as a sequence: `input[..j]`, then the
      inserted entry, then `input[j..i]` shifted one place right. */
  lemma ShiftedPrefixIsInsert(result: seq<SopCategory>, input: seq<SopCategory>, i: nat, j: nat)
    requires |result| == |input| && j <= i < |input|
    requires SortedByCount(input[..i])
    requires forall k :: 0 <= k < j ==> result[k] == input[k]
    requires result[j] == input[i]
    requires forall k :: j < k <= i ==> result[k] == input[k - 1]
    requires forall k :: j <= k < i ==> input[k].count < input[i].count
    requires j > 0 ==> input[j - 1].count >= input[i].count
    ensures result[..i + 1] == Insert(input[..i], input[i])
  {
    var done := input[..i];
    InsertAt(done, input[i], j);
    assert result[..i + 1] == done[..j] + [input[i]] + done[j..];
  }

  /** One step of the insertion sort: `a[..i]` is sorted; move `a[i]` left past
      the entries of smaller count. */
  method InsertIntoSortedPrefix(a: array<SopCategory>, i: nat)
    requires i < a.Length
    requires SortedByCount(a[..i])
    modifies a
    ensures a[..i + 1] == Insert(old(a[..i]), old(a[i]))
    ensures a[i + 1..] == old(a[i + 1..])
  {
    ghost var input := a[..];
    ghost var done := a[..i];
    var x := a[i];
    var j := i;
    while j > 0 && a[j - 1].count < x.count
      invariant 0 <= j <= i
      invariant forall k :: 0 <= k < j ==> a[k] == input[k]
      invariant forall k :: j < k <= i ==> a[k] == input[k - 1]
      invariant forall k :: j <= k < i ==> input[k].count < x.count
      invariant forall k :: i < k < a.Length ==> a[k] == input[k]
    {
      a[j] := a[j - 1];
      j := j - 1;
    }
    a[j] := x;
    ShiftedPrefixIsInsert(a[..], input, i, j);
    assert a[i + 1..] == input[i + 1..];
  }

  /** Sort `a` in place by count, descending, keeping entries of equal count in order. */
  method SortByCountInPlace(a: array<SopCategory>)
    modifies a
    ensures a[..] == SortByCount(old(a[..]))
  {
    ghost var input := a[..];
    var i := 0;
    while i < a.Length
      invariant 0 <= i <= a.Length
      invariant a[..i] == SortByCount(input[..i])
      invariant a[i..] == input[i..]
    {
      SortByCountSortsAndPermutes(input[..i]);
      assert a[i] == input[i] by { assert a[i..][0] == a[i]; }
      InsertIntoSortedPrefix(a, i);
      assert input[..i + 1][..i] == input[..i];
      assert SortByCount(input[..i + 1]) == Insert(SortByCount(input[..i]), input[i]);
      i := i + 1;
    }
    assert input[..a.Length] == input;
  }

  // ---------------------------------------------------------------------------
  // The handler

  /** `Map` of category to count, built row by row; its entries in key order. */
  method CountByCategory(rows: seq<string>) returns (entries: seq<SopCategory>)
    ensures entries == Tally(rows)
  {
    var keys: seq<string> := [];
    var counts: map<string, nat> := map[];
    var i := 0;
    while i < |rows|
      invariant 0 <= i <= |rows|
      invariant keys == FirstAppearances(rows[..i])
      invariant forall n :: n in counts <==> n in keys
      invariant forall n :: n in counts ==> counts[n] == Occurrences(rows[..i], n)
    {
      var category := rows[i];
      assert rows[..i + 1] == rows[..i] + [category];
      assert rows[..i + 1][..i] == rows[..i];
      ghost var before := counts;
      if category !in counts {
        keys := keys + [category];
      }
      counts := counts[category := (if category in counts then counts[category] else 0) + 1];
      forall n | n in counts ensures counts[n] == Occurrences(rows[..i + 1], n) {
        OccurrencesAppend(rows[..i], category, n);
        if n == category && category !in before {
          FirstAppearancesAreTheDistinctRows(rows[..i]);
          OccurrencesPositive(rows[..i], n);
        }
      }
      i := i + 1;
    }
    assert rows[..|rows|] == rows;
    entries := seq(|keys|, j requires 0 <= j < |keys| => SopCategory(keys[j], counts[keys[j]]));
    TallyOverAt(rows, keys);
  }

  datatype QueryResult<T> = QueryError | QueryData(data: T)

  datatype StatsResponse =
    | Unauthorized
    | Failed
    | Statistics(totalDocuments: Option<nat>, categories: seq<SopCategory>)
  {
    function Status(): int {
      match this
      case Unauthorized => 401
      case Failed => 500
      case Statistics(_, _) => 200
    }
  }

  /** The handler: 401 without a session, 500 when either query failed, else
      the document count and the category counts, most frequent first. */
  method Get(session: Option<string>, countQuery: QueryResult<Option<nat>>, categoryQuery: QueryResult<seq<string>>)
    returns (r: StatsResponse)
    ensures r.Unauthorized? <==> session.None?
    ensures r.Status() == 401 <==> session.None?
    ensures r.Status() == 500 <==> session.Some? && (countQuery.QueryError? || categoryQuery.QueryError?)
    ensures r.Status() == 200 <==> session.Some? && countQuery.QueryData? && categoryQuery.QueryData?
    ensures r.Failed? <==> session.Some? && (countQuery.QueryError? || categoryQuery.QueryError?)
    ensures r.Statistics? ==> r.totalDocuments == countQuery.data
    ensures r.Statistics? ==>
      var rows, categories := categoryQuery.data, r.categories;
      && (forall i :: 0 <= i < |categories| ==>
            categories[i].count == Occurrences(rows, categories[i].name) && categories[i].count >= 1)
      && (forall x :: x in rows <==> x in Names(categories))
      && UniqueNames(categories)
      && SumCounts(categories) == |rows|
      && SortedByCount(categories)
      && (forall i, j :: 0 <= i < j < |categories| && categories[i].count == categories[j].count ==>
            categories[i].name in rows && categories[j].name in rows &&
            FirstIndex(rows, categories[i].name) < FirstIndex(rows, categories[j].name))
  {
    if session.None? {
      return Unauthorized;
    }
    if countQuery.QueryError? {
      return Failed;
    }
    if categoryQuery.QueryError? {
      return Failed;
    }
    var rows := categoryQuery.data;
    var entries := CountByCategory(rows);
    var a := new SopCategory[|entries|](j requires 0 <= j < |entries| => entries[j]);
    assert a[..] == entries;
    SortByCountInPlace(a);
    var categories := a[..];
    SortedTallyCounts(rows);
    SortedTallyNamesEveryCategory(rows);
    SortedTallyNamesEachCategoryOnce(rows);
    SortedTallySum(rows);
    SortByCountSortsAndPermutes(Tally(rows));
    SortedTallyTiesInFirstAppearanceOrder(rows);
    r := Statistics(countQuery.data, categories);
  }

  /** Each tally entry counts the rows of its name; every row has an entry,
      under a name no other entry has. */
  lemma TallyEntries(rows: seq<string>)
    ensures UniqueNames(Tally(rows))
    ensures forall e :: e in Tally(rows) ==>
      e.name in rows && e.count == Occurrences(rows, e.name) && e.count >= 1
    ensures forall x :: x in rows <==> x in Names(Tally(rows))
  {
    var keys := FirstAppearances(rows);
    var tally := Tally(rows);
    TallyOverAt(rows, keys);
    FirstAppearancesAreTheDistinctRows(rows);
    forall e | e in tally ensures e.name in rows && e.count == Occurrences(rows, e.name) && e.count >= 1 {
      var k :| 0 <= k < |tally| && tally[k] == e;
      assert keys[k] in keys;
      OccurrencesPositive(rows, keys[k]);
    }
    forall x | x in rows ensures x in Names(tally) {
      var k :| 0 <= k < |keys| && keys[k] == x;
      assert Names(tally)[k] == x;
    }
    forall x | x in Names(tally) ensures x in rows {
      var k :| 0 <= k < |tally| && Names(tally)[k] == x;
      assert tally[k] in tally;
    }
  }

  /** A permutation has the same elements. */
  lemma SameElements(s: seq<SopCategory>, t: seq<SopCategory>)
    requires multiset(s) == multiset(t)
    ensures forall e :: e in s <==> e in t
  {
    forall e ensures e in s <==> e in t {
      assert e in s <==> e in multiset(s);
      assert e in t <==> e in multiset(t);
    }
  }

  /** Two equal elements at different positions occur at least twice. */
  lemma PairMultiplicity(s: seq<SopCategory>, i: nat, j: nat)
    requires i < j < |s|
    ensures s[i] == s[j] ==> multiset(s)[s[j]] >= 2
  {
    assert s == s[..j] + [s[j]] + s[j + 1..];
    assert s[i] == s[..j][i];
    assert multiset(s)[s[j]] >= multiset(s[..j])[s[j]] + 1;
  }

  lemma {:induction false} MultiplicityOfUniqueName(entries: seq<SopCategory>, p: nat)
    requires UniqueNames(entries) && p < |entries|
    ensures multiset(entries)[entries[p]] == 1
  {
    assert entries == entries[..p] + [entries[p]] + entries[p + 1..];
    assert entries[p] !in entries[..p];
    assert entries[p] !in entries[p + 1..];
  }

  /** Distinct names stay distinct under a permutation. */
  lemma UniqueNamesAfterPermutation(tally: seq<SopCategory>, categories: seq<SopCategory>)
    requires UniqueNames(tally)
    requires multiset(categories) == multiset(tally)
    ensures UniqueNames(categories)
  {
    forall i, j | 0 <= i < j < |categories| ensures categories[i].name != categories[j].name {
      assert categories[i] in multiset(tally) && categories[j] in multiset(tally);
      var p :| 0 <= p < |tally| && tally[p] == categories[i];
      var q :| 0 <= q < |tally| && tally[q] == categories[j];
      MultiplicityOfUniqueName(tally, p);
      PairMultiplicity(categories, i, j);
      assert categories[i] != categories[j];
      assert p != q;
    }
  }

  /** Inserting an entry adds its count to the sum. */
  lemma {:induction false} SumCountsInsert(sorted: seq<SopCategory>, x: SopCategory)
    ensures SumCounts(Insert(sorted, x)) == SumCounts(sorted) + x.count
  {
    if sorted != [] {
      if sorted[0].count < x.count {
        assert ([x] + sorted)[1..] == sorted;
      } else {
        SumCountsInsert(sorted[1..], x);
        assert ([sorted[0]] + Insert(sorted[1..], x))[1..] == Insert(sorted[1..], x);
      }
    }
  }

  lemma {:induction false} SumCountsAppend(entries: seq<SopCategory>, x: SopCategory)
    ensures SumCounts(entries + [x]) == SumCounts(entries) + x.count
  {
    if entries != [] {
      SumCountsAppend(entries[1..], x);
      assert (entries + [x])[1..] == entries[1..] + [x];
    }
  }

  /** Sorting keeps the sum of counts. */
  lemma {:induction false} SortByCountKeepsSum(entries: seq<SopCategory>)
    ensures SumCounts(SortByCount(entries)) == SumCounts(entries)
  {
    if entries != [] {
      var init := entries[..|entries| - 1];
      var last := entries[|entries| - 1];
      SortByCountKeepsSum(init);
      SumCountsInsert(SortByCount(init), last);
      SumCountsAppend(init, last);
      assert init + [last] == entries;
    }
  }

  /** The rank of an entry: where its category first appears among the rows. */
  function FirstRowOf(rows: seq<string>, e: SopCategory): int
  {
    if e.name in rows then FirstIndex(rows, e.name) else |rows|
  }

  /** Entries of equal count come out in order of first appearance of their category. */
  lemma SortedTallyKeepsFirstAppearanceOrder(rows: seq<string>)
    ensures StableBy(SortByCount(Tally(rows)), e => FirstRowOf(rows, e))
  {
    var tally := Tally(rows);
    var keys := FirstAppearances(rows);
    var rank := e => FirstRowOf(rows, e);
    TallyOverAt(rows, keys);
    FirstAppearancesInOrder(rows);
    forall i, j | 0 <= i < j < |tally| ensures rank(tally[i]) < rank(tally[j]) {
      assert tally[i].name == keys[i] && tally[j].name == keys[j];
    }
    SortByCountIsStable(tally, rank);
  }

  /** Every output entry counts the rows of its category, at least one. */
  lemma SortedTallyCounts(rows: seq<string>)
    ensures forall i :: 0 <= i < |SortByCount(Tally(rows))| ==>
      var e := SortByCount(Tally(rows))[i];
      e.name in rows && e.count == Occurrences(rows, e.name) && e.count >= 1
  {
    var tally := Tally(rows);
    var categories := SortByCount(tally);
    TallyEntries(rows);
    SortByCountSortsAndPermutes(tally);
    SameElements(categories, tally);
    forall i | 0 <= i < |categories|
      ensures categories[i].name in rows
      ensures categories[i].count == Occurrences(rows, categories[i].name) && categories[i].count >= 1
    {
      assert categories[i] in tally;
    }
  }

  /** Sequences with the same elements have the same names. */
  lemma SameNames(s: seq<SopCategory>, t: seq<SopCategory>)
    requires forall e :: e in s <==> e in t
    ensures forall x :: x in Names(s) <==> x in Names(t)
  {
    forall x | x in Names(s) ensures x in Names(t) {
      var i :| 0 <= i < |s| && Names(s)[i] == x;
      assert s[i] in t;
      var k :| 0 <= k < |t| && t[k] == s[i];
      assert Names(t)[k] == x;
    }
    forall x | x in Names(t) ensures x in Names(s) {
      var k :| 0 <= k < |t| && Names(t)[k] == x;
      assert t[k] in s;
      var i :| 0 <= i < |s| && s[i] == t[k];
      assert Names(s)[i] == x;
    }
  }

  /** The output names exactly the categories among the rows. */
  lemma SortedTallyNamesEveryCategory(rows: seq<string>)
    ensures forall x :: x in rows <==> x in Names(SortByCount(Tally(rows)))
  {
    TallyEntries(rows);
    SortByCountSortsAndPermutes(Tally(rows));
    SameElements(SortByCount(Tally(rows)), Tally(rows));
    SameNames(SortByCount(Tally(rows)), Tally(rows));
  }

  /** No category is named twice in the output. */
  lemma SortedTallyNamesEachCategoryOnce(rows: seq<string>)
    ensures UniqueNames(SortByCount(Tally(rows)))
  {
    TallyEntries(rows);
    SortByCountSortsAndPermutes(Tally(rows));
    UniqueNamesAfterPermutation(Tally(rows), SortByCount(Tally(rows)));
  }

  /** The output's counts add up to the number of rows. */
  lemma SortedTallySum(rows: seq<string>)
    ensures SumCounts(SortByCount(Tally(rows))) == |rows|
  {
    SortByCountKeepsSum(Tally(rows));
    TallySumsToRowCount(rows);
  }

  /** Entries of equal count are in order of first appearance of their category. */
  lemma SortedTallyTiesInFirstAppearanceOrder(rows: seq<string>)
    ensures var categories := SortByCount(Tally(rows));
      forall i, j :: 0 <= i < j < |categories| && categories[i].count == categories[j].count ==>
        categories[i].name in rows && categories[j].name in rows &&
        FirstIndex(rows, categories[i].name) < FirstIndex(rows, categories[j].name)
  {
    var categories := SortByCount(Tally(rows));
    SortedTallyCounts(rows);
    SortedTallyKeepsFirstAppearanceOrder(rows);
    forall i, j | 0 <= i < j < |categories| && categories[i].count == categories[j].count
      ensures FirstIndex(rows, categories[i].name) < FirstIndex(rows, categories[j].name)
    {
      assert FirstRowOf(rows, categories[i]) < FirstRowOf(rows, categories[j]);
    }
  }
}
