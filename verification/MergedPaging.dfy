/** One page of two sorted sources, read from their prefixes only. */
module MergedPaging {
  import opened BookingRows

  datatype Source = Listing | ServiceRequest

  datatype Item = Item(updated: int, id: Id, source: Source)

  /** Latest first, then by id; on a full tie listings come first, as a stable sort leaves them. */
  predicate Ahead(a: Item, b: Item) {
    || a.updated > b.updated
    || (a.updated == b.updated && (a.id < b.id || (a.id == b.id && a.source == Listing && b.source == ServiceRequest)))
  }

  ghost predicate Sorted(s: seq<Item>) { forall i, j | 0 <= i < j < |s| :: Ahead(s[i], s[j]) }

  function Insert(s: seq<Item>, x: Item): seq<Item> {
    if s == [] then [x] else if Ahead(x, s[0]) then [x] + s else [s[0]] + Insert(s[1..], x)
  }

  /** The comparison sort of the combined rows. */
  function Sort(s: seq<Item>): seq<Item> {
    if s == [] then [] else Insert(Sort(s[1..]), s[0])
  }

  function Take(s: seq<Item>, n: nat): seq<Item> { if n <= |s| then s[..n] else s }

  function Slice(s: seq<Item>, from: nat, to: nat): seq<Item>
    requires from <= to
  {
    Take(s, to)[if from <= |Take(s, to)| then from else |Take(s, to)|..]
  }

  /** The product of page and limit. */
  function Offset(pages: nat, limit: nat): nat {
    if pages == 0 then 0 else Offset(pages - 1, limit) + limit
  }

  lemma {:induction false} OffsetIsProduct(pages: nat, limit: nat)
    ensures Offset(pages, limit) == pages * limit
  {
    if pages > 0 {
      OffsetIsProduct(pages - 1, limit);
    }
  }

  /** listWorkspaceContent: fetch the prefixes a page needs, combine, sort, slice. */
  function Page(listings: seq<Item>, requests: seq<Item>, page: nat, limit: nat): seq<Item>
    requires page >= 1
  {
    var take := Offset(page, limit);
    Slice(Sort(Take(listings, take) + Take(requests, take)), Offset(page - 1, limit), take)
  }

  // -------------------------------------------------------------- sorting

  lemma {:induction false} InsertSorts(s: seq<Item>, x: Item)
    requires Sorted(s) && x !in s
    ensures Sorted(Insert(s, x)) && |Insert(s, x)| == |s| + 1
    ensures forall y: Item :: y in Insert(s, x) <==> y in s || y == x
    decreases |s|
  {
    if s != [] {
      assert s == [s[0]] + s[1..];
      if !Ahead(x, s[0]) {
        InsertSorts(s[1..], x);
        var t := Insert(s[1..], x);
        forall k | 0 <= k < |t| ensures Ahead(s[0], t[k]) { assert t[k] in t; }
      }
    }
  }

  ghost predicate Distinct(s: seq<Item>) { forall i, j | 0 <= i < j < |s| :: s[i] != s[j] }

  lemma {:induction false} SortSorts(s: seq<Item>)
    requires Distinct(s)
    ensures Sorted(Sort(s)) && |Sort(s)| == |s| && forall y: Item :: y in Sort(s) <==> y in s
    decreases |s|
  {
    if s != [] {
      SortSorts(s[1..]);
      assert s == [s[0]] + s[1..];
      InsertSorts(Sort(s[1..]), s[0]);
    }
  }

  lemma {:induction false} OneSorting(s: seq<Item>, t: seq<Item>)
    requires Sorted(s) && Sorted(t) && forall y: Item :: y in s <==> y in t
    ensures s == t
    decreases |s|
  {
    assert t != [] ==> t[0] in t;
    if s != [] {
      assert s[0] in s;
      HeadFirst(s, t[0]);
      HeadFirst(t, s[0]);
      assert s[0] == t[0];
      forall y: Item ensures y in s[1..] <==> y in t[1..] {
        TailMembers(s, y);
        TailMembers(t, y);
      }
      OneSorting(s[1..], t[1..]);
      assert s == [s[0]] + s[1..] && t == [t[0]] + t[1..];
    }
  }

  lemma HeadFirst(s: seq<Item>, y: Item)
    requires Sorted(s) && y in s
    ensures y == s[0] || Ahead(s[0], y)
  {
    var k :| 0 <= k < |s| && s[k] == y;
  }

  lemma TailMembers(s: seq<Item>, y: Item)
    requires Sorted(s) && s != []
    ensures y in s[1..] <==> y in s && y != s[0]
  {
    assert s == [s[0]] + s[1..];
    if y in s[1..] {
      var k :| 0 <= k < |s[1..]| && s[1..][k] == y;
      assert s[k + 1] == y && Ahead(s[0], s[k + 1]);
    }
  }

  // -------------------------------------------------------------- merging

  function Merge(a: seq<Item>, b: seq<Item>): seq<Item>
    decreases |a| + |b|
  {
    if a == [] then b
    else if b == [] then a
    else if Ahead(a[0], b[0]) then [a[0]] + Merge(a[1..], b)
    else [b[0]] + Merge(a, b[1..])
  }

  /** Rows of the two sources: each sorted, and of its own kind. */
  ghost predicate Sources(a: seq<Item>, b: seq<Item>) {
    && Sorted(a) && Sorted(b)
    && (forall x | x in a :: x.source == Listing) && (forall x | x in b :: x.source == ServiceRequest)
  }

  lemma SourcesTail(a: seq<Item>, b: seq<Item>, i: nat, j: nat)
    requires Sources(a, b) && i <= |a| && j <= |b|
    ensures Sources(a[i..], b[j..]) && Sources(a[..i], b[..j])
  {
  }

  lemma {:induction false} MergeSorts(a: seq<Item>, b: seq<Item>)
    requires Sources(a, b)
    ensures Sorted(Merge(a, b)) && forall y: Item :: y in Merge(a, b) <==> y in a || y in b
    decreases |a| + |b|
  {
    if a != [] && b != [] {
      assert a == [a[0]] + a[1..] && b == [b[0]] + b[1..];
      if Ahead(a[0], b[0]) {
        SourcesTail(a, b, 1, 0);
        MergeSorts(a[1..], b);
        HeadBefore(a[0], Merge(a[1..], b), a[1..], b);
      } else {
        SourcesTail(a, b, 0, 1);
        assert a[0] in a && b[0] in b;
        MergeSorts(a, b[1..]);
        HeadBefore(b[0], Merge(a, b[1..]), a, b[1..]);
      }
    }
  }

  lemma HeadBefore(x: Item, m: seq<Item>, a: seq<Item>, b: seq<Item>)
    requires Sorted(m) && Sorted(a) && Sorted(b) && (forall y: Item :: y in m <==> y in a || y in b)
    requires (a != [] ==> Ahead(x, a[0])) && (b != [] ==> Ahead(x, b[0]))
    ensures Sorted([x] + m)
  {
    forall k | 0 <= k < |m| ensures Ahead(x, m[k]) {
      assert m[k] in m;
      if m[k] in a { HeadFirst(a, m[k]); } else { HeadFirst(b, m[k]); }
    }
  }

  lemma CombinedDistinct(a: seq<Item>, b: seq<Item>)
    requires Sources(a, b)
    ensures Distinct(a + b)
  {
    var s := a + b;
    forall i, j | 0 <= i < j < |s| ensures s[i] != s[j] {
      if i < |a| && j >= |a| { assert s[i] in a && s[j] in b; }
    }
  }

  /** Sorting the combined rows is merging them. */
  lemma SortIsMerge(a: seq<Item>, b: seq<Item>)
    requires Sources(a, b)
    ensures Sort(a + b) == Merge(a, b)
  {
    CombinedDistinct(a, b);
    SortSorts(a + b);
    MergeSorts(a, b);
    OneSorting(Sort(a + b), Merge(a, b));
  }

  lemma {:induction false} MergeLength(a: seq<Item>, b: seq<Item>)
    ensures |Merge(a, b)| == |a| + |b|
    decreases |a| + |b|
  {
    if a != [] && b != [] {
      if Ahead(a[0], b[0]) { MergeLength(a[1..], b); } else { MergeLength(a, b[1..]); }
    }
  }

  /** The first `n` of a merge need only the first `n` of each source. */
  lemma {:induction false} MergePrefix(a: seq<Item>, b: seq<Item>, i: nat, j: nat, n: nat)
    requires i <= |a| && j <= |b| && (i == |a| || n <= i) && (j == |b| || n <= j)
    ensures Take(Merge(a, b), n) == Take(Merge(a[..i], b[..j]), n)
    decreases |a| + |b|
  {
    MergeLength(a, b);
    MergeLength(a[..i], b[..j]);
    if n == 0 {
    } else if a == [] {
      assert a[..i] == [];
    } else if b == [] {
      assert b[..j] == [];
    } else if Ahead(a[0], b[0]) {
      MergePrefix(a[1..], b, i - 1, j, n - 1);
      assert a[..i][1..] == a[1..][..i - 1];
      TakeCons(a[0], Merge(a[1..], b), n);
      TakeCons(a[0], Merge(a[1..][..i - 1], b[..j]), n);
    } else {
      MergePrefix(a, b[1..], i, j - 1, n - 1);
      assert b[..j][1..] == b[1..][..j - 1];
      TakeCons(b[0], Merge(a, b[1..]), n);
      TakeCons(b[0], Merge(a[..i], b[1..][..j - 1]), n);
    }
  }

  lemma TakeCons(x: Item, s: seq<Item>, n: nat)
    requires n > 0
    ensures Take([x] + s, n) == [x] + Take(s, n - 1)
  {
  }

  // ---------------------------------------------------------- main results

  /** Reading only the prefixes gives the same page as sorting everything. */
  lemma PageIsSliceOfAll(a: seq<Item>, b: seq<Item>, page: nat, limit: nat)
    requires Sources(a, b) && page >= 1
    ensures Page(a, b, page, limit) == Slice(Sort(a + b), Offset(page - 1, limit), Offset(page, limit))
  {
    var take := Offset(page, limit);
    var i := if take <= |a| then take else |a|;
    var j := if take <= |b| then take else |b|;
    SourcesTail(a, b, i, j);
    assert Take(a, take) == a[..i] && Take(b, take) == b[..j];
    SortIsMerge(a, b);
    SortIsMerge(a[..i], b[..j]);
    MergePrefix(a, b, i, j, take);
  }

  /** Latest first, then by id, a listing before a request of the same id. */
  ghost predicate LatestFirst(s: seq<Item>) {
    forall i, j | 0 <= i < j < |s| ::
      || s[i].updated > s[j].updated
      || (s[i].updated == s[j].updated
            && (s[i].id < s[j].id || (s[i].id == s[j].id && s[i].source == Listing && s[j].source == ServiceRequest)))
  }

  /** So a page holds the next `limit` rows of the union of both sources, latest first, as far as there are any. */
  lemma PageRows(a: seq<Item>, b: seq<Item>, all: seq<Item>, page: nat, limit: nat, from: nat, to: nat)
    requires from == (page - 1) * limit && to == page * limit
    requires LatestFirst(a) && LatestFirst(b) && LatestFirst(all) && page >= 1
    requires (forall x | x in a :: x.source == Listing) && (forall x | x in b :: x.source == ServiceRequest)
    requires forall y: Item :: y in all <==> y in a || y in b
    ensures var rows := Page(a, b, page, limit);
            && |rows| == (if to <= |all| then limit else if from <= |all| then |all| - from else 0)
            && forall i | 0 <= i < |rows| :: from + i < |all| && rows[i] == all[from + i]
  {
    assert Sources(a, b) && Sorted(all);
    SortIsMerge(a, b);
    MergeSorts(a, b);
    OneSorting(all, Merge(a, b));
    PageIsSliceOfAll(a, b, page, limit);
    OffsetIsProduct(page, limit);
    OffsetIsProduct(page - 1, limit);
    SliceRows(all, Offset(page - 1, limit), Offset(page, limit));
  }

  lemma SliceRows(s: seq<Item>, from: nat, to: nat)
    requires from <= to
    ensures |Slice(s, from, to)| == if to <= |s| then to - from else if from <= |s| then |s| - from else 0
    ensures forall i | 0 <= i < |Slice(s, from, to)| :: from + i < |s| && Slice(s, from, to)[i] == s[from + i]
  {
  }

  function Pages(a: seq<Item>, b: seq<Item>, count: nat, limit: nat): seq<Item> {
    if count == 0 then [] else Pages(a, b, count - 1, limit) + Page(a, b, count, limit)
  }

  lemma SliceExtends(s: seq<Item>, from: nat, to: nat)
    requires from <= to
    ensures Take(s, from) + Slice(s, from, to) == Take(s, to)
  {
  }

  lemma PageExtends(pages: seq<Item>, page: seq<Item>, all: seq<Item>, from: nat, to: nat)
    requires from <= to && pages == Take(all, from) && page == Slice(all, from, to)
    ensures pages + page == Take(all, to)
  {
    SliceExtends(all, from, to);
  }

  /** Successive pages put together are the sorted union up to there: no loss, no repeats. */
  lemma {:induction false} PagesPartition(a: seq<Item>, b: seq<Item>, count: nat, limit: nat)
    requires Sources(a, b)
    ensures Pages(a, b, count, limit) == Take(Sort(a + b), Offset(count, limit))
    decreases count
  {
    var all := Sort(a + b);
    if count == 0 {
      assert Take(all, 0) == [];
    } else {
      var before, page := Pages(a, b, count - 1, limit), Page(a, b, count, limit);
      var from, to := Offset(count - 1, limit), Offset(count, limit);
      assert before == Take(all, from) by { PagesPartition(a, b, count - 1, limit); }
      assert page == Slice(all, from, to) by { PageIsSliceOfAll(a, b, count, limit); }
      PageExtends(before, page, all, from, to);
      assert Pages(a, b, count, limit) == before + page;
    }
  }

  /** Once the pages cover the total, they hold every row of both sources exactly once. */
  lemma AllPagesHoldEverything(a: seq<Item>, b: seq<Item>, count: nat, limit: nat)
    requires Sources(a, b) && Offset(count, limit) >= |a| + |b|
    ensures var all := Pages(a, b, count, limit);
            |all| == |a| + |b| && Sorted(all) && Distinct(all) && forall y: Item :: y in all <==> y in a || y in b
  {
    PagesPartition(a, b, count, limit);
    SortIsMerge(a, b);
    MergeLength(a, b);
    MergeSorts(a, b);
    var all := Pages(a, b, count, limit);
    forall i, j | 0 <= i < j < |all| ensures all[i] != all[j] { assert Ahead(all[i], all[j]); }
  }
}
