/** Portfolio data access (`src/lib/portfolio.ts`): the module-level data object whose company
    array `getAllCompanies` sorts in place, and the filters and lookups built on it. */
module Portfolio {
  import opened Options
  import opened Sequences
  import opened PortfolioTypes

  // ---------------------------------------------------------------------------------------
  // The order `getAllCompanies` establishes, as functions on sequences
  // ---------------------------------------------------------------------------------------

  /** Non-decreasing by `displayOrder`. */
  predicate SortedByDisplayOrder(s: seq<Company>) {
    forall i, j :: 0 <= i < j < |s| ==> s[i].displayOrder <= s[j].displayOrder
  }

  /** Holds of the companies whose `displayOrder` is `k`. */
  function HasDisplayOrder(k: int): Company -> bool {
    (c: Company) => c.displayOrder == k
  }

  /** Holds of the companies that are not coming soon (the `getActiveCompanies` filter). */
  function IsActive(c: Company): bool {
    !c.comingSoon
  }

  /** Holds of the companies in focus area `f` (the `getCompaniesByFocus` filter). */
  function HasFocus(f: string): Company -> bool {
    (c: Company) => c.focusArea == f
  }

  /** Inserts `x` into `p` after every element whose `displayOrder` is at most that of `x`,
      scanning from the right, as the insertion step of a stable sort. */
  function Insert(p: seq<Company>, x: Company): seq<Company>
  {
    if p == [] || p[|p| - 1].displayOrder <= x.displayOrder then p + [x]
    else Insert(p[..|p| - 1], x) + [p[|p| - 1]]
  }

  /** The stable ascending sort by `displayOrder` that
      `data.companies.sort((a, b) => a.displayOrder - b.displayOrder)` performs. */
  function SortByDisplayOrder(s: seq<Company>): seq<Company>
  {
    if s == [] then [] else Insert(SortByDisplayOrder(s[..|s| - 1]), s[|s| - 1])
  }

  lemma {:induction false} InsertPermutes(p: seq<Company>, x: Company)
    ensures multiset(Insert(p, x)) == multiset(p) + multiset{x}
    ensures |Insert(p, x)| == |p| + 1
  {
    if !(p == [] || p[|p| - 1].displayOrder <= x.displayOrder) {
      var n := |p| - 1;
      InsertPermutes(p[..n], x);
      assert p == p[..n] + [p[n]];
    }
  }

  /** The sort is a permutation: same elements, each as often. */
  lemma {:induction false} SortPermutes(s: seq<Company>)
    ensures multiset(SortByDisplayOrder(s)) == multiset(s)
    ensures |SortByDisplayOrder(s)| == |s|
  {
    if s != [] {
      var n := |s| - 1;
      var q := SortByDisplayOrder(s[..n]);
      SortPermutes(s[..n]);
      InsertPermutes(q, s[n]);
      SnocMultiset(s);
      assert SortByDisplayOrder(s) == Insert(q, s[n]);
    }
  }

  /** Every element of `Insert(p, x)` is `x` or an element of `p`. */
  lemma {:induction false} InsertMembers(p: seq<Company>, x: Company)
    ensures forall y :: y in Insert(p, x) ==> y == x || y in p
  {
    InsertPermutes(p, x);
    forall y | y in Insert(p, x) ensures y == x || y in p {
      assert y in multiset(Insert(p, x));
    }
  }

  lemma SortedSnoc(q: seq<Company>, y: Company)
    requires SortedByDisplayOrder(q)
    requires forall z :: z in q ==> z.displayOrder <= y.displayOrder
    ensures SortedByDisplayOrder(q + [y])
  {
    forall i, j | 0 <= i < j < |q| + 1 ensures (q + [y])[i].displayOrder <= (q + [y])[j].displayOrder {
      if j == |q| {
        assert q[i] in q;
      }
    }
  }

  lemma {:induction false} InsertSorted(p: seq<Company>, x: Company)
    requires SortedByDisplayOrder(p)
    ensures SortedByDisplayOrder(Insert(p, x))
  {
    if p == [] || p[|p| - 1].displayOrder <= x.displayOrder {
      SortedSnoc(p, x);
    } else {
      var n := |p| - 1;
      var q := Insert(p[..n], x);
      assert Insert(p, x) == q + [p[n]];
      InsertSorted(p[..n], x);
      InsertMembers(p[..n], x);
      forall z | z in q ensures z.displayOrder <= p[n].displayOrder {
        if z != x {
          var k :| 0 <= k < n && p[..n][k] == z;
          assert p[k] == z;
        }
      }
      SortedSnoc(q, p[n]);
    }
  }

  /** The sort's result is ordered non-decreasingly by `displayOrder`, so a lower
      `displayOrder` is presented first. */
  lemma {:induction false} SortSorted(s: seq<Company>)
    ensures SortedByDisplayOrder(SortByDisplayOrder(s))
    ensures var r := SortByDisplayOrder(s);
              forall i, j :: 0 <= i < |r| && 0 <= j < |r| && r[i].displayOrder < r[j].displayOrder ==> i < j
  {
    if s != [] {
      SortSorted(s[..|s| - 1]);
      InsertSorted(SortByDisplayOrder(s[..|s| - 1]), s[|s| - 1]);
    }
  }

  lemma {:induction false} InsertStable(p: seq<Company>, x: Company, k: int)
    ensures Filter(Insert(p, x), HasDisplayOrder(k)) == Filter(p + [x], HasDisplayOrder(k))
  {
    if !(p == [] || p[|p| - 1].displayOrder <= x.displayOrder) {
      var n := |p| - 1;
      var f := HasDisplayOrder(k);
      InsertStable(p[..n], x, k);
      FilterAppend(Insert(p[..n], x), [p[n]], f);
      FilterAppend(p[..n], [x], f);
      FilterAppend(p[..n], [p[n]], f);
      FilterAppend(p, [x], f);
      assert p == p[..n] + [p[n]];
      // p[n] and x cannot both have displayOrder k, since p[n]'s is larger
    }
  }

  /** Stability: for every key, the companies with that `displayOrder` keep their relative
      order (the `Array.prototype.sort` guarantee of ECMA-262, 10th edition, section 22.1.3.27). */
  lemma {:induction false} SortStable(s: seq<Company>, k: int)
    ensures Filter(SortByDisplayOrder(s), HasDisplayOrder(k)) == Filter(s, HasDisplayOrder(k))
  {
    if s != [] {
      var n := |s| - 1;
      SortStable(s[..n], k);
      InsertStable(SortByDisplayOrder(s[..n]), s[n], k);
      FilterAppend(SortByDisplayOrder(s[..n]), [s[n]], HasDisplayOrder(k));
      FilterAppend(s[..n], [s[n]], HasDisplayOrder(k));
      assert s == s[..n] + [s[n]];
    }
  }

  /** Sorting an already sorted sequence changes nothing. */
  lemma {:induction false} SortOfSorted(s: seq<Company>)
    requires SortedByDisplayOrder(s)
    ensures SortByDisplayOrder(s) == s
  {
    if s != [] {
      var n := |s| - 1;
      var p := s[..n];
      assert SortedByDisplayOrder(p) by {
        forall i, j | 0 <= i < j < |p| ensures p[i].displayOrder <= p[j].displayOrder {
          assert p[i] == s[i] && p[j] == s[j];
        }
      }
      SortOfSorted(p);
      assert n == 0 || p[n - 1].displayOrder <= s[n].displayOrder by {
        if n > 0 {
          assert p[n - 1] == s[n - 1];
        }
      }
      assert Insert(p, s[n]) == p + [s[n]];
      assert p + [s[n]] == s;
    }
  }

  /** Sorting twice gives the order of sorting once. */
  lemma SortIdempotent(s: seq<Company>)
    ensures SortByDisplayOrder(SortByDisplayOrder(s)) == SortByDisplayOrder(s)
  {
    SortSorted(s);
    SortOfSorted(SortByDisplayOrder(s));
  }

  /** Two sequences sorted by `displayOrder` that agree, key by key, on the order of the
      companies with that key are equal. */
  lemma SortedStableUnique(r1: seq<Company>, r2: seq<Company>)
    requires SortedByDisplayOrder(r1) && SortedByDisplayOrder(r2)
    requires forall k :: Filter(r1, HasDisplayOrder(k)) == Filter(r2, HasDisplayOrder(k))
    ensures r1 == r2
    decreases |r1|
  {
    HeadKeyPresent(r1, r2);
    HeadKeyPresent(r2, r1);
    if r1 != [] && r2 != [] {
      forall k ensures Filter(r1[1..], HasDisplayOrder(k)) == Filter(r2[1..], HasDisplayOrder(k)) {
        TailsAgreeAt(r1, r2, k);
      }
      TailsAgreeAt(r1, r2, r1[0].displayOrder);
      SortedStableUnique(r1[1..], r2[1..]);
      assert r1 == [r1[0]] + r1[1..];
      assert r2 == [r2[0]] + r2[1..];
    }
  }

  /** Two sequences that agree on key `k` and start with elements of the same key also agree
      on key `k` after their first elements, and when `k` is that key the first elements are
      equal. */
  lemma TailsAgreeAt(r1: seq<Company>, r2: seq<Company>, k: int)
    requires r1 != [] && r2 != [] && r1[0].displayOrder == r2[0].displayOrder
    requires Filter(r1, HasDisplayOrder(k)) == Filter(r2, HasDisplayOrder(k))
    ensures Filter(r1[1..], HasDisplayOrder(k)) == Filter(r2[1..], HasDisplayOrder(k))
    ensures k == r1[0].displayOrder ==> r1[0] == r2[0]
  {
    var f := HasDisplayOrder(k);
    assert [r1[0]] + r1[1..] == r1;
    assert [r2[0]] + r2[1..] == r2;
    FilterCons(r1[0], r1[1..], f);
    FilterCons(r2[0], r2[1..], f);
    var t1, t2 := Filter(r1[1..], f), Filter(r2[1..], f);
    if k == r1[0].displayOrder {
      assert f(r1[0]) && f(r2[0]);
      assert Filter([r1[0]] + r1[1..], f) == [r1[0]] + t1;
      assert Filter([r2[0]] + r2[1..], f) == [r2[0]] + t2;
      assert [r1[0]] + t1 == [r2[0]] + t2;
      assert ([r1[0]] + t1)[0] == r1[0] && ([r2[0]] + t2)[0] == r2[0];
      assert ([r1[0]] + t1)[1..] == t1 && ([r2[0]] + t2)[1..] == t2;
    } else {
      assert !f(r1[0]) && !f(r2[0]);
      assert Filter([r1[0]] + r1[1..], f) == t1;
      assert Filter([r2[0]] + r2[1..], f) == t2;
    }
  }

  /** When two sequences agree key by key, the key of the first element of one occurs in the
      other, at a position whose key is at least that of the other's first element. */
  lemma HeadKeyPresent(r1: seq<Company>, r2: seq<Company>)
    requires SortedByDisplayOrder(r2)
    requires forall k :: Filter(r1, HasDisplayOrder(k)) == Filter(r2, HasDisplayOrder(k))
    ensures r1 != [] ==> r2 != [] && r2[0].displayOrder <= r1[0].displayOrder
  {
    if r1 != [] {
      var f := HasDisplayOrder(r1[0].displayOrder);
      FilterMembers(r1, f);
      FilterMembers(r2, f);
      assert r1[0] in Filter(r2, f);
      var m :| 0 <= m < |r2| && r2[m] == r1[0];
      assert r2[0].displayOrder <= r2[m].displayOrder;
    }
  }

  /** Any sorted and stable rearrangement of `s` is `SortByDisplayOrder(s)`: whichever stable
      algorithm the engine runs, the resulting order is this one. */
  lemma SortIsTheStableSort(s: seq<Company>, r: seq<Company>)
    requires SortedByDisplayOrder(r)
    requires forall k :: Filter(r, HasDisplayOrder(k)) == Filter(s, HasDisplayOrder(k))
    ensures r == SortByDisplayOrder(s)
  {
    SortSorted(s);
    forall k ensures Filter(r, HasDisplayOrder(k)) == Filter(SortByDisplayOrder(s), HasDisplayOrder(k)) {
      SortStable(s, k);
    }
    SortedStableUnique(r, SortByDisplayOrder(s));
  }

  /** Three companies with display orders 3, 1 and 2 come back in the order 1, 2, 3. */
  lemma SortExample(a: Company, b: Company, c: Company)
    requires a.displayOrder == 3 && b.displayOrder == 1 && c.displayOrder == 2
    ensures SortByDisplayOrder([a, b, c]) == [b, c, a]
  {
    assert [a, b, c][..2] == [a, b];
    assert [a, b][..1] == [a];
    assert [a][..0] == [];
    assert SortByDisplayOrder([a]) == [a];
    assert [a][..0] == [];
    assert Insert([a], b) == Insert([], b) + [a] == [b, a];
    assert SortByDisplayOrder([a, b]) == [b, a];
    assert [b, a][..1] == [b];
    assert Insert([b], c) == [b, c];
    assert Insert([b, a], c) == Insert([b], c) + [a];
  }

  // ---------------------------------------------------------------------------------------
  // The in-place sort
  // ---------------------------------------------------------------------------------------

  /** `Insert(p, x)` places `x` at the first position `j` after which only larger keys follow. */
  lemma {:induction false} InsertAt(p: seq<Company>, x: Company, j: nat)
    requires j <= |p|
    requires j == 0 || p[j - 1].displayOrder <= x.displayOrder
    requires forall k :: j <= k < |p| ==> p[k].displayOrder > x.displayOrder
    ensures Insert(p, x) == p[..j] + [x] + p[j..]
  {
    if j < |p| {
      var n := |p| - 1;
      InsertAt(p[..n], x, j);
      assert p[..n][..j] == p[..j];
      assert p[..n][j..] + [p[n]] == p[j..];
    } else {
      assert p[..j] == p;
    }
  }

  /** One insertion step: moves `a[i]` left past the larger keys of the sorted prefix. */
  method InsertInPlace(a: array<Company>, i: nat)
    requires i < a.Length
    modifies a
    ensures a[..i + 1] == Insert(old(a[..i]), old(a[i]))
    ensures a[i + 1..] == old(a[i + 1..])
  {
    ghost var p := a[..i];
    var x := a[i];
    var j := i;
    while j > 0 && a[j - 1].displayOrder > x.displayOrder
      invariant 0 <= j <= i
      invariant forall k :: 0 <= k < j ==> a[k] == p[k]
      invariant forall k :: j < k <= i ==> a[k] == p[k - 1]
      invariant a[i + 1..] == old(a[i + 1..])
      invariant forall k :: j <= k < i ==> p[k].displayOrder > x.displayOrder
    {
      a[j] := a[j - 1];
      j := j - 1;
    }
    a[j] := x;
    InsertAt(p, x, j);
    assert a[..i + 1] == p[..j] + [x] + p[j..] by {
      forall k | 0 <= k <= i ensures a[..i + 1][k] == (p[..j] + [x] + p[j..])[k] {
        if k < j {
          assert a[k] == p[k];
        } else if j < k {
          assert a[k] == p[k - 1];
        }
      }
    }
  }

  /** Sorts `a` in place, stably, ascending by `displayOrder`. */
  method SortInPlace(a: array<Company>)
    modifies a
    ensures a[..] == SortByDisplayOrder(old(a[..]))
  {
    ghost var s := a[..];
    var i := 0;
    while i < a.Length
      invariant 0 <= i <= a.Length
      invariant a[..i] == SortByDisplayOrder(s[..i])
      invariant a[i..] == s[i..]
    {
      ghost var before := a[..];
      InsertInPlace(a, i);
      assert before[..i] == SortByDisplayOrder(s[..i]) && before[i] == s[i];
      assert s[..i + 1][..i] == s[..i];
      assert a[i + 1..] == s[i + 1..];
      i := i + 1;
    }
    assert s[..a.Length] == s;
  }

  // ---------------------------------------------------------------------------------------
  // The data object and its accessors
  // ---------------------------------------------------------------------------------------

  /** The module-level `data` object; its `companies` array is shared by every accessor and
      reordered in place by `GetAllCompanies`. */
  class PortfolioStore {
    const version: string
    const lastUpdated: string
    const companies: array<Company>

    /** Loads the data document. */
    constructor (d: PortfolioData)
      ensures version == d.version && lastUpdated == d.lastUpdated
      ensures fresh(companies) && companies[..] == d.companies
    {
      version := d.version;
      lastUpdated := d.lastUpdated;
      companies := new Company[|d.companies|](i requires 0 <= i < |d.companies| => d.companies[i]);
    }

    /** `getAllCompanies`: sorts the stored array in place and returns it. */
    method GetAllCompanies() returns (r: seq<Company>)
      modifies companies
      ensures companies[..] == SortByDisplayOrder(old(companies[..]))
      ensures r == companies[..] && |r| == GetCompanyCount()
    {
      SortInPlace(companies);
      r := companies[..];
    }

    /** `getActiveCompanies`: the sorted companies that are not coming soon, in sorted order. */
    method GetActiveCompanies() returns (r: seq<Company>)
      modifies companies
      ensures companies[..] == SortByDisplayOrder(old(companies[..]))
      ensures r == Filter(companies[..], IsActive)
    {
      var all := GetAllCompanies();
      r := Filter(all, IsActive);
    }

    /** `getCompaniesByFocus`: the sorted companies in focus area `f`, in sorted order. */
    method GetCompaniesByFocus(f: string) returns (r: seq<Company>)
      modifies companies
      ensures companies[..] == SortByDisplayOrder(old(companies[..]))
      ensures r == Filter(companies[..], HasFocus(f))
    {
      var all := GetAllCompanies();
      r := Filter(all, HasFocus(f));
    }

    /** `getCompanyById`: the first company, in the array's current order, with id `id`, or
        None; it never fails. */
    function GetCompanyById(id: string): (r: Option<Company>)
      reads companies
      ensures r.None? <==> forall i :: 0 <= i < companies.Length ==> companies[i].id != id
      ensures r.Some? ==> exists i :: 0 <= i < companies.Length && companies[i] == r.value
                                     && r.value.id == id
                                     && forall j :: 0 <= j < i ==> companies[j].id != id
    {
      Find(companies[..], HasId(id))
    }

    /** `getCompanyCount`: the number of stored companies. */
    function GetCompanyCount(): nat {
      companies.Length
    }

    /** `getLastUpdated`: the document's timestamp. */
    function GetLastUpdated(): string {
      lastUpdated
    }
  }

  /** Holds of the companies with id `id` (the `getCompanyById` predicate). */
  function HasId(id: string): Company -> bool {
    (c: Company) => c.id == id
  }

  /** The result of `getActiveCompanies` and `getCompaniesByFocus` is itself sorted. */
  lemma {:induction false} FilterKeepsSorted(s: seq<Company>, p: Company -> bool)
    requires SortedByDisplayOrder(s)
    ensures SortedByDisplayOrder(Filter(s, p))
  {
    if s != [] {
      FilterKeepsSorted(s[1..], p);
      var rest := Filter(s[1..], p);
      FilterMembers(s[1..], p);
      forall y | y in rest ensures s[0].displayOrder <= y.displayOrder {
        var m :| 0 <= m < |s[1..]| && s[1..][m] == y;
        assert s[m + 1] == y;
      }
    }
  }

  /** With unique ids, lookup finds the one company with that id, and so returns the same
      company whether or not the array has been sorted. */
  lemma LookupUnambiguous(s: seq<Company>, c: Company)
    requires UniqueIds(s)
    requires c in s
    ensures Find(s, HasId(c.id)) == Some(c)
    ensures Find(SortByDisplayOrder(s), HasId(c.id)) == Some(c)
  {
    SortPermutes(s);
    assert c in multiset(SortByDisplayOrder(s));
    var r := Find(SortByDisplayOrder(s), HasId(c.id));
    assert r.value in multiset(s);
  }
}
