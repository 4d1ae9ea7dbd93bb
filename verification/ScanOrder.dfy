/**
  The order of the listing: the provider lists a tree in any order and the sort leaves entries of equal paths in any
  order. Complete reports do not depend on either; and exactly when no report does.
 */
module ScanOrder {
  import opened Records
  import opened Text
  import opened Scan

  // ---- the order of the listing ----

  predicate Sorted(es: seq<Entry>) { forall i, j | 0 <= i < j < |es| :: !Less(es[j].path, es[i].path) }

  /** What any sort by path makes of a listing; entries with equal paths may come in any order. */
  predicate SortOf(listing: seq<Entry>, es: seq<Entry>) { multiset(es) == multiset(listing) && Sorted(es) }

  lemma {:induction false} FilterCounts(r: Repo, es: seq<Entry>, e: Entry)
    ensures multiset(Filter(r, es))[e] == if Eligible(r, e) then multiset(es)[e] else 0
  {
    if es != [] {
      FilterCounts(r, es[1..], e);
      assert es == [es[0]] + es[1..];
      assert multiset(es) == multiset{es[0]} + multiset(es[1..]);
    }
  }

  lemma {:induction false} FilterSorted(r: Repo, es: seq<Entry>)
    requires Sorted(es)
    ensures Sorted(Filter(r, es)) && forall e | e in Filter(r, es) :: e in es
  {
    if es != [] {
      assert Sorted(es[1..]) by { assert forall i | 0 <= i < |es[1..]| :: es[1..][i] == es[i + 1]; }
      FilterSorted(r, es[1..]);
      var rest := Filter(r, es[1..]);
      forall i, j | 0 <= i < j < |Filter(r, es)| ensures !Less(Filter(r, es)[j].path, Filter(r, es)[i].path) {
        if Eligible(r, es[0]) {
          assert Filter(r, es)[j] == rest[j - 1];
          if i == 0 {
            assert rest[j - 1] in es[1..];
            var k :| 0 <= k < |es[1..]| && es[1..][k] == rest[j - 1];
            assert es[k + 1] == rest[j - 1];
          } else {
            assert Filter(r, es)[i] == rest[i - 1];
          }
        }
      }
      assert forall e | e in rest :: e in es;
    }
  }

  lemma HeadIsLeast(es: seq<Entry>, e: Entry)
    requires es != [] && Sorted(es) && Distinct(es) && e in es && e != es[0]
    ensures Less(es[0].path, e.path)
  {
    var k :| 0 <= k < |es| && es[k] == e;
    LessTotal(es[0].path, e.path);
  }

  /** There is one way to sort entries with distinct paths. */
  lemma {:induction false} SortUnique(a: seq<Entry>, b: seq<Entry>)
    requires multiset(a) == multiset(b) && Sorted(a) && Sorted(b) && Distinct(a) && Distinct(b)
    ensures a == b
    decreases |a|
  {
    hide Sorted, Distinct, Less;
    assert |a| == |multiset(a)| == |multiset(b)| == |b|;
    if a != [] {
      assert a[0] in multiset(a) && b[0] in multiset(b);
      HeadsAgree(a, b);
      Tail(a);
      Tail(b);
      SortUnique(a[1..], b[1..]);
      assert a == [a[0]] + a[1..] && b == [b[0]] + b[1..];
    }
  }

  lemma HeadsAgree(a: seq<Entry>, b: seq<Entry>)
    requires a != [] && b != [] && Sorted(a) && Sorted(b) && Distinct(a) && b[0] in a && a[0] in b
    ensures a[0] == b[0]
  {
    hide Less;
    if a[0] != b[0] { HeadIsLeast(a, b[0]); }
  }

  lemma Tail(a: seq<Entry>)
    requires a != [] && Sorted(a) && Distinct(a)
    ensures Sorted(a[1..]) && Distinct(a[1..]) && multiset(a[1..]) == multiset(a) - multiset{a[0]}
  {
    assert a == [a[0]] + a[1..];
    assert forall i | 0 <= i < |a[1..]| :: a[1..][i] == a[i + 1];
  }

  lemma {:induction false} CountOne(a: seq<Entry>, e: Entry)
    requires Distinct(a)
    ensures multiset(a)[e] <= 1
  {
    if a != [] {
      assert a == [a[0]] + a[1..];
      assert forall i | 0 <= i < |a[1..]| :: a[1..][i] == a[i + 1];
      CountOne(a[1..], e);
      if e == a[0] && e in multiset(a[1..]) {
        assert false;
      }
    }
  }

  /** Having distinct paths does not depend on the order. */
  lemma DistinctOfBag(a: seq<Entry>, b: seq<Entry>)
    requires multiset(a) == multiset(b) && Distinct(a)
    ensures Distinct(b)
  {
    forall i, j | 0 <= i < j < |b| ensures b[i].path != b[j].path {
      if b[i].path == b[j].path {
        assert b[i] in multiset(b) && b[j] in multiset(b);
        assert b[i] in a && b[j] in a;
        var k :| 0 <= k < |a| && a[k] == b[i];
        var l :| 0 <= l < |a| && a[l] == b[j];
        assert k == l;
        CountOne(a, b[i]);
        TwiceIn(b, i, j);
        assert false;
      }
    }
  }

  lemma TwiceIn(b: seq<Entry>, i: nat, j: nat)
    requires i < j < |b| && b[i] == b[j]
    ensures multiset(b)[b[i]] >= 2
  {
    assert b == b[..i] + [b[i]] + b[i + 1..j] + [b[j]] + b[j + 1..];
  }

  /**
    Whether a scan is complete, and everything a complete scan reports, is independent of the order in which the
    provider lists the tree and of how the sort treats equal paths; so is any report on distinct eligible paths.
   */
  lemma OrderIndependent(r: Repo, q: Query, listing: seq<Entry>, other: seq<Entry>, a: seq<Entry>, b: seq<Entry>)
    requires multiset(listing) == multiset(other) && SortOf(listing, a) && SortOf(other, b)
    ensures Distinct(Filter(r, a)) ==> ScanAll(r, q, a) == ScanAll(r, q, b)
    ensures ScanAll(r, q, a).complete ==> ScanAll(r, q, a) == ScanAll(r, q, b)
    ensures ScanAll(r, q, a).complete == ScanAll(r, q, b).complete
  {
    hide ScanFrom, Affordable, Total, Sorted, Distinct, Filter;
    forall e ensures multiset(Filter(r, a))[e] == multiset(Filter(r, b))[e] {
      FilterCounts(r, a, e);
      FilterCounts(r, b, e);
    }
    assert multiset(Filter(r, a)) == multiset(Filter(r, b));
    FilterSorted(r, a);
    FilterSorted(r, b);
    ScanFilters(r, q, a, {}, ZERO);
    ScanFilters(r, q, b, {}, ZERO);
    CompleteExactly(r, q, a);
    CompleteExactly(r, q, b);
    if Distinct(Filter(r, a)) {
      DistinctOfBag(Filter(r, a), Filter(r, b));
      SortUnique(Filter(r, a), Filter(r, b));
    }
    if Distinct(Filter(r, b)) { DistinctOfBag(Filter(r, b), Filter(r, a)); }
  }

  // ---- exactly when a report is the same for every sort ----

  /**
    The scan stops before the first repeated path, or all entries of that path look the same to it at that point.
    `es` are the eligible entries in sorted order.
   */
  predicate StableFrom(r: Repo, q: Query, es: seq<Entry>, t: Tally)
    decreases |es|
  {
    if |es| <= 1 then true
    else if es[0].path == es[1].path then
      forall k | 0 <= k < |es| && es[k].path == es[0].path :: LookAt(r, q, es[k], t) == LookAt(r, q, es[0], t)
    else match LookAt(r, q, es[0], t)
      case Stop(_, _, _) => true
      case Go(u) => StableFrom(r, q, es[1..], u)
  }

  lemma SameBag(a: seq<Entry>, b: seq<Entry>)
    requires multiset(a) == multiset(b)
    ensures |a| == |b| && (forall e :: e in a <==> e in b)
  {
    assert |a| == |multiset(a)| == |multiset(b)| == |b|;
    assert forall e :: e in a <==> e in multiset(a);
    assert forall e :: e in b <==> e in multiset(b);
  }

  lemma SortedHead(es: seq<Entry>, e: Entry)
    requires es != [] && Sorted(es) && e in es
    ensures es[0].path == e.path || Less(es[0].path, e.path)
  {
    var k :| 0 <= k < |es| && es[k] == e;
    LessTotal(es[0].path, e.path);
  }

  /** Sorts of the same entries begin with the same path. */
  lemma SameHead(a: seq<Entry>, b: seq<Entry>)
    requires a != [] && multiset(a) == multiset(b) && Sorted(a) && Sorted(b)
    ensures b != [] && a[0].path == b[0].path && b[0] in a
  {
    hide Less;
    SameBag(a, b);
    SortedHead(a, b[0]);
    SortedHead(b, a[0]);
    LessTotal(a[0].path, b[0].path);
  }

  lemma SortedTail(es: seq<Entry>)
    requires es != [] && Sorted(es)
    ensures Sorted(es[1..]) && multiset(es[1..]) == multiset(es) - multiset{es[0]}
  {
    hide Less;
    assert es == [es[0]] + es[1..];
    assert forall i | 0 <= i < |es[1..]| :: es[1..][i] == es[i + 1];
  }

  /** If the first path is not repeated at once, it is not repeated at all. */
  lemma TailApart(es: seq<Entry>, k: nat)
    requires Sorted(es) && 0 < k < |es| && es[0].path != es[1].path
    ensures es[k].path != es[0].path
  {
    hide Less;
    SortedTail(es);
    assert es[1..][0] == es[1] && es[1..][k - 1] == es[k];
    SortedHead(es[1..], es[k]);
    assert !Less(es[1].path, es[0].path);
  }

  /** If the first path is not repeated, it is the path of the first entry alone. */
  lemma HeadAlone(es: seq<Entry>, e: Entry)
    requires Sorted(es) && es != [] && (|es| > 1 ==> es[0].path != es[1].path) && e in es && e.path == es[0].path
    ensures e == es[0]
  {
    hide Less;
    var k :| 0 <= k < |es| && es[k] == e;
    if k > 0 { TailApart(es, k); }
  }

  lemma SecondToo(a: seq<Entry>, b: seq<Entry>)
    requires multiset(a) == multiset(b) && Sorted(a) && Sorted(b) && |a| > 1 && a[0].path == a[1].path
    ensures |b| > 1 && b[0].path == b[1].path == a[0].path
  {
    SameBag(a, b);
    SameHead(a, b);
    if b[0].path != b[1].path {
      assert a[0] in b && a[1] in b;
      HeadAlone(b, a[0]);
      HeadAlone(b, a[1]);
      assert multiset(b)[b[0]] == multiset(a)[b[0]];
      TwiceIn(a, 0, 1);
      OnceAtHead(b);
    }
  }

  lemma OnceAtHead(es: seq<Entry>)
    requires Sorted(es) && |es| > 1 && es[0].path != es[1].path
    ensures multiset(es)[es[0]] == 1
  {
    SortedTail(es);
    forall k | 0 <= k < |es[1..]| ensures es[1..][k] != es[0] { TailApart(es, k + 1); }
    assert es[0] !in es[1..] && es[0] in multiset(es);
    assert multiset(es[1..])[es[0]] == 0;
  }

  /** Two entries of one path, the first repeated one, end the scan with what the first of them looked like. */
  function Ended(look: Look): Report {
    match look
    case Stop(u, code, failed) => Report(u, false, code, failed)
    case Go(u) => Report(u, false, "duplicate_tree_path", false)
  }

  lemma EndsAtRepeat(r: Repo, q: Query, es: seq<Entry>, seen: set<string>, t: Tally)
    requires AllEligible(r, es) && Unseen(es, seen) && |es| > 1 && es[0].path == es[1].path
    ensures ScanFrom(r, q, es, seen, t) == Ended(LookAt(r, q, es[0], t))
  {
    hide LookAt;
    assert es[1..][0] == es[1];
  }

  lemma EndedInjective(r: Repo, q: Query, e: Entry, f: Entry, t: Tally)
    requires Ended(LookAt(r, q, e, t)) == Ended(LookAt(r, q, f, t))
    ensures LookAt(r, q, e, t) == LookAt(r, q, f, t)
  {}

  lemma TailFits(r: Repo, es: seq<Entry>, seen: set<string>)
    requires es != [] && AllEligible(r, es) && Unseen(es, seen) && Sorted(es) && (|es| > 1 ==> es[0].path != es[1].path)
    ensures AllEligible(r, es[1..]) && Unseen(es[1..], seen + {es[0].path})
  {
    hide Less, Eligible;
    forall k | 0 <= k < |es[1..]| ensures es[1..][k] == es[k + 1] && es[1..][k].path !in seen + {es[0].path} {
      TailApart(es, k + 1);
    }
  }

  /** A stable scan reports the same for every sort of its entries. */
  lemma {:induction false} StableAgrees(r: Repo, q: Query, a: seq<Entry>, b: seq<Entry>, seen: set<string>, t: Tally)
    requires AllEligible(r, a) && AllEligible(r, b) && Unseen(a, seen) && Unseen(b, seen)
    requires multiset(a) == multiset(b) && Sorted(a) && Sorted(b) && StableFrom(r, q, a, t)
    ensures ScanFrom(r, q, a, seen, t) == ScanFrom(r, q, b, seen, t)
    decreases |a|
  {
    hide LookAt, Less, Sorted, AllEligible, Unseen;
    SameBag(a, b);
    if a != [] {
      SameHead(a, b);
      if |a| > 1 && a[0].path == a[1].path {
        SecondToo(a, b);
        EndsAtRepeat(r, q, a, seen, t);
        EndsAtRepeat(r, q, b, seen, t);
        var k :| 0 <= k < |a| && a[k] == b[0];
      } else {
        HeadAlone(a, b[0]);
        HeadFits(r, a, seen);
        SortedTail(a);
        SortedTail(b);
        TailFits(r, a, seen);
        if |b| > 1 && b[0].path == b[1].path { SecondToo(b, a); }
        TailFits(r, b, seen);
        HeadFits(r, b, seen);
        match LookAt(r, q, a[0], t)
        case Stop(_, _, _) =>
        case Go(u) =>
          if |a| == 1 { assert a[1..] == [] && b[1..] == []; }
          StableAgrees(r, q, a[1..], b[1..], seen + {a[0].path}, u);
      }
    }
  }

  lemma HeadFits(r: Repo, es: seq<Entry>, seen: set<string>)
    requires es != [] && AllEligible(r, es) && Unseen(es, seen)
    ensures Eligible(r, es[0]) && es[0].path !in seen
  {}

  function Swap(es: seq<Entry>, i: nat, k: nat): seq<Entry>
    requires i < k < |es|
  {
    es[i := es[k]][k := es[i]]
  }

  /** An unstable scan has two entries of one path whose exchange changes the report. */
  lemma {:induction false} UnstableDiffers(r: Repo, q: Query, es: seq<Entry>, seen: set<string>,
      t: Tally) returns (i: nat, k: nat)
    requires AllEligible(r, es) && Unseen(es, seen) && Sorted(es) && !StableFrom(r, q, es, t)
    ensures i < k < |es| && es[i].path == es[k].path
    ensures ScanFrom(r, q, Swap(es, i, k), seen, t) != ScanFrom(r, q, es, seen, t)
    decreases |es|
  {
    hide LookAt, Less, Sorted, AllEligible, Unseen;
    if es[0].path == es[1].path {
      k :| 0 <= k < |es| && es[k].path == es[0].path && LookAt(r, q, es[k], t) != LookAt(r, q, es[0], t);
      i := 0;
      var swapped := Swap(es, 0, k);
      SwapFits(r, es, seen, 0, k);
      EndsAtRepeat(r, q, es, seen, t);
      EndsAtRepeat(r, q, swapped, seen, t);
      if Ended(LookAt(r, q, es[k], t)) == Ended(LookAt(r, q, es[0], t)) { EndedInjective(r, q, es[k], es[0], t); }
    } else {
      HeadFits(r, es, seen);
      TailFits(r, es, seen);
      SortedTail(es);
      var u := LookAt(r, q, es[0], t).tally;
      var seen' := seen + {es[0].path};
      i, k := UnstableDiffers(r, q, es[1..], seen', u);
      var tail := Swap(es[1..], i, k);
      i, k := i + 1, k + 1;
      assert Swap(es, i, k)[0] == es[0] && Swap(es, i, k)[1..] == tail;
    }
  }

  lemma SwapFits(r: Repo, es: seq<Entry>, seen: set<string>, i: nat, k: nat)
    requires i < k < |es| && AllEligible(r, es) && Unseen(es, seen)
    ensures AllEligible(r, Swap(es, i, k)) && Unseen(Swap(es, i, k), seen)
  {}

  lemma {:induction false} FilterConcat(r: Repo, a: seq<Entry>, b: seq<Entry>)
    ensures Filter(r, a + b) == Filter(r, a) + Filter(r, b)
  {
    hide Eligible;
    if a == [] {
      assert a + b == b;
    } else {
      assert (a + b)[0] == a[0] && (a + b)[1..] == a[1..] + b;
      FilterConcat(r, a[1..], b);
    }
  }

  /** Where the i-th eligible entry stands. */
  lemma {:induction false} FilterAt(r: Repo, es: seq<Entry>, i: nat) returns (p: nat)
    requires i < |Filter(r, es)|
    ensures p < |es| && es[p] == Filter(r, es)[i] && Eligible(r, es[p])
    ensures Filter(r, es[..p]) == Filter(r, es)[..i] && Filter(r, es[p + 1..]) == Filter(r, es)[i + 1..]
  {
    hide Eligible, Filter;
    if es == [] { FilterNone(r); }
    FilterHead(r, es);
    FilterOne(r, es[0]);
    var head, tail := Filter(r, [es[0]]), Filter(r, es[1..]);
    if Eligible(r, es[0]) && i == 0 {
      p := 0;
      FilterNone(r);
      assert es[..0] == [] && Filter(r, es)[..0] == [];
    } else {
      var j := i - |head|;
      var n := FilterAt(r, es[1..], j);
      p := n + 1;
      assert es[..p] == [es[0]] + es[1..][..n] && es[p + 1..] == es[1..][n + 1..];
      FilterConcat(r, [es[0]], es[1..][..n]);
      assert head + tail[..j] == (head + tail)[..i] && tail[j + 1..] == (head + tail)[i + 1..];
    }
  }

  lemma FilterNone(r: Repo)
    ensures Filter(r, []) == []
  {}

  lemma FilterHead(r: Repo, es: seq<Entry>)
    ensures es != [] ==> Filter(r, es) == Filter(r, [es[0]]) + Filter(r, es[1..])
  {
    if es != [] {
      assert es == [es[0]] + es[1..];
      FilterConcat(r, [es[0]], es[1..]);
    }
  }

  lemma Slices(f: seq<Entry>, i: nat, k: nat)
    requires i < k < |f|
    ensures f[i + 1..][..k - i - 1] == f[i + 1..k]
    ensures f[i + 1..][k - i..] == f[k + 1..]
    ensures f[i + 1..][k - i - 1] == f[k]
    ensures Swap(f, i, k) == f[..i] + [f[k]] + f[i + 1..k] + [f[i]] + f[k + 1..]
  {}

  /** Exchanging two eligible entries of a listing exchanges them among the eligible ones. */
  lemma FilterSwap(r: Repo, es: seq<Entry>, i: nat, k: nat) returns (p: nat, m: nat)
    requires i < k < |Filter(r, es)|
    ensures p < m < |es| && es[p] == Filter(r, es)[i] && es[m] == Filter(r, es)[k]
    ensures Filter(r, Swap(es, p, m)) == Swap(Filter(r, es), i, k)
  {
    hide Eligible, Filter, Swap;
    p := FilterAt(r, es, i);
    var rest := es[p + 1..];
    var n := FilterAt(r, rest, k - i - 1);
    m := p + 1 + n;
    var (x, y) := (es[p], es[m]);
    Slices(es, p, m);
    assert rest[..n] == es[p + 1..m] && rest[n + 1..] == es[m + 1..];
    FilterOne(r, x);
    FilterOne(r, y);
    FilterConcat(r, es[..p], [y]);
    FilterConcat(r, es[..p] + [y], rest[..n]);
    FilterConcat(r, es[..p] + [y] + rest[..n], [x]);
    FilterConcat(r, es[..p] + [y] + rest[..n] + [x], es[m + 1..]);
    var f := Filter(r, es);
    Slices(f, i, k);
  }

  lemma FilterOne(r: Repo, e: Entry)
    ensures Filter(r, [e]) == if Eligible(r, e) then [e] else []
  {
    assert [e][1..] == [];
  }

  lemma SwapSorts(es: seq<Entry>, p: nat, m: nat)
    requires p < m < |es| && es[p].path == es[m].path && Sorted(es)
    ensures Sorted(Swap(es, p, m)) && multiset(Swap(es, p, m)) == multiset(es)
  {
    hide Less;
    var t := Swap(es, p, m);
    forall i | 0 <= i < |es| ensures t[i].path == es[i].path {}
  }

  /**
    Every sort of a listing gives one report, if and only if the scan stops before the first repeated eligible path
    or all the entries of that path look the same to it when it gets there.
   */
  lemma OrderIndependentExactly(r: Repo, q: Query, listing: seq<Entry>, a: seq<Entry>)
    requires SortOf(listing, a)
    ensures (forall b :: SortOf(listing, b) ==> ScanAll(r, q, b) == ScanAll(r, q, a)) <==> StableFrom(r, q, Filter(r, a), ZERO)
  {
    hide ScanFrom, StableFrom, Sorted, Filter, Swap;
    var es := Filter(r, a);
    ScanFilters(r, q, a, {}, ZERO);
    FilterSorted(r, a);
    if StableFrom(r, q, es, ZERO) {
      forall b | SortOf(listing, b) ensures ScanAll(r, q, b) == ScanAll(r, q, a) {
        ScanFilters(r, q, b, {}, ZERO);
        FilterSorted(r, b);
        FilterBags(r, a, b);
        StableAgrees(r, q, es, Filter(r, b), {}, ZERO);
      }
    } else {
      var i, k := UnstableDiffers(r, q, es, {}, ZERO);
      var p, m := FilterSwap(r, a, i, k);
      var b := Swap(a, p, m);
      SwapSorts(a, p, m);
      ScanFilters(r, q, b, {}, ZERO);
      assert SortOf(listing, b) && ScanAll(r, q, b) != ScanAll(r, q, a);
    }
  }

  lemma FilterBags(r: Repo, a: seq<Entry>, b: seq<Entry>)
    requires multiset(a) == multiset(b)
    ensures multiset(Filter(r, a)) == multiset(Filter(r, b))
  {
    hide Filter, Eligible;
    forall e ensures multiset(Filter(r, a))[e] == multiset(Filter(r, b))[e] {
      FilterCounts(r, a, e);
      FilterCounts(r, b, e);
    }
  }

  lemma ScanAgain(r: Repo, q: Query, e: Entry, seen: set<string>, t: Tally)
    requires Eligible(r, e) && e.path in seen
    ensures ScanFrom(r, q, [e], seen, t).tally == t
  {}

  /** An incomplete report of duplicate paths does depend on the order: a file and a submodule of the same name. */
  lemma DuplicatesDepend()
    ensures var file := Entry("a", "blob", "100644");
      var submodule := Entry("a", "commit", "160000");
      var r := Repo(p => true, p => true, p => Got(true, true, 0, Some("")), s => true, s => "");
      var q := Query("scan", "x", None);
      && SortOf([file, submodule], [file, submodule]) && SortOf([file, submodule], [submodule, file])
      && ScanAll(r, q, [file, submodule]) != ScanAll(r, q, [submodule, file])
  {
    var file := Entry("a", "blob", "100644");
    var submodule := Entry("a", "commit", "160000");
    var r := Repo(p => true, p => true, p => Got(true, true, 0, Some("")), s => true, s => "");
    var q := Query("scan", "x", None);
    LessTotal("a", "a");
    assert [file, submodule][1..] == [submodule] && [submodule, file][1..] == [file];
    assert Count("", "x") == 0;
    assert LookAt(r, q, file, ZERO).tally.scanned == 1;
    ScanAgain(r, q, submodule, {} + {"a"}, LookAt(r, q, file, ZERO).tally);
    assert ScanAll(r, q, [file, submodule]).tally.scanned == 1;
    assert LookAt(r, q, submodule, ZERO).tally == ZERO.(excluded := 1);
    ScanAgain(r, q, file, {} + {"a"}, ZERO.(excluded := 1));
    assert ScanAll(r, q, [submodule, file]).tally.scanned == 0;
  }
}
