/**
  The campaign scan: one pass over the sorted tree listing of a commit, with budgets, and what a complete scan says
  about the repository. Provider reads are functions of the path, because the commit is fixed.
 */
module Scan {
  import opened Records
  import opened Text
  import opened Replacement

  const MAX_FILES := 1000
  const MAX_BYTES := 20 * 0x10_0000
  const MAX_MATCHES := 100000

  datatype Entry = Entry(path: string, kind: string, mode: string)

  datatype Fetch = NoAnswer | Got(sameFile: bool, base64: bool, size: int, raw: Option<string>)

  datatype Repo = Repo(
    inScope: string -> bool, safe: string -> bool, fetch: string -> Fetch, isText: string -> bool, digest: string -> string)

  datatype Query = Query(mode: string, search: string, regex: Option<string -> nat>)

  datatype Tally = Tally(scanned: nat, excluded: nat, bytes: nat, matches: nat, files: seq<CampaignFile>)

  datatype Report = Report(tally: Tally, complete: bool, code: string, failed: bool)

  const ZERO := Tally(0, 0, 0, 0, [])

  function Found(q: Query, raw: string): nat {
    if q.regex.Some? then q.regex.value(raw) else if q.search == "" then 0 else Count(raw, q.search)
  }

  predicate Eligible(r: Repo, e: Entry) { r.inScope(e.path) && e.kind != "tree" }

  predicate Regular(r: Repo, e: Entry) {
    e.kind == "blob" && (e.mode == "100644" || e.mode == "100755") && r.safe(e.path)
  }

  datatype Look = Stop(tally: Tally, code: string, failed: bool) | Go(tally: Tally)

  /** One eligible entry that was not seen before. */
  function LookAt(r: Repo, q: Query, e: Entry, t: Tally): Look {
    if !Regular(r, e) then Go(t.(excluded := t.excluded + 1))
    else if t.scanned >= MAX_FILES || t.bytes >= MAX_BYTES then Stop(t, "scan_budget_exceeded", false)
    else match r.fetch(e.path)
      case NoAnswer => Stop(t, "", true)
      case Got(sameFile, base64, size, raw) =>
        if !sameFile then Stop(t, "file_identity_changed", false)
        else if !base64 || size > MAX_FILE then Stop(t, "file_scan_unavailable", false)
        else if raw.None? || |raw.value| != size then Stop(t, "file_content_invalid", false)
        else if !r.isText(raw.value) then Go(t.(excluded := t.excluded + 1))
        else
          var n := Found(q, raw.value);
          var u := t.(scanned := t.scanned + 1, bytes := t.bytes + |raw.value|, matches := t.matches + n);
          if u.matches > MAX_MATCHES then Stop(u, "match_budget_exceeded", false)
          else if n > 0 || q.mode == "docs" then
            Go(u.(files := u.files + [CampaignFile(e.path, r.digest(raw.value), n, |raw.value|)]))
          else Go(u)
  }

  function ScanFrom(r: Repo, q: Query, es: seq<Entry>, seen: set<string>, t: Tally): Report
    decreases |es|
  {
    if es == [] then Report(t, true, "", false)
    else if !Eligible(r, es[0]) then ScanFrom(r, q, es[1..], seen, t)
    else if es[0].path in seen then Report(t, false, "duplicate_tree_path", false)
    else match LookAt(r, q, es[0], t)
      case Stop(u, code, failed) => Report(u, false, code, failed)
      case Go(u) => ScanFrom(r, q, es[1..], seen + {es[0].path}, u)
  }

  function ScanAll(r: Repo, q: Query, es: seq<Entry>): Report { ScanFrom(r, q, es, {}, ZERO) }

  /** The scan of the listing after it was sorted by path. */
  method ScanCampaign(r: Repo, q: Query, es: seq<Entry>) returns (out: Report)
    ensures out == ScanAll(r, q, es)
  {
    hide LookAt;
    var tally, seen := ZERO, {};
    assert es[0..] == es;
    for i := 0 to |es|
      invariant ScanFrom(r, q, es[i..], seen, tally) == ScanAll(r, q, es)
    {
      var e := es[i];
      assert es[i..][0] == e && es[i..][1..] == es[i + 1..];
      if !Eligible(r, e) { continue; }
      if e.path in seen { return Report(tally, false, "duplicate_tree_path", false); }
      var look := LookAt(r, q, e, tally);
      if look.Stop? { return Report(look.tally, false, look.code, look.failed); }
      seen, tally := seen + {e.path}, look.tally;
    }
    return Report(tally, true, "", false);
  }

  // ---- what a listing contains ----

  function Filter(r: Repo, es: seq<Entry>): seq<Entry> {
    if es == [] then [] else (if Eligible(r, es[0]) then [es[0]] else []) + Filter(r, es[1..])
  }

  predicate Distinct(es: seq<Entry>) { forall i, j | 0 <= i < j < |es| :: es[i].path != es[j].path }

  predicate Unseen(es: seq<Entry>, seen: set<string>) { forall i | 0 <= i < |es| :: es[i].path !in seen }

  predicate AllEligible(r: Repo, es: seq<Entry>) { forall i | 0 <= i < |es| :: Eligible(r, es[i]) }

  predicate Readable(r: Repo, e: Entry) {
    var f := r.fetch(e.path);
    f.Got? && f.sameFile && f.base64 && f.raw.Some? && |f.raw.value| == f.size <= MAX_FILE
  }

  function Raw(r: Repo, e: Entry): string {
    var f := r.fetch(e.path);
    if f.Got? && f.raw.Some? then f.raw.value else ""
  }

  predicate Included(r: Repo, e: Entry) { Regular(r, e) && r.isText(Raw(r, e)) }

  function Listed(r: Repo, q: Query, e: Entry): CampaignFile {
    CampaignFile(e.path, r.digest(Raw(r, e)), Found(q, Raw(r, e)), |Raw(r, e)|)
  }

  /** What one entry adds to the report. */
  function Share(r: Repo, q: Query, e: Entry): Tally {
    if !Included(r, e) then Tally(0, 1, 0, 0, [])
    else Tally(1, 0, |Raw(r, e)|, Found(q, Raw(r, e)),
               if Found(q, Raw(r, e)) > 0 || q.mode == "docs" then [Listed(r, q, e)] else [])
  }

  function Plus(a: Tally, b: Tally): Tally {
    Tally(a.scanned + b.scanned, a.excluded + b.excluded, a.bytes + b.bytes, a.matches + b.matches, a.files + b.files)
  }

  function Total(r: Repo, q: Query, es: seq<Entry>): Tally {
    if es == [] then ZERO else Plus(Share(r, q, es[0]), Total(r, q, es[1..]))
  }

  lemma PlusAssociates(a: Tally, b: Tally, c: Tally)
    ensures Plus(Plus(a, b), c) == Plus(a, Plus(b, c)) && Plus(a, ZERO) == a && Plus(ZERO, a) == a
  {
    assert a.files + b.files + c.files == a.files + (b.files + c.files);
  }

  /** Entries out of scope and directories do not matter. */
  lemma {:induction false} ScanFilters(r: Repo, q: Query, es: seq<Entry>, seen: set<string>, t: Tally)
    ensures ScanFrom(r, q, es, seen, t) == ScanFrom(r, q, Filter(r, es), seen, t)
    ensures AllEligible(r, Filter(r, es))
    decreases |es|
  {
    hide LookAt;
    if es != [] {
      var rest := Filter(r, es[1..]);
      if Eligible(r, es[0]) {
        assert Filter(r, es)[0] == es[0] && Filter(r, es)[1..] == rest;
        match LookAt(r, q, es[0], t)
        case Stop(_, _, _) => ScanFilters(r, q, es[1..], seen, t);
        case Go(u) => ScanFilters(r, q, es[1..], seen + {es[0].path}, u);
      } else {
        assert Filter(r, es) == rest;
        ScanFilters(r, q, es[1..], seen, t);
      }
    }
  }

  /** Every regular entry is readable and met before a budget ran out. */
  predicate Affordable(r: Repo, q: Query, t: Tally, es: seq<Entry>) {
    && (forall i | 0 <= i < |es| :: Regular(r, es[i]) ==> Readable(r, es[i]) && HasRoom(Plus(t, Total(r, q, es[..i]))))
    && t.matches + Total(r, q, es).matches <= MAX_MATCHES
  }

  predicate HasRoom(t: Tally) { t.scanned < MAX_FILES && t.bytes < MAX_BYTES }

  lemma LookShares(r: Repo, q: Query, e: Entry, t: Tally)
    ensures LookAt(r, q, e, t).Go? <==>
      (Regular(r, e) ==>
         Readable(r, e) && HasRoom(t) && (Included(r, e) ==> t.matches + Share(r, q, e).matches <= MAX_MATCHES))
    ensures LookAt(r, q, e, t).Go? ==> LookAt(r, q, e, t).tally == Plus(t, Share(r, q, e))
  {
    assert t.files + [] == t.files;
  }

  lemma AffordableStep(r: Repo, q: Query, t: Tally, es: seq<Entry>)
    requires es != [] && t.matches <= MAX_MATCHES
    ensures var u := Plus(t, Share(r, q, es[0]));
      Affordable(r, q, t, es) <==>
      (Regular(r, es[0]) ==> Readable(r, es[0]) && HasRoom(t)) && Affordable(r, q, u, es[1..])
  {
    hide Regular, Readable, Share, HasRoom;
    var u := Plus(t, Share(r, q, es[0]));
    assert es[..0] == [] && Plus(t, Total(r, q, es[..0])) == t by { PlusAssociates(t, ZERO, ZERO); }
    forall i | 0 <= i < |es[1..]| ensures Plus(u, Total(r, q, es[1..][..i])) == Plus(t, Total(r, q, es[..i + 1])) {
      assert es[..i + 1][0] == es[0] && es[..i + 1][1..] == es[1..][..i];
      PlusAssociates(t, Share(r, q, es[0]), Total(r, q, es[1..][..i]));
    }
    if Affordable(r, q, t, es) {
      forall i | 0 <= i < |es[1..]| && Regular(r, es[1..][i])
        ensures Readable(r, es[1..][i]) && HasRoom(Plus(u, Total(r, q, es[1..][..i])))
      {
        assert es[i + 1] == es[1..][i];
      }
    }
    if (Regular(r, es[0]) ==> Readable(r, es[0]) && HasRoom(t)) && Affordable(r, q, u, es[1..]) {
      forall i | 0 <= i < |es| && Regular(r, es[i])
        ensures Readable(r, es[i]) && HasRoom(Plus(t, Total(r, q, es[..i])))
      {
        if i > 0 { assert es[i] == es[1..][i - 1]; }
      }
    }
  }

  lemma DistinctStep(es: seq<Entry>, seen: set<string>)
    requires es != []
    ensures Distinct(es) && Unseen(es, seen) <==>
      es[0].path !in seen && Distinct(es[1..]) && Unseen(es[1..], seen + {es[0].path})
  {
    if Distinct(es[1..]) && Unseen(es[1..], seen + {es[0].path}) && es[0].path !in seen {
      forall i, j | 0 <= i < j < |es| ensures es[i].path != es[j].path {
        assert es[j] == es[1..][j - 1];
        if i > 0 { assert es[i] == es[1..][i - 1]; }
      }
      forall i | 0 <= i < |es| ensures es[i].path !in seen {
        if i > 0 { assert es[i] == es[1..][i - 1]; }
      }
    }
  }

  /** A scan of eligible entries is complete exactly when they are distinct and affordable, and then it is the total. */
  lemma {:induction false} CompleteFrom(r: Repo, q: Query, es: seq<Entry>, seen: set<string>, t: Tally)
    requires AllEligible(r, es) && t.matches <= MAX_MATCHES
    ensures var out := ScanFrom(r, q, es, seen, t);
      && (out.complete <==> Distinct(es) && Unseen(es, seen) && Affordable(r, q, t, es))
      && (out.complete ==> out.tally == Plus(t, Total(r, q, es)) && out.code == "" && !out.failed)
    decreases |es|
  {
    hide LookAt, Distinct, Unseen, Affordable, Plus, Share;
    if es == [] {
      EmptyList(r, q, seen, t);
    } else {
      DistinctStep(es, seen);
      AffordableStep(r, q, t, es);
      LookShares(r, q, es[0], t);
      var u := Plus(t, Share(r, q, es[0]));
      MatchesGrow(r, q, t, es);
      PlusAssociates(t, Share(r, q, es[0]), Total(r, q, es[1..]));
      if LookAt(r, q, es[0], t).Go? {
        CompleteFrom(r, q, es[1..], seen + {es[0].path}, u);
      }
    }
  }

  lemma EmptyList(r: Repo, q: Query, seen: set<string>, t: Tally)
    requires t.matches <= MAX_MATCHES
    ensures Distinct([]) && Unseen([], seen) && Affordable(r, q, t, []) && Plus(t, Total(r, q, [])) == t
  {
    PlusAssociates(t, ZERO, ZERO);
  }

  lemma MatchesGrow(r: Repo, q: Query, t: Tally, es: seq<Entry>)
    requires es != []
    ensures var u := Plus(t, Share(r, q, es[0]));
      && u.matches == t.matches + Share(r, q, es[0]).matches && Share(r, q, es[0]).matches >= 0
      && (Affordable(r, q, u, es[1..]) ==> u.matches <= MAX_MATCHES)
      && (!Included(r, es[0]) ==> Share(r, q, es[0]).matches == 0)
  {}

  /** Completeness: the exact condition, and what a complete report counts. */
  lemma CompleteExactly(r: Repo, q: Query, es: seq<Entry>)
    ensures var out := ScanAll(r, q, es);
      var list := Filter(r, es);
      && (out.complete <==> Distinct(list) && Affordable(r, q, ZERO, list))
      && (out.complete ==> out.tally == Total(r, q, list) && out.code == "" && !out.failed)
  {
    hide LookAt, Affordable, Total, Distinct;
    ScanFilters(r, q, es, {}, ZERO);
    CompleteFrom(r, q, Filter(r, es), {}, ZERO);
    PlusAssociates(Total(r, q, Filter(r, es)), ZERO, ZERO);
  }

  predicate StopsWith(look: Look, code: string) { look.Stop? && !look.failed && look.code == code }

  /** Which code stands for what, and that a stopped scan counts nothing more, except the file that was too much. */
  lemma StopCodes(r: Repo, q: Query, e: Entry, t: Tally)
    ensures var look := LookAt(r, q, e, t);
      var f := r.fetch(e.path);
      var open := Regular(r, e) && t.scanned < 1000 && t.bytes < 20 * 1048576;
      && (StopsWith(look, "scan_budget_exceeded") <==> Regular(r, e) && !open)
      && (look.Stop? && look.failed <==> open && f.NoAnswer?)
      && (StopsWith(look, "file_identity_changed") <==> open && f.Got? && !f.sameFile)
      && (StopsWith(look, "file_scan_unavailable") <==> open && f.Got? && f.sameFile && (!f.base64 || f.size > 500000))
      && (StopsWith(look, "file_content_invalid") <==>
            open && f.Got? && f.sameFile && f.base64 && f.size <= 500000 && (f.raw.None? || |f.raw.value| != f.size))
      && (StopsWith(look, "match_budget_exceeded") <==>
            open && Readable(r, e) && r.isText(Raw(r, e)) && t.matches + Found(q, Raw(r, e)) > 100000)
      && (look.Stop? ==> look.tally.files == t.files && look.tally.excluded == t.excluded)
      && (look.Stop? && !StopsWith(look, "match_budget_exceeded") ==> look.tally == t)
  {
    hide Found;
  }

  /** An incomplete report always says why: a failed read, or a code that is never blank. */
  lemma {:induction false} IncompleteExplained(r: Repo, q: Query, es: seq<Entry>, seen: set<string>, t: Tally)
    ensures var out := ScanFrom(r, q, es, seen, t); out.complete <==> !out.failed && out.code == ""
    decreases |es|
  {
    if es != [] {
      IncompleteExplained(r, q, es[1..], seen, t);
      if LookAt(r, q, es[0], t).Go? { IncompleteExplained(r, q, es[1..], seen + {es[0].path}, LookAt(r, q, es[0], t).tally); }
    }
  }

  lemma {:induction false} TotalCounts(r: Repo, q: Query, es: seq<Entry>)
    ensures Total(r, q, es).scanned + Total(r, q, es).excluded == |es|
  {
    if es != [] { TotalCounts(r, q, es[1..]); }
  }

  lemma {:induction false} TotalSnoc(r: Repo, q: Query, es: seq<Entry>, e: Entry)
    ensures Total(r, q, es + [e]) == Plus(Total(r, q, es), Share(r, q, e))
  {
    hide Share;
    if es == [] {
      assert [e][1..] == [] && es + [e] == [e];
      PlusAssociates(Share(r, q, e), ZERO, ZERO);
    } else {
      assert (es + [e])[0] == es[0] && (es + [e])[1..] == es[1..] + [e];
      TotalSnoc(r, q, es[1..], e);
      PlusAssociates(Share(r, q, es[0]), Total(r, q, es[1..]), Share(r, q, e));
    }
  }

  lemma TotalNone(r: Repo, q: Query, es: seq<Entry>)
    ensures Total(r, q, es[..0]) == ZERO
  {}

  lemma TotalAt(r: Repo, q: Query, es: seq<Entry>, i: nat)
    requires i < |es|
    ensures var (t, u, s) := (Total(r, q, es[..i]), Total(r, q, es[..i + 1]), Share(r, q, es[i]));
      u.scanned == t.scanned + s.scanned && u.bytes == t.bytes + s.bytes
  {
    assert es[..i + 1] == es[..i] + [es[i]];
    TotalSnoc(r, q, es[..i], es[i]);
  }

  lemma AffordableAt(r: Repo, q: Query, t: Tally, es: seq<Entry>, i: nat)
    requires Affordable(r, q, t, es) && i < |es|
    ensures Regular(r, es[i]) ==> Readable(r, es[i]) && HasRoom(Plus(t, Total(r, q, es[..i])))
  {}

  lemma ShareBounded(r: Repo, q: Query, es: seq<Entry>, i: nat)
    requires Affordable(r, q, ZERO, es) && i < |es|
    ensures var (t, s) := (Total(r, q, es[..i]), Share(r, q, es[i]));
      (s.scanned == 0 && s.bytes == 0)
      || (s.scanned == 1 && s.bytes <= MAX_FILE && t.scanned < MAX_FILES && t.bytes < MAX_BYTES)
  {
    hide Total, Found, Affordable;
    AffordableAt(r, q, ZERO, es, i);
  }

  lemma {:induction false} TotalBounded(r: Repo, q: Query, es: seq<Entry>, n: nat)
    requires n <= |es| && Affordable(r, q, ZERO, es)
    ensures Total(r, q, es[..n]).scanned <= MAX_FILES && Total(r, q, es[..n]).bytes < MAX_BYTES + MAX_FILE
  {
    hide Affordable, Total, Share;
    TotalNone(r, q, es);
    if n > 0 {
      TotalBounded(r, q, es, n - 1);
      ShareBounded(r, q, es, n - 1);
      TotalAt(r, q, es, n - 1);
    }
  }

  /** A complete report covers every in-scope entry once, within the limits. */
  lemma CompleteCovers(r: Repo, q: Query, es: seq<Entry>)
    requires ScanAll(r, q, es).complete
    ensures var t := ScanAll(r, q, es).tally;
      && Distinct(Filter(r, es)) && t.scanned + t.excluded == |Filter(r, es)|
      && t.scanned <= 1000 && t.bytes < 20 * 1048576 + 500000 && t.matches <= 100000
  {
    hide Affordable, Total, Filter, Distinct, ScanFrom;
    var list := Filter(r, es);
    CompleteExactly(r, q, es);
    TotalCounts(r, q, list);
    TotalBounded(r, q, list, |list|);
    TotalMatches(r, q, list);
    assert list[..|list|] == list;
  }

  lemma TotalMatches(r: Repo, q: Query, es: seq<Entry>)
    requires Affordable(r, q, ZERO, es)
    ensures Total(r, q, es).matches <= MAX_MATCHES
  {
    hide Total;
  }

  lemma {:induction false} FilterMeans(r: Repo, es: seq<Entry>, e: Entry)
    ensures e in Filter(r, es) <==> e in es && r.inScope(e.path) && e.kind != "tree"
  {
    if es != [] {
      FilterMeans(r, es[1..], e);
      assert es == [es[0]] + es[1..];
    }
  }

  predicate Shows(r: Repo, q: Query, e: Entry, f: CampaignFile) {
    Included(r, e) && f == Listed(r, q, e) && (Found(q, Raw(r, e)) > 0 || q.mode == "docs")
  }

  lemma {:induction false} TotalLists(r: Repo, q: Query, es: seq<Entry>, f: CampaignFile)
    ensures f in Total(r, q, es).files <==>
      exists i | 0 <= i < |es| :: Shows(r, q, es[i], f)
  {
    hide Included, Listed, Found, Raw;
    if es != [] {
      TotalLists(r, q, es[1..], f);
      assert forall i | 0 <= i < |es[1..]| :: es[1..][i] == es[i + 1];
      assert Total(r, q, es).files == Share(r, q, es[0]).files + Total(r, q, es[1..]).files;
    }
  }

  /** A complete report lists exactly the in-scope regular text files with a match, or all of them for documentation. */
  lemma ListedExactly(r: Repo, q: Query, es: seq<Entry>, f: CampaignFile)
    requires ScanAll(r, q, es).complete
    ensures f in ScanAll(r, q, es).tally.files <==>
      exists i | 0 <= i < |es| ::
        && r.inScope(es[i].path) && es[i].kind == "blob" && (es[i].mode == "100644" || es[i].mode == "100755")
        && r.safe(es[i].path) && r.isText(Raw(r, es[i])) && (Found(q, Raw(r, es[i])) > 0 || q.mode == "docs")
        && f == CampaignFile(es[i].path, r.digest(Raw(r, es[i])), Found(q, Raw(r, es[i])), |Raw(r, es[i])|)
  {
    hide ScanFrom, Total, Filter, Affordable, Found, Raw;
    CompleteExactly(r, q, es);
    var list := Filter(r, es);
    TotalLists(r, q, list, f);
    forall e ensures e in list <==> e in es && r.inScope(e.path) && e.kind != "tree" { FilterMeans(r, es, e); }
    if f in ScanAll(r, q, es).tally.files {
      var i :| 0 <= i < |list| && Shows(r, q, list[i], f);
      assert list[i] in es;
    }
    if i :| 0 <= i < |es| && r.inScope(es[i].path) && Shows(r, q, es[i], f) {
      assert es[i] in list;
      var j :| 0 <= j < |list| && list[j] == es[i];
    }
  }

  // ---- agreement with the replacement ----

  lemma {:induction false} FilesListed(r: Repo, q: Query, es: seq<Entry>, k: nat) returns (i: nat)
    requires k < |Total(r, q, es).files|
    ensures i < |es| && Included(r, es[i]) && Total(r, q, es).files[k] == Listed(r, q, es[i])
    ensures q.mode == "docs" || Found(q, Raw(r, es[i])) > 0
  {
    var head := Share(r, q, es[0]).files;
    if k < |head| {
      i := 0;
    } else {
      i := FilesListed(r, q, es[1..], k - |head|);
      i := i + 1;
    }
  }

  lemma {:induction false} FilesDistinct(r: Repo, q: Query, es: seq<Entry>, k: nat, l: nat)
    requires Distinct(es) && k < l < |Total(r, q, es).files|
    ensures Total(r, q, es).files[k].path != Total(r, q, es).files[l].path
  {
    hide Included, Found;
    var head := Share(r, q, es[0]).files;
    assert forall i | 0 <= i < |es[1..]| :: es[1..][i] == es[i + 1];
    assert Total(r, q, es).files == head + Total(r, q, es[1..]).files;
    if k < |head| {
      var i := FilesListed(r, q, es[1..], l - |head|);
      assert es[i + 1].path != es[0].path;
    } else {
      FilesDistinct(r, q, es[1..], k - |head|, l - |head|);
    }
  }

  /** The replacement step's digest and count checks, on a checkout of the scanned commit. */
  ghost predicate Agrees(o: Outside, b: Binding, files: Files, f: CampaignFile)
    requires b.search != ""
  {
    f.path in files && o.digest(files[f.path]) == f.sha && Count(files[f.path], b.search) == f.matches && f.matches >= 1
  }

  ghost predicate CheckoutOf(r: Repo, es: seq<Entry>, files: Files) {
    forall i | 0 <= i < |es| && Included(r, es[i]) :: es[i].path in files && files[es[i].path] == Raw(r, es[i])
  }

  /**
    A literal replace-mode receipt passes the digest and count checks of the replacement on the same commit. Its
    binding is valid, and the replacement is admitted exactly when the paths are plain and the results fit.
   */
  lemma ScanAgrees(r: Repo, q: Query, es: seq<Entry>, o: Outside, b: Binding, files: Files)
    requires q.mode == "replace" && q.regex.None? && q.search != "" && q.search != b.replacement
    requires ScanAll(r, q, es).complete && b.files == ScanAll(r, q, es).tally.files != []
    requires b.sealed && b.mode == "replace" && b.search == q.search && b.paths != []
    requires o.digest == r.digest && forall s :: |r.digest(s)| == 64
    requires forall p :: o.inScope(b.paths, p) == r.inScope(p)
    requires CheckoutOf(r, Filter(r, es), files)
    ensures forall k | 0 <= k < |b.files| :: Agrees(o, b, files, b.files[k])
    ensures ValidBinding(o, b)
    ensures Admitted(o, b, files) <==> forall k | 0 <= k < |b.files| ::
      o.plain(b.files[k].path) && b.files[k].bytes + b.files[k].matches * (|b.replacement| - |b.search|) <= MAX_FILE
  {
    hide ScanFrom, Affordable, Total, Count, Filter;
    var list := Filter(r, es);
    CompleteExactly(r, q, es);
    ScanFilters(r, q, es, {}, ZERO);
    forall k | 0 <= k < |b.files|
      ensures Agrees(o, b, files, b.files[k]) && b.files[k].bytes == |files[b.files[k].path]|
      ensures o.inScope(b.paths, b.files[k].path) && |b.files[k].sha| == 64
    {
      var i := FilesListed(r, q, list, k);
    }
    forall k, l | 0 <= k < l < |b.files| ensures b.files[k].path != b.files[l].path {
      FilesDistinct(r, q, list, k, l);
    }
  }
}
