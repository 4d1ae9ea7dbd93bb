/**
  The deterministic campaign replacement: every frozen file is checked before any file is written, and the patch
  check that runs on the result. A workspace is a map from clean relative paths to contents.
 */
module Replacement {
  import opened Records
  import opened Text

  const MAX_FILE := 500000

  datatype CampaignFile = CampaignFile(path: string, sha: string, matches: int, bytes: int)

  /** The fields of a binding that bind the replacement; identifiers, patterns and the request digest are `sealed`. */
  datatype Binding = Binding(
    sealed: bool, mode: string, paths: seq<string>, search: string, replacement: string, files: seq<CampaignFile>)

  /** What is asked of the outside: the digest, the path scope, plain paths without symbolic links, and each write. */
  datatype Outside = Outside(
    digest: string -> string, inScope: (seq<string>, string) -> bool, plain: string -> bool,
    writes: nat -> bool, torn: nat -> string)

  type Files = map<string, string>

  predicate ValidBinding(o: Outside, b: Binding) {
    && b.sealed && (b.mode == "replace" || b.mode == "docs") && b.paths != []
    && (b.mode == "replace" ==> b.search != "" && b.files != [] && b.search != b.replacement)
    && (forall i | 0 <= i < |b.files| ::
          o.inScope(b.paths, b.files[i].path) && |b.files[i].sha| == 64 && b.files[i].matches >= 0)
    && (forall i, j | 0 <= i < j < |b.files| :: b.files[i].path != b.files[j].path)
  }

  /** A readable frozen file with its digest, its count and a bounded result. */
  predicate Ready(o: Outside, b: Binding, files: Files, f: CampaignFile)
    requires b.search != ""
  {
    && o.plain(f.path) && f.path in files
    && o.digest(files[f.path]) == f.sha && Count(files[f.path], b.search) == f.matches && f.matches >= 1
    && |files[f.path]| + f.matches * (|b.replacement| - |b.search|) <= MAX_FILE
  }

  predicate AllReady(o: Outside, b: Binding, files: Files, n: nat)
    requires b.search != "" && n <= |b.files|
  {
    forall i | 0 <= i < n :: Ready(o, b, files, b.files[i])
  }

  predicate Frozen(b: Binding, path: string, n: nat)
    requires n <= |b.files|
  {
    exists i | 0 <= i < n :: b.files[i].path == path
  }

  /** `now` is `before` with the first `n` frozen files replaced and nothing else changed. */
  ghost predicate Replaced(b: Binding, before: Files, now: Files, n: nat)
    requires b.search != "" && n <= |b.files|
  {
    && now.Keys == before.Keys
    && forall p | p in before ::
         now[p] == if Frozen(b, p, n) then Replace(before[p], b.search, b.replacement) else before[p]
  }

  class Workspace {
    var files: Files

    constructor (files: Files)
      ensures this.files == files
    {
      this.files := files;
    }
  }

  datatype Update = Update(path: string, raw: string)

  predicate Planned(b: Binding, before: Files, updates: seq<Update>)
    requires b.search != "" && |updates| <= |b.files|
  {
    forall k | 0 <= k < |updates| ::
      b.files[k].path in before
      && updates[k] == Update(b.files[k].path, Replace(before[b.files[k].path], b.search, b.replacement))
  }

  /** The checking pass: it writes nothing, and it passes exactly when every frozen file is ready. */
  method PlanUpdates(o: Outside, b: Binding, files: Files) returns (updates: Option<seq<Update>>)
    ensures updates.Some? <==> ValidBinding(o, b) && b.mode == "replace" && AllReady(o, b, files, |b.files|)
    ensures updates.Some? ==> b.search != "" && |updates.value| == |b.files| && Planned(b, files, updates.value)
  {
    hide Count, Replace;
    if !ValidBinding(o, b) || b.mode != "replace" { return None; }
    var done: seq<Update> := [];
    for i := 0 to |b.files|
      invariant |done| == i && AllReady(o, b, files, i) && Planned(b, files, done)
    {
      var f := b.files[i];
      if !o.plain(f.path) || f.path !in files { return None; }
      var raw := files[f.path];
      if o.digest(raw) != f.sha || Count(raw, b.search) != f.matches || f.matches < 1 { return None; }
      if |raw| + f.matches * (|b.replacement| - |b.search|) > MAX_FILE { return None; }
      done := done + [Update(f.path, Replace(raw, b.search, b.replacement))];
    }
    return Some(done);
  }

  ghost predicate Admitted(o: Outside, b: Binding, files: Files) {
    ValidBinding(o, b) && b.mode == "replace" && AllReady(o, b, files, |b.files|)
  }

  predicate AllWritten(o: Outside, n: nat) { forall i | 0 <= i < n :: o.writes(i) }

  /** Nothing but frozen files differs. */
  ghost predicate Confined(b: Binding, before: Files, now: Files) {
    now.Keys == before.Keys && forall p | p in now && !Frozen(b, p, |b.files|) :: now[p] == before[p]
  }

  /**
    No file is written unless every frozen file passed its checks. On success each frozen file is the replacement of
    what it was and no other file changed; a write that fails may leave frozen files half done, and only those.
   */
  method ApplyReplacement(o: Outside, b: Binding, w: Workspace) returns (ok: bool, written: nat)
    modifies w
    ensures ok <==> Admitted(o, b, old(w.files)) && AllWritten(o, |b.files|)
    ensures ok ==> written == |b.files| && Replaced(b, old(w.files), w.files, |b.files|)
    ensures !Admitted(o, b, old(w.files)) ==> written == 0
    ensures written == 0 ==> w.files == old(w.files)
    ensures Confined(b, old(w.files), w.files)
  {
    hide Replaced, Confined, Planned, AllReady, ValidBinding, Frozen;
    ReplacedFirst(b, w.files);
    var plan := PlanUpdates(o, b, w.files);
    if plan.None? { return false, 0; }
    var updates := plan.value;
    for i := 0 to |updates|
      invariant Replaced(b, old(w.files), w.files, i) && AllWritten(o, i)
      invariant i == 0 ==> w.files == old(w.files)
    {
      ReplacedStep(b, old(w.files), w.files, updates, i, o.torn(i));
      if !o.writes(i) {
        w.files := w.files[updates[i].path := o.torn(i)];
        return false, i + 1;
      }
      w.files := w.files[updates[i].path := updates[i].raw];
    }
    ReplacedConfines(b, old(w.files), w.files, |updates|);
    return true, |updates|;
  }

  lemma ReplacedFirst(b: Binding, before: Files)
    ensures b.search != "" ==> Replaced(b, before, before, 0)
    ensures Confined(b, before, before)
  {
    hide Replace;
  }

  lemma ReplacedConfines(b: Binding, before: Files, now: Files, n: nat)
    requires b.search != "" && n <= |b.files| && Replaced(b, before, now, n)
    ensures Confined(b, before, now)
  {
    hide Replace;
    assert forall p :: Frozen(b, p, n) ==> Frozen(b, p, |b.files|);
  }

  lemma ReplacedStep(b: Binding, before: Files, now: Files, updates: seq<Update>, i: nat, torn: string)
    requires b.search != "" && |updates| == |b.files| && i < |updates| && Planned(b, before, updates)
    requires Replaced(b, before, now, i)
    ensures Replaced(b, before, now[updates[i].path := updates[i].raw], i + 1)
    ensures Confined(b, before, now[updates[i].path := torn])
  {
    hide Replace;
    FrozenGrows(b, i);
    FrozenMore(b, i);
    assert updates[i].path == b.files[i].path && updates[i].path in before;
  }

  lemma FrozenGrows(b: Binding, n: nat)
    requires n < |b.files|
    ensures forall p :: Frozen(b, p, n + 1) <==> Frozen(b, p, n) || p == b.files[n].path
  {
    forall p ensures Frozen(b, p, n + 1) <==> Frozen(b, p, n) || p == b.files[n].path {
      if p == b.files[n].path { assert b.files[n].path == p; }
    }
  }

  lemma FrozenMore(b: Binding, n: nat)
    requires n < |b.files|
    ensures Frozen(b, b.files[n].path, |b.files|)
    ensures forall p :: Frozen(b, p, n) ==> Frozen(b, p, |b.files|)
  {}

  /** The committed text of a path, where the base revision has one. */
  type Base = string -> Option<string>

  /** The patch check of one changed path; only a campaign replacement freezes contents. */
  predicate Accepts(o: Outside, b: Binding, campaign: bool, now: Files, base: Base, path: string) {
    && o.inScope(b.paths, path)
    && (campaign && b.mode == "replace" && b.search != "" ==>
          exists i | 0 <= i < |b.files| :: b.files[i].path == path && Matching(o, b, now, base, b.files[i]))
  }

  predicate Matching(o: Outside, b: Binding, now: Files, base: Base, f: CampaignFile)
    requires b.search != ""
  {
    && o.plain(f.path) && f.path in now && base(f.path).Some?
    && var original := base(f.path).value;
       o.digest(original) == f.sha && Count(original, b.search) == f.matches
       && now[f.path] == Replace(original, b.search, b.replacement)
  }

  method ValidateCampaignFiles(o: Outside, b: Binding, campaign: bool, now: Files, base: Base, changed: seq<string>)
    returns (ok: bool)
    ensures ok <==> ValidBinding(o, b) && forall i | 0 <= i < |changed| :: Accepts(o, b, campaign, now, base, changed[i])
  {
    hide Count, Replace;
    if !ValidBinding(o, b) { return false; }
    var frozen: map<string, CampaignFile> := map[];
    for i := 0 to |b.files|
      invariant forall p :: p in frozen <==> Frozen(b, p, i)
      invariant forall k | 0 <= k < i :: b.files[k].path in frozen && frozen[b.files[k].path] == b.files[k]
    {
      FrozenGrows(b, i);
      frozen := frozen[b.files[i].path := b.files[i]];
    }
    for i := 0 to |changed|
      invariant forall k | 0 <= k < i :: Accepts(o, b, campaign, now, base, changed[k])
    {
      var path := changed[i];
      if !o.inScope(b.paths, path) { return false; }
      if campaign && b.mode == "replace" {
        if path !in frozen {
          assert !Accepts(o, b, campaign, now, base, path);
          return false;
        }
        var f := frozen[path];
        ghost var at :| 0 <= at < |b.files| && b.files[at].path == path;
        assert b.files[at] == f;
        if !Matching(o, b, now, base, f) {
          assert !Accepts(o, b, campaign, now, base, path);
          return false;
        }
      }
    }
    return true;
  }

  /** The size of a replaced file, and that it did change. */
  lemma ReplacedSize(o: Outside, b: Binding, before: Files, now: Files, i: nat)
    requires ValidBinding(o, b) && b.mode == "replace" && AllReady(o, b, before, |b.files|) && i < |b.files|
    requires Replaced(b, before, now, |b.files|)
    ensures var f := b.files[i];
      f.path in now && now[f.path] != before[f.path]
      && |now[f.path]| == |before[f.path]| + f.matches * (|b.replacement| - |b.search|) <= 500000
  {
    hide Count, Replace;
    var f := b.files[i];
    assert Ready(o, b, before, f) && Frozen(b, f.path, |b.files|);
    ReplaceLength(before[f.path], b.search, b.replacement);
    ReplaceDiffers(before[f.path], b.search, b.replacement);
  }

  /** Exactly the frozen files differ from the checkout, and the patch check accepts each of them. */
  lemma ReplacementAccepted(o: Outside, b: Binding, before: Files, now: Files, base: Base, path: string)
    requires ValidBinding(o, b) && b.mode == "replace" && AllReady(o, b, before, |b.files|)
    requires Replaced(b, before, now, |b.files|)
    requires forall p | p in before :: base(p) == Some(before[p])
    requires path in now
    ensures now[path] != before[path] <==> Frozen(b, path, |b.files|)
    ensures now[path] != before[path] ==> Accepts(o, b, true, now, base, path)
  {
    hide Count, Replace;
    if Frozen(b, path, |b.files|) {
      var i :| 0 <= i < |b.files| && b.files[i].path == path;
      ReplacedSize(o, b, before, now, i);
      assert Ready(o, b, before, b.files[i]);
      assert Matching(o, b, now, base, b.files[i]);
    }
  }
}
