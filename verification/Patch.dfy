/**
  Patch identity: validation of the working tree, the bounded verify and repair loop, and the order of staging,
  commit, checkpoint, push and Draft. Git, the verifier, the coding agent and the provider are parameters; each
  verification and each repair may change the working tree arbitrarily.
 */
module Patch {
  import opened Records
  import Text

  // ---- validation ----

  /** What Git reports of the working tree against the index; `readable` is false when a Git command failed. */
  datatype Tree = Tree(readable: bool, created: seq<string>, changed: seq<string>, diff: string)

  /** A validated patch: its files, and the length and digest of its diff. */
  datatype Patch = Patch(files: seq<string>, bytes: nat, sha: string)

  datatype Rules = Rules(
    maxFiles: int, maxBytes: int, allowed: string -> bool, regular: string -> bool, gone: string -> bool,
    inCampaign: seq<string> -> bool, secret: string -> bool, sha: string -> string)

  const BINARY := "\nGIT binary patch\n"
  const BINARY_FILES := "\nBinary files "

  function FileLimit(r: Rules): int { if r.maxFiles <= 0 then 100 else r.maxFiles }

  function ByteLimit(r: Rules): int { if r.maxBytes <= 0 then 2 * 0x10_0000 else r.maxBytes }

  predicate PublishablePath(r: Rules, path: string) { r.allowed(path) && (r.regular(path) || r.gone(path)) }

  predicate Publishable(r: Rules, t: Tree) {
    && t.readable
    && (forall i | 0 <= i < |t.created| :: r.allowed(t.created[i]) && r.regular(t.created[i]))
    && r.inCampaign(t.changed) && |t.changed| <= FileLimit(r)
    && (forall i | 0 <= i < |t.changed| :: PublishablePath(r, t.changed[i]))
    && |t.diff| <= ByteLimit(r)
    && !Text.Contains(t.diff, BINARY) && !Text.Contains(t.diff, BINARY_FILES) && !r.secret(t.diff)
  }

  function Identity(r: Rules, t: Tree): Patch { Patch(t.changed, |t.diff|, r.sha(t.diff)) }

  function Validate(r: Rules, t: Tree): Option<Patch> {
    if Publishable(r, t) then Some(Identity(r, t)) else None
  }

  /** The checks in the source's order, with its two loops over paths. */
  method ValidatePatch(r: Rules, t: Tree) returns (p: Option<Patch>)
    ensures p == Validate(r, t)
  {
    hide Text.Contains;
    if !t.readable { return None; }
    for i := 0 to |t.created|
      invariant forall k | 0 <= k < i :: r.allowed(t.created[k]) && r.regular(t.created[k])
    {
      if !r.allowed(t.created[i]) || !r.regular(t.created[i]) { return None; }
    }
    if !r.inCampaign(t.changed) { return None; }
    var maxFiles := r.maxFiles;
    if maxFiles <= 0 { maxFiles := 100; }
    if |t.changed| > maxFiles { return None; }
    for i := 0 to |t.changed|
      invariant forall k | 0 <= k < i :: PublishablePath(r, t.changed[k])
    {
      if !r.allowed(t.changed[i]) { return None; }
      if !r.regular(t.changed[i]) && !r.gone(t.changed[i]) { return None; }
    }
    var maxBytes := r.maxBytes;
    if maxBytes <= 0 { maxBytes := 2097152; }
    if |t.diff| > maxBytes { return None; }
    if Text.Contains(t.diff, "\nGIT binary patch\n") || Text.Contains(t.diff, "\nBinary files ") { return None; }
    if r.secret(t.diff) { return None; }
    return Some(Patch(t.changed, |t.diff|, r.sha(t.diff)));
  }

  /** What a validated patch is, and that nothing else is refused. */
  lemma ValidateExactly(r: Rules, t: Tree)
    ensures Validate(r, t).Some? <==>
      && t.readable && r.inCampaign(t.changed) && !r.secret(t.diff)
      && |t.changed| <= (if r.maxFiles <= 0 then 100 else r.maxFiles)
      && |t.diff| <= (if r.maxBytes <= 0 then 2097152 else r.maxBytes)
      && (forall p | p in t.created :: r.allowed(p) && r.regular(p))
      && (forall p | p in t.changed :: r.allowed(p) && (r.regular(p) || r.gone(p)))
      && !Text.Contains(t.diff, "\nGIT binary patch\n") && !Text.Contains(t.diff, "\nBinary files ")
    ensures Validate(r, t).Some? ==>
      var p := Validate(r, t).value; p.files == t.changed && p.bytes == |t.diff| && p.sha == r.sha(t.diff)
  {
    hide Text.Contains;
  }

  /** matchesPatchEvidence */
  predicate IsDiffOf(r: Rules, diff: string, p: Patch) { r.sha(diff) == p.sha && |diff| == p.bytes }

  // ---- verification and repair ----

  datatype Verification = Verification(profile: string, output: string, outputBytes: int, criteria: seq<Criterion>)

  /** Only an ordinary nonzero exit of the verifier may be repaired. */
  datatype Verdict = Passed(v: Verification) | Exited(code: int) | Stopped

  datatype Check = Check(verdict: Verdict, trusted: bool, reset: bool, after: Tree)

  datatype Fix = Fix(ok: bool, trusted: bool, reset: bool, after: Tree)

  datatype Tools = Tools(
    rules: Rules, plan: seq<string>, require: bool,
    expired: nat -> bool, verify: nat -> Check, repair: nat -> Fix)

  datatype Refusal =
    | Expired | Untrusted | ResetFailed | PatchChanged | Unverified | RepairFailed | RepairRejected | NothingLeft
    | BudgetExhausted

  datatype Outcome = Verified(v: Verification, p: Patch) | Refused(why: Refusal)

  datatype Work = Verify(cycle: int) | Repair(cycle: int)

  datatype Trial = Trial(outcome: Outcome, work: seq<Work>, tree: Tree)

  predicate SomeFailed(cs: seq<Criterion>) { exists i | 0 <= i < |cs| :: cs[i].status == "failed" }

  /** The verdict after the adapter has read the criterion report itself. */
  function Judge(t: Tools, verdict: Verdict): Verdict {
    if verdict.Passed? && (SomeFailed(verdict.v.criteria) || (t.require && !CriteriaVerified(t.plan, verdict.v.criteria)))
    then Exited(1) else verdict
  }

  /** One verification: refused, finished, or to be repaired. */
  datatype Checked = End(outcome: Outcome) | ToRepair

  function CheckOnce(t: Tools, budget: int, cycle: nat, p: Patch): Checked {
    var c := t.verify(cycle);
    if !c.trusted then End(Refused(Untrusted))
    else if !c.reset then End(Refused(ResetFailed))
    else if Validate(t.rules, c.after) != Some(p) then End(Refused(PatchChanged))
    else
      var verdict := Judge(t, c.verdict);
      if verdict.Passed? then End(Verified(verdict.v, p))
      else if verdict.Stopped? || cycle == budget then End(Refused(Unverified))
      else ToRepair
  }

  datatype Repaired = Unrepaired(why: Refusal) | Changed(p: Patch)

  /** One repair: refused, or a new validated patch. */
  function RepairOnce(t: Tools, cycle: nat): Repaired {
    var f := t.repair(cycle);
    if !f.ok then Unrepaired(RepairFailed)
    else if !f.trusted then Unrepaired(Untrusted)
    else if !f.reset then Unrepaired(ResetFailed)
    else match Validate(t.rules, f.after)
      case None => Unrepaired(RepairRejected)
      case Some(q) => if q.files == [] then Unrepaired(NothingLeft) else Changed(q)
  }

  function After(w: Work, r: Trial): Trial { r.(work := [w] + r.work) }

  /** The loop from `cycle` on: `budget` repairs are allowed in all. */
  function RepairFrom(t: Tools, budget: int, cycle: nat, tree: Tree, p: Patch): Trial
    decreases budget - cycle
  {
    if cycle > budget then Trial(Refused(BudgetExhausted), [], tree)
    else if t.expired(cycle) then Trial(Refused(Expired), [], tree)
    else match CheckOnce(t, budget, cycle, p)
      case End(outcome) => Trial(outcome, [Verify(cycle)], t.verify(cycle).after)
      case ToRepair => RepairThen(t, budget, cycle)
  }

  function RepairThen(t: Tools, budget: int, cycle: nat): Trial
    requires cycle <= budget
    decreases budget - cycle, 0
  {
    match RepairOnce(t, cycle)
    case Unrepaired(why) => Trial(Refused(why), [Verify(cycle), Repair(cycle)], t.repair(cycle).after)
    case Changed(q) =>
      After(Verify(cycle), After(Repair(cycle), RepairFrom(t, budget, cycle + 1, t.repair(cycle).after, q)))
  }

  /** Verifications and repairs alternate, in the order of their cycles. */
  predicate Alternates(work: seq<Work>, cycle: nat) {
    forall i | 0 <= i < |work| :: work[i] == if i % 2 == 0 then Verify(cycle + i / 2) else Repair(cycle + i / 2)
  }

  lemma AlternatesPush(work: seq<Work>, cycle: nat)
    requires Alternates(work, cycle + 1)
    ensures Alternates([Verify(cycle), Repair(cycle)] + work, cycle)
  {
    var all := [Verify(cycle), Repair(cycle)] + work;
    forall i | 0 <= i < |all| ensures all[i] == if i % 2 == 0 then Verify(cycle + i / 2) else Repair(cycle + i / 2) {
      if i >= 2 { assert all[i] == work[i - 2] && (i - 2) / 2 == i / 2 - 1; }
    }
  }

  /** At most one verification more than repairs, and at most `budget` repairs; the loop never falls through. */
  lemma {:induction false} RepairBounded(t: Tools, budget: int, cycle: nat, tree: Tree, p: Patch)
    requires cycle <= budget
    ensures var r := RepairFrom(t, budget, cycle, tree, p);
      && Alternates(r.work, cycle) && |r.work| <= 2 * (budget - cycle) + 1
      && r.outcome != Refused(BudgetExhausted)
    decreases budget - cycle
  {
    hide Validate, Judge;
    if !t.expired(cycle) && CheckOnce(t, budget, cycle, p).ToRepair? && RepairOnce(t, cycle).Changed? {
      var q := RepairOnce(t, cycle).p;
      var rest := RepairFrom(t, budget, cycle + 1, t.repair(cycle).after, q);
      RepairBounded(t, budget, cycle + 1, t.repair(cycle).after, q);
      AlternatesPush(rest.work, cycle);
      assert [Verify(cycle)] + ([Repair(cycle)] + rest.work) == [Verify(cycle), Repair(cycle)] + rest.work;
    }
  }

  /**
    A whole loop with budget b: at most b + 1 verifications and b repairs; it falls through exactly when b is
    negative.
   */
  lemma RepairBudget(t: Tools, budget: int, tree: Tree, p: Patch)
    ensures var r := RepairFrom(t, budget, 0, tree, p);
      && Alternates(r.work, 0) && (0 <= budget ==> |r.work| <= 2 * budget + 1)
      && (r.outcome == Refused(BudgetExhausted) <==> budget < 0)
  {
    if 0 <= budget { RepairBounded(t, budget, 0, tree, p); }
  }

  /** What a verified patch is: the tree left by the last verification, which passed on it. */
  predicate Sound(t: Tools, budget: int, r: Trial) {
    r.outcome.Verified? ==>
      && |r.work| > 0 && r.work[|r.work| - 1].Verify?
      && var k := r.work[|r.work| - 1].cycle;
      && 0 <= k <= budget && t.verify(k).verdict == Passed(r.outcome.v) && t.verify(k).after == r.tree
      && Publishable(t.rules, r.tree) && Identity(t.rules, r.tree) == r.outcome.p
      && !SomeFailed(r.outcome.v.criteria)
      && (t.require ==> CriteriaVerified(t.plan, r.outcome.v.criteria))
      && r.outcome.p.files != []
  }

  /** Success means that the last verification passed, on exactly the tree that was validated again after it. */
  lemma {:induction false} RepairSound(t: Tools, budget: int, cycle: nat, tree: Tree, p: Patch)
    requires p.files != []
    ensures Sound(t, budget, RepairFrom(t, budget, cycle, tree, p))
    decreases budget - cycle
  {
    hide Publishable, Identity, SomeFailed;
    if cycle <= budget && !t.expired(cycle) && CheckOnce(t, budget, cycle, p).ToRepair? && RepairOnce(t, cycle).Changed? {
      var q := RepairOnce(t, cycle).p;
      var rest := RepairFrom(t, budget, cycle + 1, t.repair(cycle).after, q);
      RepairSound(t, budget, cycle + 1, t.repair(cycle).after, q);
      SoundAfter(t, budget, rest, Repair(cycle));
      SoundAfter(t, budget, After(Repair(cycle), rest), Verify(cycle));
    }
  }

  lemma SoundAfter(t: Tools, budget: int, r: Trial, w: Work)
    requires Sound(t, budget, r)
    ensures Sound(t, budget, After(w, r))
  {
    hide Publishable, Identity, SomeFailed;
    if r.work != [] { assert ([w] + r.work)[|[w] + r.work| - 1] == r.work[|r.work| - 1]; }
  }

  // ---- the workspace, changed in place ----

  class Workspace {
    var tree: Tree
    var staged: string
    var committed: string

    constructor (tree: Tree)
      ensures this.tree == tree && staged == "" && committed == ""
    {
      this.tree, staged, committed := tree, "", "";
    }
  }

  /** One pass through the verifier and the checks after it. */
  method CheckPatch(t: Tools, budget: int, cycle: nat, w: Workspace, patch: Patch) returns (r: Checked)
    modifies w`tree
    ensures r == CheckOnce(t, budget, cycle, patch) && w.tree == t.verify(cycle).after
  {
    hide Validate, CriteriaVerified;
    var c := t.verify(cycle);
    w.tree := c.after;
    if !c.trusted { return End(Refused(Untrusted)); }
    if !c.reset { return End(Refused(ResetFailed)); }
    var checked := ValidatePatch(t.rules, w.tree);
    if checked != Some(patch) { return End(Refused(PatchChanged)); }
    var verdict := c.verdict;
    if verdict.Passed? {
      var failed := HasFailed(verdict.v.criteria);
      if failed { verdict := Exited(1); }
    }
    if verdict.Passed? && t.require && !CriteriaVerified(t.plan, verdict.v.criteria) { verdict := Exited(1); }
    if verdict.Passed? { return End(Verified(verdict.v, patch)); }
    if verdict.Stopped? || cycle == budget { return End(Refused(Unverified)); }
    return ToRepair;
  }

  /** One run of the coding agent on the verifier's diagnostics, and the checks after it. */
  method RepairPatch(t: Tools, cycle: nat, w: Workspace) returns (r: Repaired)
    modifies w`tree
    ensures r == RepairOnce(t, cycle) && w.tree == t.repair(cycle).after
  {
    hide Validate;
    var f := t.repair(cycle);
    w.tree := f.after;
    if !f.ok { return Unrepaired(RepairFailed); }
    if !f.trusted { return Unrepaired(Untrusted); }
    if !f.reset { return Unrepaired(ResetFailed); }
    var again := ValidatePatch(t.rules, w.tree);
    if again.None? { return Unrepaired(RepairRejected); }
    if again.value.files == [] { return Unrepaired(NothingLeft); }
    return Changed(again.value);
  }

  method VerifyAndRepair(t: Tools, budget: int, w: Workspace, first: Patch) returns (outcome: Outcome, work: seq<Work>)
    modifies w`tree
    ensures Trial(outcome, work, w.tree) == RepairFrom(t, budget, 0, old(w.tree), first)
  {
    hide CheckOnce, RepairOnce;
    work := [];
    var patch := first;
    ghost var goal := RepairFrom(t, budget, 0, w.tree, first);
    var cycle := 0;
    while cycle <= budget
      invariant goal.outcome == RepairFrom(t, budget, cycle, w.tree, patch).outcome
      invariant goal.tree == RepairFrom(t, budget, cycle, w.tree, patch).tree
      invariant goal.work == work + RepairFrom(t, budget, cycle, w.tree, patch).work
      decreases budget - cycle
    {
      if t.expired(cycle) { return Refused(Expired), work; }
      var checked := CheckPatch(t, budget, cycle, w, patch);
      if checked.End? { return checked.outcome, work + [Verify(cycle)]; }
      var repaired := RepairPatch(t, cycle, w);
      work := work + [Verify(cycle), Repair(cycle)];
      if repaired.Unrepaired? { return Refused(repaired.why), work; }
      patch := repaired.p;
      cycle := cycle + 1;
    }
    return Refused(BudgetExhausted), work;
  }

  method HasFailed(cs: seq<Criterion>) returns (failed: bool)
    ensures failed == SomeFailed(cs)
  {
    for i := 0 to |cs|
      invariant forall k | 0 <= k < i :: cs[k].status != "failed"
    {
      if cs[i].status == "failed" { return true; }
    }
    return false;
  }

  // ---- from the checkout to the Draft ----

  datatype Policy = Policy(enabled: bool, require: bool, maxRepairs: int, maxAttempts: int, checks: int, checksValid: bool)

  predicate ValidPolicy(p: Policy) {
    if !p.enabled then !p.require && p.maxRepairs == 0 && p.maxAttempts == 0 && p.checks == 0
    else 0 <= p.maxRepairs <= 3 && 1 <= p.maxAttempts <= 5 && p.checks <= 10 && p.checksValid
  }

  function Budget(p: Policy): int { if p.enabled then p.maxRepairs else 0 }

  datatype Task = Task(origin: string, branch: string, baseRef: string, baseSha: string)

  /** What the remote branch must be for the push to happen. */
  datatype Lease = Absent | Exactly(sha: string)

  predicate PlainBranch(b: string) {
    "agent/" <= b && forall i | 0 <= i < |b| :: b[i] != ':' && b[i] != '\n' && b[i] != '\r' && b[i] != ' '
  }

  function BranchLease(t: Task): Option<Lease> {
    if !PlainBranch(t.branch) then None
    else if t.origin == "issue" || t.origin == "campaign" then Some(Absent)
    else if t.origin == "pull_request" && t.baseRef == t.branch && ValidRevision(t.baseSha) then Some(Exactly(t.baseSha))
    else None
  }

  /** The recorder saves a checkpoint and then asks the control plane to keep it as well. */
  datatype Retention = NotSaved | Unacknowledged | Acknowledged

  /** What the outside answers, in the order in which it is asked. */
  datatype World = World(
    admitted: bool, coding: Fix, profile: bool, staged: Option<string>, committed: Option<string>, head: Option<string>,
    credential: bool, origin: bool, leases: nat -> bool, retain: Checkpoint -> Retention, pushed: bool,
    draft: Option<(string, int)>, summary: (int, int) -> string)

  /** The writes outside the workspace. */
  datatype Effect = Retain(c: Checkpoint) | PushHead(head: string, lease: Lease) | OpenDraftOf(head: string)

  function CheckpointOf(p: Patch, head: string, v: Option<Verification>): Checkpoint {
    match v
    case None => Checkpoint(Evidence(head, p.sha, |p.files|, p.bytes, "", "", 0), [])
    case Some(v) => Checkpoint(Evidence(head, p.sha, |p.files|, p.bytes, v.profile, v.output, v.outputBytes), v.criteria)
  }

  /** What coding and verification come to: a patch, and its verification where a profile is approved. */
  function Prepared(t: Tools, policy: Policy, x: World): Option<(Patch, Option<Verification>)> {
    if !x.coding.ok || !x.coding.trusted || !x.coding.reset then None
    else match Validate(t.rules, x.coding.after)
      case None => None
      case Some(first) =>
        if first.files == [] then None
        else if !x.profile then Some((first, None))
        else match RepairFrom(t, Budget(policy), 0, x.coding.after, first).outcome
          case Verified(v, p) => Some((p, Some(v)))
          case Refused(_) => None
  }

  /** A verification that passed on this tree and whose evidence the checkpoint carries. */
  predicate Vouches(t: Tools, budget: int, k: nat, tree: Tree, c: Checkpoint) {
    && k <= budget && t.verify(k).after == tree && t.verify(k).verdict.Passed?
    && var v := t.verify(k).verdict.v;
    && c.evidence.profile == v.profile && c.evidence.output == v.output && c.evidence.outputBytes == v.outputBytes
    && c.criteria == v.criteria && !SomeFailed(v.criteria) && (t.require ==> CriteriaVerified(t.plan, v.criteria))
  }

  ghost predicate Vouched(t: Tools, budget: int, tree: Tree, c: Checkpoint) {
    exists k: nat :: Vouches(t, budget, k, tree, c)
  }

  /** One identity: checkpoint, staged diff, commit and validated tree carry the same digest, length and evidence. */
  ghost predicate SameIdentity(t: Tools, x: World, budget: int, w: Workspace, c: Checkpoint)
    reads w
  {
    && Publishable(t.rules, w.tree) && c.evidence.files == |w.tree.changed| > 0
    && c.evidence.patch == t.rules.sha(w.tree.diff) == t.rules.sha(w.staged) == t.rules.sha(w.committed)
    && c.evidence.diffBytes == |w.tree.diff| == |w.staged| == |w.committed|
    && (x.profile ==> Vouched(t, budget, w.tree, c))
    && (!x.profile ==> c.criteria == [] && c.evidence.profile == c.evidence.output == "" && c.evidence.outputBytes == 0)
  }

  /** The tree and the verification behind a prepared patch. */
  ghost predicate Approved(t: Tools, x: World, budget: int, tree: Tree, p: Patch, v: Option<Verification>) {
    && Publishable(t.rules, tree) && Identity(t.rules, tree) == p && p.files != []
    && (x.profile <==> v.Some?)
    && forall head: string :: v.Some? ==> Vouched(t, budget, tree, CheckpointOf(p, head, v))
  }

  lemma SoundVouches(t: Tools, budget: int, r: Trial, head: string)
    requires Sound(t, budget, r) && r.outcome.Verified?
    ensures Vouched(t, budget, r.tree, CheckpointOf(r.outcome.p, head, Some(r.outcome.v)))
  {
    hide Publishable, Identity, SomeFailed, CriteriaVerified;
    var k: nat := r.work[|r.work| - 1].cycle;
    assert Vouches(t, budget, k, r.tree, CheckpointOf(r.outcome.p, head, Some(r.outcome.v)));
  }

  /** Coding, validation and verification. */
  method Prepare(t: Tools, policy: Policy, x: World, w: Workspace) returns (p: Option<Patch>, v: Option<Verification>)
    modifies w`tree
    ensures p.Some? <==> Prepared(t, policy, x).Some?
    ensures p.Some? ==> Prepared(t, policy, x) == Some((p.value, v))
    ensures p.Some? ==> x.coding.ok && x.coding.trusted && x.coding.reset
    ensures p.Some? ==> Approved(t, x, Budget(policy), w.tree, p.value, v)
  {
    hide Publishable, Identity, CriteriaVerified, SomeFailed, Vouched;
    p, v := None, None;
    w.tree := x.coding.after;
    if !x.coding.ok || !x.coding.trusted || !x.coding.reset { return; }
    var first := ValidatePatch(t.rules, w.tree);
    if first.None? || first.value.files == [] { return; }
    if !x.profile { return first, None; }
    ghost var trial := RepairFrom(t, Budget(policy), 0, w.tree, first.value);
    RepairSound(t, Budget(policy), 0, w.tree, first.value);
    var outcome, work := VerifyAndRepair(t, Budget(policy), w, first.value);
    if outcome.Refused? { return; }
    forall head: string ensures Vouched(t, Budget(policy), w.tree, CheckpointOf(outcome.p, head, Some(outcome.v))) {
      SoundVouches(t, Budget(policy), trial, head);
    }
    return Some(outcome.p), Some(outcome.v);
  }

  /** The checkpoint of a prepared patch, once staged and committed unchanged. */
  function CommittedCheckpoint(t: Tools, policy: Policy, x: World): Option<Checkpoint> {
    match Prepared(t, policy, x)
    case None => None
    case Some(pv) =>
      if x.staged.None? || !IsDiffOf(t.rules, x.staged.value, pv.0) then None
      else if x.committed.None? || !IsDiffOf(t.rules, x.committed.value, pv.0) then None
      else if x.head.None? || !ValidRevision(Trim(x.head.value)) then None
      else Some(CheckpointOf(pv.0, Trim(x.head.value), pv.1))
  }

  /** Everything before the first write outside: admission, a committed patch, credential, origin and two leases. */
  predicate MayPublish(t: Tools, policy: Policy, x: World, task: Task) {
    && x.admitted && ValidPolicy(policy) && (policy.enabled ==> x.profile)
    && CommittedCheckpoint(t, policy, x).Some? && ValidCheckpoint(CommittedCheckpoint(t, policy, x).value)
    && x.credential && x.origin && x.leases(0) && x.leases(1) && BranchLease(task).Some?
  }

  /** How far an execution gets in the world it meets. */
  function Reach(t: Tools, policy: Policy, x: World, task: Task): (n: nat)
    ensures n <= 4
  {
    if !MayPublish(t, policy, x, task) || x.retain(CommittedCheckpoint(t, policy, x).value).NotSaved? then 0
    else if !x.retain(CommittedCheckpoint(t, policy, x).value).Acknowledged? then 1
    else if !x.pushed || !x.leases(2) then 2
    else if x.draft.None? then 3
    else 4
  }

  /** A push creates an absent branch, or replaces exactly the frozen head of the task's own branch. */
  lemma LeaseExactly(t: Task)
    ensures BranchLease(t).Some? ==>
      "agent/" <= t.branch && ':' !in t.branch && ' ' !in t.branch && '\n' !in t.branch && '\r' !in t.branch
    ensures BranchLease(t) == Some(Absent) <==> PlainBranch(t.branch) && (t.origin == "issue" || t.origin == "campaign")
    ensures forall sha :: BranchLease(t) == Some(Exactly(sha)) <==>
      && PlainBranch(t.branch) && t.origin == "pull_request" && t.baseRef == t.branch
      && ValidRevision(t.baseSha) && sha == t.baseSha
  {
    hide ValidRevision;
  }

  /**
    A checkpoint, then a push of its head under the branch lease, then a Draft of the same head, or a prefix of these.
   */
  predicate Published(task: Task, effects: seq<Effect>) {
    && |effects| <= 3
    && (|effects| > 0 ==> effects[0].Retain? && ValidCheckpoint(effects[0].c))
    && (|effects| > 1 ==>
          effects[1].PushHead? && effects[1].head == effects[0].c.evidence.head && BranchLease(task) == Some(effects[1].lease))
    && (|effects| > 2 ==> effects[2] == OpenDraftOf(effects[0].c.evidence.head))
  }

  /** What is left to check of a result that matches an accepted checkpoint: the Draft and the sentence about it. */
  predicate DraftReported(st: Setting, sub: Submission, r: Result) {
    Trim(r.summary) != "" && |r.summary| <= 4000 && r.number >= 1 && st.draftUrl(sub, r.number, r.url)
  }

  /**
    One execution. The outside sees at most a checkpoint, then a push of that checkpoint's head under the branch
    lease, then a Draft of the same head; the checkpoint is valid and has the identity of the verified patch; and a
    result always matches the checkpoint and is valid as soon as its Draft is.
   */
  method Execute(st: Setting, t: Tools, policy: Policy, x: World, task: Task, sub: Submission, w: Workspace)
    returns (r: Option<Result>, effects: seq<Effect>)
    requires t.plan == sub.plan && t.require == sub.requireCriteria == policy.require && sub.branch == task.branch
    modifies w
    ensures Published(task, effects)
    ensures effects != [] ==> SameIdentity(t, x, Budget(policy), w, effects[0].c) && 0 <= Budget(policy) <= 3
    ensures effects != [] ==> Some(effects[0].c) == CommittedCheckpoint(t, policy, x)
    ensures effects != [] ==> x.admitted && x.coding.ok && x.coding.trusted && x.coding.reset
    ensures effects != [] ==> x.credential && x.origin && x.leases(0) && x.leases(1) && (policy.enabled ==> x.profile)
    ensures effects != [] ==> !x.retain(effects[0].c).NotSaved?
    ensures |effects| > 1 ==> x.retain(effects[0].c).Acknowledged?
    ensures |effects| > 2 ==> x.pushed && x.leases(2)
    ensures var n := Reach(t, policy, x, task); |effects| == (if n == 4 then 3 else n) && (r.Some? <==> n == 4)
    ensures r.Some? ==> Matches(r.value, effects[0].c) && r.value.branch == task.branch
    ensures r.Some? ==> x.draft == Some((r.value.url, r.value.number))
    ensures r.Some? ==> (ValidResult(st, sub, r.value) <==> DraftReported(st, sub, r.value))
  {
    hide Publishable, Identity, ValidCriteria, SomeFailed, Prepared, CriteriaVerified;
    r, effects := None, [];
    if !x.admitted || !ValidPolicy(policy) || (policy.enabled && !x.profile) { return; }
    var p, v := Prepare(t, policy, x, w);
    if p.None? || x.staged.None? { return; }
    w.staged := x.staged.value;
    if !IsDiffOf(t.rules, w.staged, p.value) || x.committed.None? { return; }
    w.committed := x.committed.value;
    if !IsDiffOf(t.rules, w.committed, p.value) || x.head.None? { return; }
    var head := Trim(x.head.value);
    if !ValidRevision(head) { return; }
    if !x.leases(0) || !x.credential || !x.origin || !x.leases(1) { return; }
    var lease := BranchLease(task);
    if lease.None? { return; }
    var c := CheckpointOf(p.value, head, v);
    if !ValidCheckpoint(c) || x.retain(c).NotSaved? { return; }
    ApprovedIdentity(t, x, Budget(policy), w, p.value, v, head);
    effects := [Retain(c)];
    if x.retain(c).Unacknowledged? { return; }
    effects := effects + [PushHead(head, lease.value)];
    if !x.pushed || !x.leases(2) { return; }
    effects := effects + [OpenDraftOf(head)];
    if x.draft.None? { return; }
    var (url, number) := x.draft.value;
    r := Some(Result(x.summary(|p.value.files|, p.value.bytes), task.branch, url, number, c.evidence, c.criteria));
    VouchedCriteria(t, x, Budget(policy), w, c);
    ResultValid(st, sub, r.value, c);
  }

  lemma ApprovedIdentity(
      t: Tools, x: World, budget: int, w: Workspace, p: Patch, v: Option<Verification>, head: string)
    requires Approved(t, x, budget, w.tree, p, v)
    requires IsDiffOf(t.rules, w.staged, p) && IsDiffOf(t.rules, w.committed, p)
    ensures SameIdentity(t, x, budget, w, CheckpointOf(p, head, v))
  {
    hide Publishable, Vouched;
  }

  lemma VouchedCriteria(t: Tools, x: World, budget: int, w: Workspace, c: Checkpoint)
    requires SameIdentity(t, x, budget, w, c)
    ensures x.profile && t.require ==> CriteriaVerified(t.plan, c.criteria)
  {
    hide Publishable, CriteriaVerified, SomeFailed;
  }

  lemma ResultValid(st: Setting, sub: Submission, r: Result, c: Checkpoint)
    requires ValidCheckpoint(c) && Matches(r, c) && r.branch == sub.branch && ValidRevision(r.evidence.head)
    requires sub.requireCriteria ==> CriteriaVerified(sub.plan, r.criteria)
    ensures ValidResult(st, sub, r) <==> DraftReported(st, sub, r)
  {}
}
