/**
  The verify and repair loop, stated without the loop: in terms of what each verification and each repair did alone,
  which cycles are verified and repaired, when the loop ends with a verified patch, and why it is refused otherwise.
 */
module RepairTheorems {
  import opened Records
  import opened Patch

  /** The patch that is verified in cycle k: the first one, or what the repair before it left. */
  function PatchAt(t: Tools, first: Patch, k: nat): Patch {
    if k == 0 then first else Identity(t.rules, t.repair(k - 1).after)
  }

  /** The verification of cycle k ran in time and left the trusted metadata and the patch as they were. */
  predicate Intact(t: Tools, first: Patch, k: nat) {
    && !t.expired(k) && t.verify(k).trusted && t.verify(k).reset
    && Publishable(t.rules, t.verify(k).after) && Identity(t.rules, t.verify(k).after) == PatchAt(t, first, k)
  }

  predicate Passes(t: Tools, k: nat) {
    var verdict := t.verify(k).verdict;
    && verdict.Passed? && (forall i | 0 <= i < |verdict.v.criteria| :: verdict.v.criteria[i].status != "failed")
    && (t.require ==> CriteriaVerified(t.plan, verdict.v.criteria))
  }

  /** An ordinary failure: a nonzero exit, or a report that does not carry the approved criteria. */
  predicate Fails(t: Tools, k: nat) {
    t.verify(k).verdict.Exited? || (t.verify(k).verdict.Passed? && !Passes(t, k))
  }

  predicate Mends(t: Tools, k: nat) {
    && t.repair(k).ok && t.repair(k).trusted && t.repair(k).reset
    && Publishable(t.rules, t.repair(k).after) && t.repair(k).after.changed != []
  }

  /** Every cycle before k failed in the ordinary way and was mended. */
  predicate Arrives(t: Tools, first: Patch, k: nat) {
    forall i | 0 <= i < k :: Intact(t, first, i) && Fails(t, i) && Mends(t, i)
  }

  lemma JudgeMeans(t: Tools, k: nat)
    ensures var j := Judge(t, t.verify(k).verdict);
      && (j.Passed? <==> Passes(t, k)) && (j.Passed? ==> j == t.verify(k).verdict)
      && (j.Exited? <==> Fails(t, k)) && (j.Stopped? <==> t.verify(k).verdict.Stopped?)
  {
    hide CriteriaVerified;
  }

  lemma CheckMeans(t: Tools, budget: int, first: Patch, k: nat)
    requires !t.expired(k)
    ensures var c := CheckOnce(t, budget, k, PatchAt(t, first, k));
      && (c.ToRepair? <==> Intact(t, first, k) && Fails(t, k) && k != budget)
      && (c.End? && c.outcome.Verified? <==> Intact(t, first, k) && Passes(t, k))
      && (c.End? && c.outcome.Verified? ==> c.outcome == Verified(t.verify(k).verdict.v, PatchAt(t, first, k)))
      && (c.End? && c.outcome.Refused? ==> CheckRefuses(t, budget, first, k, c.outcome.why))
  {
    hide Publishable, Identity, Passes, Judge;
    JudgeMeans(t, k);
  }

  lemma RepairMeans(t: Tools, first: Patch, k: nat)
    ensures var r := RepairOnce(t, k);
      && (r.Changed? <==> Mends(t, k)) && (r.Changed? ==> r.p == PatchAt(t, first, k + 1))
      && (r.Unrepaired? ==> RepairRefuses(t, k, r.why))
  {
    hide Publishable;
  }

  /** Why the checks of cycle k refuse. */
  predicate CheckRefuses(t: Tools, budget: int, first: Patch, k: nat, why: Refusal) {
    var c := t.verify(k);
    match why
    case Expired => t.expired(k)
    case Untrusted => !t.expired(k) && !c.trusted
    case ResetFailed => !t.expired(k) && c.trusted && !c.reset
    case PatchChanged => !t.expired(k) && c.trusted && c.reset && !Intact(t, first, k)
    case Unverified => Intact(t, first, k) && !Passes(t, k) && (c.verdict.Stopped? || k == budget)
    case _ => false
  }

  /** Why the repair of cycle k is refused. */
  predicate RepairRefuses(t: Tools, k: nat, why: Refusal) {
    var f := t.repair(k);
    match why
    case RepairFailed => !f.ok
    case Untrusted => f.ok && !f.trusted
    case ResetFailed => f.ok && f.trusted && !f.reset
    case RepairRejected => f.ok && f.trusted && f.reset && !Publishable(t.rules, f.after)
    case NothingLeft => f.ok && f.trusted && f.reset && Publishable(t.rules, f.after) && f.after.changed == []
    case _ => false
  }

  /** Cycle k is where the loop ends, and why. */
  predicate EndsAt(t: Tools, budget: int, first: Patch, k: nat, why: Refusal) {
    && k <= budget && Arrives(t, first, k)
    && (CheckRefuses(t, budget, first, k, why)
        || (Intact(t, first, k) && Fails(t, k) && k < budget && RepairRefuses(t, k, why)))
  }

  predicate VerifiedAt(t: Tools, budget: int, first: Patch, k: nat) {
    k <= budget && Arrives(t, first, k) && Intact(t, first, k) && Passes(t, k)
  }

  /** What the loop does from a cycle that it arrives at. */
  ghost predicate Explains(t: Tools, budget: int, first: Patch, cycle: nat, r: Trial) {
    && (forall k: nat | cycle <= k :: Verify(k) in r.work <==> k <= budget && Arrives(t, first, k) && !t.expired(k))
    && (forall k: nat | cycle <= k ::
          Repair(k) in r.work <==> k < budget && Arrives(t, first, k) && Intact(t, first, k) && Fails(t, k))
    && (r.outcome.Verified? <==> exists k: nat | cycle <= k :: VerifiedAt(t, budget, first, k))
    && (forall k: nat | cycle <= k && VerifiedAt(t, budget, first, k) ::
          r.outcome == Verified(t.verify(k).verdict.v, PatchAt(t, first, k)))
    && (r.outcome.Refused? ==> exists k: nat | cycle <= k :: EndsAt(t, budget, first, k, r.outcome.why))
  }

  lemma ArrivesNext(t: Tools, first: Patch, k: nat)
    requires Arrives(t, first, k)
    ensures Arrives(t, first, k + 1) <==> Intact(t, first, k) && Fails(t, k) && Mends(t, k)
    ensures !Arrives(t, first, k + 1) ==> forall j: nat | k < j :: !Arrives(t, first, j)
  {
    hide Intact, Fails, Mends;
  }

  /** The loop ends in this cycle. */
  lemma ExplainsEnd(t: Tools, budget: int, first: Patch, cycle: nat, r: Trial)
    requires cycle <= budget && Arrives(t, first, cycle) && !Arrives(t, first, cycle + 1)
    requires forall w | w in r.work :: w == Verify(cycle) || w == Repair(cycle)
    requires Verify(cycle) in r.work <==> !t.expired(cycle)
    requires Repair(cycle) in r.work <==> cycle < budget && Intact(t, first, cycle) && Fails(t, cycle)
    requires r.outcome.Verified? <==> Intact(t, first, cycle) && Passes(t, cycle)
    requires r.outcome.Verified? ==> r.outcome == Verified(t.verify(cycle).verdict.v, PatchAt(t, first, cycle))
    requires r.outcome.Refused? ==> EndsAt(t, budget, first, cycle, r.outcome.why)
    ensures Explains(t, budget, first, cycle, r)
  {
    hide Intact, Fails, Mends, Passes, Arrives;
    ArrivesNext(t, first, cycle);
    assert VerifiedAt(t, budget, first, cycle) <==> r.outcome.Verified?;
  }

  /** The last cycle of the budget is not passed even if it could be mended. */
  lemma ExplainsLast(t: Tools, budget: int, first: Patch, r: Trial)
    requires 0 <= budget && Arrives(t, first, budget)
    requires r.work == (if t.expired(budget) then [] else [Verify(budget)])
    requires r.outcome.Verified? <==> Intact(t, first, budget) && Passes(t, budget)
    requires r.outcome.Verified? ==> r.outcome == Verified(t.verify(budget).verdict.v, PatchAt(t, first, budget))
    requires r.outcome.Refused? ==> EndsAt(t, budget, first, budget, r.outcome.why)
    ensures Explains(t, budget, first, budget, r)
  {
    hide Intact, Fails, Mends, Passes, Arrives;
    assert VerifiedAt(t, budget, first, budget) <==> r.outcome.Verified?;
  }

  /** The loop goes on to the next cycle. */
  lemma ExplainsMore(t: Tools, budget: int, first: Patch, cycle: nat, rest: Trial)
    requires cycle < budget && Arrives(t, first, cycle) && Arrives(t, first, cycle + 1)
    requires !t.expired(cycle) && Intact(t, first, cycle) && Fails(t, cycle) && !Passes(t, cycle)
    requires Explains(t, budget, first, cycle + 1, rest)
    requires forall w | w in rest.work :: w.cycle > cycle
    ensures Explains(t, budget, first, cycle, After(Verify(cycle), After(Repair(cycle), rest)))
  {
    hide Intact, Fails, Mends, Passes, Arrives;
    var r := After(Verify(cycle), After(Repair(cycle), rest));
    assert r.work == [Verify(cycle), Repair(cycle)] + rest.work;
    assert r.work[0] == Verify(cycle) && r.work[1] == Repair(cycle);
    assert forall w :: w in r.work <==> w == Verify(cycle) || w == Repair(cycle) || w in rest.work;
    assert !VerifiedAt(t, budget, first, cycle);
  }

  lemma {:induction false} LoopFrom(t: Tools, budget: int, first: Patch, cycle: nat, tree: Tree)
    requires cycle <= budget && Arrives(t, first, cycle)
    ensures var r := RepairFrom(t, budget, cycle, tree, PatchAt(t, first, cycle));
      Explains(t, budget, first, cycle, r) && forall w | w in r.work :: w.cycle >= cycle
    decreases budget - cycle
  {
    hide Publishable, Identity, CheckOnce, RepairOnce, Intact, Fails, Mends, Passes, Arrives, Explains, PatchAt;
    var p := PatchAt(t, first, cycle);
    var r := RepairFrom(t, budget, cycle, tree, p);
    ArrivesNext(t, first, cycle);
    PassOrFail(t, cycle);
    if t.expired(cycle) {
      IntactInTime(t, first, cycle);
      if cycle == budget { ExplainsLast(t, budget, first, r); } else { ExplainsEnd(t, budget, first, cycle, r); }
    } else {
      CheckMeans(t, budget, first, cycle);
      if CheckOnce(t, budget, cycle, p).End? {
        if cycle == budget { ExplainsLast(t, budget, first, r); } else { ExplainsEnd(t, budget, first, cycle, r); }
      } else {
        RepairMeans(t, first, cycle);
        if RepairOnce(t, cycle).Unrepaired? {
          ExplainsEnd(t, budget, first, cycle, r);
        } else {
          LoopFrom(t, budget, first, cycle + 1, t.repair(cycle).after);
          ExplainsMore(t, budget, first, cycle,
            RepairFrom(t, budget, cycle + 1, t.repair(cycle).after, PatchAt(t, first, cycle + 1)));
        }
      }
    }
  }

  lemma PassOrFail(t: Tools, k: nat)
    ensures !(Passes(t, k) && Fails(t, k))
  {
    hide CriteriaVerified;
  }

  lemma IntactInTime(t: Tools, first: Patch, k: nat)
    ensures Intact(t, first, k) ==> !t.expired(k)
  {}

  /**
    The whole loop. A cycle is verified exactly when every cycle before it failed in the ordinary way and was mended
    and time was left; it is repaired exactly when it then failed itself with the patch intact, below the budget; the
    outcome is verified exactly when some cycle so reached passes; and a refusal names what was wrong there.
   */
  lemma LoopExactly(t: Tools, budget: int, tree: Tree, first: Patch)
    requires 0 <= budget
    ensures Explains(t, budget, first, 0, RepairFrom(t, budget, 0, tree, first))
  {
    hide Explains, RepairFrom;
    LoopFrom(t, budget, first, 0, tree);
  }

  /** An ordinary failure below the budget is repaired, and a verifier that was stopped never is. */
  lemma OrdinaryFailureRepaired(t: Tools, budget: int, tree: Tree, first: Patch)
    requires 0 < budget && Intact(t, first, 0)
    ensures var r := RepairFrom(t, budget, 0, tree, first);
      && (t.verify(0).verdict.Exited? ==> Repair(0) in r.work)
      && (t.verify(0).verdict.Stopped? ==> r.work == [Verify(0)] && r.outcome == Refused(Unverified))
  {
    hide Publishable, Identity;
    LoopExactly(t, budget, tree, first);
    CheckMeans(t, budget, first, 0);
  }
}
