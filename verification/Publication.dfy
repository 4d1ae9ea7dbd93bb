/**
  An execution inside the job protocol: the effects of one `Execute` are acts of the protocol, and they are all the
  checkpoints, pushes and Draft requests that the job ever makes, whatever crashes and restarts follow.
 */
module Publication {
  import opened Records
  import opened Protocol
  import opened ProtocolInvariant
  import opened ProtocolTheorems
  import Patch

  function ActOf(e: Patch.Effect): Act {
    match e
    case Retain(c) => Accept(c)
    case PushHead(head, _) => Push(head)
    case OpenDraftOf(head) => Draft(head)
  }

  function Acts(effects: seq<Patch.Effect>): seq<Act> {
    seq(|effects|, i requires 0 <= i < |effects| => ActOf(effects[i]))
  }

  /** The protocol steps of an execution that had these effects and returned `r`. */
  function StepsOf(effects: seq<Patch.Effect>, r: Option<Result>): seq<Step> {
    if effects == [] || !effects[0].Retain? then [FailExecution]
    else
      var c := effects[0].c;
      if |effects| == 1 then [RetainCheckpoint(c, Saved), AckCheckpoint(false)]
      else if |effects| == 2 then [RetainCheckpoint(c, Saved), AckCheckpoint(true), PushBranch(false)]
      else [RetainCheckpoint(c, Saved), AckCheckpoint(true), PushBranch(true), OpenDraft(true, r)]
  }

  lemma RunFour(st: Setting, s: System, a: Step, b: Step, c: Step, d: Step)
    ensures RunFrom(st, s, [a, b, c, d]) == Apply(st, Apply(st, Apply(st, Apply(st, s, a), b), c), d)
  {
    hide Apply;
    RunThree(st, s, a, b, c);
    RunStep(st, s, [a, b, c], d);
    assert [a, b, c, d] == [a, b, c] + [d];
  }

  lemma RetainGoes(st: Setting, s: System, c: Checkpoint)
    requires Ready(s) && LiveOf(s).run.Coding? && MayRetain(JobOf(s), c)
    ensures var t := Apply(st, s, RetainCheckpoint(c, Saved));
      && t.log == s.log + [Accept(c)] && Ready(t) && LiveOf(t).run == Retained(c)
      && JobOf(t) == JobOf(s).(publication := Some(c))
  {
    hide ValidCheckpoint, Persist;
  }

  lemma AckGoes(st: Setting, s: System, c: Checkpoint)
    requires Ready(s) && LiveOf(s).run == Retained(c)
    ensures var t := Apply(st, s, AckCheckpoint(true));
      t.log == s.log && Ready(t) && LiveOf(t).run == MayPush(c) && JobOf(t) == JobOf(s)
    ensures var t := Apply(st, s, AckCheckpoint(false));
      t.log == s.log && Ready(t) && LiveOf(t).run == Returned(None) && JobOf(t).stopped
  {}

  lemma PushGoes(st: Setting, s: System, c: Checkpoint, ok: bool)
    requires Ready(s) && LiveOf(s).run == MayPush(c)
    ensures var t := Apply(st, s, PushBranch(ok));
      && t.log == s.log + [Push(c.evidence.head)] && Ready(t) && JobOf(t) == JobOf(s)
      && LiveOf(t).run == if ok then Pushed(c) else Returned(None)
  {}

  lemma DraftGoes(st: Setting, s: System, c: Checkpoint, r: Option<Result>)
    requires Ready(s) && LiveOf(s).run == Pushed(c)
    ensures var t := Apply(st, s, OpenDraft(true, r));
      t.log == s.log + [Draft(c.evidence.head)] && Ready(t) && LiveOf(t).run == Returned(r) && JobOf(t) == JobOf(s)
  {}

  lemma ActsOf(task: Patch.Task, effects: seq<Patch.Effect>)
    requires Patch.Published(task, effects) && effects != []
    ensures var c := effects[0].c;
      Acts(effects) == [Accept(c), Push(c.evidence.head), Draft(c.evidence.head)][..|effects|]
  {
    hide ValidCheckpoint;
  }

  /**
    For every effects that an execution can have, and every result: if the protocol lets the checkpoint through,
    its steps add exactly the execution's acts to the log and return its result.
   */
  lemma EffectsAreActs(st: Setting, s: System, task: Patch.Task, effects: seq<Patch.Effect>, r: Option<Result>)
    requires Ready(s) && LiveOf(s).run.Coding? && Patch.Published(task, effects) && (r.Some? ==> |effects| == 3)
    requires effects != [] ==> MayRetain(JobOf(s), effects[0].c)
    ensures var t := RunFrom(st, s, StepsOf(effects, r));
      && t.log == s.log + Acts(effects) && Ready(t) && LiveOf(t).run == Returned(r)
      && (effects != [] && r.Some? ==> JobOf(t) == JobOf(s).(publication := Some(effects[0].c)))
      && (|effects| == 1 ==> JobOf(t).stopped)
  {
    hide RunFrom, Apply, Acts, MayRetain, Ready;
    if effects == [] {
      RunOne(st, s, FailExecution);
      FailGoes(st, s);
      NoActs();
    } else {
      ActsOf(task, effects);
      var c := effects[0].c;
      RetainGoes(st, s, c);
      var a := Apply(st, s, RetainCheckpoint(c, Saved));
      AckGoes(st, a, c);
      var b := Apply(st, a, AckCheckpoint(true));
      if |effects| == 1 {
        RunTwo(st, s, RetainCheckpoint(c, Saved), AckCheckpoint(false));
      } else if |effects| == 2 {
        PushGoes(st, b, c, false);
        RunThree(st, s, RetainCheckpoint(c, Saved), AckCheckpoint(true), PushBranch(false));
      } else {
        PushGoes(st, b, c, true);
        var d := Apply(st, b, PushBranch(true));
        DraftGoes(st, d, c, r);
        RunFour(st, s, RetainCheckpoint(c, Saved), AckCheckpoint(true), PushBranch(true), OpenDraft(true, r));
      }
    }
  }

  lemma FailGoes(st: Setting, s: System)
    requires Ready(s) && LiveOf(s).run.Coding?
    ensures var t := Apply(st, s, FailExecution); t.log == s.log && Ready(t) && LiveOf(t).run == Returned(None)
  {}

  lemma NoActs()
    ensures Acts([]) == []
  {}

  // ---- nothing is published after an execution returned ----

  predicate Quiescent(s: System) { HasLive(s) ==> !Executing(LiveOf(s).run) }

  predicate Finished(s: System) { s.disk.Some? && Rank(s.disk.value.status) >= 2 && Quiescent(s) }

  predicate Publishes(a: Act) { a.Accept? || a.Push? || a.Draft? }

  /** No new checkpoint, push or Draft request. */
  predicate NoPublication(s: System, t: System) {
    && Tally(s.log, TAccept) == Tally(t.log, TAccept) && Tally(s.log, TPush) == Tally(t.log, TPush)
    && Tally(s.log, TDraft) == Tally(t.log, TDraft)
    && forall a | a in t.log && Publishes(a) :: a in s.log
  }

  predicate Unpublished(s: System, t: System) {
    t.log == s.log || (t.log != [] && t.log[..|t.log| - 1] == s.log && !Publishes(t.log[|t.log| - 1]))
  }

  lemma FinishedLog(st: Setting, s: System, step: Step)
    requires StartInvOf(s) && Finished(s) && !OfReporting(step)
    ensures Quiescent(Apply(st, s, step)) && Unpublished(s, Apply(st, s, step))
  {
    hide ValidEvent, ValidCheckpoint, ValidResult, FinishEvent, Confirms, LoadAccepts, IgnoresTerminal;
  }

  lemma FinishedReport(st: Setting, s: System, step: Step)
    requires Finished(s) && OfReporting(step)
    ensures Quiescent(Apply(st, s, step)) && Unpublished(s, Apply(st, s, step))
  {
    hide ValidEvent, ValidCheckpoint, ValidResult, IgnoresTerminal, Persist;
  }

  predicate StartInvOf(s: System) { HasLive(s) ==> StartInv(s.disk, LiveOf(s)) }

  lemma FinishedStep(st: Setting, s: System, step: Step)
    requires GoodSetting(st) && Inv(st, s) && Finished(s)
    ensures Finished(Apply(st, s, step)) && NoPublication(s, Apply(st, s, step))
  {
    hide Tally, PushesFollow, Shape, LogInv, LiveLogInv, JobInv, RunInv, ReportInv, Apply, Quiescent, GoodSetting,
      OfReporting;
    RankStep(st, s, step);
    if OfReporting(step) { FinishedReport(st, s, step); } else { FinishedLog(st, s, step); }
    var t := Apply(st, s, step);
    if t.log != s.log {
      var a := t.log[|t.log| - 1];
      assert t.log == s.log + [a];
      DidTally(s.log, a);
    }
  }

  lemma {:induction false} FinishedForever(st: Setting, s: System, more: seq<Step>)
    requires GoodSetting(st) && Inv(st, s) && Finished(s)
    ensures Finished(RunFrom(st, s, more)) && NoPublication(s, RunFrom(st, s, more))
    decreases |more|
  {
    hide Inv, GoodSetting, Finished, Apply, Tally;
    if more != [] {
      FinishedForever(st, s, more[..|more| - 1]);
      Reachable(st, s, more[..|more| - 1]);
      FinishedStep(st, RunFrom(st, s, more[..|more| - 1]), more[|more| - 1]);
    }
  }

  lemma {:induction false} TallyConcat(a: seq<Act>, b: seq<Act>, tag: Tag)
    ensures Tally(a + b, tag) == Tally(a, tag) + Tally(b, tag)
    decreases |b|
  {
    if b == [] {
      assert a + b == a;
    } else {
      assert a + b == (a + b[..|b| - 1]) + [b[|b| - 1]];
      DidTally(a + b[..|b| - 1], b[|b| - 1]);
      TallyConcat(a, b[..|b| - 1], tag);
    }
  }

  lemma TallyActs(task: Patch.Task, effects: seq<Patch.Effect>)
    requires Patch.Published(task, effects)
    ensures Tally(Acts(effects), TAccept) == (if |effects| > 0 then 1 else 0)
    ensures Tally(Acts(effects), TPush) == (if |effects| > 1 then 1 else 0)
    ensures Tally(Acts(effects), TDraft) == (if |effects| > 2 then 1 else 0)
  {
    hide Tally, ValidCheckpoint;
    var none: seq<Act> := [];
    assert Tally(none, TAccept) == 0 && Tally(none, TPush) == 0 && Tally(none, TDraft) == 0 by {
      TallyZero(none, TAccept);
      TallyZero(none, TPush);
      TallyZero(none, TDraft);
    }
    var acts := Acts(effects);
    if effects == [] {
      assert acts == none;
    } else {
      ActsOf(task, effects);
      var c := effects[0].c;
      var one, two := none + [Accept(c)], none + [Accept(c)] + [Push(c.evidence.head)];
      DidTally(none, Accept(c));
      DidTally(one, Push(c.evidence.head));
      DidTally(two, Draft(c.evidence.head));
      if |effects| == 1 { assert acts == one; }
      else if |effects| == 2 { assert acts == two; }
      else { assert acts == two + [Draft(c.evidence.head)]; }
    }
  }

  /** Before its first checkpoint an execution has published nothing. */
  lemma CodingUnpublished(st: Setting, s: System)
    requires Inv(st, s) && HasLive(s) && LiveOf(s).run.Coding?
    ensures Tally(s.log, TAccept) == 0 && Tally(s.log, TPush) == 0 && Tally(s.log, TDraft) == 0
    ensures forall a | a in s.log :: !Publishes(a)
    ensures s.disk.Some? && Rank(s.disk.value.status) >= 2
  {
    hide Tally, PushesFollow, Shape, JobInv, ReportInv;
    TallyZero(s.log, TAccept);
    TallyZero(s.log, TPush);
    TallyZero(s.log, TDraft);
  }

  /**
    At most one publication, of the composed system: in every run that reaches an execution, the checkpoints, pushes
    and Draft requests of the whole run, with every continuation, are exactly the effects of that one execution.
   */
  lemma OnePublication(
    st: Setting, steps: seq<Step>, task: Patch.Task, effects: seq<Patch.Effect>, r: Option<Result>, more: seq<Step>)
    requires GoodSetting(st) && Patch.Published(task, effects) && (r.Some? ==> |effects| == 3)
    requires var s := Run(st, steps);
      Ready(s) && LiveOf(s).run.Coding? && (effects != [] ==> MayRetain(JobOf(s), effects[0].c))
    ensures var log := Run(st, steps + StepsOf(effects, r) + more).log;
      && Tally(log, TAccept) == (if |effects| > 0 then 1 else 0)
      && Tally(log, TPush) == (if |effects| > 1 then 1 else 0) && Tally(log, TDraft) == (if |effects| > 2 then 1 else 0)
      && forall a | a in log && Publishes(a) :: a in Acts(effects)
  {
    hide Inv, GoodSetting, Tally, Acts, RunFrom, MayRetain, Patch.Published, StepsOf;
    InvOf(st, steps);
    var s := Run(st, steps);
    CodingUnpublished(st, s);
    EffectsAreActs(st, s, task, effects, r);
    RunMore(st, steps, StepsOf(effects, r));
    InvOf(st, steps + StepsOf(effects, r));
    var t := Run(st, steps + StepsOf(effects, r));
    DurableRankNeverDrops(st, steps, StepsOf(effects, r));
    TallyActs(task, effects);
    TallyConcat(s.log, Acts(effects), TAccept);
    TallyConcat(s.log, Acts(effects), TPush);
    TallyConcat(s.log, Acts(effects), TDraft);
    FinishedForever(st, t, more);
    RunMore(st, steps + StepsOf(effects, r), more);
  }

  /**
    An execution that returns a valid result of its checkpoint is reported as completed with the checkpoint's
    evidence.
   */
  lemma ExecutionCompletes(
    st: Setting, s: System, task: Patch.Task, effects: seq<Patch.Effect>, r: Result, probe: Option<Result>, note: Note)
    requires Ready(s) && LiveOf(s).run.Coding? && Patch.Published(task, effects) && |effects| == 3
    requires MayRetain(JobOf(s), effects[0].c) && !JobOf(s).stopped && ValidNote(note)
    requires ValidResult(st, JobOf(s).submission, r) && Matches(r, effects[0].c)
    ensures var u := DoFinish(st, RunFrom(st, s, StepsOf(effects, Some(r))), probe, note);
      && HasLive(u) && LiveOf(u).run == Reporting(CompletedEvent(st, JobOf(s).id, JobOf(s).submission, r, SCompleted))
      && LiveOf(u).run.e.evidence == effects[0].c.evidence && LiveOf(u).run.e.criteria == effects[0].c.criteria
  {
    hide ValidResult, ValidCheckpoint, Trim, RunFrom, StepsOf, Acts, Patch.Published;
    EffectsAreActs(st, s, task, effects, Some(r));
  }
}
