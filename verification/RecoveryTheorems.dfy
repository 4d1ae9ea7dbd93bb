/**
  Recovery over every run: every job with a spent start claim comes to a durable terminal event, completion is
  reported only on a confirming reading, reservations stay as they are, and exactly when a running job is reported.
 */
module RecoveryTheorems {
  import opened Records
  import opened Protocol
  import opened ProtocolInvariant
  import opened ProtocolTheorems

  // ---- recovery ----

  /** Saves succeed; nobody cancels; the process stays up. */
  predicate Steady(step: Step) {
    match step
    case Crash => false
    case Cancel(_, _, _) => false
    case Submit(_, _, o) => o.Saved?
    case StartBegin(_, o) => o.Saved?
    case StartCommit(o) => o.Saved?
    case RetainCheckpoint(_, o) => o.Saved?
    case DeliverRun(o) => o.Saved?
    case DeliverRecovered(o) => o.Saved?
    case DeliverRetry(_, o) => o.Saved?
    case Callback(_, o) => o.Saved?
    case _ => true
  }

  predicate AllSteady(steps: seq<Step>) { forall i | 0 <= i < |steps| :: Steady(steps[i]) }

  /** The state of a job that was reloaded with a spent start claim. */
  predicate Recovering(s: System) {
    && HasLive(s) && s.disk == Some(Persist(JobOf(s)))
    && LiveOf(s).start.Unlocked? && LiveOf(s).run.Idle? && JobOf(s).started && JobOf(s).cancelled
    && (JobOf(s).status.Starting? || JobOf(s).status.Started? || JobOf(s).status.Terminal?)
    && (JobOf(s).status.Terminal? <==> JobOf(s).terminal.Some?)
    && (JobOf(s).delivered || JobOf(s).rejected ==> JobOf(s).status.Terminal?)
    && (LiveOf(s).recovery.Handled? ==> JobOf(s).status.Terminal?)
    && (LiveOf(s).recovery.Handing? && JobOf(s).status.Terminal? ==> JobOf(s).terminal == Some(LiveOf(s).recovery.e))
    && (LiveOf(s).recovery.Probing? ==> !JobOf(s).status.Terminal?)
  }

  lemma RecoveringStepHandlers(st: Setting, s: System, step: Step)
    requires Inv(st, s) && Recovering(s) && Steady(step)
    requires OfHandlers(step)
    ensures Recovering(Apply(st, s, step))
  {
    hide ValidEvent, ValidCheckpoint, ValidResult, FinishEvent, Tally, PushesFollow, Shape, LogInv, LiveLogInv;
  }

  lemma RecoveringStepExecution(st: Setting, s: System, step: Step)
    requires Inv(st, s) && Recovering(s) && Steady(step)
    requires OfExecution(step)
    ensures Recovering(Apply(st, s, step))
  {
    hide ValidEvent, ValidCheckpoint, ValidResult, FinishEvent, Tally, PushesFollow, Shape, LogInv, LiveLogInv;
  }

  lemma RecoveringDeliver(st: Setting, s: System)
    requires Inv(st, s) && Recovering(s)
    ensures Recovering(DoDeliverRecovered(s, Saved))
  {
    hide ValidEvent, ValidCheckpoint, ValidResult, FinishEvent, Tally, PushesFollow, Shape, LogInv, LiveLogInv,
      StartInv, RunInv, JobInv;
  }

  lemma RecoveringRetry(st: Setting, s: System, e: Event)
    requires Inv(st, s) && Recovering(s)
    ensures Recovering(DoDeliverRetry(s, e, Saved))
  {
    hide ValidEvent, ValidCheckpoint, ValidResult, FinishEvent, Tally, PushesFollow, Shape, LogInv, LiveLogInv,
      StartInv, RunInv, JobInv;
  }

  lemma RecoveringCallback(st: Setting, s: System, reply: Reply)
    requires Inv(st, s) && Recovering(s)
    ensures Recovering(DoCallback(s, reply, Saved))
  {
    hide ValidEvent, ValidCheckpoint, ValidResult, FinishEvent, Tally, PushesFollow, Shape, LogInv, LiveLogInv,
      StartInv, RunInv, JobInv;
  }

  lemma RecoveringStepReporting(st: Setting, s: System, step: Step)
    requires Inv(st, s) && Recovering(s) && Steady(step)
    requires OfReporting(step)
    ensures Recovering(Apply(st, s, step))
  {
    hide Inv, DoDeliverRecovered, DoDeliverRetry, DoCallback;
    match step
    case DeliverRun(o) =>
    case DeliverRecovered(o) => RecoveringDeliver(st, s);
    case DeliverRetry(e, o) => RecoveringRetry(st, s, e);
    case Callback(reply, o) => RecoveringCallback(st, s, reply);
  }

  lemma RecoveringStepProcess(st: Setting, s: System, step: Step)
    requires Inv(st, s) && Recovering(s) && Steady(step)
    requires !OfHandlers(step) && !OfExecution(step) && !OfReporting(step)
    ensures Recovering(Apply(st, s, step))
  {
    hide ValidEvent, ValidCheckpoint, ValidResult, FinishEvent, Tally, PushesFollow, Shape, LogInv, LiveLogInv;
  }

  lemma RecoveringStep(st: Setting, s: System, step: Step)
    requires Inv(st, s) && Recovering(s) && Steady(step)
    ensures Recovering(Apply(st, s, step))
  {
    hide *;
    if OfHandlers(step) { RecoveringStepHandlers(st, s, step); }
    else if OfExecution(step) { RecoveringStepExecution(st, s, step); }
    else if OfReporting(step) { RecoveringStepReporting(st, s, step); }
    else { RecoveringStepProcess(st, s, step); }
  }

  lemma {:induction false} RecoveryFrom(st: Setting, s: System, more: seq<Step>)
    requires GoodSetting(st) && Inv(st, s) && s.process.Down? && s.disk.Some? && LoadAccepts(st, s.disk.value)
    requires s.disk.value.status.Starting? || s.disk.value.status.Started?
    requires AllSteady(more)
    ensures var t := RunFrom(st, Apply(st, s, Restart), more);
      && Recovering(t)
      && (LiveOf(t).recovery.Handled? ==> t.disk.value.status.Terminal? && t.disk.value.terminal.Some?)
    decreases |more|
  {
    KeepStep(st, s, Restart);
    var r := Apply(st, s, Restart);
    if more == [] {
      assert Recovering(r);
    } else {
      var front := more[..|more| - 1];
      RecoveryFrom(st, s, front);
      Reachable(st, r, front);
      RecoveringStep(st, RunFrom(st, r, front), more[|more| - 1]);
    }
  }

  /**
    After a crash at any point of any run: however the reload's other threads interleave, a job reloaded as starting
    or started that recovery has handled has a durable terminal event, whatever became of its delivery.
   */
  lemma RecoveryTotal(st: Setting, steps: seq<Step>, more: seq<Step>)
    requires GoodSetting(st) && AllSteady(more)
    requires var d := Run(st, steps).disk; d.Some? && (d.value.status.Starting? || d.value.status.Started?)
    ensures var t := Run(st, steps + [Crash, Restart] + more);
      && HasLive(t) && t.disk.Some?
      && (LiveOf(t).recovery.Handled? ==> t.disk.value.status.Terminal? && t.disk.value.terminal.Some?)
  {
    hide ValidEvent, ValidCheckpoint, ValidResult, Tally, PushesFollow, RunFrom, Shape, LiveInv, GoodSetting;
    InvOf(st, steps);
    var s := Run(st, steps);
    AcceptsExactly(st, s.disk.value);
    KeepStep(st, s, Crash);
    RunMore(st, steps, [Crash, Restart]);
    RunTwo(st, s, Crash, Restart);
    RecoveryFrom(st, Apply(st, s, Crash), more);
    RunMore(st, steps + [Crash, Restart], more);
  }

  lemma ApplyRestart(st: Setting, s: System)
    ensures Apply(st, s, Restart) == DoRestart(st, s)
  {}

  lemma ApplyRecovery(st: Setting, s: System, step: Step)
    ensures step.RecoverLook? ==> Apply(st, s, step) == DoRecoverLook(st, s)
    ensures step.RecoverProbe? ==> Apply(st, s, step) == DoRecoverProbe(st, s, step.probe)
    ensures step.DeliverRecovered? ==> Apply(st, s, step) == DoDeliverRecovered(s, step.o)
  {}

  /** Three steps of recovery reach that point, and report completion only for a matching provider reading. */
  lemma RecoveryReports(st: Setting, s: System, probe: Option<Result>)
    requires s.process.Down? && s.disk.Some? && LoadAccepts(st, s.disk.value)
    requires s.disk.value.status.Starting? || s.disk.value.status.Started?
    ensures var t := RunFrom(st, Apply(st, s, Restart), [RecoverLook, RecoverProbe(probe), DeliverRecovered(Saved)]);
      && HasLive(t) && LiveOf(t).recovery.Handled? && t.disk.Some? && t.disk.value.terminal.Some?
      && (t.disk.value.terminal.value.kind.Completed? <==>
            s.disk.value.status.Started? && Confirms(st, LoadJob(s.disk.value), s.disk.value.publication, probe))
      && (!t.disk.value.terminal.value.kind.Completed? ==>
            t.disk.value.terminal.value.errorCode ==
            if s.disk.value.publication.Some? then "agent_publication_unverified" else "agent_adapter_interrupted")
  {
    hide ValidEvent, ValidCheckpoint, ValidResult, JobForm, Hex64, RunFrom, Apply;
    var r := DoRestart(st, s);
    assert Apply(st, s, Restart) == r by { ApplyRestart(st, s); }
    RunThree(st, r, RecoverLook, RecoverProbe(probe), DeliverRecovered(Saved));
    ApplyRecovery(st, r, RecoverLook);
    var r1 := DoRecoverLook(st, r);
    ApplyRecovery(st, r1, RecoverProbe(probe));
    var r2 := DoRecoverProbe(st, r1, probe);
    ApplyRecovery(st, r2, DeliverRecovered(Saved));
    assert LiveOf(r2).recovery.Handing? && JobOf(r2) == JobOf(r);
  }

  /** A provider reading that confirms the checkpoint of a started receipt. */
  predicate Confirming(st: Setting, d: Receipt, step: Step) {
    step.RecoverProbe? && d.status.Started? && Confirms(st, LoadJob(d), d.publication, step.probe)
  }

  /** The reloaded job is still that of the receipt, and completion is reported only after a confirming reading. */
  predicate Traced(d: Receipt, s: System, probed: bool) {
    HasLive(s) ==>
      && JobOf(s).id == d.job && JobOf(s).submission == d.submission && JobOf(s).publication == d.publication
      && (JobOf(s).terminal.None? ==> JobOf(s).status == d.status)
      && (LiveOf(s).recovery.Probing? ==> d.status.Started? && d.publication == Some(LiveOf(s).recovery.p))
      && (LiveOf(s).recovery.Handing? && LiveOf(s).recovery.e.kind.Completed? ==> probed)
      && (JobOf(s).terminal.Some? && JobOf(s).terminal.value.kind.Completed? ==> probed)
  }

  lemma TracedStepHandlers(st: Setting, d: Receipt, s: System, step: Step, probed: bool)
    requires Inv(st, s) && Recovering(s) && Traced(d, s, probed) && Steady(step)
    requires OfHandlers(step)
    ensures Traced(d, Apply(st, s, step), probed || Confirming(st, d, step))
  {
    hide ValidCheckpoint, FinishEvent, PushesFollow, Shape, LogInv, LiveLogInv, JobInv, RunInv, StartInv, Confirms;
  }

  lemma TracedStepExecution(st: Setting, d: Receipt, s: System, step: Step, probed: bool)
    requires Inv(st, s) && Recovering(s) && Traced(d, s, probed) && Steady(step)
    requires OfExecution(step)
    ensures Traced(d, Apply(st, s, step), probed || Confirming(st, d, step))
  {
    hide ValidCheckpoint, FinishEvent, PushesFollow, Shape, LogInv, LiveLogInv, JobInv, RunInv, StartInv, Confirms;
  }

  lemma TracedRetry(st: Setting, d: Receipt, s: System, e: Event, probed: bool)
    requires Inv(st, s) && Recovering(s) && Traced(d, s, probed)
    ensures Traced(d, DoDeliverRetry(s, e, Saved), probed)
  {
    hide ValidCheckpoint, FinishEvent, PushesFollow, Shape, LogInv, LiveLogInv, JobInv, RunInv, StartInv, Confirms;
  }

  lemma TracedReport(st: Setting, d: Receipt, s: System, reply: Reply, probed: bool)
    requires Inv(st, s) && Recovering(s) && Traced(d, s, probed)
    ensures Traced(d, DoDeliverRecovered(s, Saved), probed) && Traced(d, DoCallback(s, reply, Saved), probed)
  {
    hide ValidCheckpoint, FinishEvent, PushesFollow, Shape, LogInv, LiveLogInv, JobInv, RunInv, StartInv, Confirms;
  }

  lemma TracedStepReporting(st: Setting, d: Receipt, s: System, step: Step, probed: bool)
    requires Inv(st, s) && Recovering(s) && Traced(d, s, probed) && Steady(step)
    requires OfReporting(step)
    ensures Traced(d, Apply(st, s, step), probed || Confirming(st, d, step))
  {
    hide Inv, Traced, DoDeliverRecovered, DoDeliverRetry, DoCallback;
    match step
    case DeliverRun(o) =>
    case DeliverRecovered(o) => TracedReport(st, d, s, Accepted, probed);
    case DeliverRetry(e, o) => TracedRetry(st, d, s, e, probed);
    case Callback(reply, o) => TracedReport(st, d, s, reply, probed);
  }

  lemma TracedStepProcess(st: Setting, d: Receipt, s: System, step: Step, probed: bool)
    requires Inv(st, s) && Recovering(s) && Traced(d, s, probed) && Steady(step)
    requires !OfHandlers(step) && !OfExecution(step) && !OfReporting(step)
    ensures Traced(d, Apply(st, s, step), probed || Confirming(st, d, step))
  {
    hide ValidEvent, ValidCheckpoint, ValidResult, FinishEvent, Tally, PushesFollow, Shape, LogInv, LiveLogInv,
      JobInv, RunInv, StartInv;
  }

  lemma TracedStep(st: Setting, d: Receipt, s: System, step: Step, probed: bool)
    requires Inv(st, s) && Recovering(s) && Traced(d, s, probed) && Steady(step)
    ensures Traced(d, Apply(st, s, step), probed || Confirming(st, d, step))
  {
    hide *;
    if OfHandlers(step) { TracedStepHandlers(st, d, s, step, probed); }
    else if OfExecution(step) { TracedStepExecution(st, d, s, step, probed); }
    else if OfReporting(step) { TracedStepReporting(st, d, s, step, probed); }
    else { TracedStepProcess(st, d, s, step, probed); }
  }

  predicate AnyConfirming(st: Setting, d: Receipt, steps: seq<Step>) {
    exists k | 0 <= k < |steps| :: Confirming(st, d, steps[k])
  }

  lemma AnyConfirmingSnoc(st: Setting, d: Receipt, steps: seq<Step>)
    requires steps != []
    ensures AnyConfirming(st, d, steps) <==>
      AnyConfirming(st, d, steps[..|steps| - 1]) || Confirming(st, d, steps[|steps| - 1])
  {
    hide Confirming;
    var front := steps[..|steps| - 1];
    if AnyConfirming(st, d, front) {
      var k :| 0 <= k < |front| && Confirming(st, d, front[k]);
      assert steps[k] == front[k];
    }
    if k :| 0 <= k < |steps| - 1 && Confirming(st, d, steps[k]) { assert front[k] == steps[k]; }
  }

  lemma {:induction false} TracedFrom(st: Setting, s: System, more: seq<Step>)
    requires GoodSetting(st) && Inv(st, s) && s.process.Down? && s.disk.Some? && LoadAccepts(st, s.disk.value)
    requires s.disk.value.status.Starting? || s.disk.value.status.Started?
    requires AllSteady(more)
    ensures Traced(s.disk.value, RunFrom(st, Apply(st, s, Restart), more), AnyConfirming(st, s.disk.value, more))
    decreases |more|
  {
    hide ValidEvent, ValidCheckpoint, ValidResult, Tally, PushesFollow, Shape, LiveInv, GoodSetting, Confirming,
      Steady, AnyConfirming;
    var d := s.disk.value;
    KeepStep(st, s, Restart);
    var r := Apply(st, s, Restart);
    if more != [] {
      hide Apply, Traced, Recovering, Inv;
      var front := more[..|more| - 1];
      TracedFrom(st, s, front);
      Reachable(st, r, front);
      RecoveryFrom(st, s, front);
      TracedStep(st, d, RunFrom(st, r, front), more[|more| - 1], AnyConfirming(st, d, front));
      AnyConfirmingSnoc(st, d, more);
    }
  }

  /**
    However the reload's other threads interleave: if the disk comes to hold a completed event, then the job was
    reloaded as started with a checkpoint, and one of recovery's provider readings confirmed that checkpoint.
   */
  lemma CompletedConfirmed(st: Setting, steps: seq<Step>, more: seq<Step>)
    requires GoodSetting(st) && AllSteady(more)
    requires var d := Run(st, steps).disk; d.Some? && (d.value.status.Starting? || d.value.status.Started?)
    ensures var d := Run(st, steps).disk.value;
      var t := Run(st, steps + [Crash, Restart] + more);
      t.disk.Some? && t.disk.value.terminal.Some? && t.disk.value.terminal.value.kind.Completed? ==>
        exists k | 0 <= k < |more| :: Confirming(st, d, more[k])
  {
    hide ValidEvent, ValidCheckpoint, ValidResult, Tally, PushesFollow, RunFrom, Shape, LiveInv, GoodSetting,
      Confirming, Steady;
    InvOf(st, steps);
    var s := Run(st, steps);
    AcceptsExactly(st, s.disk.value);
    KeepStep(st, s, Crash);
    RunMore(st, steps, [Crash, Restart]);
    RunTwo(st, s, Crash, Restart);
    RecoveryFrom(st, Apply(st, s, Crash), more);
    TracedFrom(st, Apply(st, s, Crash), more);
    RunMore(st, steps + [Crash, Restart], more);
  }

  // ---- reservations ----

  /** Everything but a start and a cancel. */
  predicate Idling(step: Step) { !step.StartBegin? && !step.Cancel? }

  /** A reservation on disk that no thread has taken up. */
  predicate Parked(s: System, d: Receipt) {
    && s.disk == Some(d) && d.status.Reserved? && (s.process.Up? ==> HasLive(s))
    && (HasLive(s) ==>
          && JobOf(s) == LoadJob(d).(stopped := JobOf(s).stopped)
          && LiveOf(s).start.Unlocked? && LiveOf(s).run.Idle? && LiveOf(s).delivery.Quiet? && LiveOf(s).retries == multiset{}
          && (LiveOf(s).recovery.Queued? || LiveOf(s).recovery.Handled?))
  }

  lemma ParkedStep(st: Setting, s: System, d: Receipt, step: Step)
    requires Parked(s, d) && d.terminal.None? && Idling(step)
    ensures Parked(Apply(st, s, step), d)
  {
    hide ValidEvent, ValidCheckpoint, ValidResult, FinishEvent, LoadAccepts, Confirms;
  }

  lemma {:induction false} ParkedForever(st: Setting, s: System, d: Receipt, more: seq<Step>)
    requires Parked(s, d) && d.terminal.None? && forall i | 0 <= i < |more| :: Idling(more[i])
    ensures Parked(RunFrom(st, s, more), d)
    decreases |more|
  {
    hide Parked, Apply, Idling;
    if more != [] {
      ParkedForever(st, s, d, more[..|more| - 1]);
      ParkedStep(st, RunFrom(st, s, more[..|more| - 1]), d, more[|more| - 1]);
    }
  }

  /**
    A job reloaded as reserved is untouched by recovery and by everything else that is not a start or a cancel,
    further crashes included: the receipt stays as it is, and a job in memory can still be started.
   */
  lemma ReservedUntouched(st: Setting, steps: seq<Step>, more: seq<Step>)
    requires GoodSetting(st) && forall i | 0 <= i < |more| :: Idling(more[i])
    requires var d := Run(st, steps).disk; d.Some? && d.value.status.Reserved?
    ensures var t := Run(st, steps + [Crash, Restart] + more);
      && t.disk == Run(st, steps).disk
      && (HasLive(t) ==>
            && Ready(t) && JobOf(t).status.Reserved? && JobOf(t).terminal.None?
            && !JobOf(t).started && !JobOf(t).cancelled)
  {
    hide ValidEvent, ValidCheckpoint, ValidResult, Tally, PushesFollow, RunFrom, LiveInv, GoodSetting, Idling;
    InvOf(st, steps);
    var s := Run(st, steps);
    AcceptsExactly(st, s.disk.value);
    RunMore(st, steps, [Crash, Restart]);
    RunTwo(st, s, Crash, Restart);
    ParkedForever(st, Run(st, steps + [Crash, Restart]), s.disk.value, more);
    RunMore(st, steps + [Crash, Restart], more);
  }

  // ---- recovery beside a running execution ----

  /** A terminal event is recorded while the execution it speaks of is still running. */
  predicate Mistaken(s: System) { HasLive(s) && Executing(LiveOf(s).run) && JobOf(s).terminal.Some? }

  /** Recovery has the job before it, or is about to report it. */
  predicate Endangered(s: System) {
    && HasLive(s)
    && (|| (LiveOf(s).recovery.Queued? && JobOf(s).status.Started?)
        || LiveOf(s).recovery.Probing?
        || LiveOf(s).recovery.Handing?)
  }

  predicate SparedRun(s: System) {
    HasLive(s) && Executing(LiveOf(s).run) ==>
      && JobOf(s).terminal.None?
      && (LiveOf(s).recovery.Handled? || (LiveOf(s).recovery.Queued? && !JobOf(s).status.Started?))
  }

  /** The start claim is spent, and recovery will not touch an execution that is running. */
  predicate Spared(s: System) { s.disk.Some? && Rank(s.disk.value.status) >= 2 && SparedRun(s) }

  lemma SparedStepHandlers(st: Setting, s: System, step: Step)
    requires Inv(st, s) && Spared(s)
    requires OfHandlers(step)
    ensures SparedRun(Apply(st, s, step))
  {
    hide ValidEvent, ValidCheckpoint, ValidResult, FinishEvent, Tally, PushesFollow, Shape, LogInv, LiveLogInv,
      JobInv, RunInv;
  }

  lemma SparedStepExecution(st: Setting, s: System, step: Step)
    requires Inv(st, s) && Spared(s)
    requires OfExecution(step)
    ensures SparedRun(Apply(st, s, step))
  {
    hide ValidEvent, ValidCheckpoint, ValidResult, FinishEvent, Tally, PushesFollow, Shape, LogInv, LiveLogInv,
      JobInv, RunInv;
  }

  lemma SparedRetry(st: Setting, s: System, e: Event, o: SaveOutcome)
    requires Inv(st, s) && Spared(s)
    ensures SparedRun(DoDeliverRetry(s, e, o))
  {
    hide ValidEvent, ValidCheckpoint, ValidResult, FinishEvent, Tally, PushesFollow, Shape, LogInv, LiveLogInv,
      JobInv, RunInv;
  }

  lemma SparedDeliver(st: Setting, s: System, o: SaveOutcome)
    requires Inv(st, s) && Spared(s)
    ensures SparedRun(DoDeliverRun(s, o)) && SparedRun(DoDeliverRecovered(s, o))
  {
    hide ValidEvent, ValidCheckpoint, ValidResult, FinishEvent, Tally, PushesFollow, Shape, LogInv, LiveLogInv,
      JobInv, RunInv;
  }

  lemma SparedCallback(st: Setting, s: System, reply: Reply, o: SaveOutcome)
    requires Inv(st, s) && Spared(s)
    ensures SparedRun(DoCallback(s, reply, o))
  {
    hide ValidEvent, ValidCheckpoint, ValidResult, FinishEvent, Tally, PushesFollow, Shape, LogInv, LiveLogInv,
      JobInv, RunInv;
  }

  lemma SparedStepReporting(st: Setting, s: System, step: Step)
    requires Inv(st, s) && Spared(s)
    requires OfReporting(step)
    ensures SparedRun(Apply(st, s, step))
  {
    hide Inv, Spared, SparedRun, DoDeliverRun, DoDeliverRecovered, DoDeliverRetry, DoCallback;
    match step
    case DeliverRun(o) => SparedDeliver(st, s, o);
    case DeliverRecovered(o) => SparedDeliver(st, s, o);
    case DeliverRetry(e, o) => SparedRetry(st, s, e, o);
    case Callback(reply, o) => SparedCallback(st, s, reply, o);
  }

  lemma SparedStepProcess(st: Setting, s: System, step: Step)
    requires Inv(st, s) && Spared(s)
    requires !OfHandlers(step) && !OfExecution(step) && !OfReporting(step)
    ensures SparedRun(Apply(st, s, step))
  {
    hide ValidEvent, ValidCheckpoint, ValidResult, FinishEvent, Tally, PushesFollow, Shape, LogInv, LiveLogInv,
      JobInv, RunInv;
  }

  lemma SparedStep(st: Setting, s: System, step: Step)
    requires GoodSetting(st) && Inv(st, s) && Spared(s)
    ensures Spared(Apply(st, s, step))
  {
    hide Inv, GoodSetting, SparedRun, Apply, OfHandlers, OfExecution, OfReporting;
    RankStep(st, s, step);
    if OfHandlers(step) { SparedStepHandlers(st, s, step); }
    else if OfExecution(step) { SparedStepExecution(st, s, step); }
    else if OfReporting(step) { SparedStepReporting(st, s, step); }
    else { SparedStepProcess(st, s, step); }
  }

  lemma {:induction false} SparedForever(st: Setting, s: System, more: seq<Step>)
    requires GoodSetting(st) && Inv(st, s) && Spared(s)
    ensures Spared(RunFrom(st, s, more))
    decreases |more|
  {
    hide Inv, GoodSetting, Spared, Apply;
    if more != [] {
      SparedForever(st, s, more[..|more| - 1]);
      Reachable(st, s, more[..|more| - 1]);
      SparedStep(st, RunFrom(st, s, more[..|more| - 1]), more[|more| - 1]);
    }
  }

  const REPORTING := [RecoverLook, RecoverProbe(None), DeliverRecovered(Saved)]

  /** Three steps of recovery report an endangered execution that goes on running. */
  lemma EndangeredReported(st: Setting, s: System)
    requires Inv(st, s) && HasLive(s) && Executing(LiveOf(s).run) && JobOf(s).terminal.None? && Endangered(s)
    ensures Mistaken(RunFrom(st, s, REPORTING))
  {
    hide ValidEvent, ValidCheckpoint, ValidResult, Tally, PushesFollow, RunFrom, LogInv, LiveLogInv, RunInv, Apply,
      AttentionEvent;
    RunThree(st, s, RecoverLook, RecoverProbe(None), DeliverRecovered(Saved));
    ApplyRecovery(st, s, RecoverLook);
    var a := DoRecoverLook(st, s);
    ApplyRecovery(st, a, RecoverProbe(None));
    var b := DoRecoverProbe(st, a, None);
    ApplyRecovery(st, b, DeliverRecovered(Saved));
    assert LiveOf(b).recovery.Handing? && LiveOf(b).run == LiveOf(s).run && LiveOf(b).delivery.Quiet?;
    assert JobOf(b) == JobOf(s) && Ready(b);
  }

  /**
    In every reachable state with an execution in progress and nothing reported: some continuation reports the job
    while it runs, if and only if recovery still has it queued as started, is probing it or is handing its report on.
   */
  lemma MistakenExactly(st: Setting, steps: seq<Step>)
    requires GoodSetting(st)
    requires var s := Run(st, steps); HasLive(s) && Executing(LiveOf(s).run) && JobOf(s).terminal.None?
    ensures var s := Run(st, steps); (exists more :: Mistaken(RunFrom(st, s, more))) <==> Endangered(s)
  {
    hide ValidEvent, ValidCheckpoint, ValidResult, Tally, PushesFollow, RunFrom, LogInv, LiveLogInv, RunInv, Shape,
      GoodSetting;
    InvOf(st, steps);
    var s := Run(st, steps);
    if Endangered(s) {
      EndangeredReported(st, s);
    } else {
      assert Spared(s);
      forall more ensures !Mistaken(RunFrom(st, s, more)) { SparedForever(st, s, more); }
    }
  }

  const RECOVERING := [RecoverLook, DeliverRecovered(Saved)]

  /** A reservation that is reloaded and started before recovery reaches it is reported interrupted while it runs. */
  lemma LiveJobReportedInterrupted(st: Setting, sub: Submission, id: string)
    requires GoodSetting(st) && st.admits(sub) && sub.attempt == st.attempt && JobForm(id)
    ensures var s := Run(st, [Restart, Submit(sub, id, Saved)] + [Crash, Restart] + STARTING + RECOVERING);
      && HasLive(s) && LiveOf(s).run.Coding? && !JobOf(s).stopped
      && s.disk.Some? && s.disk.value.terminal.Some? && s.disk.value.terminal.value.errorCode == "agent_adapter_interrupted"
  {
    hide ValidEvent, ValidCheckpoint, ValidResult, JobForm, GoodSetting, RunFrom;
    var q := Reservation(st, sub, id, Queued);
    Reserves(st, sub, id);
    RunConcat(st, INITIAL, [Restart, Submit(sub, id, Saved)], [Crash, Restart]);
    RunConcat(st, INITIAL, [Restart, Submit(sub, id, Saved)] + [Crash, Restart], STARTING);
    StartGoes(st, q);
    RunConcat(st, INITIAL, [Restart, Submit(sub, id, Saved)] + [Crash, Restart] + STARTING, RECOVERING);
    RunTwo(st, RunFrom(st, q, STARTING), RecoverLook, DeliverRecovered(Saved));
  }
}
