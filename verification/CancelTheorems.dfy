/**
  Cancellation over every run: when an acknowledged cancel request is final, and the runs in which it is not.
 */
module CancelTheorems {
  import opened Records
  import opened Protocol
  import opened ProtocolInvariant
  import opened ProtocolTheorems

  // ---- cancellation ----

  /**
    Nothing is left to launch or to record: the start claim is spent on disk, no start in progress can launch, and a
    running execution can record no checkpoint.
   */
  predicate Barred(s: System) {
    && s.disk.Some? && Rank(s.disk.value.status) >= 1
    && (HasLive(s) ==>
          && (LiveOf(s).start.Unlocked? || s.process.closed)
          && (LiveOf(s).run.Coding? ==> JobOf(s).cancelled || !JobOf(s).status.Started?))
  }

  predicate SameWork(a: System, b: System) {
    Tally(a.log, TLaunch) == Tally(b.log, TLaunch) && Tally(a.log, TAccept) == Tally(b.log, TAccept)
  }

  lemma LogStep(st: Setting, s: System, step: Step)
    requires HasLive(s) ==> LiveOf(s).start.Unlocked? || s.process.closed
    ensures var t := Apply(st, s, step);
      || t.log == s.log
      || (t.log == s.log + [t.log[|s.log|]] && !t.log[|s.log|].Launch?
          && (t.log[|s.log|].Accept? ==>
                step.RetainCheckpoint? && Ready(s) && LiveOf(s).run.Coding? && MayRetain(JobOf(s), step.c)))
  {
    hide ValidEvent, ValidCheckpoint, ValidResult, FinishEvent;
  }

  lemma BarredStepHandlers(st: Setting, s: System, step: Step)
    requires GoodSetting(st) && Inv(st, s) && Barred(s)
    requires OfHandlers(step)
    ensures Barred(Apply(st, s, step))
  {
    hide ValidEvent, ValidCheckpoint, ValidResult, FinishEvent, Tally, PushesFollow, LogInv, LiveLogInv, RunInv,
      ReportInv;
  }

  lemma BarredStepExecution(st: Setting, s: System, step: Step)
    requires GoodSetting(st) && Inv(st, s) && Barred(s)
    requires OfExecution(step)
    ensures Barred(Apply(st, s, step))
  {
    hide ValidEvent, ValidCheckpoint, ValidResult, FinishEvent, Tally, PushesFollow, LogInv, LiveLogInv, RunInv,
      ReportInv;
  }

  lemma BarredStepReporting(st: Setting, s: System, step: Step)
    requires GoodSetting(st) && Inv(st, s) && Barred(s)
    requires OfReporting(step)
    ensures Barred(Apply(st, s, step))
  {
    hide ValidEvent, ValidCheckpoint, ValidResult, FinishEvent, Tally, PushesFollow, LogInv, LiveLogInv, RunInv,
      ReportInv, Apply;
    ReportStep(st, s, step);
  }

  lemma BarredStepProcess(st: Setting, s: System, step: Step)
    requires GoodSetting(st) && Inv(st, s) && Barred(s)
    requires !OfHandlers(step) && !OfExecution(step) && !OfReporting(step)
    ensures Barred(Apply(st, s, step))
  {
    hide ValidEvent, ValidCheckpoint, ValidResult, FinishEvent, Tally, PushesFollow, LogInv, LiveLogInv, RunInv,
      ReportInv;
  }

  lemma BarredStep(st: Setting, s: System, step: Step)
    requires GoodSetting(st) && Inv(st, s) && Barred(s)
    ensures Barred(Apply(st, s, step))
  {
    hide *;
    if OfHandlers(step) { BarredStepHandlers(st, s, step); }
    else if OfExecution(step) { BarredStepExecution(st, s, step); }
    else if OfReporting(step) { BarredStepReporting(st, s, step); }
    else { BarredStepProcess(st, s, step); }
  }

  lemma BarredWork(st: Setting, s: System, step: Step)
    requires Barred(s)
    ensures SameWork(s, Apply(st, s, step))
  {
    hide ValidEvent, ValidCheckpoint, ValidResult, FinishEvent, Tally, Apply;
    LogStep(st, s, step);
    var t := Apply(st, s, step);
    if t.log != s.log { DidTally(s.log, t.log[|s.log|]); }
  }

  lemma {:induction false} BarredForever(st: Setting, s: System, more: seq<Step>)
    requires GoodSetting(st) && Inv(st, s) && Barred(s)
    ensures Barred(RunFrom(st, s, more)) && SameWork(s, RunFrom(st, s, more))
    decreases |more|
  {
    if more != [] {
      var front := more[..|more| - 1];
      BarredForever(st, s, front);
      Reachable(st, s, front);
      BarredStep(st, RunFrom(st, s, front), more[|more| - 1]);
      BarredWork(st, RunFrom(st, s, front), more[|more| - 1]);
    }
  }

  /** A job that is terminal in memory and still reserved on disk: its cancel is acknowledged without a save. */
  predicate LostCancel(s: System) {
    Ready(s) && JobOf(s).status.Terminal? && s.disk.Some? && s.disk.value.status.Reserved?
  }

  /** The handler answers 204: at once if the request names no job in memory, and otherwise under the job's lock. */
  predicate Acknowledges(s: System, id: string, attempt: string, o: SaveOutcome) {
    s.process.Up? && (Names(s, id, attempt) ==> Ready(s) && (JobOf(s).status.Terminal? || o.Saved?))
  }

  lemma CancelBars(st: Setting, s: System, id: string, attempt: string, o: SaveOutcome)
    requires GoodSetting(st) && Inv(st, s) && Acknowledges(s, id, attempt, o)
    ensures Barred(DoCancel(s, id, attempt, o)) <==> (Names(s, id, attempt) && !LostCancel(s)) || Barred(s)
    ensures DoCancel(s, id, attempt, o).log == s.log + [AckCancel(id)]
    ensures !Barred(DoCancel(s, id, attempt, o)) ==> DoCancel(s, id, attempt, o) == Did(s, AckCancel(id))
  {
    hide ValidEvent, ValidCheckpoint, ValidResult, Tally, PushesFollow, ReportInv, LogInv, LiveLogInv;
  }

  /** A saved cancel of a job in memory stops its execution and is on disk. */
  lemma CancelStops(s: System, o: SaveOutcome)
    requires Ready(s) && !JobOf(s).status.Terminal?
    ensures var t := DoCancel(s, JobOf(s).id, JobOf(s).submission.attempt, o);
      && Ready(t) && JobOf(t).stopped && JobOf(t).cancelled && JobOf(t).status.Cancelled?
      && (o.Saved? ==> t.disk.Some? && t.disk.value.status.Cancelled? && t.disk.value.job == JobOf(s).id)
  {}

  lemma ReservedRelaunches(st: Setting, s: System)
    requires GoodSetting(st) && Inv(st, s) && s.disk.Some? && s.disk.value.status.Reserved?
    ensures Tally(RunFrom(st, s, [Crash, Restart] + STARTING).log, TLaunch) == Tally(s.log, TLaunch) + 1
  {
    hide ValidEvent, ValidCheckpoint, ValidResult, Tally, PushesFollow, JobForm, RunFrom, GoodSetting;
    AcceptsExactly(st, s.disk.value);
    var id := s.disk.value.job;
    RunConcat(st, s, [Crash, Restart], STARTING);
    RunTwo(st, s, Crash, Restart);
    StartGoes(st, RunFrom(st, s, [Crash, Restart]));
    DidTally(s.log, Claim(id));
    DidTally(s.log + [Claim(id)], Launch(id));
  }

  const GOOD_CHECKPOINT := Checkpoint(Evidence(seq(40, i => 'a'), seq(64, i => 'a'), 1, 1, "", "", 0), [])

  lemma CodingRecords(st: Setting, s: System)
    requires Inv(st, s) && HasLive(s) && LiveOf(s).run.Coding? && !JobOf(s).cancelled && JobOf(s).status.Started?
    ensures Tally(RunFrom(st, s, [RetainCheckpoint(GOOD_CHECKPOINT, Saved)]).log, TAccept) == Tally(s.log, TAccept) + 1
  {
    hide ValidEvent, ValidResult, Tally, PushesFollow, RunFrom, ReportInv, LogInv, LiveLogInv, Shape;
    RunOne(st, s, RetainCheckpoint(GOOD_CHECKPOINT, Saved));
    DidTally(s.log, Accept(GOOD_CHECKPOINT));
  }

  lemma StartLaunches(st: Setting, s: System)
    requires HasLive(s) && !LiveOf(s).start.Unlocked? && !s.process.closed
    ensures Tally(RunFrom(st, s, [StartGate(true), StartCommit(Saved)]).log, TLaunch) == Tally(s.log, TLaunch) + 1
  {
    hide Tally, RunFrom;
    RunTwo(st, s, StartGate(true), StartCommit(Saved));
    DidTally(s.log, Claim(JobOf(s).id));
    DidTally(s.log + [Claim(JobOf(s).id)], Launch(JobOf(s).id));
    DidTally(s.log, Launch(JobOf(s).id));
  }

  lemma EmptyLaunches(st: Setting, s: System, sub: Submission, id: string)
    requires GoodSetting(st) && st.admits(sub) && sub.attempt == st.attempt && JobForm(id) && s.disk.None?
    ensures Tally(RunFrom(st, s, [Crash, Restart, Submit(sub, id, Saved)] + STARTING).log, TLaunch) == Tally(s.log, TLaunch) + 1
  {
    hide JobForm, Tally, RunFrom;
    RunConcat(st, s, [Crash, Restart, Submit(sub, id, Saved)], STARTING);
    RunThree(st, s, Crash, Restart, Submit(sub, id, Saved));
    StartGoes(st, RunFrom(st, s, [Crash, Restart, Submit(sub, id, Saved)]));
    DidTally(s.log, Claim(id));
    DidTally(s.log + [Claim(id)], Launch(id));
  }

  /** An attempt that is not barred can still do work. */
  lemma OpenWorks(st: Setting, s: System, sub: Submission, id: string) returns (more: seq<Step>)
    requires GoodSetting(st) && st.admits(sub) && sub.attempt == st.attempt && JobForm(id)
    requires Inv(st, s) && !Barred(s)
    ensures !SameWork(s, RunFrom(st, s, more))
  {
    hide ValidEvent, ValidCheckpoint, ValidResult, Tally, PushesFollow, RunFrom, ReportInv, LogInv, LiveLogInv,
      JobForm, GoodSetting;
    if s.disk.None? {
      EmptyLaunches(st, s, sub, id);
      more := [Crash, Restart, Submit(sub, id, Saved)] + STARTING;
    } else if s.disk.value.status.Reserved? {
      ReservedRelaunches(st, s);
      more := [Crash, Restart] + STARTING;
    } else if !LiveOf(s).start.Unlocked? {
      StartLaunches(st, s);
      more := [StartGate(true), StartCommit(Saved)];
    } else {
      CodingRecords(st, s);
      more := [RetainCheckpoint(GOOD_CHECKPOINT, Saved)];
    }
  }

  lemma BarredExactly(st: Setting, s: System, sub: Submission, id: string)
    requires GoodSetting(st) && st.admits(sub) && sub.attempt == st.attempt && JobForm(id) && Inv(st, s)
    ensures (forall more :: SameWork(s, RunFrom(st, s, more))) <==> Barred(s)
  {
    hide GoodSetting, Inv, Barred, SameWork, RunFrom, JobForm;
    if Barred(s) {
      forall more ensures SameWork(s, RunFrom(st, s, more)) { BarredForever(st, s, more); }
    } else {
      var more := OpenWorks(st, s, sub, id);
    }
  }

  /**
    In every reachable state, for every acknowledged cancel request: no launch can follow and no checkpoint be
    recorded, whatever the rest of the run, exactly when the request names the job in memory and is not the lost
    cancel, or the attempt had no work left anyway.
   */
  lemma CancelFinalExactly(st: Setting, steps: seq<Step>, id: string, attempt: string, o: SaveOutcome,
      sub: Submission, other: string)
    requires GoodSetting(st) && st.admits(sub) && sub.attempt == st.attempt && JobForm(other)
    requires Acknowledges(Run(st, steps), id, attempt, o)
    ensures var s := Run(st, steps);
      var t := Run(st, steps + [Cancel(id, attempt, o)]);
      && t.log == s.log + [AckCancel(id)]
      && ((forall more :: SameWork(t, RunFrom(st, t, more))) <==>
          (Names(s, id, attempt) && !LostCancel(s)) || Barred(s))
  {
    hide GoodSetting, Inv, Barred, SameWork, RunFrom, JobForm, Names, LostCancel, Acknowledges, DoCancel;
    InvOf(st, steps);
    var s := Run(st, steps);
    RunStep(st, INITIAL, steps, Cancel(id, attempt, o));
    CancelBars(st, s, id, attempt, o);
    KeepCancel(st, s, id, attempt, o);
    BarredExactly(st, DoCancel(s, id, attempt, o), sub, other);
  }

  /** A job that was submitted in one spelling of the attempt ID and cancelled in another is launched all the same. */
  lemma MisspelledCancelLaunches(st: Setting, sub: Submission, id: string, spelling: string)
    requires GoodSetting(st) && st.admits(sub) && sub.attempt == st.attempt && JobForm(id) && spelling != st.attempt
    ensures Run(st, [Restart, Submit(sub, id, Saved)] + [Cancel(id, spelling, Saved)] + STARTING).log ==
      [AckCancel(id)] + [Claim(id)] + [Launch(id)]
  {
    hide JobForm, GoodSetting, RunFrom;
    var before := [Restart, Submit(sub, id, Saved)];
    Reserves(st, sub, id);
    RunConcat(st, INITIAL, before, [Cancel(id, spelling, Saved)]);
    RunOne(st, Reservation(st, sub, id, Handled), Cancel(id, spelling, Saved));
    RunConcat(st, INITIAL, before + [Cancel(id, spelling, Saved)], STARTING);
    StartGoes(st, Did(Reservation(st, sub, id, Handled), AckCancel(id)));
  }

  /** A reservation whose save was reported lost but reached the disk is cancelled, reloaded and launched. */
  lemma UnknownCancelLaunches(st: Setting, sub: Submission, id: string)
    requires GoodSetting(st) && st.admits(sub) && sub.attempt == st.attempt && JobForm(id)
    ensures Run(st, [Restart, Submit(sub, id, LostNew), Cancel(id, st.attempt, Saved)] + [Crash, Restart] + STARTING).log ==
      [AckCancel(id)] + [Claim(id)] + [Launch(id)]
  {
    hide ValidEvent, ValidCheckpoint, JobForm, Hex64, RunFrom;
    var before := [Restart, Submit(sub, id, LostNew), Cancel(id, st.attempt, Saved)];
    RunThree(st, INITIAL, before[0], before[1], before[2]);
    var s := RunFrom(st, INITIAL, before);
    assert s == System(Some(Persist(NewJob(st, id, sub))), Up(false, None), [AckCancel(id)]);
    RunConcat(st, INITIAL, before, [Crash, Restart]);
    RunTwo(st, s, Crash, Restart);
    RunConcat(st, INITIAL, before + [Crash, Restart], STARTING);
    StartGoes(st, RunFrom(st, s, [Crash, Restart]));
  }

  const LOSING := [StartBegin(false, LostOld), RecoverLook, DeliverRecovered(LostOld)]

  /**
    A lost cancel is reachable: recovery meets a reservation whose start could not be written, and neither write
    lasts.
   */
  lemma LostCancelReachable(st: Setting, sub: Submission, id: string)
    requires GoodSetting(st) && st.admits(sub) && sub.attempt == st.attempt && JobForm(id)
    ensures LostCancel(Run(st, [Restart, Submit(sub, id, Saved)] + [Crash, Restart] + LOSING))
  {
    hide ValidEvent, ValidCheckpoint, ValidResult, JobForm, GoodSetting, RunFrom;
    Reserves(st, sub, id);
    RunConcat(st, INITIAL, [Restart, Submit(sub, id, Saved)], [Crash, Restart]);
    RunConcat(st, INITIAL, [Restart, Submit(sub, id, Saved)] + [Crash, Restart], LOSING);
    RunThree(st, Reservation(st, sub, id, Queued), LOSING[0], LOSING[1], LOSING[2]);
  }
}
