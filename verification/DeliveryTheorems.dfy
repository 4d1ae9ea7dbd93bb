/**
  Terminal delivery over every run: what the durable flags say about the control plane's answers, that pending events
  are sent again, what an execution reports, and when it reports nothing. Also what a reload refuses.
 */
module DeliveryTheorems {
  import opened Records
  import opened Protocol
  import opened ProtocolInvariant
  import opened ProtocolTheorems

  // ---- the flags are the answers ----

  /** The step hands the control plane's acceptance, or its conflict, to a delivery in progress. */
  predicate AnswersNow(s: System, step: Step, accepted: bool) {
    && Ready(s) && LiveOf(s).delivery.Sending? && step.Callback?
    && (if accepted then step.reply.Accepted? else step.reply.Conflict?)
  }

  predicate Answered(st: Setting, steps: seq<Step>, accepted: bool) {
    exists k | 0 <= k < |steps| :: AnswersNow(Run(st, steps[..k]), steps[k], accepted)
  }

  predicate Marked(s: System, accepted: bool, conflicted: bool) {
    && (s.disk.Some? ==> (s.disk.value.delivered ==> accepted) && (s.disk.value.rejected ==> conflicted))
    && (HasLive(s) ==> (JobOf(s).delivered ==> accepted) && (JobOf(s).rejected ==> conflicted))
  }

  lemma MarkedRequests(st: Setting, s: System, step: Step, accepted: bool, conflicted: bool)
    requires Marked(s, accepted, conflicted) && (step.Submit? || step.Cancel?)
    ensures Marked(Apply(st, s, step), accepted, conflicted)
  {
    hide ValidEvent, ValidCheckpoint, ValidResult, FinishEvent, Confirms, LoadAccepts;
  }

  lemma MarkedStarts(st: Setting, s: System, step: Step, accepted: bool, conflicted: bool)
    requires Marked(s, accepted, conflicted) && (step.StartBegin? || step.StartGate? || step.StartCommit?)
    ensures Marked(Apply(st, s, step), accepted, conflicted)
  {
    hide ValidEvent, ValidCheckpoint, ValidResult, FinishEvent, Confirms, LoadAccepts;
  }

  lemma MarkedExecution(st: Setting, s: System, step: Step, accepted: bool, conflicted: bool)
    requires Marked(s, accepted, conflicted) && OfExecution(step)
    ensures Marked(Apply(st, s, step), accepted, conflicted)
  {
    hide ValidEvent, ValidCheckpoint, ValidResult, FinishEvent, Confirms, LoadAccepts;
  }

  lemma MarkedProcess(st: Setting, s: System, step: Step, accepted: bool, conflicted: bool)
    requires Marked(s, accepted, conflicted) && !OfHandlers(step) && !OfExecution(step) && !OfReporting(step)
    ensures Marked(Apply(st, s, step), accepted, conflicted)
  {
    hide ValidEvent, ValidCheckpoint, ValidResult, FinishEvent, Confirms, LoadAccepts;
  }

  lemma MarkedBegin(s: System, e: Event, o: SaveOutcome, accepted: bool, conflicted: bool)
    requires Marked(s, accepted, conflicted) && HasLive(s)
    ensures Marked(Begin(s, e, o), accepted, conflicted)
  {
    hide IgnoresTerminal;
  }

  lemma MarkedDelivery(s: System, e: Event, o: SaveOutcome, accepted: bool, conflicted: bool)
    requires Marked(s, accepted, conflicted)
    ensures Marked(DoDeliverRun(s, o), accepted, conflicted)
    ensures Marked(DoDeliverRecovered(s, o), accepted, conflicted)
    ensures Marked(DoDeliverRetry(s, e, o), accepted, conflicted)
  {
    hide Begin;
    if Ready(s) {
      var l := LiveOf(s);
      if l.run.Reporting? { MarkedBegin(Put(s, l.(run := Ended)), l.run.e, o, accepted, conflicted); }
      if l.recovery.Handing? { MarkedBegin(Put(s, l.(recovery := Handled)), l.recovery.e, o, accepted, conflicted); }
      MarkedBegin(Put(s, l.(retries := l.retries - multiset{e})), e, o, accepted, conflicted);
    }
  }

  lemma MarkedCallback(s: System, reply: Reply, o: SaveOutcome, accepted: bool, conflicted: bool)
    requires Marked(s, accepted, conflicted)
    ensures var step := Callback(reply, o);
      Marked(DoCallback(s, reply, o), accepted || AnswersNow(s, step, true), conflicted || AnswersNow(s, step, false))
  {}

  lemma MarkedStep(st: Setting, s: System, step: Step, accepted: bool, conflicted: bool)
    requires Marked(s, accepted, conflicted)
    ensures Marked(Apply(st, s, step), accepted || AnswersNow(s, step, true), conflicted || AnswersNow(s, step, false))
  {
    hide Marked, DoDeliverRun, DoDeliverRecovered, DoDeliverRetry, DoCallback;
    match step
    case DeliverRun(o) => MarkedDelivery(s, NO_EVENT, o, accepted, conflicted);
    case DeliverRecovered(o) => MarkedDelivery(s, NO_EVENT, o, accepted, conflicted);
    case DeliverRetry(e, o) => MarkedDelivery(s, e, o, accepted, conflicted);
    case Callback(reply, o) => MarkedCallback(s, reply, o, accepted, conflicted);
    case _ =>
      hide Apply;
      if step.Submit? || step.Cancel? { MarkedRequests(st, s, step, accepted, conflicted); }
      else if OfHandlers(step) { MarkedStarts(st, s, step, accepted, conflicted); }
      else if OfExecution(step) { MarkedExecution(st, s, step, accepted, conflicted); }
      else { MarkedProcess(st, s, step, accepted, conflicted); }
  }

  const NO_EVENT := Event("", "", SFailed, Heartbeat, "", "", "", 0, "", NO_EVIDENCE, [])

  lemma AnsweredSnoc(st: Setting, steps: seq<Step>, accepted: bool)
    requires steps != []
    ensures var n := |steps| - 1;
      Answered(st, steps[..n], accepted) || AnswersNow(Run(st, steps[..n]), steps[n], accepted) ==>
        Answered(st, steps, accepted)
  {
    hide AnswersNow;
    var front := steps[..|steps| - 1];
    if Answered(st, front, accepted) {
      var k :| 0 <= k < |front| && AnswersNow(Run(st, front[..k]), front[k], accepted);
      assert front[..k] == steps[..k] && front[k] == steps[k];
    }
  }

  lemma RunNone(st: Setting)
    ensures Run(st, []) == INITIAL
  {}

  lemma {:induction false} FlagsAnswered(st: Setting, steps: seq<Step>)
    ensures Marked(Run(st, steps), Answered(st, steps, true), Answered(st, steps, false))
  {
    hide Apply, AnswersNow, Answered, RunFrom, Marked;
    if steps == [] {
      RunNone(st);
      NothingMarked();
    } else {
      var front := steps[..|steps| - 1];
      FlagsAnswered(st, front);
      assert steps == front + [steps[|steps| - 1]];
      RunStep(st, INITIAL, front, steps[|steps| - 1]);
      MarkedStep(st, Run(st, front), steps[|steps| - 1], Answered(st, front, true), Answered(st, front, false));
      AnsweredSnoc(st, steps, true);
      AnsweredSnoc(st, steps, false);
      MarkedMore(Run(st, steps),
        Answered(st, front, true) || AnswersNow(Run(st, front), steps[|steps| - 1], true),
        Answered(st, front, false) || AnswersNow(Run(st, front), steps[|steps| - 1], false),
        Answered(st, steps, true), Answered(st, steps, false));
    }
  }

  lemma NothingMarked()
    ensures forall a, c :: Marked(INITIAL, a, c)
  {}

  lemma MarkedMore(s: System, accepted: bool, conflicted: bool, more: bool, further: bool)
    requires Marked(s, accepted, conflicted) && (accepted ==> more) && (conflicted ==> further)
    ensures Marked(s, more, further)
  {}

  /** Over every run: "delivered" is on disk only after an acceptance, and "rejected" only after a conflict. */
  lemma FlagsMean(st: Setting, steps: seq<Step>)
    ensures var d := Run(st, steps).disk;
      && (d.Some? && d.value.delivered ==> Answered(st, steps, true))
      && (d.Some? && d.value.rejected ==> Answered(st, steps, false))
  {
    hide Answered, RunFrom;
    FlagsAnswered(st, steps);
  }

  /** The answer is recorded in memory and on disk. */
  predicate Recorded(s: System, accepted: bool) {
    && s.disk.Some? && s.disk.value.terminal.Some?
    && (if accepted then s.disk.value.delivered else s.disk.value.rejected)
    && (HasLive(s) ==> if accepted then JobOf(s).delivered else JobOf(s).rejected)
  }

  lemma RecordedQuietStep(st: Setting, s: System, step: Step, accepted: bool)
    requires Inv(st, s) && Recorded(s, accepted) && !OfReporting(step)
    ensures Recorded(Apply(st, s, step), accepted)
  {
    hide ValidEvent, ValidCheckpoint, ValidResult, FinishEvent, Confirms, LoadAccepts, Tally, PushesFollow, LogInv,
      LiveLogInv, RunInv, ReportInv, Reportable, JobForm;
  }

  lemma RecordedReport(st: Setting, s: System, step: Step, accepted: bool)
    requires Inv(st, s) && Recorded(s, accepted) && OfReporting(step)
    ensures Recorded(Apply(st, s, step), accepted)
  {
    hide ValidEvent, ValidCheckpoint, ValidResult, Tally, PushesFollow, LogInv, LiveLogInv, RunInv, Reportable, JobForm,
      StartInv;
  }

  lemma {:induction false} RecordedForever(st: Setting, s: System, accepted: bool, more: seq<Step>)
    requires GoodSetting(st) && Inv(st, s) && Recorded(s, accepted)
    ensures Recorded(RunFrom(st, s, more), accepted)
    decreases |more|
  {
    hide Inv, GoodSetting, Recorded, Apply, OfReporting;
    if more != [] {
      var front := more[..|more| - 1];
      RecordedForever(st, s, accepted, front);
      Reachable(st, s, front);
      var step := more[|more| - 1];
      if OfReporting(step) { RecordedReport(st, RunFrom(st, s, front), step, accepted); }
      else { RecordedQuietStep(st, RunFrom(st, s, front), step, accepted); }
    }
  }

  lemma AnswerRecorded(st: Setting, s: System, accepted: bool)
    requires Inv(st, s) && Ready(s) && LiveOf(s).delivery.Sending?
    ensures var t := Apply(st, s, Callback(if accepted then Accepted else Conflict, Saved));
      && Recorded(t, accepted) && t.log == s.log + [Send(LiveOf(s).delivery.e)]
      && t.disk.value.terminal == Some(LiveOf(s).delivery.e)
      && t.disk.value.delivered == accepted && t.disk.value.rejected == !accepted
  {
    hide ValidEvent, ValidCheckpoint, ValidResult, Tally, PushesFollow, LogInv, LiveLogInv, RunInv, Reportable, JobForm,
      StartInv, Shape;
  }

  /**
    In every run that has a delivery in progress: an acceptance that is saved leaves "delivered" on disk, and a
    conflict leaves "rejected", under every continuation; and never the other flag as well.
   */
  lemma AnswerKept(st: Setting, steps: seq<Step>, accepted: bool, more: seq<Step>)
    requires GoodSetting(st)
    requires var s := Run(st, steps); Ready(s) && LiveOf(s).delivery.Sending?
    ensures var step := Callback(if accepted then Accepted else Conflict, Saved);
      var d := Run(st, steps + [step] + more).disk;
      && d.Some? && d.value.terminal == Some(LiveOf(Run(st, steps)).delivery.e)
      && d.value.delivered == accepted && d.value.rejected == !accepted
  {
    hide Inv, GoodSetting, Apply, RunFrom;
    var step := Callback(if accepted then Accepted else Conflict, Saved);
    InvOf(st, steps);
    var s := Run(st, steps);
    AnswerRecorded(st, s, accepted);
    RunStep(st, INITIAL, steps, step);
    InvOf(st, steps + [step]);
    var t := Run(st, steps + [step]);
    RecordedForever(st, t, accepted, more);
    RunMore(st, steps + [step], more);
    InvOf(st, steps + [step] + more);
    var u := Run(st, steps + [step] + more);
    OneFlag(st, u);
    SentStays(st, t, LiveOf(s).delivery.e, more);
    SentIsDurable(st, u, LiveOf(s).delivery.e);
  }

  lemma OneFlag(st: Setting, s: System)
    requires Inv(st, s) && s.disk.Some?
    ensures !(s.disk.value.delivered && s.disk.value.rejected)
  {}

  lemma SentIsDurable(st: Setting, s: System, e: Event)
    requires Inv(st, s) && Send(e) in s.log
    ensures s.disk.Some? && s.disk.value.terminal == Some(e)
  {}

  lemma LogGrows(st: Setting, s: System, step: Step, a: Act)
    requires a in s.log
    ensures a in Apply(st, s, step).log
  {
    hide ValidEvent, ValidCheckpoint, ValidResult, FinishEvent, Confirms, LoadAccepts, IgnoresTerminal, Persist;
  }

  lemma {:induction false} SentStays(st: Setting, s: System, e: Event, more: seq<Step>)
    requires Send(e) in s.log
    ensures Send(e) in RunFrom(st, s, more).log
    decreases |more|
  {
    hide Apply;
    if more != [] {
      SentStays(st, s, e, more[..|more| - 1]);
      LogGrows(st, RunFrom(st, s, more[..|more| - 1]), more[|more| - 1], Send(e));
    }
  }

  // ---- pending events are sent again ----

  predicate PendingEvent(r: Receipt) { r.status.Terminal? && r.terminal.Some? && !r.delivered && !r.rejected }

  /** After a restart, recovery sends a durable undelivered event once more, whatever it says. */
  lemma RecoveryResends(st: Setting, s: System)
    requires s.process.Down? && s.disk.Some? && LoadAccepts(st, s.disk.value) && PendingEvent(s.disk.value)
    ensures var t := RunFrom(st, DoRestart(st, s), [RecoverLook, DeliverRecovered(Saved), Callback(Accepted, Saved)]);
      && t.log == s.log + [Send(s.disk.value.terminal.value)]
      && t.disk.Some? && t.disk.value.delivered && t.disk.value.terminal == s.disk.value.terminal
  {
    hide RunFrom, LoadAccepts, InterruptedEvent;
    RunThree(st, DoRestart(st, s), RecoverLook, DeliverRecovered(Saved), Callback(Accepted, Saved));
  }

  /** A pass over pending events sends an undelivered event of a running service once more. */
  lemma RetryResends(st: Setting, s: System)
    requires Ready(s) && LiveOf(s).delivery.Quiet? && JobOf(s).terminal.Some? && !JobOf(s).delivered
    requires !JobOf(s).rejected
    ensures var e := JobOf(s).terminal.value;
      var t := RunFrom(st, s, [RetryLook, DeliverRetry(e, Saved), Callback(Accepted, Saved)]);
      && t.log == s.log + [Send(e)] && HasLive(t) && JobOf(t).delivered
      && t.disk.Some? && t.disk.value.delivered && t.disk.value.terminal == Some(e)
  {
    hide RunFrom;
    RunThree(st, s, RetryLook, DeliverRetry(JobOf(s).terminal.value, Saved), Callback(Accepted, Saved));
  }

  // ---- what an execution reports ----

  /**
    An execution is reported as completed if and only if it returned a valid result that matches its checkpoint, or
    it failed and the provider confirms the checkpoint; otherwise it needs attention, and the code says why.
   */
  lemma FinishExactly(st: Setting, j: Job, result: Option<Result>, probe: Option<Result>, note: Note)
    ensures var e := FinishEvent(st, j, result, probe, note);
      var good := r => ValidResult(st, j.submission, r) && j.publication.Some? && Matches(r, j.publication.value);
      && (e.kind.Completed? <==>
            (result.Some? && good(result.value)) || (result.None? && probe.Some? && good(probe.value)))
      && (e.kind.Completed? ==>
            && var r := if result.Some? then result.value else probe.value;
            && e.suffix.SCompleted? && e.branch == r.branch && e.url == r.url && e.number == r.number
            && e.evidence == j.publication.value.evidence && e.criteria == j.publication.value.criteria)
      && (!e.kind.Completed? ==> e.kind.NeedsAttention?)
      && (e.suffix.SFailed? <==> result.None? && !e.kind.Completed?)
      && (e.suffix.SFailed? ==> e.errorCode == note.code && e.summary == note.summary)
      && (e.suffix.SInvalidResult? <==> result.Some? && !ValidResult(st, j.submission, result.value))
      && (e.suffix.SMismatch? <==> result.Some? && ValidResult(st, j.submission, result.value) && !e.kind.Completed?)
      && e.job == j.id && e.attempt == st.uuid(j.submission.attempt)
  {
    hide ValidResult;
  }

  // ---- when nothing is launched or reported ----

  /** A shut-down process launches nothing, and a start past the deadline is cancelled on disk and launches nothing. */
  lemma ClosedLaunchesNothing(st: Setting, s: System, step: Step)
    requires s.process.Up? && s.process.closed
    ensures forall a | a in Apply(st, s, step).log && a.Launch? :: a in s.log
  {
    hide ValidEvent, ValidCheckpoint, ValidResult, FinishEvent, Confirms, LoadAccepts, IgnoresTerminal, Persist;
  }

  lemma ElapsedCancels(st: Setting, s: System)
    requires Ready(s) && !JobOf(s).cancelled && !JobOf(s).started
    ensures var t := Apply(st, s, StartBegin(true, Saved));
      && t.log == s.log && t.disk.Some? && t.disk.value.status.Cancelled? && Ready(t) && JobOf(t).cancelled
  {}

  /** Past a stop, an execution that was launched has no report of its own to make. */
  predicate Muted(s: System) {
    && s.disk.Some? && Rank(s.disk.value.status) >= 2 && MutedRun(s)
  }

  predicate MutedRun(s: System) {
    HasLive(s) ==> !LiveOf(s).run.Reporting? && (JobOf(s).stopped || LiveOf(s).run.Idle? || LiveOf(s).run.Ended?)
  }

  lemma MutedQuietStep(st: Setting, s: System, step: Step)
    requires Inv(st, s) && Muted(s) && !OfReporting(step)
    ensures MutedRun(Apply(st, s, step))
  {
    hide ValidEvent, ValidCheckpoint, ValidResult, FinishEvent, Confirms, LoadAccepts, Tally, PushesFollow, LogInv,
      LiveLogInv, RunInv, ReportInv, Shape, JobInv;
  }

  lemma MutedReport(st: Setting, s: System, step: Step)
    requires Inv(st, s) && Muted(s) && OfReporting(step)
    ensures MutedRun(Apply(st, s, step))
  {
    hide ValidEvent, ValidCheckpoint, ValidResult, Tally, PushesFollow, LogInv, LiveLogInv, RunInv, ReportInv, Shape,
      JobInv, StartInv, IgnoresTerminal, Persist;
  }

  lemma {:induction false} MutedForever(st: Setting, s: System, more: seq<Step>)
    requires GoodSetting(st) && Inv(st, s) && Muted(s)
    ensures Muted(RunFrom(st, s, more))
    decreases |more|
  {
    hide Inv, GoodSetting, MutedRun, Apply, OfReporting;
    if more != [] {
      var front := more[..|more| - 1];
      MutedForever(st, s, front);
      Reachable(st, s, front);
      var step := more[|more| - 1];
      RankStep(st, RunFrom(st, s, front), step);
      if OfReporting(step) { MutedReport(st, RunFrom(st, s, front), step); }
      else { MutedQuietStep(st, RunFrom(st, s, front), step); }
    }
  }

  /**
    In every run: once a launched execution has been stopped, by a cancel, a refused checkpoint or a shutdown, and had
    not begun to report, no continuation ever makes it report.
   */
  lemma StoppedReportsNothing(st: Setting, steps: seq<Step>, more: seq<Step>)
    requires GoodSetting(st)
    requires var s := Run(st, steps);
      HasLive(s) && !LiveOf(s).run.Idle? && !LiveOf(s).run.Reporting? && JobOf(s).stopped
    ensures var t := RunFrom(st, Run(st, steps), more); HasLive(t) ==> !LiveOf(t).run.Reporting?
  {
    hide Tally, PushesFollow, RunFrom, LogInv, LiveLogInv, RunInv, Shape, GoodSetting, JobInv, ReportInv;
    InvOf(st, steps);
    MutedForever(st, Run(st, steps), more);
  }

  // ---- reloading ----

  /** A reload brings back exactly what was written. */
  lemma ReloadKeeps(st: Setting, r: Receipt)
    requires LoadAccepts(st, r)
    ensures Persist(LoadJob(r)) == r
  {
    hide ValidEvent, ValidCheckpoint, Hex64, JobForm;
  }

  /** An accepted receipt that is changed in what binds it, or into a state the service never writes, is refused. */
  lemma TamperedRefused(st: Setting, r: Receipt, sub: Submission, digest: string, id: string, e: Event, c: Checkpoint)
    requires LoadAccepts(st, r)
    ensures digest != r.digest ==> !LoadAccepts(st, r.(digest := digest))
    ensures st.digest(sub) != r.digest || sub.attempt != r.attempt || !st.admits(sub) ==> !LoadAccepts(st, r.(submission := sub))
    ensures !JobForm(id) || (r.terminal.Some? && id != r.job) ==> !LoadAccepts(st, r.(job := id))
    ensures !LoadAccepts(st, r.(delivered := true, rejected := true))
    ensures !r.status.Terminal? ==> !LoadAccepts(st, r.(terminal := Some(e))) && !LoadAccepts(st, r.(status := Terminal))
    ensures !r.status.Terminal? ==> !LoadAccepts(st, r.(delivered := true)) && !LoadAccepts(st, r.(rejected := true))
    ensures r.status.Terminal? ==> !LoadAccepts(st, r.(terminal := None))
    ensures r.status.Terminal? && (e.job != r.job || e.attempt != r.attempt || e.kind.Heartbeat? || !ValidEvent(e)) ==>
      !LoadAccepts(st, r.(terminal := Some(e)))
    ensures !ValidCheckpoint(c) || Rank(r.status) < 2 ==> !LoadAccepts(st, r.(publication := Some(c)))
    ensures r.terminal.Some? && r.terminal.value.kind.Completed? && c.evidence != r.terminal.value.evidence ==>
      !LoadAccepts(st, r.(publication := Some(c)))
  {
    hide ValidEvent, ValidCheckpoint, Hex64, JobForm;
  }
}
