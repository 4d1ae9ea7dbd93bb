/**
  What the job protocol guarantees over every run: restart always loads, run once, one terminal identity and sound
  checkpoints. Where the source falls short of a guarantee, the failing run is given together with the exact
  condition under which the guarantee holds.
 */
module ProtocolTheorems {
  import opened Records
  import opened Protocol
  import opened ProtocolInvariant

  lemma RunStep(st: Setting, s: System, steps: seq<Step>, step: Step)
    ensures RunFrom(st, s, steps + [step]) == Apply(st, RunFrom(st, s, steps), step)
  {
    assert (steps + [step])[..|steps + [step]| - 1] == steps;
  }

  lemma {:induction false} RunConcat(st: Setting, s: System, a: seq<Step>, b: seq<Step>)
    ensures RunFrom(st, s, a + b) == RunFrom(st, RunFrom(st, s, a), b)
    decreases |b|
  {
    if b == [] {
      assert a + b == a;
    } else {
      var front := b[..|b| - 1];
      assert a + b == (a + front) + [b[|b| - 1]];
      RunStep(st, s, a + front, b[|b| - 1]);
      RunConcat(st, s, a, front);
    }
  }

  lemma InitialInv(st: Setting)
    ensures Inv(st, INITIAL)
  {}

  lemma InvOf(st: Setting, steps: seq<Step>)
    requires GoodSetting(st)
    ensures Inv(st, Run(st, steps))
  {
    InitialInv(st);
    Reachable(st, INITIAL, steps);
  }

  /** Steps of the request handlers, of a running execution, and of the threads that report; the rest is the process. */
  predicate OfHandlers(step: Step) {
    step.Submit? || step.StartBegin? || step.StartGate? || step.StartCommit? || step.Cancel?
  }

  predicate OfExecution(step: Step) {
    || step.RetainCheckpoint? || step.AckCheckpoint? || step.PushBranch? || step.OpenDraft?
    || step.FailExecution? || step.FinishRun?
  }

  predicate OfReporting(step: Step) {
    step.DeliverRun? || step.DeliverRecovered? || step.DeliverRetry? || step.Callback?
  }

  /** What a reporting step may touch: the job only moves up in status, and what it writes is the job. */
  predicate ReportFrame(s: System, t: System) {
    && Ready(s) && Ready(t) && t.process.closed == s.process.closed
    && (LiveOf(t).run == LiveOf(s).run || LiveOf(t).run.Ended?)
    && JobOf(t).id == JobOf(s).id && JobOf(t).submission == JobOf(s).submission && JobOf(t).started == JobOf(s).started
    && JobOf(t).cancelled == JobOf(s).cancelled && Rank(JobOf(s).status) <= Rank(JobOf(t).status)
    && (t.disk == s.disk || t.disk == Some(Persist(JobOf(t))))
  }

  lemma BeginFrame(s: System, e: Event, o: SaveOutcome)
    requires Ready(s)
    ensures ReportFrame(s, Begin(s, e, o))
  {}

  lemma CallbackFrame(s: System, reply: Reply, o: SaveOutcome)
    ensures DoCallback(s, reply, o) == s || ReportFrame(s, DoCallback(s, reply, o))
  {}

  lemma DeliverFrame(s: System, o: SaveOutcome)
    ensures DoDeliverRun(s, o) == s || ReportFrame(s, DoDeliverRun(s, o))
    ensures DoDeliverRecovered(s, o) == s || ReportFrame(s, DoDeliverRecovered(s, o))
  {
    hide Begin, Persist;
    if Ready(s) {
      if LiveOf(s).run.Reporting? { BeginFrame(Put(s, LiveOf(s).(run := Ended)), LiveOf(s).run.e, o); }
      if LiveOf(s).recovery.Handing? { BeginFrame(Put(s, LiveOf(s).(recovery := Handled)), LiveOf(s).recovery.e, o); }
    }
  }

  lemma RetryFrame(s: System, e: Event, o: SaveOutcome)
    ensures DoDeliverRetry(s, e, o) == s || ReportFrame(s, DoDeliverRetry(s, e, o))
  {
    hide Begin, Persist;
    if Ready(s) { BeginFrame(Put(s, LiveOf(s).(retries := LiveOf(s).retries - multiset{e})), e, o); }
  }

  lemma ReportStep(st: Setting, s: System, step: Step)
    requires OfReporting(step)
    ensures Apply(st, s, step) == s || ReportFrame(s, Apply(st, s, step))
  {
    hide ReportFrame, DoCallback, DoDeliverRun, DoDeliverRecovered, DoDeliverRetry;
    match step
    case DeliverRun(o) => DeliverFrame(s, o);
    case DeliverRecovered(o) => DeliverFrame(s, o);
    case DeliverRetry(e, o) => RetryFrame(s, e, o);
    case Callback(reply, o) => CallbackFrame(s, reply, o);
  }

  // ---- writer/reader closure ----

  /** A well-formed receipt is accepted on reload exactly when it holds no event or the attempt ID is canonical. */
  lemma AcceptsExactly(st: Setting, r: Receipt)
    requires GoodSetting(st) && Shape(st, r)
    ensures LoadAccepts(st, r) <==> (r.status.Terminal? ==> st.uuid(st.attempt) == st.attempt)
  {
    hide ValidEvent, ValidCheckpoint, ValidResult;
  }

  /** With a canonical attempt ID, a restart after a crash at any point of any run loads what the service wrote. */
  lemma RestartAlwaysLoads(st: Setting, steps: seq<Step>)
    requires GoodSetting(st) && st.uuid(st.attempt) == st.attempt
    ensures Run(st, steps).disk.Some? ==> LoadAccepts(st, Run(st, steps).disk.value)
    ensures Run(st, steps + [Crash, Restart]).process.Up?
  {
    hide ValidEvent, ValidCheckpoint, ValidResult, Tally, PushesFollow, RunFrom, Shape, LiveInv;
    InvOf(st, steps);
    var s := Run(st, steps);
    if s.disk.Some? { AcceptsExactly(st, s.disk.value); }
    RunConcat(st, INITIAL, steps, [Crash, Restart]);
    RunTwo(st, s, Crash, Restart);
  }

  lemma RunOne(st: Setting, s: System, a: Step)
    ensures RunFrom(st, s, [a]) == Apply(st, s, a)
  {
    hide Apply;
    var none: seq<Step> := [];
    RunStep(st, s, none, a);
    assert [a] == none + [a];
  }

  lemma RunTwo(st: Setting, s: System, a: Step, b: Step)
    ensures RunFrom(st, s, [a, b]) == Apply(st, Apply(st, s, a), b)
  {
    hide Apply;
    var none: seq<Step> := [];
    RunStep(st, s, none, a);
    RunStep(st, s, none + [a], b);
    assert [a, b] == none + [a] + [b];
  }

  lemma RunThree(st: Setting, s: System, a: Step, b: Step, c: Step)
    ensures RunFrom(st, s, [a, b, c]) == Apply(st, Apply(st, Apply(st, s, a), b), c)
  {
    hide Apply;
    RunTwo(st, s, a, b);
    RunStep(st, s, [a, b], c);
    assert [a, b, c] == [a, b] + [c];
  }

  const STARTING := [StartBegin(false, Saved), StartGate(true), StartCommit(Saved)]

  /** An undisturbed start of a fresh job ends with a launched execution and a durable "started". */
  lemma StartGoes(st: Setting, s: System)
    requires Ready(s) && !JobOf(s).cancelled && !JobOf(s).started && !s.process.closed
    ensures RunFrom(st, s, STARTING) ==
      System(Some(Persist(JobOf(s).(status := Started))),
             Up(false, Some(LiveOf(s).(run := Coding, job := JobOf(s).(status := Started, started := true)))),
             s.log + [Claim(JobOf(s).id)] + [Launch(JobOf(s).id)])
  {
    hide RunFrom;
    RunThree(st, s, StartBegin(false, Saved), StartGate(true), StartCommit(Saved));
  }

  function Reservation(st: Setting, sub: Submission, id: string, recovery: Recovery): System {
    var job := NewJob(st, id, sub);
    System(Some(Persist(job)), Up(false, Some(Live(job, Unlocked, Idle, recovery, multiset{}, Quiet))), [])
  }

  /** A first submission reserves the job; a crash and a restart bring the reservation back, queued for recovery. */
  lemma Reserves(st: Setting, sub: Submission, id: string)
    requires GoodSetting(st) && st.admits(sub) && sub.attempt == st.attempt && JobForm(id)
    ensures Run(st, [Restart, Submit(sub, id, Saved)]) == Reservation(st, sub, id, Handled)
    ensures RunFrom(st, Reservation(st, sub, id, Handled), [Crash, Restart]) == Reservation(st, sub, id, Queued)
  {
    hide ValidEvent, ValidCheckpoint, JobForm, Hex64, RunFrom;
    RunTwo(st, INITIAL, Restart, Submit(sub, id, Saved));
    RunTwo(st, Reservation(st, sub, id, Handled), Crash, Restart);
  }

  const FAILING := [FailExecution, FinishRun(None, Note("agent_adapter_execution_failed", INTERRUPTED)), DeliverRun(Saved)]

  /** An execution that fails leaves a durable terminal receipt. */
  lemma FailingRunEnds(st: Setting, sub: Submission, id: string)
    requires GoodSetting(st) && st.admits(sub) && sub.attempt == st.attempt && JobForm(id)
    ensures var s := Run(st, [Restart, Submit(sub, id, Saved)] + STARTING + FAILING);
      s.disk.Some? && s.disk.value.status.Terminal?
  {
    hide ValidEvent, ValidCheckpoint, ValidResult, JobForm, FinishEvent, GoodSetting, RunFrom;
    var r := Reservation(st, sub, id, Handled);
    Reserves(st, sub, id);
    RunConcat(st, INITIAL, [Restart, Submit(sub, id, Saved)], STARTING);
    StartGoes(st, r);
    RunConcat(st, INITIAL, [Restart, Submit(sub, id, Saved)] + STARTING, FAILING);
    var t := RunFrom(st, r, STARTING);
    RunThree(st, t, FAILING[0], FAILING[1], FAILING[2]);
    assert ValidNote(FAILING[1].note);
  }

  /** Restart never rejects a receipt of the service's own writing if and only if the attempt ID is canonical. */
  lemma ClosureExactly(st: Setting, sub: Submission, id: string)
    requires GoodSetting(st) && st.admits(sub) && sub.attempt == st.attempt && JobForm(id)
    ensures (forall steps :: Run(st, steps).disk.Some? ==> LoadAccepts(st, Run(st, steps).disk.value))
            <==> st.uuid(st.attempt) == st.attempt
  {
    if st.uuid(st.attempt) == st.attempt {
      forall steps ensures Run(st, steps).disk.Some? ==> LoadAccepts(st, Run(st, steps).disk.value) {
        RestartAlwaysLoads(st, steps);
      }
    } else {
      var steps := [Restart, Submit(sub, id, Saved)] + STARTING + FAILING;
      FailingRunEnds(st, sub, id);
      InvOf(st, steps);
      AcceptsExactly(st, Run(st, steps).disk.value);
    }
  }

  /** A reservation is made exactly by an admitted submission of this attempt to a serving process without the job. */
  lemma SubmitExactly(st: Setting, s: System, sub: Submission, id: string, o: SaveOutcome)
    requires JobForm(id)
    ensures var t := DoSubmit(st, s, sub, id, o);
      var serves := s.process.Up? && !s.process.closed && s.process.live.None? && st.admits(sub) && sub.attempt == st.attempt;
      && t.log == s.log && (!serves ==> t == s)
      && (serves ==> t.disk == Save(s.disk, Persist(NewJob(st, id, sub)), o) && (HasLive(t) <==> o.Saved?))
      && (serves && o.Saved? ==> Ready(t) && JobOf(t) == NewJob(st, id, sub) && LiveOf(t).run.Idle?)
  {
    hide JobForm;
  }

  // ---- run once, one publication ----

  /** Over every run with crashes: at most one start claim, one launch, one accepted checkpoint, one push, one Draft. */
  lemma RunOnce(st: Setting, steps: seq<Step>)
    requires GoodSetting(st)
    ensures var log := Run(st, steps).log;
      Tally(log, TDraft) <= Tally(log, TPush) <= Tally(log, TAccept) <= Tally(log, TLaunch) <= Tally(log, TClaim) <= 1
    ensures Tally(Run(st, steps).log, TClaim) == 1 ==> Run(st, steps).disk.Some?
  {
    InvOf(st, steps);
  }

  predicate RankKept(before: Option<Receipt>, after: Option<Receipt>) {
    before.Some? ==>
      && after.Some? && Rank(before.value.status) <= Rank(after.value.status)
      && (before.value.status.Reserved? ||
          (after.value.job == before.value.job && after.value.submission == before.value.submission))
  }

  lemma RankStepRequests(st: Setting, s: System, step: Step)
    requires GoodSetting(st) && Inv(st, s)
    requires step.Submit? || step.Cancel?
    ensures RankKept(s.disk, Apply(st, s, step).disk)
  {
    hide ValidEvent, ValidCheckpoint, ValidResult, FinishEvent, Tally, PushesFollow, LogInv, LiveLogInv, RunInv,
      ReportInv;
  }

  lemma RankStepStarts(st: Setting, s: System, step: Step)
    requires GoodSetting(st) && Inv(st, s)
    requires step.StartBegin? || step.StartGate? || step.StartCommit?
    ensures RankKept(s.disk, Apply(st, s, step).disk)
  {
    hide ValidEvent, ValidCheckpoint, ValidResult, FinishEvent, Tally, PushesFollow, LogInv, LiveLogInv, RunInv,
      ReportInv;
  }

  lemma RankStepHandlers(st: Setting, s: System, step: Step)
    requires GoodSetting(st) && Inv(st, s)
    requires OfHandlers(step)
    ensures RankKept(s.disk, Apply(st, s, step).disk)
  {
    hide Inv, GoodSetting, Apply, RankKept;
    if step.Submit? || step.Cancel? { RankStepRequests(st, s, step); } else { RankStepStarts(st, s, step); }
  }

  lemma RankStepExecution(st: Setting, s: System, step: Step)
    requires GoodSetting(st) && Inv(st, s)
    requires OfExecution(step)
    ensures RankKept(s.disk, Apply(st, s, step).disk)
  {
    hide ValidEvent, ValidCheckpoint, ValidResult, FinishEvent, Tally, PushesFollow, LogInv, LiveLogInv, RunInv,
      ReportInv;
  }

  lemma RankStepReporting(st: Setting, s: System, step: Step)
    requires GoodSetting(st) && Inv(st, s)
    requires OfReporting(step)
    ensures RankKept(s.disk, Apply(st, s, step).disk)
  {
    hide ValidEvent, ValidCheckpoint, ValidResult, FinishEvent, Tally, PushesFollow, LogInv, LiveLogInv, RunInv,
      ReportInv, Apply;
    ReportStep(st, s, step);
  }

  lemma RankStepProcess(st: Setting, s: System, step: Step)
    requires GoodSetting(st) && Inv(st, s)
    requires !OfHandlers(step) && !OfExecution(step) && !OfReporting(step)
    ensures RankKept(s.disk, Apply(st, s, step).disk)
  {
    hide ValidEvent, ValidCheckpoint, ValidResult, FinishEvent, Tally, PushesFollow, LogInv, LiveLogInv, RunInv,
      ReportInv;
  }

  lemma RankStep(st: Setting, s: System, step: Step)
    requires GoodSetting(st) && Inv(st, s)
    ensures RankKept(s.disk, Apply(st, s, step).disk)
  {
    hide *;
    if OfHandlers(step) { RankStepHandlers(st, s, step); }
    else if OfExecution(step) { RankStepExecution(st, s, step); }
    else if OfReporting(step) { RankStepReporting(st, s, step); }
    else { RankStepProcess(st, s, step); }
  }

  lemma {:induction false} RankFrom(st: Setting, s: System, more: seq<Step>)
    requires GoodSetting(st) && Inv(st, s)
    ensures RankKept(s.disk, RunFrom(st, s, more).disk)
    decreases |more|
  {
    if more != [] {
      var front := more[..|more| - 1];
      RankFrom(st, s, front);
      Reachable(st, s, front);
      RankStep(st, RunFrom(st, s, front), more[|more| - 1]);
    }
  }

  /** The durable status never moves back, and past the reservation the job keeps its identity. */
  lemma DurableRankNeverDrops(st: Setting, steps: seq<Step>, more: seq<Step>)
    requires GoodSetting(st)
    ensures RankKept(Run(st, steps).disk, Run(st, steps + more).disk)
  {
    hide *;
    InvOf(st, steps);
    RankFrom(st, Run(st, steps), more);
    RunMore(st, steps, more);
  }

  lemma RunMore(st: Setting, steps: seq<Step>, more: seq<Step>)
    ensures Run(st, steps + more) == RunFrom(st, Run(st, steps), more)
  {
    hide RunFrom;
    RunConcat(st, INITIAL, steps, more);
  }

  // ---- one terminal identity ----

  /** Every terminal callback ever sent is the one durable event. */
  lemma OneTerminalIdentity(st: Setting, steps: seq<Step>, a: Event, b: Event)
    requires GoodSetting(st) && Send(a) in Run(st, steps).log && Send(b) in Run(st, steps).log
    ensures a == b && Run(st, steps).disk.Some? && Run(st, steps).disk.value.terminal == Some(a)
    ensures !(Run(st, steps).disk.value.delivered && Run(st, steps).disk.value.rejected)
  {
    InvOf(st, steps);
  }

  lemma SendStep(st: Setting, s: System, step: Step, e: Event)
    requires Send(e) in Apply(st, s, step).log && Send(e) !in s.log
    ensures HasLive(s) && LiveOf(s).delivery.Sending? && LiveOf(s).delivery.e == e
  {
    hide ValidEvent, ValidCheckpoint, ValidResult, FinishEvent, Tally, PushesFollow;
  }

  /** Nothing is sent that was not durable before the step that sends it. */
  lemma SentOnlyDurable(st: Setting, steps: seq<Step>, step: Step, e: Event)
    requires GoodSetting(st)
    requires Send(e) in Run(st, steps + [step]).log && Send(e) !in Run(st, steps).log
    ensures Run(st, steps).disk.Some? && Run(st, steps).disk.value.terminal == Some(e)
  {
    hide ValidEvent, ValidCheckpoint, ValidResult, FinishEvent, Tally, PushesFollow, Apply;
    InvOf(st, steps);
    RunStep(st, INITIAL, steps, step);
    SendStep(st, Run(st, steps), step, e);
  }

  // ---- checkpoints ----

  /** Checkpoint soundness of the log and of the durable receipt. */
  lemma CheckpointSoundness(st: Setting, steps: seq<Step>)
    requires GoodSetting(st)
    ensures var s := Run(st, steps);
      && PushesFollow(s.log)
      && (forall c :: Accept(c) in s.log ==> s.disk.Some? && s.disk.value.publication == Some(c))
      && (s.disk.Some? && s.disk.value.terminal.Some? && s.disk.value.terminal.value.kind.Completed? ==>
            && s.disk.value.publication.Some? && ValidCheckpoint(s.disk.value.publication.value)
            && s.disk.value.terminal.value.evidence == s.disk.value.publication.value.evidence
            && s.disk.value.terminal.value.criteria == s.disk.value.publication.value.criteria)
  {
    InvOf(st, steps);
  }
}
