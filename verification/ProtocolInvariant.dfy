/**
  The inductive invariant of the job protocol: what every reachable state keeps, whatever the interleaving,
  however saves fail and wherever the process crashes.
 */
module ProtocolInvariant {
  import opened Records
  import opened Protocol

  predicate FromRun(e: Event) {
    e.suffix.SFailed? || e.suffix.SInvalidResult? || e.suffix.SMismatch? || e.suffix.SCompleted?
  }

  predicate FromRecovery(e: Event) { e.suffix.SReconciled? || e.suffix.SInterrupted? }

  /** An event this job may report, given the checkpoint it holds. */
  predicate Reportable(st: Setting, id: string, publication: Option<Checkpoint>, e: Event) {
    && ValidEvent(e) && !e.kind.Heartbeat? && e.job == id && e.attempt == st.uuid(st.attempt)
    && (e.kind.Completed? ==>
          publication.Some? && e.evidence == publication.value.evidence && e.criteria == publication.value.criteria)
  }

  /** Well-formed durable state, whatever the spelling of the attempt ID. */
  predicate Shape(st: Setting, r: Receipt) {
    && r.attempt == st.attempt && st.admits(r.submission) && r.submission.attempt == r.attempt
    && r.digest == st.digest(r.submission) && JobForm(r.job)
    && (r.status.Terminal? <==> r.terminal.Some?)
    && (r.terminal.Some? ==> Reportable(st, r.job, r.publication, r.terminal.value))
    && (r.delivered || r.rejected ==> r.status.Terminal?)
    && (r.publication.Some? ==> Rank(r.status) >= 2 && ValidCheckpoint(r.publication.value))
    && !(r.delivered && r.rejected)
  }

  predicate JobInv(st: Setting, disk: Option<Receipt>, j: Job) {
    && Shape(st, Persist(j))
    && disk.Some? && disk.value.job == j.id && disk.value.submission == j.submission
    && Rank(disk.value.status) <= Rank(j.status)
    && (disk.value.terminal.Some? ==> j.terminal == disk.value.terminal)
  }

  predicate StartInv(disk: Option<Receipt>, l: Live) {
    && disk.Some?
    && (!l.start.Unlocked? ==>
          && l.job.status.Starting? && !l.job.cancelled && !l.job.started && l.run.Idle? && disk.value.status.Starting?)
    && (l.start.Unlocked? && Rank(l.job.status) >= 1 ==> l.job.started || l.job.cancelled)
    && (!l.run.Idle? ==> l.job.started && Rank(disk.value.status) >= 2 && Rank(l.job.status) >= 2)
  }

  predicate RunInv(st: Setting, l: Live) {
    && (l.run.Coding? ==> l.job.publication.None?)
    && (l.run.Retained? ==> l.job.publication == Some(l.run.c))
    && (l.run.MayPush? ==> l.job.publication == Some(l.run.c))
    && (l.run.Pushed? ==> l.job.publication == Some(l.run.c))
    && (l.run.Reporting? ==> Reportable(st, l.job.id, l.job.publication, l.run.e) && FromRun(l.run.e))
    && (!l.run.Idle? && !l.run.Ended? && l.job.terminal.Some? ==> FromRecovery(l.job.terminal.value))
  }

  /** No two pending events with one delivery ID differ. */
  predicate ReportInv(st: Setting, disk: Option<Receipt>, l: Live) {
    && disk.Some?
    && (l.recovery.Probing? ==>
          && l.job.publication == Some(l.recovery.p)
          && (l.job.terminal.Some? ==> FromRun(l.job.terminal.value)))
    && (l.recovery.Handing? ==>
          && Reportable(st, l.job.id, l.job.publication, l.recovery.e) && Rank(l.job.status) >= 1
          && (l.job.terminal.None? ==> FromRecovery(l.recovery.e))
          && (l.job.terminal.Some? && l.job.terminal.value != l.recovery.e ==>
                FromRecovery(l.recovery.e) && FromRun(l.job.terminal.value)))
    && (forall e :: e in l.retries ==> l.job.terminal == Some(e))
    && (l.delivery.Sending? ==>
          l.job.terminal == Some(l.delivery.e) && disk.value.terminal == Some(l.delivery.e)
          && !l.job.delivered && !l.job.rejected)
  }

  /** The log agrees with the durable state. */
  predicate LogInv(s: System) {
    && Tally(s.log, TDraft) <= Tally(s.log, TPush) <= Tally(s.log, TAccept) <= Tally(s.log, TLaunch)
       <= Tally(s.log, TClaim) <= 1
    && (Tally(s.log, TClaim) >= 1 ==> s.disk.Some? && Rank(s.disk.value.status) >= 1)
    && (Tally(s.log, TLaunch) >= 1 ==> s.disk.Some? && Rank(s.disk.value.status) >= 2)
    && (forall a :: a in s.log && a.Accept? ==> s.disk.Some? && s.disk.value.publication == Some(a.c))
    && (forall a :: a in s.log && a.Send? ==> s.disk.Some? && s.disk.value.terminal == Some(a.e))
  }

  predicate LiveLogInv(s: System) {
    HasLive(s) ==>
      && (LiveOf(s).start.Claiming? ==> Tally(s.log, TClaim) == 0)
      && (LiveOf(s).start.Granted? ==> Tally(s.log, TClaim) == 1 && Tally(s.log, TLaunch) == 0)
      && (!LiveOf(s).run.Idle? ==> Tally(s.log, TLaunch) == 1)
      && (LiveOf(s).run.Coding? ==> Tally(s.log, TAccept) == 0)
      && (LiveOf(s).run.Retained? || LiveOf(s).run.MayPush? ==> Tally(s.log, TAccept) == 1 && Tally(s.log, TPush) == 0)
      && (LiveOf(s).run.MayPush? ==> Accept(LiveOf(s).run.c) in s.log)
      && (LiveOf(s).run.Retained? ==> Accept(LiveOf(s).run.c) in s.log)
      && (LiveOf(s).run.Pushed? ==> Tally(s.log, TPush) == 1 && Tally(s.log, TDraft) == 0)
      && (forall a :: a in s.log && a.Accept? ==> JobOf(s).publication == Some(a.c))
  }

  /** Each push follows the acceptance of a valid checkpoint with the same head. */
  predicate PushesFollow(log: seq<Act>) {
    forall i | 0 <= i < |log| && log[i].Push? ::
      exists k | 0 <= k < i :: log[k].Accept? && log[k].c.evidence.head == log[i].head && ValidCheckpoint(log[k].c)
  }

  predicate LiveInv(st: Setting, s: System) {
    && (HasLive(s) ==>
          && JobInv(st, s.disk, JobOf(s)) && StartInv(s.disk, LiveOf(s))
          && RunInv(st, LiveOf(s)) && ReportInv(st, s.disk, LiveOf(s)))
    && (s.process.Up? && s.process.live.None? && s.disk.Some? ==> s.disk.value.status.Reserved?)
  }

  ghost predicate Inv(st: Setting, s: System) {
    && (s.disk.Some? ==> Shape(st, s.disk.value))
    && LiveInv(st, s) && LogInv(s) && LiveLogInv(s) && PushesFollow(s.log)
  }

  lemma DidTally(log: seq<Act>, a: Act)
    ensures forall tag :: Tally(log + [a], tag) == Tally(log, tag) + if TagOf(a) == tag then 1 else 0
  {
    assert (log + [a])[..|log + [a]| - 1] == log;
  }

  /** Without an act of the kind, the log has no element of the kind. */
  lemma {:induction false} TallyZero(log: seq<Act>, tag: Tag)
    ensures Tally(log, tag) == 0 <==> (forall a :: a in log ==> TagOf(a) != tag)
  {
    if log != [] {
      TallyZero(log[..|log| - 1], tag);
      assert log == log[..|log| - 1] + [log[|log| - 1]];
    }
  }

  lemma DidPushes(log: seq<Act>, a: Act)
    requires PushesFollow(log)
    requires a.Push? ==>
      exists k | 0 <= k < |log| :: log[k].Accept? && log[k].c.evidence.head == a.head && ValidCheckpoint(log[k].c)
    ensures PushesFollow(log + [a])
  {
    var w := log + [a];
    forall i | 0 <= i < |w| && w[i].Push?
      ensures exists k | 0 <= k < i :: w[k].Accept? && w[k].c.evidence.head == w[i].head && ValidCheckpoint(w[k].c)
    {
      if i < |log| {
        var k :| 0 <= k < i && log[k].Accept? && log[k].c.evidence.head == log[i].head && ValidCheckpoint(log[k].c);
        assert w[k] == log[k];
      } else {
        var k :| 0 <= k < |log| && log[k].Accept? && log[k].c.evidence.head == a.head && ValidCheckpoint(log[k].c);
        assert w[k] == log[k];
      }
    }
  }

  lemma KeepSubmit(st: Setting, s: System, sub: Submission, id: string, o: SaveOutcome)
    requires GoodSetting(st) && Inv(st, s)
    ensures Inv(st, DoSubmit(st, s, sub, id, o))
  {
    hide ValidEvent, ValidCheckpoint, Tally, PushesFollow, FromRun, FromRecovery;
    TallyZero(s.log, TAccept);
    TallyZero(s.log, TClaim);
    TallyZero(s.log, TSend);
  }

  lemma KeepStartBegin(st: Setting, s: System, elapsed: bool, o: SaveOutcome)
    requires Inv(st, s)
    ensures Inv(st, DoStartBegin(s, elapsed, o))
  {
    hide ValidCheckpoint, Tally, PushesFollow, Reportable, JobForm, FromRun, FromRecovery;
  }

  lemma KeepStartGate(st: Setting, s: System, granted: bool)
    requires Inv(st, s)
    ensures Inv(st, DoStartGate(s, granted))
  {
    hide ValidCheckpoint, Tally, PushesFollow, Reportable, JobForm, FromRun, FromRecovery;
    if HasLive(s) && LiveOf(s).start.Claiming? {
      DidTally(s.log, Claim(JobOf(s).id));
      DidPushes(s.log, Claim(JobOf(s).id));
    }
  }

  lemma KeepLaunch(st: Setting, s: System)
    requires Inv(st, s) && HasLive(s) && LiveOf(s).start.Granted? && !s.process.closed
    ensures Inv(st, DoStartCommit(s, Saved))
  {
    hide ValidCheckpoint, Tally, PushesFollow, Reportable, JobForm, FromRun, FromRecovery;
    DidTally(s.log, Launch(JobOf(s).id));
    DidPushes(s.log, Launch(JobOf(s).id));
  }

  lemma KeepStartCommit(st: Setting, s: System, o: SaveOutcome)
    requires Inv(st, s)
    ensures Inv(st, DoStartCommit(s, o))
  {
    hide ValidCheckpoint, Tally, PushesFollow, Reportable, JobForm, FromRun, FromRecovery;
    if HasLive(s) && LiveOf(s).start.Granted? && o.Saved? && !s.process.closed {
      KeepLaunch(st, s);
    }
  }

  lemma KeepWriteCancel(st: Setting, s: System, o: SaveOutcome)
    requires Inv(st, s) && Ready(s) && !JobOf(s).status.Terminal?
    ensures Inv(st, Write(s, CancelJob(JobOf(s)), o))
  {
    hide ValidCheckpoint, Tally, PushesFollow, Reportable, JobForm, FromRun, FromRecovery;
  }

  lemma KeepAckCancel(st: Setting, s: System, id: string)
    requires Inv(st, s)
    ensures Inv(st, Did(s, AckCancel(id)))
  {
    hide Tally, PushesFollow, Reportable, FromRun, FromRecovery, Shape;
    DidTally(s.log, AckCancel(id));
    DidPushes(s.log, AckCancel(id));
  }

  lemma KeepCancel(st: Setting, s: System, id: string, attempt: string, o: SaveOutcome)
    requires Inv(st, s)
    ensures Inv(st, DoCancel(s, id, attempt, o))
  {
    hide Inv, Write, Did;
    KeepAckCancel(st, s, id);
    if Ready(s) && !JobOf(s).status.Terminal? {
      KeepWriteCancel(st, s, o);
      KeepAckCancel(st, Write(s, CancelJob(JobOf(s)), o), id);
    }
  }

  lemma KeepClose(st: Setting, s: System)
    requires Inv(st, s)
    ensures Inv(st, DoStop(s)) && Inv(st, DoClose(s))
  {
    hide ValidCheckpoint, Tally, PushesFollow, Reportable, JobForm, FromRun, FromRecovery;
  }

  lemma KeepAccept(st: Setting, s: System, c: Checkpoint)
    requires Inv(st, s) && Ready(s) && LiveOf(s).run.Coding? && MayRetain(JobOf(s), c)
    ensures Inv(st, DoRetain(s, c, Saved))
  {
    hide ValidEvent, ValidCheckpoint, Tally, PushesFollow, JobForm, FromRun, FromRecovery;
    TallyZero(s.log, TAccept);
    DidTally(s.log, Accept(c));
    DidPushes(s.log, Accept(c));
  }

  lemma KeepRetain(st: Setting, s: System, c: Checkpoint, o: SaveOutcome)
    requires Inv(st, s)
    ensures Inv(st, DoRetain(s, c, o))
  {
    hide ValidEvent, ValidCheckpoint, Tally, PushesFollow, JobForm, FromRun, FromRecovery;
    if Ready(s) && LiveOf(s).run.Coding? && MayRetain(JobOf(s), c) {
      TallyZero(s.log, TAccept);
      if o.Saved? { KeepAccept(st, s, c); }
    }
  }

  lemma KeepAck(st: Setting, s: System, ok: bool)
    requires Inv(st, s)
    ensures Inv(st, DoAck(s, ok))
  {
    hide Tally, PushesFollow, Reportable, FromRun, FromRecovery, Shape;
  }

  lemma KeepDraft(st: Setting, s: System, create: bool, result: Option<Result>)
    requires Inv(st, s)
    ensures Inv(st, DoDraft(s, create, result))
  {
    hide JobInv, Tally, PushesFollow, Reportable, FromRun, FromRecovery, Shape;
    if create && HasLive(s) && LiveOf(s).run.Pushed? {
      DidTally(s.log, Draft(LiveOf(s).run.c.evidence.head));
      DidPushes(s.log, Draft(LiveOf(s).run.c.evidence.head));
    }
  }

  lemma KeepFail(st: Setting, s: System)
    requires Inv(st, s)
    ensures Inv(st, DoFail(s))
  {
    hide Tally, PushesFollow, Reportable, FromRun, FromRecovery, Shape;
  }

  lemma RetainedValid(st: Setting, s: System)
    requires LiveInv(st, s) && HasLive(s) && LiveOf(s).run.MayPush?
    ensures ValidCheckpoint(LiveOf(s).run.c)
  {
    hide ValidCheckpoint, Reportable, StartInv, ReportInv;
  }

  lemma KeepPush(st: Setting, s: System, ok: bool)
    requires Inv(st, s)
    ensures Inv(st, DoPush(s, ok))
  {
    hide JobInv, Shape, Tally, PushesFollow, Reportable, FromRun, FromRecovery;
    if HasLive(s) && LiveOf(s).run.MayPush? {
      RetainedValid(st, s);
      var c := LiveOf(s).run.c;
      var k :| 0 <= k < |s.log| && s.log[k] == Accept(c);
      DidTally(s.log, Push(c.evidence.head));
      DidPushes(s.log, Push(c.evidence.head));
    }
  }

  lemma FinishReportable(st: Setting, j: Job, result: Option<Result>, probe: Option<Result>, note: Note)
    requires GoodSetting(st) && Shape(st, Persist(j)) && ValidNote(note)
    ensures var e := FinishEvent(st, j, result, probe, note); Reportable(st, j.id, j.publication, e) && FromRun(e)
  {
    hide ValidEvent, ValidCheckpoint, ValidResult, JobForm;
    var final := if result.None? && Confirms(st, j, j.publication, probe) then probe else result;
    if final.None? {
      AttentionEventValid(st, j.id, j.submission, SFailed, note.code, note.summary);
    } else if ValidResult(st, j.submission, final.value) && j.publication.Some? && Matches(final.value, j.publication.value) {
      CompletedEventValid(st, j.id, j.submission, final.value, j.publication.value, SCompleted);
    } else {
      AttentionEventValid(st, j.id, j.submission, SInvalidResult, "agent_adapter_result_rejected", INTERRUPTED);
      AttentionEventValid(st, j.id, j.submission, SMismatch, "agent_adapter_result_rejected", INTERRUPTED);
    }
  }

  lemma KeepReporting(st: Setting, s: System, e: Event)
    requires Inv(st, s) && Ready(s) && LiveOf(s).run.Returned?
    requires Reportable(st, JobOf(s).id, JobOf(s).publication, e) && FromRun(e)
    ensures Inv(st, Put(s, LiveOf(s).(run := Reporting(e))))
  {
    hide Tally, PushesFollow, Reportable, FromRun, FromRecovery, Shape;
  }

  lemma KeepFinish(st: Setting, s: System, probe: Option<Result>, note: Note)
    requires GoodSetting(st) && Inv(st, s)
    ensures Inv(st, DoFinish(st, s, probe, note))
  {
    hide FinishEvent, ValidNote, ValidCheckpoint, Tally, PushesFollow, Reportable, JobForm, FromRun, FromRecovery;
    if Ready(s) && LiveOf(s).run.Returned? {
      if !JobOf(s).stopped && ValidNote(note) {
        FinishReportable(st, JobOf(s), LiveOf(s).run.result, probe, note);
        KeepReporting(st, s, FinishEvent(st, JobOf(s), LiveOf(s).run.result, probe, note));
      }
    }
  }

  lemma KeepBeginSaved(st: Setting, s: System, e: Event)
    requires Inv(st, s) && Ready(s) && LiveOf(s).delivery.Quiet?
    requires Reportable(st, JobOf(s).id, JobOf(s).publication, e) && Rank(JobOf(s).status) >= 1
    requires JobOf(s).terminal.Some? && JobOf(s).terminal.value.suffix == e.suffix ==> JobOf(s).terminal.value == e
    requires JobOf(s).terminal.None? && LiveOf(s).run.Idle? ==> JobOf(s).started || JobOf(s).cancelled
    requires JobOf(s).terminal.None? && !LiveOf(s).run.Idle? && !LiveOf(s).run.Ended? ==> FromRecovery(e)
    requires JobOf(s).terminal.None? && LiveOf(s).recovery.Probing? ==> FromRun(e)
    requires JobOf(s).terminal.None? && LiveOf(s).recovery.Handing? ==> FromRun(e)
    ensures Inv(st, Begin(s, e, Saved))
  {
    hide ValidCheckpoint, Tally, PushesFollow, Reportable, JobForm;
  }

  lemma KeepBeginLost(st: Setting, s: System, e: Event, o: SaveOutcome)
    requires !o.Saved? && Inv(st, s) && Ready(s) && LiveOf(s).delivery.Quiet?
    requires Reportable(st, JobOf(s).id, JobOf(s).publication, e) && Rank(JobOf(s).status) >= 1
    requires JobOf(s).terminal.Some? && JobOf(s).terminal.value.suffix == e.suffix ==> JobOf(s).terminal.value == e
    requires JobOf(s).terminal.None? && LiveOf(s).run.Idle? ==> JobOf(s).started || JobOf(s).cancelled
    requires JobOf(s).terminal.None? && !LiveOf(s).run.Idle? && !LiveOf(s).run.Ended? ==> FromRecovery(e)
    requires JobOf(s).terminal.None? && LiveOf(s).recovery.Probing? ==> FromRun(e)
    requires JobOf(s).terminal.None? && LiveOf(s).recovery.Handing? ==> FromRun(e)
    ensures Inv(st, Begin(s, e, o))
  {
    hide ValidCheckpoint, Tally, PushesFollow, Reportable, JobForm;
  }

  /** Persisting an event keeps the invariant if no other event holds its delivery ID. */
  lemma KeepBegin(st: Setting, s: System, e: Event, o: SaveOutcome)
    requires Inv(st, s) && Ready(s) && LiveOf(s).delivery.Quiet?
    requires Reportable(st, JobOf(s).id, JobOf(s).publication, e) && Rank(JobOf(s).status) >= 1
    requires JobOf(s).terminal.Some? && JobOf(s).terminal.value.suffix == e.suffix ==> JobOf(s).terminal.value == e
    requires JobOf(s).terminal.None? && LiveOf(s).run.Idle? ==> JobOf(s).started || JobOf(s).cancelled
    requires JobOf(s).terminal.None? && !LiveOf(s).run.Idle? && !LiveOf(s).run.Ended? ==> FromRecovery(e)
    requires JobOf(s).terminal.None? && LiveOf(s).recovery.Probing? ==> FromRun(e)
    requires JobOf(s).terminal.None? && LiveOf(s).recovery.Handing? ==> FromRun(e)
    ensures Inv(st, Begin(s, e, o))
  {
    hide Inv, Begin, Reportable, FromRun, FromRecovery;
    if o.Saved? { KeepBeginSaved(st, s, e); } else { KeepBeginLost(st, s, e, o); }
  }

  lemma KeepDeliverRun(st: Setting, s: System, o: SaveOutcome)
    requires Inv(st, s)
    ensures Inv(st, DoDeliverRun(s, o))
  {
    hide ValidCheckpoint, Tally, PushesFollow, Reportable, JobForm;
    if Ready(s) && LiveOf(s).delivery.Quiet? && LiveOf(s).run.Reporting? {
      KeepBegin(st, Put(s, LiveOf(s).(run := Ended)), LiveOf(s).run.e, o);
    }
  }

  lemma InterruptedReportable(st: Setting, j: Job, publication: Option<Checkpoint>)
    requires GoodSetting(st) && Shape(st, Persist(j))
    ensures var e := InterruptedEvent(st, j, publication); Reportable(st, j.id, j.publication, e) && FromRecovery(e)
  {
    AttentionEventValid(st, j.id, j.submission, SInterrupted, "agent_adapter_interrupted", INTERRUPTED);
    AttentionEventValid(st, j.id, j.submission, SInterrupted, "agent_publication_unverified", INTERRUPTED);
  }

  lemma KeepRecoverLook(st: Setting, s: System)
    requires GoodSetting(st) && Inv(st, s)
    ensures Inv(st, DoRecoverLook(st, s))
  {
    hide ValidCheckpoint, Tally, PushesFollow, Reportable, JobForm;
    if HasLive(s) { InterruptedReportable(st, JobOf(s), JobOf(s).publication); }
  }

  lemma KeepRecoverProbe(st: Setting, s: System, probe: Option<Result>)
    requires GoodSetting(st) && Inv(st, s)
    ensures Inv(st, DoRecoverProbe(st, s, probe))
  {
    hide ValidEvent, ValidCheckpoint, ValidResult, Tally, PushesFollow, JobForm;
    if HasLive(s) && LiveOf(s).recovery.Probing? {
      var p := LiveOf(s).recovery.p;
      InterruptedReportable(st, JobOf(s), Some(p));
      if Confirms(st, JobOf(s), Some(p), probe) {
        CompletedEventValid(st, JobOf(s).id, JobOf(s).submission, probe.value, p, SReconciled);
      }
    }
  }

  lemma KeepDeliverRecovered(st: Setting, s: System, o: SaveOutcome)
    requires Inv(st, s)
    ensures Inv(st, DoDeliverRecovered(s, o))
  {
    hide ValidCheckpoint, Tally, PushesFollow, Reportable, JobForm;
    if Ready(s) && LiveOf(s).delivery.Quiet? && LiveOf(s).recovery.Handing? {
      KeepBegin(st, Put(s, LiveOf(s).(recovery := Handled)), LiveOf(s).recovery.e, o);
    }
  }

  lemma KeepRetryLook(st: Setting, s: System)
    requires Inv(st, s)
    ensures Inv(st, DoRetryLook(s))
  {
    hide Tally, PushesFollow, Reportable, FromRun, FromRecovery, Shape;
  }

  lemma KeepDeliverRetry(st: Setting, s: System, e: Event, o: SaveOutcome)
    requires Inv(st, s)
    ensures Inv(st, DoDeliverRetry(s, e, o))
  {
    hide ValidCheckpoint, Tally, PushesFollow, Reportable, JobForm;
    if Ready(s) && LiveOf(s).delivery.Quiet? && e in LiveOf(s).retries {
      KeepBegin(st, Put(s, LiveOf(s).(retries := LiveOf(s).retries - multiset{e})), e, o);
    }
  }

  /** Recording the control plane's answer to a terminal callback. */
  lemma KeepAnswer(st: Setting, s: System, accepted: bool, o: SaveOutcome)
    requires Inv(st, s) && Ready(s) && LiveOf(s).delivery.Sending?
    ensures Inv(st, Write(Put(s, LiveOf(s).(delivery := Quiet)),
                          if accepted then JobOf(s).(delivered := true) else JobOf(s).(rejected := true), o))
  {
    hide ValidCheckpoint, Tally, PushesFollow, Reportable, JobForm, FromRun, FromRecovery;
  }

  lemma KeepSend(st: Setting, s: System)
    requires Inv(st, s) && Ready(s) && LiveOf(s).delivery.Sending?
    ensures Inv(st, Did(s, Send(LiveOf(s).delivery.e)))
  {
    hide Tally, PushesFollow, Reportable, FromRun, FromRecovery, Shape;
    DidTally(s.log, Send(LiveOf(s).delivery.e));
    DidPushes(s.log, Send(LiveOf(s).delivery.e));
  }

  lemma KeepResend(st: Setting, s: System, d: Delivery)
    requires Inv(st, s) && Ready(s) && LiveOf(s).delivery.Sending? && (d.Quiet? || d.e == LiveOf(s).delivery.e)
    ensures Inv(st, Put(s, LiveOf(s).(delivery := d)))
  {
    hide Tally, PushesFollow, Reportable, FromRun, FromRecovery, Shape;
  }

  lemma KeepCallback(st: Setting, s: System, reply: Reply, o: SaveOutcome)
    requires Inv(st, s)
    ensures Inv(st, DoCallback(s, reply, o))
  {
    hide Inv, Write;
    if Ready(s) && LiveOf(s).delivery.Sending? {
      var d := LiveOf(s).delivery;
      var t := Did(s, Send(d.e));
      KeepSend(st, s);
      match reply
      case Failure(expired) =>
        KeepResend(st, t, if expired || d.attempt + 1 == CALLBACK_ATTEMPTS then Quiet else Sending(d.e, d.attempt + 1));
      case _ => KeepAnswer(st, t, reply.Accepted?, o);
    }
  }

  lemma KeepRestart(st: Setting, s: System)
    requires Inv(st, s)
    ensures Inv(st, DoRestart(st, s))
  {
    hide ValidEvent, ValidCheckpoint, Tally, PushesFollow, Reportable, JobForm, FromRun, FromRecovery;
  }

  lemma KeepCrash(st: Setting, s: System)
    requires Inv(st, s)
    ensures Inv(st, s.(process := Down))
  {
    hide Tally, PushesFollow, Reportable, FromRun, FromRecovery, Shape;
  }

  /** Every step keeps the invariant. */
  lemma KeepStep(st: Setting, s: System, step: Step)
    requires GoodSetting(st) && Inv(st, s)
    ensures Inv(st, Apply(st, s, step))
  {
    hide Inv, GoodSetting, DoSubmit, DoStartBegin, DoStartGate, DoStartCommit, DoCancel, DoStop, DoClose, DoRetain,
      DoAck, DoPush, DoDraft, DoFail, DoFinish, DoDeliverRun, DoRecoverLook, DoRecoverProbe, DoDeliverRecovered,
      DoRetryLook, DoDeliverRetry, DoCallback, DoRestart;
    match step
    case Submit(sub, id, o) => KeepSubmit(st, s, sub, id, o);
    case StartBegin(elapsed, o) => KeepStartBegin(st, s, elapsed, o);
    case StartGate(granted) => KeepStartGate(st, s, granted);
    case StartCommit(o) => KeepStartCommit(st, s, o);
    case Cancel(id, attempt, o) => KeepCancel(st, s, id, attempt, o);
    case StopContext => KeepClose(st, s);
    case Close => KeepClose(st, s);
    case RetainCheckpoint(c, o) => KeepRetain(st, s, c, o);
    case AckCheckpoint(ok) => KeepAck(st, s, ok);
    case PushBranch(ok) => KeepPush(st, s, ok);
    case OpenDraft(create, result) => KeepDraft(st, s, create, result);
    case FailExecution => KeepFail(st, s);
    case FinishRun(probe, note) => KeepFinish(st, s, probe, note);
    case DeliverRun(o) => KeepDeliverRun(st, s, o);
    case RecoverLook => KeepRecoverLook(st, s);
    case RecoverProbe(probe) => KeepRecoverProbe(st, s, probe);
    case DeliverRecovered(o) => KeepDeliverRecovered(st, s, o);
    case RetryLook => KeepRetryLook(st, s);
    case DeliverRetry(e, o) => KeepDeliverRetry(st, s, e, o);
    case Callback(reply, o) => KeepCallback(st, s, reply, o);
    case Crash => KeepCrash(st, s);
    case Restart => KeepRestart(st, s);
  }

  /** The invariant holds after every sequence of steps. */
  lemma {:induction false} Reachable(st: Setting, s: System, steps: seq<Step>)
    requires GoodSetting(st) && Inv(st, s)
    ensures Inv(st, RunFrom(st, s, steps))
    decreases |steps|
  {
    hide Inv, GoodSetting, Apply;
    if steps != [] {
      Reachable(st, s, steps[..|steps| - 1]);
      KeepStep(st, RunFrom(st, s, steps[..|steps| - 1]), steps[|steps| - 1]);
    }
  }
}
