/**
  The adapter's job protocol for one attempt: a volatile job record, the durable receipt, the threads
  that touch them and the effects they have outside the process.

  One step is one critical section of the job's state lock, one call to the outside, a crash or a restart.
  A start keeps the lock from its first write to its last, so its steps share the lock state `start`.
  A step that is not possible in a state leaves the state as it is, so every sequence of steps is a run.
 */
module Protocol {
  import opened Records

  datatype Status = Reserved | Starting | Started | Cancelled | Terminal

  function Rank(s: Status): nat {
    match s
    case Reserved => 0
    case Starting => 1
    case Started => 2
    case Cancelled => 3
    case Terminal => 4
  }

  datatype Receipt = Receipt(
    job: string, attempt: string, submission: Submission, digest: string, status: Status,
    publication: Option<Checkpoint>, terminal: Option<Event>, delivered: bool, rejected: bool)

  datatype Job = Job(
    id: string, submission: Submission, digest: string, status: Status,
    started: bool, cancelled: bool, stopped: bool,
    terminal: Option<Event>, publication: Option<Checkpoint>, delivered: bool, rejected: bool)

  function NewJob(st: Setting, id: string, sub: Submission): Job {
    Job(id, sub, st.digest(sub), Reserved, false, false, false, None, None, false, false)
  }

  function Persist(j: Job): Receipt {
    Receipt(j.id, j.submission.attempt, j.submission, j.digest, j.status, j.publication, j.terminal, j.delivered, j.rejected)
  }

  /** Every check that a restarted process makes of a receipt before it serves any request. */
  predicate LoadAccepts(st: Setting, r: Receipt) {
    && r.attempt == st.attempt && st.admits(r.submission) && r.submission.attempt == r.attempt
    && r.digest == st.digest(r.submission) && Hex64(r.digest) && JobForm(r.job)
    && (r.status.Terminal? ==>
          && r.terminal.Some? && ValidEvent(r.terminal.value) && !r.terminal.value.kind.Heartbeat?
          && r.terminal.value.job == r.job && r.terminal.value.attempt == r.attempt)
    && (!r.status.Terminal? ==> r.terminal.None? && !r.delivered && !r.rejected)
    && (r.publication.Some? ==>
          (r.status.Started? || r.status.Cancelled? || r.status.Terminal?) && ValidCheckpoint(r.publication.value))
    && (r.publication.Some? && r.terminal.Some? && r.terminal.value.kind.Completed? ==>
          r.terminal.value.evidence == r.publication.value.evidence)
    && !(r.delivered && r.rejected)
  }

  /** A reloaded job that may have used its start claim can never start again. */
  function LoadJob(r: Receipt): Job {
    var spent := !r.status.Reserved?;
    Job(r.job, r.submission, r.digest, r.status, spent, spent, spent, r.terminal, r.publication, r.delivered, r.rejected)
  }

  /** A failed save may or may not have replaced the file. */
  datatype SaveOutcome = Saved | LostOld | LostNew

  function Save(disk: Option<Receipt>, r: Receipt, o: SaveOutcome): Option<Receipt> {
    if o.LostOld? then disk else Some(r)
  }

  // ---- critical sections, as functions of the job alone ----

  function CancelJob(j: Job): Job {
    j.(cancelled := true, stopped := true, status := Cancelled)
  }

  function AbandonStart(j: Job): Job {
    j.(cancelled := true, stopped := true)
  }

  predicate MayRetain(j: Job, c: Checkpoint) {
    && ValidCheckpoint(c) && j.status.Started? && !j.cancelled
    && (j.publication.Some? ==> j.publication.value == c)
  }

  predicate IgnoresTerminal(j: Job, e: Event) {
    j.delivered || j.rejected || (j.terminal.Some? && (j.terminal.value.job != e.job || j.terminal.value.suffix != e.suffix))
  }

  function AdoptTerminal(j: Job, e: Event): Job {
    j.(status := Terminal, terminal := Some(e))
  }

  const INTERRUPTED := "execution was interrupted by a restart"

  function InterruptedEvent(st: Setting, j: Job, publication: Option<Checkpoint>): Event {
    AttentionEvent(st, j.id, j.submission, SInterrupted,
                   if publication.Some? then "agent_publication_unverified" else "agent_adapter_interrupted", INTERRUPTED)
  }

  predicate Confirms(st: Setting, j: Job, publication: Option<Checkpoint>, probe: Option<Result>) {
    publication.Some? && probe.Some? && ValidResult(st, j.submission, probe.value) && Matches(probe.value, publication.value)
  }

  /** The diagnostic of a failed execution: a fixed code and a bounded, non-blank summary. */
  datatype Note = Note(code: string, summary: string)

  predicate ValidNote(n: Note) { 1 <= |Trim(n.summary)| <= 4000 }

  /** The terminal event of an execution that returned `result`, after one read-only look at the provider. */
  function FinishEvent(st: Setting, j: Job, result: Option<Result>, probe: Option<Result>, note: Note): Event {
    var final := if result.None? && Confirms(st, j, j.publication, probe) then probe else result;
    if final.None? then AttentionEvent(st, j.id, j.submission, SFailed, note.code, note.summary)
    else if !ValidResult(st, j.submission, final.value) then
      AttentionEvent(st, j.id, j.submission, SInvalidResult, "agent_adapter_result_rejected", INTERRUPTED)
    else if j.publication.None? || !Matches(final.value, j.publication.value) then
      AttentionEvent(st, j.id, j.submission, SMismatch, "agent_adapter_result_rejected", INTERRUPTED)
    else CompletedEvent(st, j.id, j.submission, final.value, SCompleted)
  }

  // ---- threads ----

  datatype StartLock = Unlocked | Claiming | Granted

  datatype RunState =
    | Idle
    | Coding
    | Retained(c: Checkpoint)
    | MayPush(c: Checkpoint)
    | Pushed(c: Checkpoint)
    | Returned(result: Option<Result>)
    | Reporting(e: Event)
    | Ended

  datatype Recovery = Queued | Probing(p: Checkpoint) | Handing(e: Event) | Handled

  datatype Delivery = Quiet | Sending(e: Event, attempt: nat)

  datatype Live = Live(
    job: Job, start: StartLock, run: RunState, recovery: Recovery, retries: multiset<Event>, delivery: Delivery)

  datatype Process = Down | Up(closed: bool, live: Option<Live>)

  datatype Act =
    | Claim(job: string)
    | Launch(job: string)
    | Accept(c: Checkpoint)
    | Push(head: string)
    | Draft(head: string)
    | Send(e: Event)
    | AckCancel(job: string)

  datatype System = System(disk: Option<Receipt>, process: Process, log: seq<Act>)

  const INITIAL := System(None, Down, [])

  datatype Reply = Accepted | Conflict | Failure(expired: bool)

  datatype Step =
    | Submit(sub: Submission, newId: string, o: SaveOutcome)
    | StartBegin(elapsed: bool, o: SaveOutcome)
    | StartGate(granted: bool)
    | StartCommit(o: SaveOutcome)
    | Cancel(id: string, attempt: string, o: SaveOutcome)
    | StopContext
    | Close
    | RetainCheckpoint(c: Checkpoint, o: SaveOutcome)
    | AckCheckpoint(ok: bool)
    | PushBranch(ok: bool)
    | OpenDraft(create: bool, result: Option<Result>)
    | FailExecution
    | FinishRun(probe: Option<Result>, note: Note)
    | DeliverRun(o: SaveOutcome)
    | RecoverLook
    | RecoverProbe(probe: Option<Result>)
    | DeliverRecovered(o: SaveOutcome)
    | RetryLook
    | DeliverRetry(e: Event, o: SaveOutcome)
    | Callback(reply: Reply, o: SaveOutcome)
    | Crash
    | Restart

  predicate HasLive(s: System) { s.process.Up? && s.process.live.Some? }

  /** The state lock is free. */
  predicate Ready(s: System) { HasLive(s) && s.process.live.value.start.Unlocked? }

  function LiveOf(s: System): Live requires HasLive(s) { s.process.live.value }

  function JobOf(s: System): Job requires HasLive(s) { LiveOf(s).job }

  function Put(s: System, l: Live): System requires HasLive(s) {
    s.(process := s.process.(live := Some(l)))
  }

  function PutJob(s: System, j: Job): System requires HasLive(s) {
    Put(s, LiveOf(s).(job := j))
  }

  function Write(s: System, j: Job, o: SaveOutcome): System requires HasLive(s) {
    PutJob(s, j).(disk := Save(s.disk, Persist(j), o))
  }

  function Did(s: System, a: Act): System { s.(log := s.log + [a]) }

  function DoSubmit(st: Setting, s: System, sub: Submission, newId: string, o: SaveOutcome): System {
    if s.process.Up? && !s.process.closed && s.process.live.None?
       && st.admits(sub) && sub.attempt == st.attempt && JobForm(newId) then
      var j := NewJob(st, newId, sub);
      System(Save(s.disk, Persist(j), o),
             if o.Saved? then s.process.(live := Some(Live(j, Unlocked, Idle, Handled, multiset{}, Quiet))) else s.process,
             s.log)
    else s
  }

  function DoStartBegin(s: System, elapsed: bool, o: SaveOutcome): System {
    if !Ready(s) || JobOf(s).cancelled || JobOf(s).started then s
    else if elapsed then Write(s, CancelJob(JobOf(s)), o)
    else
      var j := JobOf(s).(status := Starting);
      if o.Saved? then
        var w := Write(s, j, o);
        Put(w, LiveOf(w).(start := Claiming))
      else Write(s, j, o).(process := s.process.(live := Some(LiveOf(s).(job := AbandonStart(j)))))
  }

  function DoStartGate(s: System, granted: bool): System {
    if HasLive(s) && LiveOf(s).start.Claiming? then
      var c := Did(s, Claim(JobOf(s).id));
      if granted then Put(c, LiveOf(s).(start := Granted))
      else Put(c, LiveOf(s).(start := Unlocked, job := AbandonStart(JobOf(s))))
    else s
  }

  function DoStartCommit(s: System, o: SaveOutcome): System {
    if HasLive(s) && LiveOf(s).start.Granted? then
      var j := JobOf(s).(status := Started);
      var w := Write(s, j, o);
      if !o.Saved? then Put(w, LiveOf(w).(start := Unlocked, job := AbandonStart(j)))
      else if s.process.closed then Put(w, LiveOf(w).(start := Unlocked, job := AbandonStart(j.(started := true))))
      else Did(Put(w, LiveOf(w).(start := Unlocked, run := Coding, job := j.(started := true))), Launch(j.id))
    else s
  }

  /** A control request names the job by its ID and by the attempt ID in the spelling of the submission. */
  predicate Names(s: System, id: string, attempt: string) {
    HasLive(s) && JobOf(s).id == id && JobOf(s).submission.attempt == attempt
  }

  /** A cancel that names no job in memory is acknowledged without any effect. */
  function DoCancel(s: System, id: string, attempt: string, o: SaveOutcome): System {
    if !s.process.Up? then s
    else if !Names(s, id, attempt) then Did(s, AckCancel(id))
    else if !Ready(s) then s
    else if JobOf(s).status.Terminal? then Did(s, AckCancel(id))
    else
      var w := Write(s, CancelJob(JobOf(s)), o);
      if o.Saved? then Did(w, AckCancel(id)) else w
  }

  function DoStop(s: System): System {
    if HasLive(s) then PutJob(s, JobOf(s).(stopped := true)) else s
  }

  function DoClose(s: System): System {
    if s.process.Up? then
      var t := DoStop(s);
      t.(process := t.process.(closed := true))
    else s
  }

  function DoRetain(s: System, c: Checkpoint, o: SaveOutcome): System {
    if !Ready(s) || !LiveOf(s).run.Coding? then s
    else if !MayRetain(JobOf(s), c) then Put(s, LiveOf(s).(run := Returned(None)))
    else
      var j := JobOf(s).(publication := Some(c));
      if o.Saved? then
        var w := Write(s, j, o);
        Did(Put(w, LiveOf(w).(run := Retained(c))), Accept(c))
      else
        Put(s, LiveOf(s).(run := Returned(None))).(disk := Save(s.disk, Persist(j), o))
  }

  function DoAck(s: System, ok: bool): System {
    if HasLive(s) && LiveOf(s).run.Retained? then
      if ok then Put(s, LiveOf(s).(run := MayPush(LiveOf(s).run.c)))
      else Put(s, LiveOf(s).(run := Returned(None), job := JobOf(s).(stopped := true)))
    else s
  }

  function DoPush(s: System, ok: bool): System {
    if HasLive(s) && LiveOf(s).run.MayPush? then
      var c := LiveOf(s).run.c;
      Did(Put(s, LiveOf(s).(run := if ok then Pushed(c) else Returned(None))), Push(c.evidence.head))
    else s
  }

  function DoDraft(s: System, create: bool, result: Option<Result>): System {
    if HasLive(s) && LiveOf(s).run.Pushed? then
      var t := Put(s, LiveOf(s).(run := Returned(result)));
      if create then Did(t, Draft(LiveOf(s).run.c.evidence.head)) else t
    else s
  }

  predicate Executing(r: RunState) { r.Coding? || r.Retained? || r.MayPush? || r.Pushed? }

  function DoFail(s: System): System {
    if HasLive(s) && Executing(LiveOf(s).run) then Put(s, LiveOf(s).(run := Returned(None))) else s
  }

  function DoFinish(st: Setting, s: System, probe: Option<Result>, note: Note): System {
    if !Ready(s) || !LiveOf(s).run.Returned? then s
    else if JobOf(s).stopped then Put(s, LiveOf(s).(run := Ended))
    else if !ValidNote(note) then s
    else Put(s, LiveOf(s).(run := Reporting(FinishEvent(st, JobOf(s), LiveOf(s).run.result, probe, note))))
  }

  /** The persisting half of a terminal delivery; the delivery lock is free and is kept on success. */
  function Begin(s: System, e: Event, o: SaveOutcome): System requires HasLive(s) {
    if IgnoresTerminal(JobOf(s), e) then s
    else
      var w := Write(s, AdoptTerminal(JobOf(s), e), o);
      if o.Saved? then Put(w, LiveOf(w).(delivery := Sending(e, 0))) else w
  }

  function DoDeliverRun(s: System, o: SaveOutcome): System {
    if Ready(s) && LiveOf(s).delivery.Quiet? && LiveOf(s).run.Reporting? then
      Begin(Put(s, LiveOf(s).(run := Ended)), LiveOf(s).run.e, o)
    else s
  }

  function DoRecoverLook(st: Setting, s: System): System {
    if !Ready(s) || !LiveOf(s).recovery.Queued? then s
    else
      var j := JobOf(s);
      Put(s, LiveOf(s).(recovery :=
        if j.status.Terminal? && j.terminal.Some? && !j.delivered && !j.rejected then Handing(j.terminal.value)
        else if j.status.Started? && j.publication.Some? then Probing(j.publication.value)
        else if j.status.Starting? || j.status.Started? then Handing(InterruptedEvent(st, j, j.publication))
        else Handled))
  }

  function DoRecoverProbe(st: Setting, s: System, probe: Option<Result>): System {
    if HasLive(s) && LiveOf(s).recovery.Probing? then
      var p := Some(LiveOf(s).recovery.p);
      Put(s, LiveOf(s).(recovery := Handing(
        if Confirms(st, JobOf(s), p, probe)
        then CompletedEvent(st, JobOf(s).id, JobOf(s).submission, probe.value, SReconciled)
        else InterruptedEvent(st, JobOf(s), p))))
    else s
  }

  function DoDeliverRecovered(s: System, o: SaveOutcome): System {
    if Ready(s) && LiveOf(s).delivery.Quiet? && LiveOf(s).recovery.Handing? then
      Begin(Put(s, LiveOf(s).(recovery := Handled)), LiveOf(s).recovery.e, o)
    else s
  }

  function DoRetryLook(s: System): System {
    if Ready(s) && JobOf(s).terminal.Some? && !JobOf(s).delivered && !JobOf(s).rejected then
      Put(s, LiveOf(s).(retries := LiveOf(s).retries + multiset{JobOf(s).terminal.value}))
    else s
  }

  function DoDeliverRetry(s: System, e: Event, o: SaveOutcome): System {
    if Ready(s) && LiveOf(s).delivery.Quiet? && e in LiveOf(s).retries then
      Begin(Put(s, LiveOf(s).(retries := LiveOf(s).retries - multiset{e})), e, o)
    else s
  }

  const CALLBACK_ATTEMPTS := 5

  function DoCallback(s: System, reply: Reply, o: SaveOutcome): System {
    if Ready(s) && LiveOf(s).delivery.Sending? then
      var d := LiveOf(s).delivery;
      var t := Did(s, Send(d.e));
      match reply
      case Accepted => Write(Put(t, LiveOf(s).(delivery := Quiet)), JobOf(s).(delivered := true), o)
      case Conflict => Write(Put(t, LiveOf(s).(delivery := Quiet)), JobOf(s).(rejected := true), o)
      case Failure(expired) =>
        var over := expired || d.attempt + 1 == CALLBACK_ATTEMPTS;
        Put(t, LiveOf(s).(delivery := if over then Quiet else Sending(d.e, d.attempt + 1)))
    else s
  }

  function DoRestart(st: Setting, s: System): System {
    if !s.process.Down? then s
    else if s.disk.None? then s.(process := Up(false, None))
    else if LoadAccepts(st, s.disk.value) then
      s.(process := Up(false, Some(Live(LoadJob(s.disk.value), Unlocked, Idle, Queued, multiset{}, Quiet))))
    else s
  }

  function Apply(st: Setting, s: System, step: Step): System {
    match step
    case Submit(sub, newId, o) => DoSubmit(st, s, sub, newId, o)
    case StartBegin(elapsed, o) => DoStartBegin(s, elapsed, o)
    case StartGate(granted) => DoStartGate(s, granted)
    case StartCommit(o) => DoStartCommit(s, o)
    case Cancel(id, attempt, o) => DoCancel(s, id, attempt, o)
    case StopContext => DoStop(s)
    case Close => DoClose(s)
    case RetainCheckpoint(c, o) => DoRetain(s, c, o)
    case AckCheckpoint(ok) => DoAck(s, ok)
    case PushBranch(ok) => DoPush(s, ok)
    case OpenDraft(create, result) => DoDraft(s, create, result)
    case FailExecution => DoFail(s)
    case FinishRun(probe, note) => DoFinish(st, s, probe, note)
    case DeliverRun(o) => DoDeliverRun(s, o)
    case RecoverLook => DoRecoverLook(st, s)
    case RecoverProbe(probe) => DoRecoverProbe(st, s, probe)
    case DeliverRecovered(o) => DoDeliverRecovered(s, o)
    case RetryLook => DoRetryLook(s)
    case DeliverRetry(e, o) => DoDeliverRetry(s, e, o)
    case Callback(reply, o) => DoCallback(s, reply, o)
    case Crash => s.(process := Down)
    case Restart => DoRestart(st, s)
  }

  /** Running the steps one after another from `s`. */
  function RunFrom(st: Setting, s: System, steps: seq<Step>): System
    decreases |steps|
  {
    if steps == [] then s else Apply(st, RunFrom(st, s, steps[..|steps| - 1]), steps[|steps| - 1])
  }

  function Run(st: Setting, steps: seq<Step>): System { RunFrom(st, INITIAL, steps) }

  datatype Tag = TClaim | TLaunch | TAccept | TPush | TDraft | TSend | TAckCancel

  function TagOf(a: Act): Tag {
    match a
    case Claim(_) => TClaim
    case Launch(_) => TLaunch
    case Accept(_) => TAccept
    case Push(_) => TPush
    case Draft(_) => TDraft
    case Send(_) => TSend
    case AckCancel(_) => TAckCancel
  }

  /** How many acts of the log carry the tag. */
  function Tally(log: seq<Act>, tag: Tag): nat {
    if log == [] then 0 else Tally(log[..|log| - 1], tag) + if TagOf(log[|log| - 1]) == tag then 1 else 0
  }
}
