/**
  The runner's dispatch of one approved plan against the control-plane store and the adapter. Any number of delivery
  threads, of the same or of different workers, run the same code; every store transaction and every adapter call is
  one step, any of them may fail or lose its response, and any thread may stop at any point and be delivered again.
  A step that is not possible in a state leaves the state as it is, so every sequence of steps is a run.
 */
module Dispatch {
  import opened Records

  /** The attempt row of the plan: lease and job are what the store's conditions test. */
  datatype Row = Row(running: bool, worker: string, live: bool, attempt: nat, job: Option<string>, gated: bool)

  datatype TaskState = Queued | Executing | Stopped

  datatype Place =
    | Idle
    | Looking
    | Checking
    | Holding
    | Claiming
    | Loading
    | Submitting
    | Marking
    | Attaching(job: string)
    | Revoking(job: string)
    | Starting(job: string)
    | Retrying

  datatype Thread = Thread(worker: string, at: Place)

  /**
    `Looked` and `Tried` say what a thread learned: the pending job it found, and whether its attach call succeeded.
   */
  datatype Act =
    | Looked(thread: nat, pending: Option<string>)
    | Checked(thread: nat, ready: bool)
    | Claimed(thread: nat)
    | Attached(job: string)
    | Tried(thread: nat, job: string, ok: bool)
    | SentStart(thread: nat, job: string)
    | SentCancel(thread: nat, job: string)
    | Granted(job: string)

  datatype System = System(task: TaskState, row: Option<Row>, threads: map<nat, Thread>, log: seq<Act>)

  const INITIAL := System(Queued, None, map[], [])

  /** A store call commits and answers, fails without effect, or commits and loses its answer. */
  datatype Outcome = Answered | Failed | LostAnswer

  datatype Step =
    | Deliver(i: nat, worker: string)
    | Look(i: nat, ok: bool)
    | Check(i: nat, ready: bool)
    | Hold(i: nat, eligible: bool, o: Outcome)
    | Claim(i: nat, admitted: bool, maxAttempts: nat, o: Outcome)
    | Load(i: nat, ok: bool)
    | Submit(i: nat, reply: Option<string>)
    | Mark(i: nat, o: Outcome)
    | Attach(i: nat, taken: bool, o: Outcome)
    | Revoke(i: nat)
    | Start(i: nat)
    | RetryLook(i: nat, ok: bool)
    | Gate(job: string, o: Outcome)
    | LeaseEnds
    | Reap
    | Finish
    | Die(i: nat)

  predicate At(s: System, i: nat, p: Place) { i in s.threads && s.threads[i].at == p }

  function Go(s: System, i: nat, p: Place): System {
    if i in s.threads then s.(threads := s.threads[i := s.threads[i].(at := p)]) else s
  }

  function Did(s: System, a: Act): System { s.(log := s.log + [a]) }

  /** The original worker's live lease on a row with an attached job whose gate was not used. */
  predicate Pending(s: System, worker: string) {
    s.task.Executing? && s.row.Some? && s.row.value.running && s.row.value.worker == worker && s.row.value.live
    && s.row.value.job.Some? && !s.row.value.gated
  }

  /** The live lease of this worker. */
  predicate Leases(s: System, worker: string) {
    s.row.Some? && s.row.value.running && s.row.value.worker == worker && s.row.value.live
  }

  /** A queued plan without a row, or an expired lease that never attached a job. */
  predicate Claimable(s: System, maxAttempts: nat) {
    && !s.task.Stopped?
    && (s.row.None? ||
        (s.row.value.running && !s.row.value.live && s.row.value.attempt < maxAttempts && s.row.value.job.None?))
  }

  function ClaimRow(s: System, worker: string): System {
    s.(task := Executing,
       row := Some(Row(true, worker, true, if s.row.None? then 1 else s.row.value.attempt + 1, None, false)))
  }

  function StopRow(s: System): System {
    s.(task := Stopped, row := if s.row.None? then None else Some(s.row.value.(running := false, live := false)))
  }

  function DoLook(s: System, i: nat, ok: bool, otherwise: Place): System
    requires i in s.threads
  {
    if !ok then Go(s, i, Idle)
    else if Pending(s, s.threads[i].worker) then
      var job := s.row.value.job.value;
      Go(Did(s, Looked(i, Some(job))), i, Starting(job))
    else Go(Did(s, Looked(i, None)), i, otherwise)
  }

  function DoHold(s: System, i: nat, eligible: bool, o: Outcome): System {
    if o.Failed? then Go(s, i, Idle)
    else if eligible && s.task.Queued? && s.row.None? then Go(s.(task := Stopped), i, Idle)
    else if o.Answered? then Go(s, i, Retrying)
    else Go(s, i, Idle)
  }

  function DoClaim(s: System, i: nat, admitted: bool, maxAttempts: nat, o: Outcome): System
    requires i in s.threads
  {
    if o.Failed? then Go(s, i, Idle)
    else if !admitted || !Claimable(s, maxAttempts) then Go(s, i, if o.Answered? then Retrying else Idle)
    else Go(Did(ClaimRow(s, s.threads[i].worker), Claimed(i)), i, if o.Answered? then Loading else Idle)
  }

  /** `taken` is a job ID that another row already holds. */
  function DoAttach(s: System, i: nat, taken: bool, o: Outcome): System
    requires i in s.threads && s.threads[i].at.Attaching?
  {
    var job := s.threads[i].at.job;
    if o.Failed? || taken || !Leases(s, s.threads[i].worker) || s.row.value.job.Some? then
      Go(Did(s, Tried(i, job, false)), i, Revoking(job))
    else
      var t := Did(s.(row := Some(s.row.value.(job := Some(job)))), Attached(job));
      if o.Answered? then Go(Did(t, Tried(i, job, true)), i, Starting(job))
      else Go(Did(t, Tried(i, job, false)), i, Revoking(job))
  }

  function DoMark(s: System, i: nat, o: Outcome): System
    requires i in s.threads
  {
    if o.Failed? || !Leases(s, s.threads[i].worker) then Go(s, i, Idle) else Go(StopRow(s), i, Idle)
  }

  /** The one-use gate, which the adapter asks before it launches. */
  function DoGate(s: System, job: string, o: Outcome): System {
    if !o.Failed? && s.row.Some? && s.row.value.running && s.row.value.live
       && s.row.value.job == Some(job) && !s.row.value.gated
    then Did(s.(row := Some(s.row.value.(gated := true))), Granted(job))
    else s
  }

  function Apply(s: System, step: Step): System {
    match step
    case Deliver(i, worker) =>
      if i in s.threads && !At(s, i, Idle) then s else s.(threads := s.threads[i := Thread(worker, Looking)])
    case Look(i, ok) => if At(s, i, Looking) then DoLook(s, i, ok, Checking) else s
    case Check(i, ready) =>
      if At(s, i, Checking) then Go(Did(s, Checked(i, ready)), i, if ready then Claiming else Holding) else s
    case Hold(i, eligible, o) => if At(s, i, Holding) then DoHold(s, i, eligible, o) else s
    case Claim(i, admitted, maxAttempts, o) => if At(s, i, Claiming) then DoClaim(s, i, admitted, maxAttempts, o) else s
    case Load(i, ok) =>
      if At(s, i, Loading) then Go(s, i, if ok && Leases(s, s.threads[i].worker) then Submitting else Idle) else s
    case Submit(i, reply) =>
      if At(s, i, Submitting) then Go(s, i, if reply.Some? then Attaching(reply.value) else Marking) else s
    case Mark(i, o) => if At(s, i, Marking) then DoMark(s, i, o) else s
    case Attach(i, taken, o) => if i in s.threads && s.threads[i].at.Attaching? then DoAttach(s, i, taken, o) else s
    case Revoke(i) =>
      if i in s.threads && s.threads[i].at.Revoking? then Go(Did(s, SentCancel(i, s.threads[i].at.job)), i, Idle) else s
    case Start(i) =>
      if i in s.threads && s.threads[i].at.Starting? then Go(Did(s, SentStart(i, s.threads[i].at.job)), i, Idle) else s
    case RetryLook(i, ok) => if At(s, i, Retrying) then DoLook(s, i, ok, Idle) else s
    case Gate(job, o) => DoGate(s, job, o)
    case LeaseEnds => if s.row.Some? then s.(row := Some(s.row.value.(live := false))) else s
    case Reap => if s.row.Some? && s.row.value.running && !s.row.value.live then StopRow(s) else s
    case Finish => StopRow(s)
    case Die(i) => Go(s, i, Idle)
  }

  function Run(steps: seq<Step>): System {
    if steps == [] then INITIAL else Apply(Run(steps[..|steps| - 1]), steps[|steps| - 1])
  }

  // ---- invariant ----

  predicate IsJob(s: System, job: string) { s.row.Some? && s.row.value.job == Some(job) }

  /** Jobs named outside: the attached one, and only that one. */
  predicate ActFits(s: System, a: Act) {
    match a
    case Attached(job) => IsJob(s, job)
    case SentStart(_, job) => IsJob(s, job)
    case Granted(job) => IsJob(s, job) && s.row.value.gated
    case _ => true
  }

  predicate LogFits(s: System) { forall k | 0 <= k < |s.log| :: ActFits(s, s.log[k]) }

  predicate ThreadsFit(s: System) {
    forall i | i in s.threads && s.threads[i].at.Starting? :: IsJob(s, s.threads[i].at.job)
  }

  function Grants(log: seq<Act>): nat {
    if log == [] then 0 else Grants(log[..|log| - 1]) + if log[|log| - 1].Granted? then 1 else 0
  }

  function Attachments(log: seq<Act>): nat {
    if log == [] then 0 else Attachments(log[..|log| - 1]) + if log[|log| - 1].Attached? then 1 else 0
  }

  predicate OfThread(a: Act, i: nat) { !a.Attached? && !a.Granted? && a.thread == i }

  /** The last thing a thread did. */
  function LastOf(log: seq<Act>, i: nat): Option<Act> {
    if log == [] then None
    else if OfThread(log[|log| - 1], i) then Some(log[|log| - 1])
    else LastOf(log[..|log| - 1], i)
  }

  /** What a thread must have learned last to stand where it stands. */
  predicate PlaceFits(log: seq<Act>, i: nat, p: Place) {
    match p
    case Claiming => LastOf(log, i) == Some(Checked(i, true))
    case Starting(job) => LastOf(log, i) == Some(Looked(i, Some(job))) || LastOf(log, i) == Some(Tried(i, job, true))
    case Revoking(job) => LastOf(log, i) == Some(Tried(i, job, false))
    case _ => true
  }

  predicate Free(p: Place) { !p.Claiming? && !p.Starting? && !p.Revoking? }

  predicate PlacesFit(s: System) { forall i | i in s.threads :: PlaceFits(s.log, i, s.threads[i].at) }

  predicate Counted(s: System) {
    && Grants(s.log) == (if s.row.Some? && s.row.value.gated then 1 else 0)
    && Attachments(s.log) == (if s.row.Some? && s.row.value.job.Some? then 1 else 0)
    && (s.row.Some? && s.row.value.gated ==> s.row.value.job.Some?)
    && (s.row.Some? && s.row.value.job.Some? ==> Attached(s.row.value.job.value) in s.log)
  }

  /**
    A job is started, and its gate granted, only after it was attached; nothing is claimed after that; and a start
    follows a thread's own finding or successful attach, a cancel its own attach that did not succeed.
   */
  predicate Ordered(log: seq<Act>) {
    forall k | 0 <= k < |log| :: OrderedAt(log[..k], log[k])
  }

  predicate OrderedAt(before: seq<Act>, a: Act) {
    match a
    case SentStart(i, job) => Attached(job) in before && PlaceFits(before, i, Starting(job))
    case SentCancel(i, job) => PlaceFits(before, i, Revoking(job))
    case Granted(job) => Attached(job) in before
    case Claimed(i) => PlaceFits(before, i, Claiming) && forall k | 0 <= k < |before| :: !before[k].Attached?
    case Looked(_, pending) =>
      pending.Some? ==> Attached(pending.value) in before && Granted(pending.value) !in before
    case Tried(_, job, ok) => ok ==> before != [] && before[|before| - 1] == Attached(job)
    case _ => true
  }

  predicate Inv(s: System) { LogFits(s) && ThreadsFit(s) && Counted(s) && PlacesFit(s) && Ordered(s.log) }

  lemma Appended(log: seq<Act>, a: Act)
    ensures Grants(log + [a]) == Grants(log) + if a.Granted? then 1 else 0
    ensures Attachments(log + [a]) == Attachments(log) + if a.Attached? then 1 else 0
    ensures forall i: nat ::
      LastOf(log + [a], i) == if OfThread(a, i) then Some(a) else LastOf(log, i)
    ensures Ordered(log) && OrderedAt(log, a) ==> Ordered(log + [a])
  {
    hide OrderedAt;
    var all := log + [a];
    assert all[..|all| - 1] == log && all[|all| - 1] == a;
    forall k | 0 <= k < |log| ensures all[k] == log[k] && all[..k] == log[..k] {}
  }

  lemma GoKeeps(s: System, i: nat, p: Place)
    requires Inv(s) && (p.Starting? ==> IsJob(s, p.job)) && PlaceFits(s.log, i, p)
    ensures Inv(Go(s, i, p))
  {
    hide Ordered, LastOf, Grants, Attachments, PlaceFits;
    var t := Go(s, i, p);
    assert forall k | 0 <= k < |s.log| :: ActFits(s, s.log[k]) ==> ActFits(t, s.log[k]);
  }

  lemma DidKeeps(s: System, a: Act)
    requires Inv(s) && OrderedAt(s.log, a) && ActFits(s, a) && !a.Granted? && !a.Attached?
    requires a.thread in s.threads ==> Free(s.threads[a.thread].at)
    ensures Inv(Did(s, a)) && LastOf(Did(s, a).log, a.thread) == Some(a)
  {
    hide Ordered, OrderedAt, LastOf, Grants, Attachments;
    Appended(s.log, a);
    var t := Did(s, a);
    forall k | 0 <= k < |t.log| ensures ActFits(t, t.log[k]) {
      if k < |s.log| { assert ActFits(s, s.log[k]); }
    }
    forall i | i in t.threads ensures PlaceFits(t.log, i, t.threads[i].at) {
      assert PlaceFits(s.log, i, s.threads[i].at);
    }
  }

  /** The row may change in every way that keeps the job and the gate. */
  lemma RowKeeps(s: System, task: TaskState, row: Option<Row>)
    requires Inv(s) && (row.Some? <==> s.row.Some?)
    requires row.Some? ==> row.value.job == s.row.value.job && row.value.gated == s.row.value.gated
    ensures Inv(s.(task := task, row := row))
  {
    hide Ordered, LastOf, Grants, Attachments;
    var t := s.(task := task, row := row);
    assert forall k | 0 <= k < |s.log| :: ActFits(s, s.log[k]) ==> ActFits(t, s.log[k]);
  }

  /** Without an attached job the log names none. */
  lemma NoJobYet(s: System)
    requires Inv(s) && (s.row.None? || s.row.value.job.None?)
    ensures forall k | 0 <= k < |s.log| :: !s.log[k].Attached? && !s.log[k].SentStart? && !s.log[k].Granted?
    ensures forall i | i in s.threads :: !s.threads[i].at.Starting?
  {
    forall k | 0 <= k < |s.log| ensures !s.log[k].Attached? && !s.log[k].SentStart? && !s.log[k].Granted? {
      assert ActFits(s, s.log[k]);
    }
  }

  lemma ClaimKeeps(s: System, i: nat, maxAttempts: nat, p: Place)
    requires Inv(s) && At(s, i, Claiming) && Claimable(s, maxAttempts) && Free(p)
    ensures Inv(Go(Did(ClaimRow(s, s.threads[i].worker), Claimed(i)), i, p))
  {
    hide Ordered, LastOf, Grants, Attachments;
    NoJobYet(s);
    var u := ClaimRow(s, s.threads[i].worker);
    assert forall k | 0 <= k < |s.log| :: ActFits(s, s.log[k]) ==> ActFits(u, s.log[k]);
    assert Inv(u);
    assert PlaceFits(s.log, i, Claiming);
    GoKeeps(u, i, p);
    DidKeeps(Go(u, i, p), Claimed(i));
  }

  lemma AttachKeeps(s: System, i: nat, job: string, ok: bool)
    requires Inv(s) && s.row.Some? && s.row.value.job.None? && At(s, i, Attaching(job))
    ensures var t := Did(s.(row := Some(s.row.value.(job := Some(job)))), Attached(job));
      Inv(Go(Did(t, Tried(i, job, ok)), i, if ok then Starting(job) else Revoking(job)))
  {
    hide Ordered, LastOf, Grants, Attachments;
    NoJobYet(s);
    Appended(s.log, Attached(job));
    var t := Did(s.(row := Some(s.row.value.(job := Some(job)))), Attached(job));
    forall k | 0 <= k < |t.log| ensures ActFits(t, t.log[k]) {}
    assert t.log[|s.log|] == Attached(job);
    forall j | j in t.threads ensures PlaceFits(t.log, j, t.threads[j].at) {
      assert PlaceFits(s.log, j, s.threads[j].at);
    }
    assert Inv(t);
    DidKeeps(t, Tried(i, job, ok));
    GoKeeps(Did(t, Tried(i, job, ok)), i, if ok then Starting(job) else Revoking(job));
  }

  lemma RefusedKeeps(s: System, i: nat, job: string)
    requires Inv(s) && At(s, i, Attaching(job))
    ensures Inv(Go(Did(s, Tried(i, job, false)), i, Revoking(job)))
  {
    hide Inv, LastOf;
    DidKeeps(s, Tried(i, job, false));
    GoKeeps(Did(s, Tried(i, job, false)), i, Revoking(job));
  }

  lemma GateKeeps(s: System, job: string)
    requires Inv(s) && IsJob(s, job) && !s.row.value.gated
    ensures Inv(Did(s.(row := Some(s.row.value.(gated := true))), Granted(job)))
  {
    hide Ordered, LastOf, Grants, Attachments;
    Appended(s.log, Granted(job));
    var t := Did(s.(row := Some(s.row.value.(gated := true))), Granted(job));
    forall k | 0 <= k < |t.log| ensures ActFits(t, t.log[k]) {
      if k < |s.log| { assert ActFits(s, s.log[k]); }
    }
  }

  lemma LookKeeps(s: System, i: nat, ok: bool, otherwise: Place)
    requires Inv(s) && i in s.threads && Free(s.threads[i].at) && (otherwise == Checking || otherwise == Idle)
    ensures Inv(DoLook(s, i, ok, otherwise))
  {
    hide Ordered, LastOf, Grants, Attachments, ThreadsFit, PlacesFit;
    if !ok {
      GoKeeps(s, i, Idle);
    } else if Pending(s, s.threads[i].worker) {
      var job := s.row.value.job.value;
      assert forall k | 0 <= k < |s.log| :: ActFits(s, s.log[k]);
      DidKeeps(s, Looked(i, Some(job)));
      GoKeeps(Did(s, Looked(i, Some(job))), i, Starting(job));
    } else {
      DidKeeps(s, Looked(i, None));
      GoKeeps(Did(s, Looked(i, None)), i, otherwise);
    }
  }

  lemma StopKeeps(s: System, i: nat)
    requires Inv(s)
    ensures Inv(StopRow(s)) && Inv(Go(StopRow(s), i, Idle)) && Inv(Go(s, i, Idle))
    ensures s.row.Some? ==> Inv(s.(row := Some(s.row.value.(live := false))))
    ensures Inv(Go(s, i, Retrying)) && Inv(Go(s.(task := Stopped), i, Idle))
  {
    hide Inv;
    RowKeeps(s, Stopped, StopRow(s).row);
    RowKeeps(s, Stopped, s.row);
    if s.row.Some? { RowKeeps(s, s.task, Some(s.row.value.(live := false))); }
    GoKeeps(StopRow(s), i, Idle);
    GoKeeps(s, i, Idle);
    GoKeeps(s, i, Retrying);
    GoKeeps(s.(task := Stopped), i, Idle);
  }

  lemma CheckKeeps(s: System, i: nat, ready: bool)
    requires Inv(s) && At(s, i, Checking)
    ensures Inv(Go(Did(s, Checked(i, ready)), i, if ready then Claiming else Holding))
  {
    hide Inv, LastOf;
    DidKeeps(s, Checked(i, ready));
    GoKeeps(Did(s, Checked(i, ready)), i, if ready then Claiming else Holding);
  }

  lemma SendKeeps(s: System, i: nat)
    requires Inv(s) && i in s.threads
    ensures s.threads[i].at.Starting? ==> Inv(Go(Did(s, SentStart(i, s.threads[i].at.job)), i, Idle))
    ensures s.threads[i].at.Revoking? ==> Inv(Go(Did(s, SentCancel(i, s.threads[i].at.job)), i, Idle))
  {
    hide Ordered, LastOf, Grants, Attachments;
    if s.threads[i].at.Starting? || s.threads[i].at.Revoking? {
      var job := s.threads[i].at.job;
      var a := if s.threads[i].at.Starting? then SentStart(i, job) else SentCancel(i, job);
      assert PlaceFits(s.log, i, s.threads[i].at);
      GoKeeps(s, i, Idle);
      DidKeeps(Go(s, i, Idle), a);
      assert Did(Go(s, i, Idle), a) == Go(Did(s, a), i, Idle);
    }
  }

  lemma DeliverKeeps(s: System, i: nat, worker: string)
    requires Inv(s)
    ensures Inv(s.(threads := s.threads[i := Thread(worker, Looking)]))
  {
    hide Ordered, LastOf, Grants, Attachments;
    var t := s.(threads := s.threads[i := Thread(worker, Looking)]);
    assert forall k | 0 <= k < |s.log| :: ActFits(s, s.log[k]) ==> ActFits(t, s.log[k]);
  }

  /** Every step keeps the invariant. */
  lemma KeepStep(s: System, step: Step)
    requires Inv(s)
    ensures Inv(Apply(s, step))
  {
    hide Inv, Go, Did, StopRow, ClaimRow;
    match step
    case Deliver(i, worker) => DeliverKeeps(s, i, worker);
    case Look(i, ok) => if At(s, i, Looking) { LookKeeps(s, i, ok, Checking); }
    case Check(i, ready) => if At(s, i, Checking) { CheckKeeps(s, i, ready); }
    case Hold(i, eligible, o) => StopKeeps(s, i);
    case Claim(i, admitted, maxAttempts, o) =>
      StopKeeps(s, i);
      if At(s, i, Claiming) && Claimable(s, maxAttempts) {
        ClaimKeeps(s, i, maxAttempts, if o.Answered? then Loading else Idle);
      }
    case Load(i, ok) => GoKeeps(s, i, Submitting); GoKeeps(s, i, Idle);
    case Submit(i, reply) => GoKeeps(s, i, if reply.Some? then Attaching(reply.value) else Marking);
    case Mark(i, o) => StopKeeps(s, i);
    case Attach(i, taken, o) =>
      if i in s.threads && s.threads[i].at.Attaching? {
        var job := s.threads[i].at.job;
        RefusedKeeps(s, i, job);
        if s.row.Some? && s.row.value.job.None? { AttachKeeps(s, i, job, o.Answered?); }
      }
    case Revoke(i) => if i in s.threads { SendKeeps(s, i); }
    case Start(i) => if i in s.threads { SendKeeps(s, i); }
    case RetryLook(i, ok) => if At(s, i, Retrying) { LookKeeps(s, i, ok, Idle); }
    case Gate(job, o) => if IsJob(s, job) && !s.row.value.gated { GateKeeps(s, job); }
    case LeaseEnds => StopKeeps(s, 0);
    case Reap => StopKeeps(s, 0);
    case Finish => StopKeeps(s, 0);
    case Die(i) => StopKeeps(s, i);
  }

  lemma KeepGate(s: System, job: string, o: Outcome)
    requires Inv(s)
    ensures Inv(DoGate(s, job, o))
  {
    hide Inv, DoGate;
    KeepStep(s, Gate(job, o));
  }

  /** A granted job is the attached one, and every start names it. */
  lemma GrantedIsAttached(s: System, job: string)
    requires Inv(s) && Granted(job) in s.log
    ensures Attached(job) in s.log && IsJob(s, job)
    ensures forall i: nat, other :: SentStart(i, other) in s.log ==> other == job
  {
    hide Ordered, LastOf, Grants, Attachments;
    var k :| 0 <= k < |s.log| && s.log[k] == Granted(job);
    assert ActFits(s, s.log[k]);
    forall i: nat, other | SentStart(i, other) in s.log ensures other == job {
      var j :| 0 <= j < |s.log| && s.log[j] == SentStart(i, other);
      assert ActFits(s, s.log[j]);
    }
  }

  lemma {:induction false} Reachable(steps: seq<Step>)
    ensures Inv(Run(steps))
  {
    if steps != [] {
      Reachable(steps[..|steps| - 1]);
      KeepStep(Run(steps[..|steps| - 1]), steps[|steps| - 1]);
    }
  }

  // ---- results ----

  /**
    Dispatch ordering over every run: a start is sent only for a job that was attached before, right after the thread
    found it pending or attached it itself; a cancel is sent only right after the thread's own attach did not succeed;
    a gate is granted only for an attached job; no attempt is claimed once a job is attached; and every claim follows
    its own thread's successful readiness check.
   */
  lemma DispatchOrdering(steps: seq<Step>, k: nat)
    requires k < |Run(steps).log|
    ensures var log := Run(steps).log;
      match log[k]
      case SentStart(i, job) =>
        && Attached(job) in log[..k]
        && (LastOf(log[..k], i) == Some(Looked(i, Some(job))) || LastOf(log[..k], i) == Some(Tried(i, job, true)))
      case SentCancel(i, job) => LastOf(log[..k], i) == Some(Tried(i, job, false))
      case Granted(job) => Attached(job) in log[..k]
      case Claimed(i) => LastOf(log[..k], i) == Some(Checked(i, true)) && forall j | 0 <= j < k :: !log[j].Attached?
      case Looked(_, pending) =>
        pending.Some? ==> Attached(pending.value) in log[..k] && Granted(pending.value) !in log[..k]
      case Tried(_, job, ok) => ok ==> k > 0 && log[k - 1] == Attached(job)
      case _ => true
  {
    hide LastOf;
    Reachable(steps);
    var log := Run(steps).log;
    assert OrderedAt(log[..k], log[k]);
    forall j | 0 <= j < k ensures log[j] == log[..k][j] {}
  }

  /** The attach call took hold and its answer arrived. */
  predicate AttachSucceeds(s: System, i: nat, taken: bool, o: Outcome)
    requires i in s.threads
  {
    && o.Answered? && !taken && s.row.Some? && s.row.value.running && s.row.value.live
    && s.row.value.worker == s.threads[i].worker && s.row.value.job.None?
  }

  /**
    An attached job is started and never cancelled; one whose attach failed, was refused or lost its answer is
    cancelled.
   */
  lemma AttachDecides(s: System, i: nat, taken: bool, o: Outcome)
    requires i in s.threads && s.threads[i].at.Attaching?
    ensures var job := s.threads[i].at.job;
      var t := Apply(s, Attach(i, taken, o));
      && (AttachSucceeds(s, i, taken, o) ==>
            && t.log == s.log + [Attached(job), Tried(i, job, true)] && IsJob(t, job)
            && Apply(t, Start(i)).log == t.log + [SentStart(i, job)] && Apply(t, Revoke(i)) == t)
      && (!AttachSucceeds(s, i, taken, o) ==>
            && t.log[|t.log| - 1] == Tried(i, job, false)
            && Apply(t, Revoke(i)).log == t.log + [SentCancel(i, job)] && Apply(t, Start(i)) == t)
  {}

  /** A delivery up to its readiness check, and from its claim to an accepted submission. */
  function Prepared(s: System, i: nat, worker: string): System {
    Apply(Apply(Apply(s, Deliver(i, worker)), Look(i, true)), Check(i, true))
  }

  function Submitted(s: System, i: nat, maxAttempts: nat, job: string): System {
    Apply(Apply(Apply(s, Claim(i, true, maxAttempts, Answered)), Load(i, true)), Submit(i, Some(job)))
  }

  lemma PreparedMeans(s: System, i: nat, worker: string)
    requires s.row.None? && (i in s.threads ==> s.threads[i].at.Idle?)
    ensures var a := Prepared(s, i, worker);
      && At(a, i, Claiming) && a.log == s.log + [Looked(i, None), Checked(i, true)]
      && a.threads[i].worker == worker && a.row == s.row && a.task == s.task
  {}

  lemma SubmittedMeans(s: System, i: nat, maxAttempts: nat, job: string)
    requires At(s, i, Claiming) && s.task.Queued? && s.row.None?
    ensures var b := Submitted(s, i, maxAttempts, job);
      && At(b, i, Attaching(job)) && b.log == s.log + [Claimed(i)] && b.task.Executing?
      && b.threads[i].worker == s.threads[i].worker && b.row == Some(Row(true, s.threads[i].worker, true, 1, None, false))
  {}

  lemma AttachedMeans(s: System, i: nat)
    requires i in s.threads && s.threads[i].at.Attaching? && AttachSucceeds(s, i, false, Answered)
    ensures var job := s.threads[i].at.job;
      var t := Apply(Apply(s, Attach(i, false, Answered)), Start(i));
      && t.log == s.log + [Attached(job), Tried(i, job, true), SentStart(i, job)] && t.task == s.task
      && t.row == Some(s.row.value.(job := Some(job)))
  {}

  /** The undisturbed dispatch of a queued plan: one claim, one attachment, one start of that job, and no cancel. */
  lemma DispatchPath(s: System, i: nat, worker: string, job: string, maxAttempts: nat)
    requires s.task.Queued? && s.row.None? && (i in s.threads ==> s.threads[i].at.Idle?)
    ensures var b := Submitted(Prepared(s, i, worker), i, maxAttempts, job);
      var t := Apply(Apply(b, Attach(i, false, Answered)), Start(i));
      && t.log == s.log + [Looked(i, None), Checked(i, true), Claimed(i)]
                  + [Attached(job), Tried(i, job, true), SentStart(i, job)]
      && t.row == Some(Row(true, worker, true, 1, Some(job), false)) && t.task.Executing?
  {
    hide Prepared, Submitted, Apply;
    PreparedMeans(s, i, worker);
    SubmittedMeans(Prepared(s, i, worker), i, maxAttempts, job);
    AttachedMeans(Submitted(Prepared(s, i, worker), i, maxAttempts, job), i);
  }

  /**
    A delivery finds a pending start exactly in its own worker's live lease on an attached job whose gate is unused.
   */
  lemma LookExactly(s: System, i: nat)
    requires At(s, i, Looking)
    ensures var t := Apply(s, Look(i, true));
      var found := s.task.Executing? && s.row.Some? && s.row.value.running && s.row.value.live && !s.row.value.gated
        && s.row.value.worker == s.threads[i].worker && s.row.value.job.Some?;
      && t.row == s.row && (found ==> At(t, i, Starting(s.row.value.job.value))) && (!found ==> At(t, i, Checking))
  {}

  /** The target is loaded, and an attempt marked, only under the worker's own live lease. */
  lemma LeaseDecides(s: System, i: nat)
    requires i in s.threads
    ensures var mine := s.row.Some? && s.row.value.running && s.row.value.live && s.row.value.worker == s.threads[i].worker;
      && (At(s, i, Loading) ==> At(Apply(s, Load(i, true)), i, if mine then Submitting else Idle))
      && (At(s, i, Marking) && !mine ==> Apply(s, Mark(i, Answered)).row == s.row)
  {}

  /** Without readiness nothing is claimed or started, and a queued plan is held. */
  lemma UnreadyHolds(s: System, i: nat, worker: string)
    requires s.task.Queued? && s.row.None? && (i in s.threads ==> s.threads[i].at.Idle?)
    ensures var a := Apply(Apply(Apply(s, Deliver(i, worker)), Look(i, true)), Check(i, false));
      var t := Apply(a, Hold(i, true, Answered));
      t.task.Stopped? && t.row.None? && t.log == s.log + [Looked(i, None), Checked(i, false)] && At(t, i, Idle)
  {}

  /** A refused submission stops the attempt of a live lease, without a start or a cancel. */
  lemma RefusedSubmitMarks(s: System, i: nat)
    requires At(s, i, Submitting) && Leases(s, s.threads[i].worker)
    ensures var t := Apply(Apply(s, Submit(i, None)), Mark(i, Answered));
      t.task.Stopped? && t.row.Some? && !t.row.value.running && t.log == s.log && At(t, i, Idle)
  {}

  /** A claim is taken exactly where there is no row, or an expired lease without a job and with attempts left. */
  lemma ClaimExactly(s: System, i: nat, maxAttempts: nat)
    requires At(s, i, Claiming)
    ensures var t := Apply(s, Claim(i, true, maxAttempts, Answered));
      var free := s.row.None? || (s.row.value.running && !s.row.value.live && s.row.value.job.None? && s.row.value.attempt < maxAttempts);
      && (!s.task.Stopped? && free ==> t.log == s.log + [Claimed(i)] && At(t, i, Loading) && Leases(t, s.threads[i].worker))
      && (s.task.Stopped? || !free ==> t.log == s.log && t.row == s.row && At(t, i, Retrying))
  {}

  /** Over every run one job is attached, every start and grant names it, and the gate is granted at most once. */
  lemma OneJobOneGrant(steps: seq<Step>)
    ensures var s := Run(steps);
      && Attachments(s.log) <= 1 && Grants(s.log) <= 1
      && forall k | 0 <= k < |s.log| && (s.log[k].SentStart? || s.log[k].Granted? || s.log[k].Attached?) :: IsJob(s, s.log[k].job)
  {
    Reachable(steps);
    var s := Run(steps);
    forall k | 0 <= k < |s.log| && (s.log[k].SentStart? || s.log[k].Granted? || s.log[k].Attached?)
      ensures IsJob(s, s.log[k].job)
    {
      assert ActFits(s, s.log[k]);
    }
  }

  /** A lost start response is recovered by any redelivery to the same worker, with the same job and no new claim. */
  lemma RedeliveryRestarts(steps: seq<Step>, i: nat, worker: string)
    requires var s := Run(steps); Pending(s, worker) && (i in s.threads ==> s.threads[i].at.Idle?)
    ensures var s := Run(steps);
      var job := s.row.value.job.value;
      var t := Apply(Apply(Apply(s, Deliver(i, worker)), Look(i, true)), Start(i));
      t.log == s.log + [Looked(i, Some(job)), SentStart(i, job)] && t.row == s.row
  {}

  /** So it is by a thread that found nothing to claim or to hold. */
  lemma RetryRestarts(s: System, i: nat)
    requires At(s, i, Retrying) && Pending(s, s.threads[i].worker)
    ensures var job := s.row.value.job.value;
      Apply(Apply(s, RetryLook(i, true)), Start(i)).log == s.log + [Looked(i, Some(job)), SentStart(i, job)]
  {}
}
