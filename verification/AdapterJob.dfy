/**
  The handlers and threads of one job as the service runs them: fields updated in place under the job's lock,
  a receipt file written beside them. Each method is proved to do exactly what the steps of the protocol do, so
  the protocol's theorems speak about these bodies. Outcomes of saves, the start gate, provider readings and
  callbacks are parameters.
 */
module AdapterJob {
  import opened Records
  import opened Protocol

  class ReceiptFile {
    var disk: Option<Receipt>

    constructor ()
      ensures disk == None
    {
      disk := None;
    }

    method Save(r: Receipt, o: SaveOutcome) returns (ok: bool)
      modifies this
      ensures disk == Protocol.Save(old(disk), r, o) && ok == o.Saved?
    {
      if !o.LostOld? { disk := Some(r); }
      ok := o.Saved?;
    }
  }

  lemma RunsCallback(st: Setting, b: System, sent: seq<Step>, reply: Reply, ack: SaveOutcome)
    ensures RunFrom(st, b, []) == b
    ensures RunFrom(st, b, sent + [Callback(reply, ack)]) == DoCallback(RunFrom(st, b, sent), reply, ack)
  {
    var step := Callback(reply, ack);
    assert (sent + [step])[..|sent + [step]| - 1] == sent;
  }

  /** Without the lock held, the later parts of a start do nothing. */
  lemma UnheldStart(s: System, granted: bool, o: SaveOutcome)
    requires Ready(s)
    ensures DoStartGate(s, granted) == s && DoStartCommit(s, o) == s
  {}

  predicate Unanswered(r: Reply) { r.Failure? && !r.expired }

  /** The reply that ends a delivery: the first of five that is not an unexpired failure. */
  predicate SettledBy(reply: nat -> Reply, i: int) {
    0 <= i < 5 && !Unanswered(reply(i)) && forall k | 0 <= k < i :: Unanswered(reply(k))
  }

  lemma SettledOnce(reply: nat -> Reply, i: nat)
    requires i < 5 && !Unanswered(reply(i)) && forall k | 0 <= k < i :: Unanswered(reply(k))
    ensures forall j :: SettledBy(reply, j) <==> j == i
  {}

  class ServiceJob {
    const id: string
    const submission: Submission
    const digest: string
    const file: ReceiptFile
    var status: Status
    var started: bool
    var cancelled: bool
    var stopped: bool
    var terminal: Option<Event>
    var publication: Option<Checkpoint>
    var delivered: bool
    var rejected: bool

    function View(): Job reads this {
      Job(id, submission, digest, status, started, cancelled, stopped, terminal, publication, delivered, rejected)
    }

    /** The object and its file are the job and the disk of the protocol state, and the state lock is free. */
    ghost predicate Agrees(s: System) reads this, file {
      Ready(s) && JobOf(s) == View() && s.disk == file.disk
    }

    constructor Load(r: Receipt, file: ReceiptFile)
      ensures View() == LoadJob(r) && this.file == file
    {
      id, submission, digest, this.file := r.job, r.submission, r.digest, file;
      status, terminal, publication, delivered, rejected := r.status, r.terminal, r.publication, r.delivered, r.rejected;
      started, cancelled, stopped := !r.status.Reserved?, !r.status.Reserved?, !r.status.Reserved?;
    }

    constructor Reserve(st: Setting, id: string, sub: Submission, file: ReceiptFile)
      ensures View() == NewJob(st, id, sub) && this.file == file
    {
      this.id, submission, digest, this.file := id, sub, st.digest(sub), file;
      status, terminal, publication, delivered, rejected := Reserved, None, None, false, false;
      started, cancelled, stopped := false, false, false;
    }

    method Persist(o: SaveOutcome) returns (ok: bool)
      modifies file
      ensures file.disk == Protocol.Save(old(file.disk), Protocol.Persist(View()), o) && ok == o.Saved?
    {
      var receipt :=
        Receipt(id, submission.attempt, submission, digest, status, publication, terminal, delivered, rejected);
      ok := file.Save(receipt, o);
    }

    /** The object while a start holds the lock. */
    ghost predicate Holds(s: System) reads this, file {
      HasLive(s) && JobOf(s) == View() && s.disk == file.disk
    }

    method BeginStart(ghost s: System, elapsed: bool, o: SaveOutcome) returns (code: nat, claiming: bool)
      requires Agrees(s)
      modifies this, file
      ensures var t := DoStartBegin(s, elapsed, o);
        && Holds(t) && (claiming <==> LiveOf(t).start.Claiming?) && (!claiming ==> Ready(t))
        && t.log == s.log && t.process.closed == s.process.closed
      ensures !claiming ==> (code == 204 <==> old(started) && !old(cancelled))
      ensures claiming ==> !old(started) && !old(cancelled)
    {
      if cancelled { return 409, false; }
      if started { return 204, false; }
      if elapsed {
        cancelled, stopped, status := true, true, Cancelled;
        var kept := Persist(o);
        return if kept then 409 else 503, false;
      }
      status := Starting;
      claiming := Persist(o);
      if !claiming { cancelled, stopped := true, true; }
      code := 503;
    }

    method CommitStart(ghost s: System, closed: bool, o: SaveOutcome) returns (code: nat, launched: bool)
      requires Holds(s) && LiveOf(s).start.Granted? && s.process.closed == closed
      modifies this, file
      ensures var t := DoStartCommit(s, o);
        && Agrees(t) && (launched <==> code == 204) && (launched ==> LiveOf(t).run.Coding?)
        && t.log == if launched then s.log + [Launch(id)] else s.log
    {
      status := Started;
      var ok := Persist(o);
      if !ok {
        cancelled, stopped := true, true;
        return 503, false;
      }
      started := true;
      if closed {
        cancelled, stopped := true, true;
        return 503, false;
      }
      return 204, true;
    }

    method Start(ghost s: System, closed: bool, elapsed: bool, intent: SaveOutcome, granted: bool, claim: SaveOutcome)
        returns (code: nat, launched: bool)
      requires Agrees(s) && s.process.closed == closed
      modifies this, file
      ensures var t := DoStartCommit(DoStartGate(DoStartBegin(s, elapsed, intent), granted), claim);
        && Agrees(t) && (launched ==> code == 204 && LiveOf(t).run.Coding? && t.log == s.log + [Claim(id)] + [Launch(id)])
        && (!launched ==> Launch(id) in t.log ==> Launch(id) in s.log)
      ensures code == 204 <==> launched || (old(started) && !old(cancelled))
    {
      hide DoStartBegin, DoStartCommit;
      var claiming;
      code, claiming := BeginStart(s, elapsed, intent);
      ghost var c := DoStartBegin(s, elapsed, intent);
      if !claiming {
        UnheldStart(c, granted, claim);
        return code, false;
      }
      ghost var g := DoStartGate(c, granted);
      if !granted {
        cancelled, stopped := true, true;
        UnheldStart(g, granted, claim);
        return 503, false;
      }
      code, launched := CommitStart(g, closed, claim);
    }

    /** The part of the cancel handler that runs under the job's lock. */
    method Cancel(ghost s: System, o: SaveOutcome) returns (code: nat)
      requires Agrees(s)
      modifies this, file
      ensures Agrees(DoCancel(s, id, submission.attempt, o))
      ensures code == 204 <==> DoCancel(s, id, submission.attempt, o).log == s.log + [AckCancel(id)]
    {
      if status.Terminal? { return 204; }
      cancelled, stopped, status := true, true, Cancelled;
      var ok := Persist(o);
      code := if ok then 204 else 503;
    }

    /** The checkpoint recorder handed to the executor. */
    method Retain(ghost s: System, c: Checkpoint, o: SaveOutcome) returns (ok: bool)
      requires Agrees(s) && LiveOf(s).run.Coding?
      modifies this, file
      ensures Agrees(DoRetain(s, c, o))
      ensures ok <==> LiveOf(DoRetain(s, c, o)).run == Retained(c)
    {
      if !ValidCheckpoint(c) || !status.Started? || cancelled { return false; }
      if publication.Some? && publication.value != c { return false; }
      var previous := publication;
      publication := Some(c);
      ok := Persist(o);
      if !ok { publication := previous; }
    }

    /** Record the outcome of one callback; an unanswered one may be repeated. */
    method Answer(ghost t: System, reply: Reply, ack: SaveOutcome) returns (again: bool)
      requires Agrees(t) && LiveOf(t).delivery.Sending? && LiveOf(t).delivery.attempt < CALLBACK_ATTEMPTS
      modifies this, file
      ensures Agrees(DoCallback(t, reply, ack)) && again == (reply.Failure? && !reply.expired)
      ensures delivered == (old(delivered) || reply.Accepted?) && rejected == (old(rejected) || reply.Conflict?)
      ensures LiveOf(DoCallback(t, reply, ack)).delivery ==
              if again && LiveOf(t).delivery.attempt + 1 < CALLBACK_ATTEMPTS
              then Sending(LiveOf(t).delivery.e, LiveOf(t).delivery.attempt + 1) else Quiet
    {
      again := reply.Failure? && !reply.expired;
      if reply.Accepted? {
        delivered := true;
        var kept := Persist(ack);
      } else if reply.Conflict? {
        rejected := true;
        var kept := Persist(ack);
      }
    }

    /** Try the callback until it is answered, the context expires or the attempts run out. */
    method SendTerminal(st: Setting, ghost b: System, e: Event, reply: nat -> Reply,
        ack: SaveOutcome) returns (ghost sent: seq<Step>)
      requires Agrees(b) && LiveOf(b).delivery == Sending(e, 0)
      modifies this, file
      ensures var t := RunFrom(st, b, sent); Agrees(t) && LiveOf(t).delivery.Quiet?
      ensures |sent| <= 5 && forall i | 0 <= i < |sent| :: sent[i] == Callback(reply(i), ack)
      ensures delivered <==> old(delivered) || exists i :: SettledBy(reply, i) && reply(i).Accepted?
      ensures rejected <==> old(rejected) || exists i :: SettledBy(reply, i) && reply(i).Conflict?
      ensures forall i :: SettledBy(reply, i) ==> |sent| == i + 1
    {
      hide RunFrom, DoCallback;
      sent := [];
      RunsCallback(st, b, sent, reply(0), ack);
      for attempt := 0 to CALLBACK_ATTEMPTS
        invariant forall i | 0 <= i < attempt :: Unanswered(reply(i))
        invariant delivered == old(delivered) && rejected == old(rejected)
        invariant |sent| == attempt && forall i | 0 <= i < |sent| :: sent[i] == Callback(reply(i), ack)
        invariant Agrees(RunFrom(st, b, sent))
        invariant LiveOf(RunFrom(st, b, sent)).delivery == if attempt < CALLBACK_ATTEMPTS then Sending(e, attempt) else Quiet
      {
        RunsCallback(st, b, sent, reply(attempt), ack);
        ghost var t := RunFrom(st, b, sent);
        var again := Answer(t, reply(attempt), ack);
        sent := sent + [Callback(reply(attempt), ack)];
        if !again {
          SettledOnce(reply, attempt);
          return;
        }
      }
    }

    /** Retain the event, then deliver it. */
    method DeliverTerminal(st: Setting, ghost s: System, e: Event, o: SaveOutcome, reply: nat -> Reply,
        ack: SaveOutcome)
        returns (ghost sent: seq<Step>)
      requires Agrees(s) && LiveOf(s).delivery.Quiet?
      modifies this, file
      ensures var t := RunFrom(st, Begin(s, e, o), sent); Agrees(t) && LiveOf(t).delivery.Quiet?
      ensures |sent| <= 5 && forall i | 0 <= i < |sent| :: sent[i] == Callback(reply(i), ack)
      ensures var goes := !IgnoresTerminal(JobOf(s), e) && o.Saved?;
        && (delivered <==> old(delivered) || (goes && exists i :: SettledBy(reply, i) && reply(i).Accepted?))
        && (rejected <==> old(rejected) || (goes && exists i :: SettledBy(reply, i) && reply(i).Conflict?))
        && (!goes ==> sent == [])
    {
      hide RunFrom;
      sent := [];
      RunsCallback(st, Begin(s, e, o), sent, reply(0), ack);
      if delivered || rejected { return; }
      if terminal.Some? && (terminal.value.job != e.job || terminal.value.suffix != e.suffix) { return; }
      status, terminal := Terminal, Some(e);
      var ok := Persist(o);
      if ok { sent := SendTerminal(st, Begin(s, e, o), e, reply, ack); }
    }

    /** One job's turn in a recovery pass. */
    method Recover(st: Setting, ghost s: System, probe: Option<Result>, o: SaveOutcome, reply: nat -> Reply,
        ack: SaveOutcome)
        returns (ghost sent: seq<Step>)
      requires Agrees(s) && LiveOf(s).recovery.Queued? && LiveOf(s).delivery.Quiet?
      modifies this, file
      ensures Agrees(RunFrom(st, DoDeliverRecovered(DoRecoverProbe(st, DoRecoverLook(st, s), probe), o), sent))
    {
      hide Begin, SettledBy, IgnoresTerminal;
      sent := [];
      ghost var looked := DoRecoverLook(st, s);
      ghost var probed := DoRecoverProbe(st, looked, probe);
      ghost var handed := Put(probed, LiveOf(probed).(recovery := Handled));
      if status.Terminal? && terminal.Some? && !delivered && !rejected {
        sent := DeliverTerminal(st, handed, terminal.value, o, reply, ack);
        return;
      }
      if status.Starting? || status.Started? {
        if status.Started? && publication.Some? && probe.Some? && ValidResult(st, submission, probe.value)
           && Matches(probe.value, publication.value) {
          sent := DeliverTerminal(st, handed, CompletedEvent(st, id, submission, probe.value, SReconciled), o, reply, ack);
          return;
        }
        var e := AttentionEvent(st, id, submission, SInterrupted,
                                if publication.Some? then "agent_publication_unverified" else "agent_adapter_interrupted", INTERRUPTED);
        sent := DeliverTerminal(st, handed, e, o, reply, ack);
      }
    }
  }

  /**
    The submit handler: a repeated submission gets the job it made, another one of the same attempt is a conflict,
    and a new job is served only once its reservation is saved.
   */
  method HandleSubmit(st: Setting, existing: ServiceJob?, file: ReceiptFile, closed: bool, ghost s: System,
      sub: Submission, newId: string, o: SaveOutcome) returns (code: nat, job: ServiceJob?)
    requires s.process.Up? && s.process.closed == closed && s.disk == file.disk && sub.attempt == st.attempt
    requires (existing == null <==> s.process.live.None?) && JobForm(newId)
    requires existing != null ==> existing.Agrees(s) && existing.file == file
    modifies file
    ensures file.disk == DoSubmit(st, s, sub, newId, o).disk
    ensures job != null ==> job.Agrees(DoSubmit(st, s, sub, newId, o))
    ensures code == 400 <==> !st.admits(sub)
    ensures code == 503 <==> st.admits(sub) && (closed || (existing == null && !o.Saved?))
    ensures code == 409 <==> st.admits(sub) && !closed && existing != null && existing.digest != st.digest(sub)
    ensures code == 200 <==> st.admits(sub) && !closed && existing != null && existing.digest == st.digest(sub)
    ensures code == 200 ==> job == existing
    ensures code == 202 <==> st.admits(sub) && !closed && existing == null && o.Saved?
    ensures code == 202 ==> job != null && job.id == newId
  {
    hide JobForm;
    job := existing;
    if !st.admits(sub) { return 400, job; }
    if closed { return 503, job; }
    if existing != null { return if existing.digest != st.digest(sub) then 409 else 200, job; }
    var made := new ServiceJob.Reserve(st, newId, sub, file);
    var ok := made.Persist(o);
    if !ok { return 503, null; }
    return 202, made;
  }

  /** The cancel handler: a request that names no job in memory is acknowledged and changes nothing. */
  method HandleCancel(job: ServiceJob?, ghost s: System, id: string, attempt: string,
      o: SaveOutcome) returns (code: nat)
    requires s.process.Up? && (job == null <==> !HasLive(s)) && (job != null ==> job.Agrees(s))
    modifies if job == null then {} else {job, job.file}
    ensures job != null ==> job.Agrees(DoCancel(s, id, attempt, o))
    ensures job == null ==> DoCancel(s, id, attempt, o) == Did(s, AckCancel(id))
    ensures code == 204 <==> DoCancel(s, id, attempt, o).log == s.log + [AckCancel(id)]
  {
    if job != null && job.id == id && job.submission.attempt == attempt {
      code := job.Cancel(s, o);
    } else {
      code := 204;
    }
  }

  datatype Loaded = Refused | Jobs(jobs: seq<Job>)

  /** A record of the receipt directory and what the clock and the file system say of it. */
  datatype Stored = Stored(receipt: Receipt, future: bool, expired: bool, removable: bool)

  predicate Kept(st: Setting, r: Stored) {
    !r.future && LoadAccepts(st, r.receipt) && (r.expired ==> r.removable)
  }

  function Current(records: seq<Stored>): seq<Receipt> {
    if records == [] then []
    else Current(records[..|records| - 1]) +
         if records[|records| - 1].expired then [] else [records[|records| - 1].receipt]
  }

  predicate Separate(rs: seq<Receipt>) {
    forall i, k | 0 <= i < k < |rs| :: rs[i].attempt != rs[k].attempt && rs[i].job != rs[k].job
  }

  /** The two job maps and the list of recovered jobs. */
  predicate Indexes(byAttempt: set<string>, byJob: set<string>, jobs: seq<Job>, rs: seq<Receipt>) {
    && byAttempt == (set i | 0 <= i < |rs| :: rs[i].attempt) && byJob == (set i | 0 <= i < |rs| :: rs[i].job)
    && |jobs| == |rs| && forall i | 0 <= i < |rs| :: jobs[i] == LoadJob(rs[i])
  }

  lemma SeparateSnoc(rs: seq<Receipt>, r: Receipt)
    ensures Separate(rs + [r]) <==>
      Separate(rs) && forall i | 0 <= i < |rs| :: rs[i].attempt != r.attempt && rs[i].job != r.job
  {
    var all := rs + [r];
    assert all[|rs|] == r && forall i | 0 <= i < |rs| :: all[i] == rs[i];
  }

  lemma IndexesSnoc(byAttempt: set<string>, byJob: set<string>, jobs: seq<Job>, rs: seq<Receipt>, r: Receipt)
    requires Indexes(byAttempt, byJob, jobs, rs) && Separate(rs)
    ensures Separate(rs + [r]) <==> r.attempt !in byAttempt && r.job !in byJob
    ensures Indexes(byAttempt + {r.attempt}, byJob + {r.job}, jobs + [LoadJob(r)], rs + [r])
  {
    hide LoadJob;
    SeparateSnoc(rs, r);
    var all := rs + [r];
    assert all[|rs|] == r && forall i | 0 <= i < |rs| :: all[i] == rs[i];
  }

  lemma CurrentNext(records: seq<Stored>, n: nat)
    requires n < |records|
    ensures Current(records[..n + 1]) ==
      if records[n].expired then Current(records[..n]) else Current(records[..n]) + [records[n].receipt]
  {
    assert records[..n + 1][..n] == records[..n];
  }

  lemma {:induction false} SeparatePrefix(records: seq<Stored>, n: nat)
    requires n <= |records| && Separate(Current(records))
    ensures Separate(Current(records[..n]))
    decreases |records|
  {
    if n < |records| {
      var last := |records| - 1;
      CurrentNext(records, last);
      assert records[..last + 1] == records && records[..n] == records[..last][..n];
      SeparateSnoc(Current(records[..last]), records[last].receipt);
      SeparatePrefix(records[..last], n);
    } else {
      assert records[..n] == records;
    }
  }

  /**
    Reading the directory back at startup: every record is checked, an expired one is removed, and one bad record
    stops the service.
   */
  method LoadReceipts(setting: string -> Setting, records: seq<Stored>) returns (r: Loaded)
    ensures r.Jobs? <==>
      (forall i | 0 <= i < |records| :: Kept(setting(records[i].receipt.attempt), records[i])) && Separate(Current(records))
    ensures r.Jobs? ==> |r.jobs| == |Current(records)|
    ensures r.Jobs? ==> forall i | 0 <= i < |r.jobs| :: r.jobs[i] == LoadJob(Current(records)[i])
  {
    hide LoadAccepts, LoadJob, Indexes, Separate, Current;
    var byAttempt: set<string>, byJob: set<string>, jobs: seq<Job> := {}, {}, [];
    NothingLoaded(records);
    for n := 0 to |records|
      invariant forall i | 0 <= i < n :: Kept(setting(records[i].receipt.attempt), records[i])
      invariant Separate(Current(records[..n])) && Indexes(byAttempt, byJob, jobs, Current(records[..n]))
    {
      var record := records[n];
      var receipt := record.receipt;
      CurrentNext(records, n);
      if record.future || !LoadAccepts(setting(receipt.attempt), receipt) { return Refused; }
      if record.expired {
        if !record.removable { return Refused; }
        continue;
      }
      IndexesSnoc(byAttempt, byJob, jobs, Current(records[..n]), receipt);
      if receipt.attempt in byAttempt || receipt.job in byJob {
        if Separate(Current(records)) { SeparatePrefix(records, n + 1); }
        return Refused;
      }
      byAttempt, byJob, jobs := byAttempt + {receipt.attempt}, byJob + {receipt.job}, jobs + [LoadJob(receipt)];
    }
    assert records[..|records|] == records;
    IndexedJobs(byAttempt, byJob, jobs, Current(records));
    return Jobs(jobs);
  }

  lemma NothingLoaded(records: seq<Stored>)
    ensures Current(records[..0]) == [] && Separate([]) && Indexes({}, {}, [], [])
  {}

  lemma IndexedJobs(byAttempt: set<string>, byJob: set<string>, jobs: seq<Job>, rs: seq<Receipt>)
    requires Indexes(byAttempt, byJob, jobs, rs)
    ensures |jobs| == |rs| && forall i | 0 <= i < |jobs| :: jobs[i] == LoadJob(rs[i])
  {}
}
