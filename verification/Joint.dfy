/**
  The runner's dispatch and the adapter's job protocol together, joined at the one-use start gate: the adapter's call
  is answered by the store. Other adapter replicas may call the gate as well, and either side may do anything else at
  any time.
 */
module Joint {
  import opened Records
  import opened Protocol
  import opened ProtocolInvariant
  import opened ProtocolTheorems
  import Dispatch

  datatype Both = Both(control: Dispatch.System, adapter: System)

  datatype Move = Control(d: Dispatch.Step) | Adapter(p: Step) | Gate(o: Dispatch.Outcome)

  /** The gate grants this call: it commits now, and the answer arrives. */
  predicate Grants(control: Dispatch.System, job: string, o: Dispatch.Outcome) {
    o.Answered? && Dispatch.DoGate(control, job, o).log == control.log + [Dispatch.Granted(job)]
  }

  function Next(st: Setting, b: Both, m: Move): Both {
    match m
    case Control(d) => b.(control := Dispatch.Apply(b.control, d))
    case Adapter(p) => if p.StartGate? then b else b.(adapter := Apply(st, b.adapter, p))
    case Gate(o) =>
      if HasLive(b.adapter) && LiveOf(b.adapter).start.Claiming? then
        var job := JobOf(b.adapter).id;
        Both(Dispatch.DoGate(b.control, job, o), DoStartGate(b.adapter, Grants(b.control, job, o)))
      else b
  }

  function Moves(st: Setting, moves: seq<Move>): Both {
    if moves == [] then Both(Dispatch.INITIAL, INITIAL) else Next(st, Moves(st, moves[..|moves| - 1]), moves[|moves| - 1])
  }

  /** What the adapter launched, or is about to launch, the gate granted. */
  predicate Coupled(b: Both) {
    && (HasLive(b.adapter) && LiveOf(b.adapter).start.Granted? ==> Dispatch.Granted(JobOf(b.adapter).id) in b.control.log)
    && forall a | a in b.adapter.log && a.Launch? :: Dispatch.Granted(a.job) in b.control.log
  }

  ghost predicate JointInv(st: Setting, b: Both) { Dispatch.Inv(b.control) && Inv(st, b.adapter) && Coupled(b) }

  lemma ControlGrows(s: Dispatch.System, d: Dispatch.Step, a: Dispatch.Act)
    requires a in s.log
    ensures a in Dispatch.Apply(s, d).log
  {}

  lemma GateGrows(s: Dispatch.System, job: string, o: Dispatch.Outcome, a: Dispatch.Act)
    requires a in s.log
    ensures a in Dispatch.DoGate(s, job, o).log
  {}

  /** Without the gate a start is never granted, and only a granted start launches. */
  predicate Ungated(s: System, t: System) {
    && (HasLive(t) && LiveOf(t).start.Granted? ==>
          HasLive(s) && LiveOf(s).start.Granted? && JobOf(t).id == JobOf(s).id)
    && forall a | a in t.log && a.Launch? ::
         a in s.log || (HasLive(s) && LiveOf(s).start.Granted? && a.job == JobOf(s).id)
  }

  lemma UngatedHandlers(st: Setting, s: System, p: Step)
    requires OfHandlers(p) && !p.StartGate?
    ensures Ungated(s, Apply(st, s, p))
  {
    hide ValidEvent, ValidCheckpoint, ValidResult, FinishEvent, Confirms, LoadAccepts, IgnoresTerminal, Persist;
  }

  lemma UngatedExecution(st: Setting, s: System, p: Step)
    requires OfExecution(p)
    ensures Ungated(s, Apply(st, s, p))
  {
    hide ValidEvent, ValidCheckpoint, ValidResult, FinishEvent, Confirms, LoadAccepts, IgnoresTerminal, Persist;
  }

  lemma UngatedReporting(st: Setting, s: System, p: Step)
    requires OfReporting(p)
    ensures Ungated(s, Apply(st, s, p))
  {
    hide ValidEvent, ValidCheckpoint, ValidResult, FinishEvent, Confirms, LoadAccepts, IgnoresTerminal, Persist;
  }

  lemma UngatedProcess(st: Setting, s: System, p: Step)
    requires !OfHandlers(p) && !OfExecution(p) && !OfReporting(p)
    ensures Ungated(s, Apply(st, s, p))
  {
    hide ValidEvent, ValidCheckpoint, ValidResult, FinishEvent, Confirms, LoadAccepts, IgnoresTerminal, Persist;
  }

  lemma AdapterStep(st: Setting, s: System, p: Step)
    requires !p.StartGate?
    ensures Ungated(s, Apply(st, s, p))
  {
    hide Apply, Ungated;
    if OfHandlers(p) { UngatedHandlers(st, s, p); }
    else if OfExecution(p) { UngatedExecution(st, s, p); }
    else if OfReporting(p) { UngatedReporting(st, s, p); }
    else { UngatedProcess(st, s, p); }
  }

  lemma GateCoupled(b: Both, o: Dispatch.Outcome)
    requires Coupled(b) && HasLive(b.adapter) && LiveOf(b.adapter).start.Claiming?
    ensures var job := JobOf(b.adapter).id;
      Coupled(Both(Dispatch.DoGate(b.control, job, o), DoStartGate(b.adapter, Grants(b.control, job, o))))
  {
    var job := JobOf(b.adapter).id;
    var c := Both(Dispatch.DoGate(b.control, job, o), DoStartGate(b.adapter, Grants(b.control, job, o)));
    forall a | a in c.adapter.log && a.Launch? ensures Dispatch.Granted(a.job) in c.control.log {
      assert a in b.adapter.log;
      GateGrows(b.control, job, o, Dispatch.Granted(a.job));
    }
    if Grants(b.control, job, o) { assert c.control.log[|b.control.log|] == Dispatch.Granted(job); }
  }

  lemma KeepMove(st: Setting, b: Both, m: Move)
    requires GoodSetting(st) && JointInv(st, b)
    ensures JointInv(st, Next(st, b, m))
  {
    hide Dispatch.Inv, Inv, GoodSetting, Dispatch.Apply, Apply, DoStartGate, Dispatch.DoGate, Grants;
    match m
    case Control(d) =>
      Dispatch.KeepStep(b.control, d);
      forall a | a in b.control.log ensures a in Dispatch.Apply(b.control, d).log { ControlGrows(b.control, d, a); }
    case Adapter(p) =>
      if !p.StartGate? {
        KeepStep(st, b.adapter, p);
        AdapterStep(st, b.adapter, p);
      }
    case Gate(o) =>
      if HasLive(b.adapter) && LiveOf(b.adapter).start.Claiming? {
        var job := JobOf(b.adapter).id;
        Dispatch.KeepGate(b.control, job, o);
        KeepStartGate(st, b.adapter, Grants(b.control, job, o));
        GateCoupled(b, o);
      }
  }

  lemma {:induction false} MovesKeep(st: Setting, moves: seq<Move>)
    requires GoodSetting(st)
    ensures JointInv(st, Moves(st, moves))
  {
    hide JointInv, Next, GoodSetting;
    if moves == [] {
      Begins(st);
    } else {
      MovesKeep(st, moves[..|moves| - 1]);
      KeepMove(st, Moves(st, moves[..|moves| - 1]), moves[|moves| - 1]);
    }
  }

  lemma Begins(st: Setting)
    ensures JointInv(st, Both(Dispatch.INITIAL, INITIAL))
  {
    Dispatch.Reachable([]);
    InitialInv(st);
  }

  /**
    Over every run of both sides: at most one job is launched; a launched job was granted by the gate and attached to
    the attempt before; and it is the job that every start request names.
   */
  lemma AttachedLaunchesOnce(st: Setting, moves: seq<Move>, job: string)
    requires GoodSetting(st)
    ensures var b := Moves(st, moves);
      && Tally(b.adapter.log, TLaunch) <= 1
      && (Launch(job) in b.adapter.log ==>
            && Dispatch.Granted(job) in b.control.log && Dispatch.Attached(job) in b.control.log
            && Dispatch.IsJob(b.control, job)
            && forall i: nat, other :: Dispatch.SentStart(i, other) in b.control.log ==> other == job)
  {
    MovesKeep(st, moves);
    var b := Moves(st, moves);
    hide Tally, LiveInv, LiveLogInv, PushesFollow, Shape;
    if Launch(job) in b.adapter.log {
      Dispatch.GrantedIsAttached(b.control, job);
    }
  }

  /** The store's row lets this job through the gate. */
  predicate Admits(control: Dispatch.System, job: string) {
    && control.row.Some? && control.row.value.running && control.row.value.live && !control.row.value.gated
    && control.row.value.job == Some(job)
  }

  /**
    A start whose call is answered goes on exactly when the row is live, holds this job and its gate is unused; the
    commit then launches the job, and a start that is refused never does.
   */
  lemma GateDecides(st: Setting, b: Both)
    requires HasLive(b.adapter) && LiveOf(b.adapter).start.Claiming? && !b.adapter.process.closed
    ensures var job := JobOf(b.adapter).id;
      var g := Next(st, b, Gate(Dispatch.Answered));
      var t := Next(st, g, Adapter(StartCommit(Saved)));
      && (Admits(b.control, job) ==>
            && g.control.log == b.control.log + [Dispatch.Granted(job)] && g.control.row.value.gated
            && t.adapter.log == b.adapter.log + [Claim(job), Launch(job)])
      && (!Admits(b.control, job) ==>
            && g.control == b.control && HasLive(g.adapter) && JobOf(g.adapter).cancelled
            && t.adapter == g.adapter && t.adapter.log == b.adapter.log + [Claim(job)])
  {
    hide Persist;
  }
}
