/**
  Concurrent refresh of one stored OAuth credential. Any number of resolver calls load it, refresh it with the
  provider when it has expired, and try to replace it by compare-and-swap on the encrypted access token; a call that
  loses reloads the row. Sealing uses a fresh nonce, so every ciphertext has its own number.
  A step that is not possible in a state leaves the state as it is, so every sequence of steps is a run.
 */
module Credentials {
  import opened Records

  datatype Cred = Cred(seal: nat, token: string, refresh: Option<string>, expires: Option<int>)

  /** A stored version; a refreshed one remembers the seal it was refreshed from. */
  datatype Version = Version(cred: Cred, parent: Option<nat>)

  datatype Call =
    | Idle
    | Expired(c: Cred)
    | Swapping(c: Cred, fresher: Cred)
    | Reloading(c: Cred)

  /**
    A token handed to a caller: its version, the expired version the call had loaded before, and when the row was
    read.
   */
  datatype Use = Use(token: string, seal: nat, after: Option<nat>, at: Option<int>)

  datatype System = System(history: seq<Version>, revoked: bool, next: nat, calls: map<nat, Call>, used: seq<Use>)

  const INITIAL := System([], false, 0, map[], [])

  datatype Reply = Reply(token: string, refresh: string, expires: int)

  datatype Outcome = Answered | Failed | LostAnswer

  datatype Step =
    | Connect(token: string, refresh: Option<string>, expires: Option<int>)
    | Revoke
    | Load(i: nat, now: int, ok: bool)
    | Refresh(i: nat, reply: Option<Reply>)
    | Swap(i: nat, o: Outcome)
    | Reload(i: nat, now: int, ok: bool)
    | Die(i: nat)

  function Last(s: System): Cred requires s.history != [] { s.history[|s.history| - 1].cred }

  function Go(s: System, i: nat, c: Call): System { s.(calls := s.calls[i := c]) }

  function Give(s: System, i: nat, c: Cred, after: Option<nat>, at: Option<int>): System {
    Go(s, i, Idle).(used := s.used + [Use(c.token, c.seal, after, at)])
  }

  predicate Usable(s: System) { s.history != [] && !s.revoked }

  /** A missing expiry never expires on loading. */
  predicate Over(c: Cred, now: int) { c.expires.Some? && c.expires.value <= now }

  /** A loser accepts only a version that is not the one it refreshed and that is known to be unexpired. */
  predicate Wins(s: System, c: Cred, now: int) {
    Usable(s) && Last(s).expires.Some? && Last(s).expires.value > now && Last(s).seal != c.seal
  }

  function DoSwap(s: System, i: nat, c: Cred, fresher: Cred, o: Outcome): System {
    if o.Failed? then Go(s, i, Idle)
    else if !Usable(s) || Last(s).seal != c.seal then Go(s, i, if o.Answered? then Reloading(c) else Idle)
    else
      var t := s.(history := s.history + [Version(fresher, Some(c.seal))]);
      if o.Answered? then Give(t, i, fresher, Some(c.seal), None) else Go(t, i, Idle)
  }

  function Apply(s: System, step: Step): System {
    match step
    case Connect(token, refresh, expires) =>
      s.(history := s.history + [Version(Cred(s.next, token, refresh, expires), None)], revoked := false, next := s.next + 1)
    case Revoke => s.(revoked := true)
    case Load(i, now, ok) =>
      if i in s.calls && !s.calls[i].Idle? then s
      else if !ok || !Usable(s) then Go(s, i, Idle)
      else if !Over(Last(s), now) then Give(s, i, Last(s), None, Some(now))
      else if Last(s).refresh.None? then Go(s, i, Idle)
      else Go(s, i, Expired(Last(s)))
    case Refresh(i, reply) =>
      if !(i in s.calls && s.calls[i].Expired?) then s
      else
        var c := s.calls[i].c;
        if reply.None? then Go(s, i, Reloading(c))
        else
          var r := reply.value;
          Go(s.(next := s.next + 1), i,
             Swapping(c, Cred(s.next, r.token, if r.refresh != "" then Some(r.refresh) else c.refresh, Some(r.expires))))
    case Swap(i, o) => if i in s.calls && s.calls[i].Swapping? then DoSwap(s, i, s.calls[i].c, s.calls[i].fresher, o) else s
    case Reload(i, now, ok) =>
      if !(i in s.calls && s.calls[i].Reloading?) then s
      else if ok && Wins(s, s.calls[i].c, now) then Give(s, i, Last(s), Some(s.calls[i].c.seal), Some(now))
      else Go(s, i, Idle)
    case Die(i) => Go(s, i, Idle)
  }

  function Run(steps: seq<Step>): System {
    if steps == [] then INITIAL else Apply(Run(steps[..|steps| - 1]), steps[|steps| - 1])
  }

  // ---- invariant ----

  predicate Stored(s: System, c: Cred) { exists k | 0 <= k < |s.history| :: s.history[k].cred == c }

  predicate Increasing(h: seq<Version>) { forall j, k | 0 <= j < k < |h| :: h[j].cred.seal < h[k].cred.seal }

  /** A refreshed version directly follows the version it was refreshed from. */
  predicate Chained(h: seq<Version>) {
    forall k | 0 <= k < |h| && h[k].parent.Some? :: k > 0 && h[k - 1].cred.seal == h[k].parent.value
  }

  predicate CallFits(s: System, c: Call) {
    match c
    case Idle => true
    case Expired(c) => Stored(s, c)
    case Swapping(c, fresher) => Stored(s, c) && c.seal < fresher.seal < s.next
    case Reloading(c) => Stored(s, c)
  }

  predicate IsUseOf(u: Use, c: Cred) {
    c.seal == u.seal && c.token == u.token && (u.at.Some? ==> !Over(c, u.at.value))
  }

  /**
    A handed-out token is that of a stored version, unexpired when read, and newer than one the call had found
    expired.
   */
  predicate UseFits(s: System, u: Use) {
    (exists k | 0 <= k < |s.history| :: IsUseOf(u, s.history[k].cred)) && (u.after.Some? ==> u.after.value < u.seal)
  }

  predicate Inv(s: System) {
    && Increasing(s.history) && Chained(s.history)
    && (forall k | 0 <= k < |s.history| :: s.history[k].cred.seal < s.next)
    && (forall i | i in s.calls :: CallFits(s, s.calls[i]))
    && (forall k | 0 <= k < |s.used| :: UseFits(s, s.used[k]))
  }

  lemma GoKeeps(s: System, i: nat, c: Call)
    requires Inv(s) && CallFits(s, c)
    ensures Inv(Go(s, i, c))
  {
    var t := Go(s, i, c);
    forall j | j in t.calls ensures CallFits(t, t.calls[j]) {
      assert CallFits(s, t.calls[j]);
    }
    forall k | 0 <= k < |t.used| ensures UseFits(t, t.used[k]) { assert UseFits(s, s.used[k]); }
  }

  lemma GiveKeeps(s: System, i: nat, c: Cred, after: Option<nat>, at: Option<int>)
    requires Inv(s) && Stored(s, c) && (after.Some? ==> after.value < c.seal) && (at.Some? ==> !Over(c, at.value))
    ensures Inv(Give(s, i, c, after, at))
  {
    hide Increasing, Chained;
    GoKeeps(s, i, Idle);
    var g := Go(s, i, Idle);
    var t := Give(s, i, c, after, at);
    forall j | j in t.calls ensures CallFits(t, t.calls[j]) { assert CallFits(g, g.calls[j]); }
    forall k | 0 <= k < |t.used| ensures UseFits(t, t.used[k]) {
      if k < |s.used| { assert UseFits(s, s.used[k]); } else { assert IsUseOf(t.used[k], c); }
    }
  }

  /** Storing a version with a higher seal than all before it. */
  lemma StoreKeeps(s: System, v: Version, next: nat)
    requires Inv(s) && v.cred.seal < next && s.next <= next
    requires s.history != [] ==> Last(s).seal < v.cred.seal
    requires v.parent.Some? ==> s.history != [] && Last(s).seal == v.parent.value
    ensures Inv(s.(history := s.history + [v], next := next))
  {
    var t := s.(history := s.history + [v], next := next);
    assert forall k | 0 <= k < |s.history| :: t.history[k] == s.history[k];
    forall i | i in t.calls ensures CallFits(t, t.calls[i]) { assert CallFits(s, s.calls[i]); }
    forall k | 0 <= k < |t.used| ensures UseFits(t, t.used[k]) { assert UseFits(s, s.used[k]); }
  }

  lemma SealKeeps(s: System, revoked: bool, next: nat)
    requires Inv(s) && s.next <= next
    ensures Inv(s.(next := next, revoked := revoked))
  {
    var t := s.(next := next, revoked := revoked);
    forall i | i in t.calls ensures CallFits(t, t.calls[i]) { assert CallFits(s, s.calls[i]); }
    forall k | 0 <= k < |t.used| ensures UseFits(t, t.used[k]) { assert UseFits(s, s.used[k]); }
  }

  /** A version that is not the last one is older than the last one. */
  lemma Older(s: System, c: Cred)
    requires Inv(s) && Stored(s, c)
    ensures Last(s).seal == c.seal || c.seal < Last(s).seal
    ensures Stored(s, Last(s)) && c.seal < s.next
  {
    var k :| 0 <= k < |s.history| && s.history[k].cred == c;
  }

  lemma SwapKeeps(s: System, i: nat, o: Outcome)
    requires Inv(s) && i in s.calls && s.calls[i].Swapping?
    ensures Inv(DoSwap(s, i, s.calls[i].c, s.calls[i].fresher, o))
  {
    var c, fresher := s.calls[i].c, s.calls[i].fresher;
    assert CallFits(s, s.calls[i]);
    hide Inv, Increasing, Chained;
    GoKeeps(s, i, Idle);
    GoKeeps(s, i, Reloading(c));
    if Usable(s) && Last(s).seal == c.seal {
      StoreKeeps(s, Version(fresher, Some(c.seal)), s.next);
      var t := s.(history := s.history + [Version(fresher, Some(c.seal))]);
      assert t.history[|s.history|].cred == fresher;
      GiveKeeps(t, i, fresher, Some(c.seal), None);
      GoKeeps(t, i, Idle);
    }
  }

  lemma ReadKeeps(s: System, i: nat, c: Cred, now: int)
    requires Inv(s) && Stored(s, c)
    ensures Inv(Go(s, i, Expired(c))) && Inv(Go(s, i, Idle)) && Inv(Go(s, i, Reloading(c)))
    ensures !Over(Last(s), now) ==> Inv(Give(s, i, Last(s), None, Some(now)))
    ensures !Over(Last(s), now) && Last(s).seal != c.seal ==> Inv(Give(s, i, Last(s), Some(c.seal), Some(now)))
  {
    hide Increasing, Chained, UseFits, Give, Go;
    Older(s, c);
    GoKeeps(s, i, Expired(c));
    GoKeeps(s, i, Idle);
    GoKeeps(s, i, Reloading(c));
    if !Over(Last(s), now) {
      GiveKeeps(s, i, Last(s), None, Some(now));
      if Last(s).seal != c.seal { GiveKeeps(s, i, Last(s), Some(c.seal), Some(now)); }
    }
  }

  lemma LastStored(s: System)
    requires Inv(s) && s.history != []
    ensures Stored(s, Last(s)) && Last(s).seal < s.next
  {
    assert s.history[|s.history| - 1].cred == Last(s);
  }

  lemma KeepStep(s: System, step: Step)
    requires Inv(s)
    ensures Inv(Apply(s, step))
  {
    hide Increasing, Chained, UseFits, Stored, Go, Give;
    match step
    case Connect(token, refresh, expires) =>
      if s.history != [] { LastStored(s); }
      var v := Version(Cred(s.next, token, refresh, expires), None);
      StoreKeeps(s, v, s.next + 1);
      SealKeeps(s.(history := s.history + [v], next := s.next + 1), false, s.next + 1);
    case Revoke => SealKeeps(s, true, s.next);
    case Load(i, now, ok) =>
      GoKeeps(s, i, Idle);
      if s.history != [] {
        LastStored(s);
        ReadKeeps(s, i, Last(s), now);
      }
    case Refresh(i, reply) =>
      if i in s.calls && s.calls[i].Expired? {
        var c := s.calls[i].c;
        assert CallFits(s, s.calls[i]);
        GoKeeps(s, i, Reloading(c));
        RefreshKeeps(s, i, reply);
      }
    case Swap(i, o) => if i in s.calls && s.calls[i].Swapping? { SwapKeeps(s, i, o); }
    case Reload(i, now, ok) =>
      GoKeeps(s, i, Idle);
      if i in s.calls && s.calls[i].Reloading? {
        assert CallFits(s, s.calls[i]);
        ReadKeeps(s, i, s.calls[i].c, now);
      }
    case Die(i) => GoKeeps(s, i, Idle);
  }

  lemma RefreshKeeps(s: System, i: nat, reply: Option<Reply>)
    requires Inv(s) && i in s.calls && s.calls[i].Expired?
    ensures Inv(Apply(s, Refresh(i, reply)))
  {
    hide Increasing, Chained, UseFits;
    var c := s.calls[i].c;
    assert CallFits(s, s.calls[i]);
    Older(s, c);
    if reply.Some? {
      SealKeeps(s, s.revoked, s.next + 1);
      var t := s.(next := s.next + 1);
      assert Stored(t, c);
      var r := reply.value;
      GoKeeps(t, i,
        Swapping(c, Cred(s.next, r.token, if r.refresh != "" then Some(r.refresh) else c.refresh, Some(r.expires))));
    } else {
      GoKeeps(s, i, Reloading(c));
    }
  }

  lemma {:induction false} Reachable(steps: seq<Step>)
    ensures Inv(Run(steps))
  {
    if steps != [] {
      Reachable(steps[..|steps| - 1]);
      KeepStep(Run(steps[..|steps| - 1]), steps[|steps| - 1]);
    }
  }

  // ---- results ----

  /**
    Over every run: a token handed out is that of a version that was durably stored and, where the row was read, not
    expired; a call that found its credential expired only hands out a newer version, whether it won or lost the swap.
   */
  lemma OnlyStoredTokens(steps: seq<Step>, k: nat)
    requires k < |Run(steps).used|
    ensures UseFits(Run(steps), Run(steps).used[k])
  {
    Reachable(steps);
  }

  /**
    No lost update: each stored refresh replaced exactly the version it was made from, so no version is refreshed
    twice.
   */
  lemma RefreshedOnce(steps: seq<Step>, j: nat, k: nat)
    requires j < |Run(steps).history| && k < |Run(steps).history|
    requires Run(steps).history[j].parent.Some?
    ensures j > 0 && Run(steps).history[j - 1].cred.seal == Run(steps).history[j].parent.value
    ensures Run(steps).history[k].parent == Run(steps).history[j].parent ==> j == k
  {
    Reachable(steps);
    var h := Run(steps).history;
    if j != k && h[k].parent.Some? { assert h[j - 1].cred.seal != h[k - 1].cred.seal; }
  }

  // ---- where the stored values come from ----

  /** An owner connected the account with exactly these values. */
  predicate Connected(steps: seq<Step>, c: Cred) {
    exists k | 0 <= k < |steps| :: steps[k] == Connect(c.token, c.refresh, c.expires)
  }

  predicate IsReply(step: Step, c: Cred, before: Cred) {
    && step.Refresh? && step.reply.Some?
    && var r := step.reply.value;
    && c.token == r.token && c.expires == Some(r.expires)
    && c.refresh == if r.refresh == "" then before.refresh else Some(r.refresh)
  }

  /** The provider answered a refresh with this token and expiry, and with this refresh token or none. */
  predicate Replied(steps: seq<Step>, c: Cred, before: Cred) {
    exists k | 0 <= k < |steps| :: IsReply(steps[k], c, before)
  }

  predicate VersionSourced(steps: seq<Step>, h: seq<Version>, k: nat)
    requires k < |h|
  {
    if h[k].parent.None? then Connected(steps, h[k].cred)
    else k > 0 && Replied(steps, h[k].cred, h[k - 1].cred)
  }

  predicate Sourced(steps: seq<Step>, s: System) {
    && (forall k: nat | k < |s.history| :: VersionSourced(steps, s.history, k))
    && (forall i | i in s.calls && s.calls[i].Swapping? :: Replied(steps, s.calls[i].fresher, s.calls[i].c))
  }

  lemma MoreSteps(steps: seq<Step>, step: Step)
    ensures forall c :: Connected(steps, c) ==> Connected(steps + [step], c)
    ensures forall c, before :: Replied(steps, c, before) ==> Replied(steps + [step], c, before)
    ensures forall c, before :: IsReply(step, c, before) ==> Replied(steps + [step], c, before)
    ensures step.Connect? ==> Connected(steps + [step], Cred(0, step.token, step.refresh, step.expires))
  {
    var all := steps + [step];
    assert all[|steps|] == step && forall k | 0 <= k < |steps| :: all[k] == steps[k];
  }

  lemma SourcedStays(steps: seq<Step>, s: System, step: Step)
    requires Sourced(steps, s)
    ensures Sourced(steps + [step], s)
  {
    hide Connected, Replied;
    MoreSteps(steps, step);
    forall k: nat | k < |s.history| ensures VersionSourced(steps + [step], s.history, k) {
      assert VersionSourced(steps, s.history, k);
    }
  }

  lemma SourcedStore(steps: seq<Step>, s: System, v: Version)
    requires Sourced(steps, s)
    requires if v.parent.None? then Connected(steps, v.cred) else s.history != [] && Replied(steps, v.cred, Last(s))
    ensures Sourced(steps, s.(history := s.history + [v]))
  {
    hide Connected, Replied;
    var t := s.(history := s.history + [v]);
    forall k: nat | k < |t.history| ensures VersionSourced(steps, t.history, k) {
      if k < |s.history| { assert VersionSourced(steps, s.history, k); }
    }
  }

  lemma SourcedGo(steps: seq<Step>, s: System, i: nat, c: Call)
    requires Sourced(steps, s) && (c.Swapping? ==> Replied(steps, c.fresher, c.c))
    ensures Sourced(steps, Go(s, i, c))
  {
    hide Connected, Replied;
    forall k: nat | k < |s.history| ensures VersionSourced(steps, s.history, k) {}
  }

  lemma LastIs(s: System, c: Cred)
    requires Inv(s) && Stored(s, c) && Last(s).seal == c.seal
    ensures Last(s) == c
  {
    var k :| 0 <= k < |s.history| && s.history[k].cred == c;
  }

  lemma SourcedSwap(steps: seq<Step>, s: System, i: nat, o: Outcome)
    requires Inv(s) && Sourced(steps, s) && i in s.calls && s.calls[i].Swapping?
    ensures Sourced(steps, DoSwap(s, i, s.calls[i].c, s.calls[i].fresher, o))
  {
    hide Connected, Replied, VersionSourced;
    var c, fresher := s.calls[i].c, s.calls[i].fresher;
    assert CallFits(s, s.calls[i]);
    SourcedGo(steps, s, i, Idle);
    SourcedGo(steps, s, i, Reloading(c));
    if Usable(s) && Last(s).seal == c.seal {
      LastIs(s, c);
      SourcedStore(steps, s, Version(fresher, Some(c.seal)));
      SourcedGo(steps, s.(history := s.history + [Version(fresher, Some(c.seal))]), i, Idle);
    }
  }

  lemma SourcedStep(steps: seq<Step>, s: System, step: Step)
    requires Inv(s) && Sourced(steps, s)
    ensures Sourced(steps + [step], Apply(s, step))
  {
    hide Inv, Connected, Replied, VersionSourced, IsReply;
    var all := steps + [step];
    SourcedStays(steps, s, step);
    MoreSteps(steps, step);
    match step
    case Connect(token, refresh, expires) =>
      var v := Version(Cred(s.next, token, refresh, expires), None);
      ConnectedSeal(all, v.cred);
      SourcedStore(all, s, v);
    case Revoke =>
    case Load(i, now, ok) =>
      SourcedGo(all, s, i, Idle);
      if s.history != [] { SourcedGo(all, s, i, Expired(Last(s))); }
    case Refresh(i, reply) =>
      if i in s.calls && s.calls[i].Expired? {
        var c := s.calls[i].c;
        SourcedGo(all, s, i, Reloading(c));
        if reply.Some? {
          var r := reply.value;
          var fresher := Cred(s.next, r.token, if r.refresh != "" then Some(r.refresh) else c.refresh, Some(r.expires));
          ReplyIs(step, fresher, c);
          SourcedGo(all, s.(next := s.next + 1), i, Swapping(c, fresher));
        }
      }
    case Swap(i, o) => if i in s.calls && s.calls[i].Swapping? { SourcedSwap(all, s, i, o); }
    case Reload(i, now, ok) => SourcedGo(all, s, i, Idle);
    case Die(i) => SourcedGo(all, s, i, Idle);
  }

  lemma ConnectedSeal(steps: seq<Step>, c: Cred)
    requires Connected(steps, Cred(0, c.token, c.refresh, c.expires))
    ensures Connected(steps, c)
  {}

  lemma ReplyIs(step: Step, fresher: Cred, c: Cred)
    requires step.Refresh? && step.reply.Some? && fresher.token == step.reply.value.token
    requires fresher.expires == Some(step.reply.value.expires)
    requires fresher.refresh == if step.reply.value.refresh != "" then Some(step.reply.value.refresh) else c.refresh
    ensures IsReply(step, fresher, c)
  {}

  lemma {:induction false} SourcedRun(steps: seq<Step>)
    ensures Sourced(steps, Run(steps))
  {
    hide Apply, VersionSourced;
    if steps != [] {
      var front := steps[..|steps| - 1];
      SourcedRun(front);
      Reachable(front);
      SourcedStep(front, Run(front), steps[|steps| - 1]);
      assert steps == front + [steps[|steps| - 1]];
    }
  }

  /**
    Over every run: a version without a parent holds exactly what an owner connected; a refreshed version holds the
    access token and the expiry of a provider's reply, and its refresh token or, where the reply has none, the parent's.
   */
  lemma VersionsSourced(steps: seq<Step>, k: nat)
    requires k < |Run(steps).history|
    ensures var h := Run(steps).history;
      && (h[k].parent.None? ==> Connected(steps, h[k].cred))
      && (h[k].parent.Some? ==> k > 0 && Replied(steps, h[k].cred, h[k - 1].cred))
  {
    hide Connected, Replied;
    SourcedRun(steps);
    assert VersionSourced(steps, Run(steps).history, k);
  }

  /** So every token handed out was given as an access token, by an owner who connected or by the provider. */
  lemma HandedOutSourced(steps: seq<Step>, k: nat)
    requires k < |Run(steps).used|
    ensures var token := Run(steps).used[k].token;
      exists j | 0 <= j < |steps| ::
        || (steps[j].Connect? && steps[j].token == token)
        || (steps[j].Refresh? && steps[j].reply.Some? && steps[j].reply.value.token == token)
  {
    Reachable(steps);
    var s := Run(steps);
    assert UseFits(s, s.used[k]);
    var v :| 0 <= v < |s.history| && IsUseOf(s.used[k], s.history[v].cred);
    VersionsSourced(steps, v);
    if s.history[v].parent.None? {
      var j :| 0 <= j < |steps| && steps[j] == Connect(s.history[v].cred.token, s.history[v].cred.refresh, s.history[v].cred.expires);
    } else {
      var j :| 0 <= j < |steps| && IsReply(steps[j], s.history[v].cred, s.history[v - 1].cred);
    }
  }

  // ---- what a call gets ----

  /** An unexpired credential is handed out as it is stored, and a revoked or missing one never is. */
  lemma LoadGives(s: System, i: nat, now: int)
    requires i in s.calls ==> s.calls[i].Idle?
    ensures var t := Apply(s, Load(i, now, true));
      var good := s.history != [] && !s.revoked && (Last(s).expires.None? || Last(s).expires.value > now);
      && t.history == s.history
      && (good ==> t.used == s.used + [Use(Last(s).token, Last(s).seal, None, Some(now))])
      && (!good ==> t.used == s.used)
  {}

  /** A swap takes hold exactly while the version it was made from is still stored and not revoked. */
  lemma SwapExactly(s: System, i: nat, o: Outcome)
    requires i in s.calls && s.calls[i].Swapping?
    ensures var t := Apply(s, Swap(i, o));
      var c, fresher := s.calls[i].c, s.calls[i].fresher;
      var takes := !o.Failed? && s.history != [] && !s.revoked && Last(s).seal == c.seal;
      && (takes ==> t.history == s.history + [Version(fresher, Some(c.seal))])
      && (!takes ==> t.history == s.history && t.used == s.used)
      && (!takes && o.Answered? ==> t.calls[i] == Reloading(c))
      && (t.used != s.used ==> takes && o.Answered?)
  {}

  /** Connecting an account again makes it usable at once. */
  lemma ConnectGives(s: System, i: nat, now: int, token: string, refresh: Option<string>)
    requires i in s.calls ==> s.calls[i].Idle?
    ensures var t := Apply(Apply(s, Connect(token, refresh, None)), Load(i, now, true));
      |t.used| == |s.used| + 1 && t.used[|s.used|].token == token
  {}

  /** An undisturbed refresh stores and hands out the provider's new access token. */
  lemma RefreshGives(s: System, i: nat, now: int, r: Reply)
    requires Usable(s) && Over(Last(s), now) && Last(s).refresh.Some? && (i in s.calls ==> s.calls[i].Idle?)
    ensures var t := Apply(Apply(Apply(s, Load(i, now, true)), Refresh(i, Some(r))), Swap(i, Answered));
      && |t.used| == |s.used| + 1 && t.used[|s.used|].token == r.token && Last(t).token == r.token
      && Last(t).expires == Some(r.expires) && |t.history| == |s.history| + 1
      && Last(t).refresh == if r.refresh == "" then Last(s).refresh else Some(r.refresh)
  {}

  /** A call that lost gets the winner's token exactly when that is another version, unrevoked and unexpired. */
  lemma LoserGets(s: System, i: nat, now: int)
    requires i in s.calls && s.calls[i].Reloading?
    ensures var t := Apply(s, Reload(i, now, true));
      var wins := s.history != [] && !s.revoked && Last(s).expires.Some? && Last(s).expires.value > now
        && Last(s).seal != s.calls[i].c.seal;
      && t.history == s.history
      && (wins ==> |t.used| == |s.used| + 1 && t.used[|s.used|].token == Last(s).token)
      && (!wins ==> t.used == s.used)
  {}
}
