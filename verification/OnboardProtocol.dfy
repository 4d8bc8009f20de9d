/** Onboarding rounds for one subject, interleaved at every call they make to a seam: the backends
    and the provider are shared, any call may fail, and a failed write may have landed. */
module OnboardProtocol {
  import opened Common
  import opened Tokens
  import opened Onboard

  datatype Config = Config(slugs: Slugs, backends: seq<Backend>)

  /** Where a round stands within the backend it is at. */
  datatype Pc = Inspecting | Resolving | Probing | Creating | Writing | Reloading | Settling | Asking

  /** One round: the claims its caller came with, the backend it is at, and the states so far. */
  datatype Proc =
    | Idle
    | Active(claims: Claims, at: nat, pc: Pc, state: BackendState, states: map<string, BackendState>)
    | Over(states: map<string, BackendState>)

  /** A round's next step, with the answer its seam gives. */
  datatype Action =
    | Begin(claims: Claims)
    | Inspect
    | Resolve(token: Result<AccessToken>)
    | Probe(fault: Option<Problem>)
    | Make(reply: Reply)
    | Write(reply: Reply)
    | Reload(principal: Principal, refreshed: Refreshed)
    | Retoken(token: Result<AccessToken>)
    | Ask(configured: Result<bool>)

  datatype System = System(world: World, procs: seq<Proc>)

  datatype Label = Label(proc: nat, action: Action)

  ghost function Names(c: Config): set<string> {
    NamesOf(c.backends)
  }

  predicate At(c: Config, p: Proc, pc: Pc) {
    p.Active? && p.at < |c.backends| && p.pc == pc
  }

  function FreshState(name: string): BackendState {
    BackendState(name, Bootstrapping, false, false, None)
  }

  /** The round stands before backend n, or is over. */
  function Before(c: Config, claims: Claims, n: nat, states: map<string, BackendState>): Proc {
    if n < |c.backends| then Active(claims, n, Inspecting, FreshState(c.backends[n].name), states) else Over(states)
  }

  /** The backend the round is at ends in this state. */
  function Finish(c: Config, p: Proc, state: BackendState): Proc
    requires p.Active? && p.at < |c.backends|
  {
    Before(c, p.claims, p.at + 1, p.states[c.backends[p.at].name := state])
  }

  /** The backend is registered; only its own configuration step, if it has one, is left. */
  function Enter(c: Config, p: Proc): Proc
    requires p.Active? && p.at < |c.backends|
  {
    if c.backends[p.at].staged then p.(pc := Settling) else Finish(c, p, p.state.(phase := Ready))
  }

  datatype Local = Local(world: World, proc: Proc)

  /** One step of one round. A round begins on a token whose registration claims came from the provider. */
  ghost function Advance(c: Config, w: World, p: Proc, a: Action): Option<Local> {
    match a
    case Begin(claims) =>
      if p.Idle? && Honest(c.slugs, Names(c), claims, w) then Some(Local(w, Before(c, claims, 0, map[]))) else None
    case Inspect =>
      if !At(c, p, Inspecting) then None
      else if Registered(c.slugs, p.claims, c.backends[p.at].name) then Some(Local(w, Enter(c, p)))
      else Some(Local(w, p.(pc := Resolving)))
    case Resolve(token) =>
      if !At(c, p, Resolving) then None
      else if token.Err? then Some(Local(w, Finish(c, p, FailedWith(p.state, token.error))))
      else Some(Local(w, p.(pc := Probing)))
    case Probe(fault) =>
      if !At(c, p, Probing) then None
      else if fault.Some? then Some(Local(w, Finish(c, p, FailedWith(p.state, fault.value))))
      else Some(Local(w, p.(pc := if c.backends[p.at].name in w.rows then Writing else Creating)))
    case Make(reply) =>
      if !At(c, p, Creating) then None
      else Some(Local(
        if Landed(reply) then w.(rows := w.rows + {c.backends[p.at].name}) else w,
        if reply.Broke? then Finish(c, p, FailedWith(p.state, reply.problem))
        else p.(pc := Writing, state := p.state.(created := true))))
    case Write(reply) =>
      if !At(c, p, Writing) then None
      else Some(Local(
        if Landed(reply) then w.(idp := w.idp[RegistrationClaim(c.slugs, c.backends[p.at].name) := Text("true")]) else w,
        if reply.Broke? then Finish(c, p, FailedWith(p.state, ProviderUnavailable))
        else p.(pc := Reloading, state := p.state.(claimWritten := true))))
    case Reload(principal, refreshed) =>
      if !At(c, p, Reloading) then None
      else if refreshed.Unavailable? then Some(Local(w, Finish(c, p, FailedWith(p.state, refreshed.problem))))
      else if Registered(c.slugs, RefreshedClaims(w, principal, refreshed), c.backends[p.at].name)
      then Some(Local(w, Enter(c, p)))
      else Some(Local(w, Finish(c, p, FailedWith(p.state, OnboardingStalled))))
    case Retoken(token) =>
      if !At(c, p, Settling) then None
      else if token.Err? then Some(Local(w, Finish(c, p, FailedWith(p.state, token.error))))
      else Some(Local(w, p.(pc := Asking)))
    case Ask(configured) =>
      if !At(c, p, Asking) then None
      else if configured.Err? then Some(Local(w, Finish(c, p, FailedWith(p.state, configured.error))))
      else Some(Local(w, Finish(c, p, p.state.(phase := if configured.value then Ready else NeedsOnboarding))))
  }

  ghost function Step(c: Config, s: System, l: Label): Option<System> {
    if l.proc >= |s.procs| then None
    else
      var next := Advance(c, s.world, s.procs[l.proc], l.action);
      if next.None? then None
      else Some(System(next.value.world, s.procs[l.proc := next.value.proc]))
  }

  ghost function Exec(c: Config, s: System, labels: seq<Label>): Option<System>
    decreases |labels|
  {
    if labels == [] then Some(s)
    else
      var next := Step(c, s, labels[0]);
      if next.None? then None else Exec(c, next.value, labels[1..])
  }

  /** Nothing has begun, and the world's claims are backed. */
  ghost predicate Start(c: Config, s: System) {
    && ClaimsBacked(c.slugs, Names(c), s.world)
    && forall r: nat :: r < |s.procs| ==> s.procs[r].Idle?
  }

  // ---------------------------------------------------------------- what every step keeps

  /** What a state reports is so: the row it created, the claim it wrote, and both once settled. */
  ghost predicate Truthful(c: Config, w: World, state: BackendState) {
    && (state.created ==> state.backend in w.rows)
    && (state.claimWritten ==> Registered(c.slugs, w.idp, state.backend))
    && (state.phase == Ready || state.phase == NeedsOnboarding ==>
          state.backend in w.rows && Registered(c.slugs, w.idp, state.backend))
    && (state.phase == Failed <==> state.err.Some?)
  }

  ghost predicate NamesDone(c: Config, n: nat, states: map<string, BackendState>) {
    n <= |c.backends| && states.Keys == set i | 0 <= i < n :: c.backends[i].name
  }

  ghost predicate AllTruthful(c: Config, w: World, states: map<string, BackendState>) {
    forall n :: n in states ==>
      states[n].backend == n && states[n].phase != Bootstrapping && Truthful(c, w, states[n])
  }

  /** What the step a round stands at rests on. */
  ghost predicate PcOk(c: Config, w: World, name: string, pc: Pc) {
    && (pc == Writing || pc == Reloading || pc == Settling || pc == Asking ==> name in w.rows)
    && (pc == Reloading || pc == Settling || pc == Asking ==> Registered(c.slugs, w.idp, name))
  }

  ghost predicate ProcOk(c: Config, w: World, p: Proc) {
    match p
    case Idle => true
    case Active(claims, at, pc, state, states) =>
      && at < |c.backends| && NamesDone(c, at, states) && AllTruthful(c, w, states)
      && Honest(c.slugs, Names(c), claims, w)
      && state.backend == c.backends[at].name && state.phase == Bootstrapping && Truthful(c, w, state)
      && PcOk(c, w, state.backend, pc)
    case Over(states) => NamesDone(c, |c.backends|, states) && AllTruthful(c, w, states)
  }

  ghost predicate Inv(c: Config, s: System) {
    && ClaimsBacked(c.slugs, Names(c), s.world)
    && forall r: nat :: r < |s.procs| ==> ProcOk(c, s.world, s.procs[r])
  }

  /** Rows are never deleted and registration claims never taken back. */
  ghost predicate Grows(c: Config, before: World, after: World) {
    && before.rows <= after.rows
    && forall n :: Registered(c.slugs, before.idp, n) ==> Registered(c.slugs, after.idp, n)
  }

  lemma NameIn(c: Config, i: nat)
    requires i < |c.backends|
    ensures c.backends[i].name in Names(c)
  {
  }

  lemma OneMoreDone(c: Config, n: nat, states: map<string, BackendState>, state: BackendState)
    requires NamesDone(c, n, states) && n < |c.backends|
    ensures NamesDone(c, n + 1, states[c.backends[n].name := state])
  {
  }

  lemma AdvanceGrows(c: Config, w: World, p: Proc, a: Action)
    requires Advance(c, w, p, a).Some?
    ensures Grows(c, w, Advance(c, w, p, a).value.world)
  {
  }

  lemma AdvanceKeepsBacked(c: Config, w: World, p: Proc, a: Action)
    requires ClaimsDistinct(c.slugs, Names(c)) && ClaimsBacked(c.slugs, Names(c), w) && ProcOk(c, w, p)
    requires Advance(c, w, p, a).Some?
    ensures ClaimsBacked(c.slugs, Names(c), Advance(c, w, p, a).value.world)
  {
    if p.Active? {
      NameIn(c, p.at);
    }
  }

  lemma GrowthKeepsProc(c: Config, before: World, after: World, p: Proc)
    requires ProcOk(c, before, p) && Grows(c, before, after)
    ensures ProcOk(c, after, p)
  {
  }

  lemma FinishOk(c: Config, w: World, p: Proc, state: BackendState)
    requires ProcOk(c, w, p) && p.Active?
    requires state.backend == p.state.backend && state.phase != Bootstrapping && Truthful(c, w, state)
    ensures ProcOk(c, w, Finish(c, p, state))
  {
    OneMoreDone(c, p.at, p.states, state);
  }

  lemma EnterOk(c: Config, w: World, p: Proc)
    requires ProcOk(c, w, p) && p.Active?
    requires p.state.backend in w.rows && Registered(c.slugs, w.idp, p.state.backend)
    ensures ProcOk(c, w, Enter(c, p))
  {
    if !c.backends[p.at].staged {
      FinishOk(c, w, p, p.state.(phase := Ready));
    }
  }

  lemma FailOk(c: Config, w: World, p: Proc, problem: Problem)
    requires ProcOk(c, w, p) && p.Active?
    ensures ProcOk(c, w, Finish(c, p, FailedWith(p.state, problem)))
  {
    FinishOk(c, w, p, FailedWith(p.state, problem));
  }

  lemma ActorOk(c: Config, w: World, p: Proc, a: Action)
    requires ClaimsBacked(c.slugs, Names(c), w) && ProcOk(c, w, p)
    requires Advance(c, w, p, a).Some?
    ensures var next := Advance(c, w, p, a).value;
      ProcOk(c, next.world, next.proc)
  {
    var next := Advance(c, w, p, a).value;
    AdvanceGrows(c, w, p, a);
    GrowthKeepsProc(c, w, next.world, p);
    if p.Active? {
      NameIn(c, p.at);
    }
    match a
    case Begin(claims) =>
    case Inspect => if Registered(c.slugs, p.claims, p.state.backend) { EnterOk(c, w, p); }
    case Resolve(token) => if token.Err? { FailOk(c, w, p, token.error); }
    case Probe(fault) => if fault.Some? { FailOk(c, w, p, fault.value); }
    case Make(reply) => if reply.Broke? { FailOk(c, next.world, p, reply.problem); }
    case Write(reply) => if reply.Broke? { FailOk(c, next.world, p, ProviderUnavailable); }
    case Reload(principal, refreshed) =>
      if refreshed.Unavailable? { FailOk(c, w, p, refreshed.problem); }
      else { EnterOk(c, w, p); FailOk(c, w, p, OnboardingStalled); }
    case Retoken(token) => if token.Err? { FailOk(c, w, p, token.error); }
    case Ask(configured) =>
      if configured.Err? { FailOk(c, w, p, configured.error); }
      else { FinishOk(c, w, p, p.state.(phase := if configured.value then Ready else NeedsOnboarding)); }
  }

  lemma StepKeepsInv(c: Config, s: System, l: Label)
    requires ClaimsDistinct(c.slugs, Names(c)) && Inv(c, s) && Step(c, s, l).Some?
    ensures Inv(c, Step(c, s, l).value)
    ensures Grows(c, s.world, Step(c, s, l).value.world)
  {
    var t := Step(c, s, l).value;
    AdvanceGrows(c, s.world, s.procs[l.proc], l.action);
    AdvanceKeepsBacked(c, s.world, s.procs[l.proc], l.action);
    forall r: nat | r < |t.procs| ensures ProcOk(c, t.world, t.procs[r]) {
      if r == l.proc {
        ActorOk(c, s.world, s.procs[r], l.action);
      } else {
        GrowthKeepsProc(c, s.world, t.world, s.procs[r]);
      }
    }
  }

  /** Every run keeps the invariant, and only adds rows and claims. */
  lemma {:induction false} RunKeepsInv(c: Config, s: System, labels: seq<Label>)
    requires ClaimsDistinct(c.slugs, Names(c)) && Inv(c, s) && Exec(c, s, labels).Some?
    ensures Inv(c, Exec(c, s, labels).value)
    ensures Grows(c, s.world, Exec(c, s, labels).value.world)
    decreases |labels|
  {
    if labels != [] {
      StepKeepsInv(c, s, labels[0]);
      RunKeepsInv(c, Step(c, s, labels[0]).value, labels[1..]);
    }
  }

  // ---------------------------------------------------------------- a claim means a row, exactly when claims are distinct

  /** Claims are backed by rows, and what finished rounds report is so, with one state a backend. */
  ghost predicate Safe(c: Config, s: System) {
    && ClaimsBacked(c.slugs, Names(c), s.world)
    && forall r: nat :: r < |s.procs| && s.procs[r].Over? ==>
         s.procs[r].states.Keys == Names(c) && AllTruthful(c, s.world, s.procs[r].states)
  }

  ghost predicate AlwaysSafe(c: Config) {
    forall s: System, labels: seq<Label> ::
      Start(c, s) && Exec(c, s, labels).Some? ==> Safe(c, Exec(c, s, labels).value)
  }

  /** Over any number of interleaved rounds, with any call failing, a claim at the provider means a
      row at its backend, exactly when no two backends share a registration claim. */
  lemma SafeExactlyWhenClaimsDistinct(c: Config)
    ensures AlwaysSafe(c) <==> ClaimsDistinct(c.slugs, Names(c))
  {
    if ClaimsDistinct(c.slugs, Names(c)) {
      forall s: System, labels: seq<Label> | Start(c, s) && Exec(c, s, labels).Some?
        ensures Safe(c, Exec(c, s, labels).value)
      {
        RunKeepsInv(c, s, labels);
      }
    }
    if !ClaimsDistinct(c.slugs, Names(c)) {
      var m, n :| m in Names(c) && n in Names(c) && m != n &&
        RegistrationClaim(c.slugs, m) == RegistrationClaim(c.slugs, n);
      var i :| 0 <= i < |c.backends| && c.backends[i].name == m;
      var labels, t := SharedClaimLies(c, i, n);
      assert Safe(c, t) ==> n in t.world.rows;
    }
  }

  // ---------------------------------------------------------------- a round on its own is the round method's

  /** One round's steps in a row, nothing in between. */
  ghost function Drive(c: Config, w: World, p: Proc, actions: seq<Action>): Option<Local>
    decreases |actions|
  {
    if actions == [] then Some(Local(w, p))
    else
      var next := Advance(c, w, p, actions[0]);
      if next.None? then None else Drive(c, next.value.world, next.value.proc, actions[1..])
  }

  lemma Lead(c: Config, w: World, p: Proc, a: Action, rest: seq<Action>)
    requires Advance(c, w, p, a).Some?
    ensures var next := Advance(c, w, p, a).value;
      Drive(c, w, p, [a] + rest) == Drive(c, next.world, next.proc, rest)
  {
    assert ([a] + rest)[1..] == rest;
  }

  lemma {:induction false} Chain(c: Config, w: World, p: Proc, first: seq<Action>, rest: seq<Action>)
    requires Drive(c, w, p, first).Some?
    ensures var mid := Drive(c, w, p, first).value;
      Drive(c, w, p, first + rest) == Drive(c, mid.world, mid.proc, rest)
    decreases |first|
  {
    if first == [] {
      assert first + rest == rest;
    } else {
      var next := Advance(c, w, p, first[0]).value;
      Chain(c, next.world, next.proc, first[1..], rest);
      HeadAndTail(first, rest);
    }
  }

  lemma {:induction false} DriveIsARun(c: Config, s: System, r: nat, actions: seq<Action>) returns (labels: seq<Label>)
    requires r < |s.procs| && Drive(c, s.world, s.procs[r], actions).Some?
    ensures var last := Drive(c, s.world, s.procs[r], actions).value;
      Exec(c, s, labels) == Some(System(last.world, s.procs[r := last.proc]))
    decreases |actions|
  {
    if actions == [] {
      labels := [];
      assert s.procs[r := s.procs[r]] == s.procs;
    } else {
      var l := Label(r, actions[0]);
      var t := Step(c, s, l).value;
      var rest := DriveIsARun(c, t, r, actions[1..]);
      labels := [l] + rest;
      assert labels[1..] == rest;
      assert t.procs[r := Drive(c, t.world, t.procs[r], actions[1..]).value.proc]
        == s.procs[r := Drive(c, t.world, t.procs[r], actions[1..]).value.proc];
    }
  }

  /** From a registered backend on. */
  lemma SoloSettle(c: Config, w: World, p: Proc, seams: Seams) returns (actions: seq<Action>)
    requires p.Active? && p.at < |c.backends|
    ensures Drive(c, w, Enter(c, p), actions)
      == Some(Local(w, Finish(c, p, Settled(p.state, c.backends[p.at], seams).0)))
  {
    if !c.backends[p.at].staged {
      actions := [];
    } else if seams.settleToken.Err? {
      actions := [Retoken(seams.settleToken)];
      Lead(c, w, Enter(c, p), actions[0], []);
    } else {
      actions := [Retoken(seams.settleToken)] + [Ask(seams.configured)];
      Lead(c, w, Enter(c, p), Retoken(seams.settleToken), [Ask(seams.configured)]);
      Lead(c, w, Enter(c, p).(pc := Asking), Ask(seams.configured), []);
    }
  }

  /** From a claim written on. */
  lemma SoloReload(c: Config, w: World, p: Proc, principal: Principal, seams: Seams) returns (actions: seq<Action>)
    requires At(c, p, Reloading)
    ensures var backend := c.backends[p.at];
      Drive(c, w, p, actions) == Some(Local(w, Finish(c, p,
        if seams.refresh.Unavailable? then FailedWith(p.state, seams.refresh.problem)
        else if !Registered(c.slugs, RefreshedClaims(w, principal, seams.refresh), backend.name)
        then FailedWith(p.state, OnboardingStalled)
        else Settled(p.state, backend, seams).0)))
  {
    var reload := Reload(principal, seams.refresh);
    var rest: seq<Action> := [];
    if !seams.refresh.Unavailable? && Registered(c.slugs, RefreshedClaims(w, principal, seams.refresh), c.backends[p.at].name) {
      rest := SoloSettle(c, w, p, seams);
    }
    actions := [reload] + rest;
    Lead(c, w, p, reload, rest);
  }

  /** From the claim write-back on. */
  lemma SoloWriteBack(c: Config, w: World, p: Proc, principal: Principal, seams: Seams) returns (actions: seq<Action>)
    requires At(c, p, Writing)
    ensures var outcome := WroteBack(c.slugs, w, principal, c.backends[p.at], seams, p.state);
      Drive(c, w, p, actions) == Some(Local(outcome.world, Finish(c, p, outcome.state)))
  {
    var write := Write(seams.setClaim);
    var next := Advance(c, w, p, write).value;
    var rest: seq<Action> := [];
    if !seams.setClaim.Broke? {
      rest := SoloReload(c, next.world, next.proc, principal, seams);
    }
    actions := [write] + rest;
    Lead(c, w, p, write, rest);
  }

  /** From a probe that found no row on. */
  lemma SoloCreate(c: Config, w: World, p: Proc, principal: Principal, seams: Seams) returns (actions: seq<Action>)
    requires At(c, p, Creating)
    ensures var world := if Landed(seams.create) then w.(rows := w.rows + {c.backends[p.at].name}) else w;
      Drive(c, w, p, actions) == Some(
        if seams.create.Broke? then Local(world, Finish(c, p, FailedWith(p.state, seams.create.problem)))
        else
          var outcome := WroteBack(c.slugs, world, principal, c.backends[p.at], seams, p.state.(created := true));
          Local(outcome.world, Finish(c, p, outcome.state)))
  {
    var make := Make(seams.create);
    var made := Advance(c, w, p, make).value;
    var more: seq<Action> := [];
    if !seams.create.Broke? {
      more := SoloWriteBack(c, made.world, made.proc, principal, seams);
    }
    actions := [make] + more;
    Lead(c, w, p, make, more);
  }

  /** From a token resolved on. */
  lemma SoloProbe(c: Config, w: World, p: Proc, principal: Principal, seams: Seams) returns (actions: seq<Action>)
    requires At(c, p, Probing) && seams.token.Ok?
    ensures var outcome := Onboarded(c.slugs, w, principal, c.backends[p.at], seams, p.state);
      Drive(c, w, p, actions) == Some(Local(outcome.world, Finish(c, p, outcome.state)))
  {
    var probe := Probe(seams.probe);
    var rest: seq<Action> := [];
    if seams.probe.None? {
      var next := Advance(c, w, p, probe).value.proc;
      if c.backends[p.at].name in w.rows {
        rest := SoloWriteBack(c, w, next, principal, seams);
      } else {
        rest := SoloCreate(c, w, next, principal, seams);
      }
    }
    actions := [probe] + rest;
    Lead(c, w, p, probe, rest);
  }

  /** From an absent claim on. */
  lemma SoloOnboard(c: Config, w: World, p: Proc, principal: Principal, seams: Seams) returns (actions: seq<Action>)
    requires At(c, p, Resolving)
    ensures var outcome := Onboarded(c.slugs, w, principal, c.backends[p.at], seams, p.state);
      Drive(c, w, p, actions) == Some(Local(outcome.world, Finish(c, p, outcome.state)))
  {
    var resolve := Resolve(seams.token);
    var rest: seq<Action> := [];
    if seams.token.Ok? {
      rest := SoloProbe(c, w, p.(pc := Probing), principal, seams);
    }
    actions := [resolve] + rest;
    Lead(c, w, p, resolve, rest);
  }

  lemma SoloReconcile(c: Config, w: World, p: Proc, principal: Principal, seams: Seams) returns (actions: seq<Action>)
    requires At(c, p, Inspecting) && p.claims == principal.claims
    requires p.state == FreshState(c.backends[p.at].name)
    ensures var outcome := Reconciled(c.slugs, w, principal, c.backends[p.at], seams);
      Drive(c, w, p, actions) == Some(Local(outcome.world, Finish(c, p, outcome.state)))
  {
    var rest: seq<Action>;
    if Registered(c.slugs, p.claims, c.backends[p.at].name) {
      rest := SoloSettle(c, w, p, seams);
    } else {
      rest := SoloOnboard(c, w, p.(pc := Resolving), principal, seams);
    }
    actions := [Inspect] + rest;
    Lead(c, w, p, Inspect, rest);
  }

  lemma {:induction false} SoloUpTo(c: Config, w: World, principal: Principal, seams: seq<Seams>, n: nat)
    returns (actions: seq<Action>)
    requires n <= |seams| == |c.backends| && Honest(c.slugs, Names(c), principal.claims, w)
    ensures var round := Rounds(c.slugs, w, principal, c.backends, seams, n);
      Drive(c, w, Idle, actions) == Some(Local(round.world, Before(c, principal.claims, n, round.states)))
  {
    if n == 0 {
      actions := [Begin(principal.claims)] + [];
      Lead(c, w, Idle, Begin(principal.claims), []);
    } else {
      var first := SoloUpTo(c, w, principal, seams, n - 1);
      var round := Rounds(c.slugs, w, principal, c.backends, seams, n - 1);
      var mid := Before(c, principal.claims, n - 1, round.states);
      var rest := SoloReconcile(c, round.world, mid, principal, seams[n - 1]);
      actions := first + rest;
      Chain(c, w, Idle, first, rest);
    }
  }

  /** A round that nothing interleaves with does exactly what the round method does, whatever its
      seams answer. */
  lemma SoloRound(c: Config, s: System, r: nat, principal: Principal, seams: seq<Seams>) returns (labels: seq<Label>)
    requires r < |s.procs| && s.procs[r] == Idle && |seams| == |c.backends|
    requires Honest(c.slugs, Names(c), principal.claims, s.world)
    ensures var round := FullRound(c.slugs, s.world, principal, c.backends, seams);
      Exec(c, s, labels) == Some(System(round.world, s.procs[r := Over(round.states)]))
  {
    var actions := SoloUpTo(c, s.world, principal, seams, |c.backends|);
    labels := DriveIsARun(c, s, r, actions);
  }

  // ---------------------------------------------------------------- when two backends share a claim

  function OnlyHealthy(n: nat, i: nat, answer: AccessToken): (all: seq<Seams>)
    ensures |all| == n
    ensures forall k :: 0 <= k < n ==> (if k == i then Healthy(all[k]) else all[k].token.Err?)
  {
    seq(n, k requires 0 <= k < n =>
      Seams(if k == i then Ok(answer) else Err(ProviderUnavailable), None, Fine, Fine, Current, Ok(answer), Ok(true)))
  }

  lemma {:induction false} OnlyOneOnboards(
    c: Config, w: World, principal: Principal, seams: seq<Seams>, i: nat, n: nat)
    requires i < |c.backends| == |seams| && n <= |seams|
    requires Healthy(seams[i]) && forall k :: 0 <= k < |seams| && k != i ==> seams[k].token.Err?
    requires w == World({}, map[]) && principal.claims == map[]
    ensures var name := c.backends[i].name;
      Rounds(c.slugs, w, principal, c.backends, seams, n).world
        == if n <= i then w else World({name}, map[RegistrationClaim(c.slugs, name) := Text("true")])
  {
    if n > 0 {
      OnlyOneOnboards(c, w, principal, seams, i, n - 1);
    }
  }

  /** One round in which only the first of two backends can be reached leaves the second with a
      claim and no row. */
  lemma SharedClaimLies(c: Config, i: nat, other: string) returns (labels: seq<Label>, t: System)
    requires i < |c.backends| && other != c.backends[i].name
    requires RegistrationClaim(c.slugs, other) == RegistrationClaim(c.slugs, c.backends[i].name)
    ensures Start(c, System(World({}, map[]), [Idle]))
    ensures Exec(c, System(World({}, map[]), [Idle]), labels) == Some(t)
    ensures Registered(c.slugs, t.world.idp, other) && other !in t.world.rows
  {
    var w, principal := World({}, map[]), Principal("subject", None, None, map[]);
    var seams := OnlyHealthy(|c.backends|, i, ZERO_TOKEN);
    OnlyOneOnboards(c, w, principal, seams, i, |c.backends|);
    labels := SoloRound(c, System(w, [Idle]), 0, principal, seams);
    t := Exec(c, System(w, [Idle]), labels).value;
  }

  // ---------------------------------------------------------------- after any run, recovery; and every round ends

  /** Whatever interleaved rounds, cut short anywhere, have left: one round without failures on a
      token from the provider settles every backend, row and claim present, and the round after it
      on the refreshed token changes nothing and probes, creates, writes and refreshes nothing. */
  lemma AnyRunRecovers(
    c: Config, s: System, labels: seq<Label>, principal: Principal, seams: seq<Seams>, later: seq<Seams>)
    requires Start(c, s) && Exec(c, s, labels).Some? && Apart(c.slugs, c.backends)
    requires |seams| == |later| == |c.backends| && forall i :: 0 <= i < |seams| ==> Healthy(seams[i])
    requires Honest(c.slugs, Names(c), principal.claims, Exec(c, s, labels).value.world)
    ensures var round := FullRound(c.slugs, Exec(c, s, labels).value.world, principal, c.backends, seams);
      var next := FullRound(c.slugs, round.world, principal.(claims := principal.claims + round.world.idp), c.backends, later);
      && (forall i :: 0 <= i < |c.backends| ==>
            && c.backends[i].name in round.states
            && SettledWell(c.slugs, round.world, c.backends[i], seams[i], round.states[c.backends[i].name]))
      && next.world == round.world
      && (forall call :: call in next.calls ==> SettlingCall(call))
  {
    ApartIsDistinct(c);
    RunKeepsInv(c, s, labels);
    var w := Exec(c, s, labels).value.world;
    OneHealthyRoundRecovers(c.slugs, Names(c), w, principal, c.backends, seams);
    var round := FullRound(c.slugs, w, principal, c.backends, seams);
    NextRoundIsQuiet(c.slugs, round.world, principal, c.backends, later);
  }

  lemma ApartIsDistinct(c: Config)
    requires Apart(c.slugs, c.backends)
    ensures ClaimsDistinct(c.slugs, Names(c))
  {
  }

  function PcRank(pc: Pc): nat {
    match pc
    case Inspecting => 8
    case Resolving => 7
    case Probing => 6
    case Creating => 5
    case Writing => 4
    case Reloading => 3
    case Settling => 2
    case Asking => 1
  }

  /** How many steps a round can still take. */
  function Rank(c: Config, p: Proc): nat {
    match p
    case Idle => 8 * |c.backends| + 1
    case Active(_, at, pc, _, _) => if at < |c.backends| then 8 * (|c.backends| - 1 - at) + PcRank(pc) else 0
    case Over(_) => 0
  }

  function TotalRank(c: Config, procs: seq<Proc>): nat {
    if procs == [] then 0 else TotalRank(c, procs[..|procs| - 1]) + Rank(c, procs[|procs| - 1])
  }

  lemma AdvanceUsesUp(c: Config, w: World, p: Proc, a: Action)
    requires Advance(c, w, p, a).Some?
    ensures Rank(c, Advance(c, w, p, a).value.proc) < Rank(c, p)
  {
  }

  lemma {:induction false} TotalFalls(c: Config, procs: seq<Proc>, r: nat, p: Proc)
    requires r < |procs| && Rank(c, p) < Rank(c, procs[r])
    ensures TotalRank(c, procs[r := p]) < TotalRank(c, procs)
  {
    var last := |procs| - 1;
    if r < last {
      TotalFalls(c, procs[..last], r, p);
      assert procs[r := p][..last] == procs[..last][r := p];
    } else {
      assert procs[r := p][..last] == procs[..last];
    }
  }

  /** A run is no longer than its rounds' steps. */
  lemma {:induction false} RunsAreFinite(c: Config, s: System, labels: seq<Label>)
    requires Exec(c, s, labels).Some?
    ensures |labels| + TotalRank(c, Exec(c, s, labels).value.procs) <= TotalRank(c, s.procs)
    decreases |labels|
  {
    if labels != [] {
      var l := labels[0];
      AdvanceUsesUp(c, s.world, s.procs[l.proc], l.action);
      TotalFalls(c, s.procs, l.proc, Advance(c, s.world, s.procs[l.proc], l.action).value.proc);
      RunsAreFinite(c, Step(c, s, l).value, labels[1..]);
    }
  }

  /** A step that a round can take whatever the world holds. */
  function NextAction(p: Proc): Action {
    if !p.Active? then Begin(map[])
    else
      match p.pc
      case Inspecting => Inspect
      case Resolving => Resolve(Err(ProviderUnavailable))
      case Probing => Probe(None)
      case Creating => Make(Fine)
      case Writing => Write(Fine)
      case Reloading => Reload(Principal("", None, None, map[]), Unavailable(ProviderUnavailable))
      case Settling => Retoken(Err(ProviderUnavailable))
      case Asking => Ask(Ok(true))
  }

  lemma RoundsCanMove(c: Config, s: System, r: nat)
    requires Inv(c, s) && r < |s.procs| && !s.procs[r].Over?
    ensures Step(c, s, Label(r, NextAction(s.procs[r]))).Some?
  {
    assert ProcOk(c, s.world, s.procs[r]);
  }

  /** So a run that cannot go on has finished every round, each with a state for each backend. */
  lemma StuckRunsAreComplete(c: Config, s: System, r: nat)
    requires Inv(c, s) && r < |s.procs|
    requires forall l: Label :: Step(c, s, l).None?
    ensures s.procs[r].Over? && s.procs[r].states.Keys == Names(c)
  {
    assert ProcOk(c, s.world, s.procs[r]);
    if !s.procs[r].Over? {
      RoundsCanMove(c, s, r);
    }
  }
}
