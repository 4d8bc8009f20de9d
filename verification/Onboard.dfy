/** OnboardSync: brings every registered backend to a known phase, whatever fails on the way. */
module Onboard {
  import opened Common
  import opened Tokens

  // ---------------------------------------------------------------- claims and principals

  datatype ClaimValue = Flag(value: bool) | Text(text: string) | Other

  type Claims = map<string, ClaimValue>

  datatype Principal = Principal(
    subject: string, username: Option<string>, email: Option<string>, claims: Claims)

  const RAW_ID_TOKEN_CLAIM := "atomi_raw_id_token"

  /** A claim that reads as true, in either wire encoding. */
  predicate Holds(claims: Claims, name: string) {
    name in claims && (claims[name] == Flag(true) || claims[name] == Text("true"))
  }

  /** The library's slug of each backend name; how it is derived is not part of this model. */
  type Slugs = map<string, string>

  /** The backend's registration claim: its slug with underscores for dashes. */
  function RegistrationClaim(slugs: Slugs, backend: string): string {
    var slug := if backend in slugs then slugs[backend] else backend;
    seq(|slug|, i requires 0 <= i < |slug| => if slug[i] == '-' then '_' else slug[i])
  }

  predicate Registered(slugs: Slugs, claims: Claims, backend: string) {
    Holds(claims, RegistrationClaim(slugs, backend))
  }

  // ---------------------------------------------------------------- what a round sees and does

  datatype Phase = Bootstrapping | NeedsOnboarding | Ready | Failed

  datatype BackendState = BackendState(
    backend: string, phase: Phase, created: bool, claimWritten: bool, err: Option<Problem>)

  /** A backend; `staged` when it has its own configuration step. */
  datatype Backend = Backend(name: string, staged: bool)

  datatype Registration = Registration(
    subject: string, username: string, email: string, accessToken: string, idToken: string)

  /** The subject's rows at the backends, and its custom claims at the identity provider. */
  datatype World = World(rows: set<string>, idp: Claims)

  datatype Call =
    | ResolveToken(backend: string)
    | Exists(backend: string, token: AccessToken)
    | Create(backend: string, token: AccessToken, registration: Registration)
    | SetClaim(subject: string, claim: string, value: ClaimValue)
    | Refresh(subject: string)
    | Configured(backend: string, token: AccessToken)

  /** How a write went; a failed one may have taken effect all the same. */
  datatype Reply = Fine | Broke(problem: Problem, landed: bool)

  /** What a forced refresh brings back: the claims the provider now holds, or others. */
  datatype Refreshed = Unavailable(problem: Problem) | Current | Stale(claims: Claims)

  /** One backend's seams during one round. */
  datatype Seams = Seams(
    token: Result<AccessToken>,
    probe: Option<Problem>,
    create: Reply,
    setClaim: Reply,
    refresh: Refreshed,
    settleToken: Result<AccessToken>,
    configured: Result<bool>)

  function FailedWith(state: BackendState, problem: Problem): BackendState {
    state.(phase := Failed, err := Some(problem))
  }

  function OrEmpty(text: Option<string>): string {
    if text.Some? then text.value else ""
  }

  function BuildRegistration(principal: Principal, token: AccessToken): Registration {
    Registration(principal.subject, OrEmpty(principal.username), OrEmpty(principal.email), token.value,
      if RAW_ID_TOKEN_CLAIM in principal.claims && principal.claims[RAW_ID_TOKEN_CLAIM].Text?
      then principal.claims[RAW_ID_TOKEN_CLAIM].text else "")
  }

  function Landed(reply: Reply): bool {
    reply.Fine? || reply.landed
  }

  /** The claims a refreshed token carries. */
  function RefreshedClaims(world: World, principal: Principal, refresh: Refreshed): Claims
    requires !refresh.Unavailable?
  {
    match refresh
    case Current => principal.claims + world.idp
    case Stale(claims) => claims
  }

  // ---------------------------------------------------------------- one backend's round

  /** What settling a registered backend yields, and the calls it makes. */
  function Settled(state: BackendState, backend: Backend, seams: Seams): (BackendState, seq<Call>) {
    if !backend.staged then (state.(phase := Ready), [])
    else if seams.settleToken.Err? then
      (FailedWith(state, seams.settleToken.error), [ResolveToken(backend.name)])
    else
      var calls := [ResolveToken(backend.name), Configured(backend.name, seams.settleToken.value)];
      if seams.configured.Err? then (FailedWith(state, seams.configured.error), calls)
      else (state.(phase := if seams.configured.value then Ready else NeedsOnboarding), calls)
  }

  datatype Outcome = Outcome(world: World, state: BackendState, calls: seq<Call>)

  /** From the claim write-back on: write it, refresh, check that it shows, settle. */
  function WroteBack(
    slugs: Slugs, world: World, principal: Principal, backend: Backend, seams: Seams, state: BackendState): Outcome
  {
    var claim := RegistrationClaim(slugs, backend.name);
    var world1 := if Landed(seams.setClaim) then world.(idp := world.idp[claim := Text("true")]) else world;
    var write := SetClaim(principal.subject, claim, Text("true"));
    if seams.setClaim.Broke? then Outcome(world1, FailedWith(state, ProviderUnavailable), [write])
    else
      var written, calls := state.(claimWritten := true), [write, Refresh(principal.subject)];
      if seams.refresh.Unavailable? then Outcome(world1, FailedWith(written, seams.refresh.problem), calls)
      else if !Holds(RefreshedClaims(world1, principal, seams.refresh), claim)
      then Outcome(world1, FailedWith(written, OnboardingStalled), calls)
      else
        var (settled, more) := Settled(written, backend, seams);
        Outcome(world1, settled, calls + more)
  }

  /** The outcome with earlier calls put before its own. */
  function After(calls: seq<Call>, outcome: Outcome): Outcome {
    outcome.(calls := calls + outcome.calls)
  }

  /** From an absent claim on: resolve the token, probe for the row, create it, write the claim back. */
  function Onboarded(
    slugs: Slugs, world: World, principal: Principal, backend: Backend, seams: Seams, state: BackendState): Outcome
  {
    if seams.token.Err? then Outcome(world, FailedWith(state, seams.token.error), [ResolveToken(backend.name)])
    else
      var token := seams.token.value;
      var calls := [ResolveToken(backend.name), Exists(backend.name, token)];
      if seams.probe.Some? then Outcome(world, FailedWith(state, seams.probe.value), calls)
      else if backend.name in world.rows then After(calls, WroteBack(slugs, world, principal, backend, seams, state))
      else
        var world1 := if Landed(seams.create) then world.(rows := world.rows + {backend.name}) else world;
        var calls1 := calls + [Create(backend.name, token, BuildRegistration(principal, token))];
        if seams.create.Broke? then Outcome(world1, FailedWith(state, seams.create.problem), calls1)
        else After(calls1, WroteBack(slugs, world1, principal, backend, seams, state.(created := true)))
  }

  /** What one backend's round leaves behind. */
  function Reconciled(slugs: Slugs, world: World, principal: Principal, backend: Backend, seams: Seams): Outcome {
    var state := BackendState(backend.name, Bootstrapping, false, false, None);
    if Registered(slugs, principal.claims, backend.name) then
      var (settled, calls) := Settled(state, backend, seams);
      Outcome(world, settled, calls)
    else Onboarded(slugs, world, principal, backend, seams, state)
  }

  /** The round over the first n backends, in order. */
  datatype Round = Round(world: World, states: map<string, BackendState>, calls: seq<Call>)

  function Rounds(slugs: Slugs, world: World, principal: Principal, backends: seq<Backend>, seams: seq<Seams>, n: nat): Round
    requires n <= |backends| == |seams|
  {
    if n == 0 then Round(world, map[], [])
    else
      var before := Rounds(slugs, world, principal, backends, seams, n - 1);
      var outcome := Reconciled(slugs, before.world, principal, backends[n - 1], seams[n - 1]);
      WithBackend(before, backends[n - 1].name, outcome)
  }

  /** The round with one more backend's outcome. */
  function WithBackend(round: Round, name: string, outcome: Outcome): Round {
    Round(outcome.world, round.states[name := outcome.state], round.calls + outcome.calls)
  }

  /** The whole round. */
  function FullRound(slugs: Slugs, world: World, principal: Principal, backends: seq<Backend>, seams: seq<Seams>): Round
    requires |backends| == |seams|
  {
    Rounds(slugs, world, principal, backends, seams, |backends|)
  }

  // ---------------------------------------------------------------- the round in place

  class Sync {
    const slugs: Slugs
    const backends: seq<Backend>
    // The world the seams act on, and the calls made to them, oldest first.
    var rows: set<string>
    var idp: Claims
    var calls: seq<Call>

    constructor (slugs: Slugs, backends: seq<Backend>, rows: set<string>, idp: Claims)
      ensures this.slugs == slugs && this.backends == backends
      ensures this.rows == rows && this.idp == idp && calls == []
    {
      this.slugs, this.backends, this.rows, this.idp, calls := slugs, backends, rows, idp, [];
    }

    function Here(): World
      reads this
    {
      World(rows, idp)
    }

    /** Brings every backend to a phase; one backend failing never aborts the others. */
    method Run(principal: Principal, seams: seq<Seams>) returns (answer: Result<map<string, BackendState>>)
      requires |seams| == |backends|
      modifies this
      ensures principal.subject == "" ==>
        answer == Err(TokenClaimMissing) && Here() == old(Here()) && calls == old(calls)
      ensures principal.subject != "" ==>
        var round := FullRound(slugs, old(Here()), principal, backends, seams);
        answer == Ok(round.states) && Here() == round.world && calls == old(calls) + round.calls
    {
      if principal.subject == "" {
        return Err(TokenClaimMissing);
      }
      ghost var start, past := Here(), calls;
      var states: map<string, BackendState> := map[];
      for i := 0 to |backends|
        invariant Made(start, past, principal, seams, i, states)
      {
        states := ReconcileNext(start, past, principal, seams, i, states);
      }
      return Ok(states);
    }

    /** The first n backends are done: these are their states, and this is what they left behind. */
    ghost predicate Made(
      start: World, past: seq<Call>, principal: Principal, seams: seq<Seams>, n: nat, states: map<string, BackendState>)
      requires n <= |seams| == |backends|
      reads this
    {
      var round := Rounds(slugs, start, principal, backends, seams, n);
      states == round.states && Here() == round.world && calls == past + round.calls
    }

    method ReconcileNext(
      ghost start: World, ghost past: seq<Call>, principal: Principal, seams: seq<Seams>, n: nat,
      states: map<string, BackendState>)
      returns (more: map<string, BackendState>)
      requires n < |seams| == |backends|
      requires Made(start, past, principal, seams, n, states)
      modifies this
      ensures Made(start, past, principal, seams, n + 1, more)
    {
      var state := Reconcile(principal, backends[n], seams[n]);
      more := states[backends[n].name := state];
    }

    /** Brings one backend to a phase. */
    method Reconcile(principal: Principal, backend: Backend, seams: Seams) returns (state: BackendState)
      modifies this
      ensures var outcome := Reconciled(slugs, old(Here()), principal, backend, seams);
        state == outcome.state && Here() == outcome.world && calls == old(calls) + outcome.calls
    {
      state := BackendState(backend.name, Bootstrapping, false, false, None);
      if Registered(slugs, principal.claims, backend.name) {
        state := Settle(state, backend, seams);
      } else {
        state := Onboard(principal, backend, seams, state);
      }
    }

    /** Resolves the backend's own token, creates the row where there is none, and writes the claim back. */
    method Onboard(principal: Principal, backend: Backend, seams: Seams, state0: BackendState) returns (state: BackendState)
      modifies this
      ensures var outcome := Onboarded(slugs, old(Here()), principal, backend, seams, state0);
        state == outcome.state && Here() == outcome.world && calls == old(calls) + outcome.calls
    {
      var name := backend.name;
      calls := calls + [ResolveToken(name)];
      if seams.token.Err? {
        return FailedWith(state0, seams.token.error);
      }
      var token := seams.token.value;
      calls := calls + [Exists(name, token)];
      if seams.probe.Some? {
        return FailedWith(state0, seams.probe.value);
      }
      state := state0;
      if name !in rows {
        calls := calls + [Create(name, token, BuildRegistration(principal, token))];
        if Landed(seams.create) {
          rows := rows + {name};
        }
        if seams.create.Broke? {
          return FailedWith(state, seams.create.problem);
        }
        state := state.(created := true);
      }
      state := WriteBack(principal, backend, seams, state);
    }

    /** Writes the claim back, forces a refresh and checks that the claim shows. */
    method WriteBack(principal: Principal, backend: Backend, seams: Seams, state0: BackendState) returns (state: BackendState)
      modifies this`idp, this`calls
      ensures var outcome := WroteBack(slugs, old(Here()), principal, backend, seams, state0);
        state == outcome.state && Here() == outcome.world && calls == old(calls) + outcome.calls
    {
      var claim := RegistrationClaim(slugs, backend.name);
      calls := calls + [SetClaim(principal.subject, claim, Text("true"))];
      if Landed(seams.setClaim) {
        idp := idp[claim := Text("true")];
      }
      if seams.setClaim.Broke? {
        return FailedWith(state0, ProviderUnavailable);
      }
      state := state0.(claimWritten := true);
      calls := calls + [Refresh(principal.subject)];
      if seams.refresh.Unavailable? {
        return FailedWith(state, seams.refresh.problem);
      }
      if !Holds(RefreshedClaims(Here(), principal, seams.refresh), claim) {
        return FailedWith(state, OnboardingStalled);
      }
      state := Settle(state, backend, seams);
    }

    /** Decides between ready and needs-onboarding for a registered backend. */
    method Settle(state: BackendState, backend: Backend, seams: Seams) returns (settled: BackendState)
      modifies this`calls
      ensures settled == Settled(state, backend, seams).0
      ensures calls == old(calls) + Settled(state, backend, seams).1
    {
      if !backend.staged {
        return state.(phase := Ready);
      }
      calls := calls + [ResolveToken(backend.name)];
      if seams.settleToken.Err? {
        return FailedWith(state, seams.settleToken.error);
      }
      calls := calls + [Configured(backend.name, seams.settleToken.value)];
      if seams.configured.Err? {
        return FailedWith(state, seams.configured.error);
      }
      if !seams.configured.value {
        return state.(phase := NeedsOnboarding);
      }
      return state.(phase := Ready);
    }
  }

  // ---------------------------------------------------------------- a claim means a row

  /** No two of the backends share a registration claim. */
  ghost predicate ClaimsDistinct(slugs: Slugs, names: set<string>) {
    forall m, n :: m in names && n in names && RegistrationClaim(slugs, m) == RegistrationClaim(slugs, n) ==> m == n
  }

  /** Wherever the provider holds a backend's claim, the backend holds the row. */
  ghost predicate ClaimsBacked(slugs: Slugs, names: set<string>, world: World) {
    forall n :: n in names && Registered(slugs, world.idp, n) ==> n in world.rows
  }

  /** A token's registration claims came from the provider, which never takes one back. */
  ghost predicate Honest(slugs: Slugs, names: set<string>, claims: Claims, world: World) {
    forall n :: n in names && Registered(slugs, claims, n) ==> Registered(slugs, world.idp, n)
  }

  ghost function NamesOf(backends: seq<Backend>): set<string> {
    set i | 0 <= i < |backends| :: backends[i].name
  }

  // ---------------------------------------------------------------- what is called, and when

  /** The order in which a round may call its seams; a backend's token may be resolved twice. */
  function Stage(call: Call): nat {
    match call
    case ResolveToken(_) => 0
    case Exists(_, _) => 1
    case Create(_, _, _) => 2
    case SetClaim(_, _, _) => 3
    case Refresh(_) => 4
    case Configured(_, _) => 5
  }

  /** Each seam is called at most once, and never before one of an earlier stage. */
  ghost predicate InOrder(calls: seq<Call>) {
    forall i, j :: 0 <= i < j < |calls| && !calls[i].ResolveToken? && !calls[j].ResolveToken? ==>
      Stage(calls[i]) < Stage(calls[j])
  }

  ghost predicate Called(calls: seq<Call>, stage: nat) {
    exists call :: call in calls && Stage(call) == stage
  }

  lemma InOrderJoined(first: seq<Call>, rest: seq<Call>, stage: nat)
    requires InOrder(first) && InOrder(rest)
    requires forall call :: call in first ==> Stage(call) < stage
    requires forall call :: call in rest && !call.ResolveToken? ==> stage <= Stage(call)
    ensures InOrder(first + rest)
  {
    var calls := first + rest;
    forall i, j | 0 <= i < j < |calls| && !calls[i].ResolveToken? && !calls[j].ResolveToken?
      ensures Stage(calls[i]) < Stage(calls[j])
    {
      assert i < |first| ==> calls[i] in first;
      assert j >= |first| ==> calls[j] in rest;
    }
  }

  /** A write-back starts with the claim, then refreshes exactly when the write went well. */
  lemma WriteBackCalls(
    slugs: Slugs, world: World, principal: Principal, backend: Backend, seams: Seams, state: BackendState)
    requires !state.claimWritten
    ensures var outcome := WroteBack(slugs, world, principal, backend, seams, state);
      && InOrder(outcome.calls)
      && (forall call :: call in outcome.calls && !call.ResolveToken? ==> 3 <= Stage(call))
      && outcome.state.created == state.created
      && (outcome.state.claimWritten <==> Refresh(principal.subject) in outcome.calls)
  {
  }

  /** A row is created only where the probe found none, with the principal's identity and the
      token the backend was probed with. */
  ghost predicate CreatesRightly(world: World, principal: Principal, backend: Backend, calls: seq<Call>) {
    forall b, t, r :: Create(b, t, r) in calls ==>
      && b == backend.name && b !in world.rows && Exists(b, t) in calls
      && r.subject == principal.subject && r.accessToken == t.value && Introduces(r, principal)
  }

  /** The registration names the caller as its token does, blank where the token says nothing, and
      carries the raw ID token its caller has put among the claims. */
  ghost predicate Introduces(r: Registration, principal: Principal) {
    && (principal.username.Some? ==> r.username == principal.username.value)
    && (principal.username.None? ==> r.username == "")
    && (principal.email.Some? ==> r.email == principal.email.value)
    && (principal.email.None? ==> r.email == "")
    && (forall text :: HasText(principal.claims, "atomi_raw_id_token", text) ==> r.idToken == text)
    && ((forall text :: !HasText(principal.claims, "atomi_raw_id_token", text)) ==> r.idToken == "")
  }

  predicate HasText(claims: Claims, name: string, text: string) {
    name in claims && claims[name] == Text(text)
  }

  lemma RegistrationIntroduces(principal: Principal, token: AccessToken)
    ensures var r := BuildRegistration(principal, token);
      r.subject == principal.subject && r.accessToken == token.value && Introduces(r, principal)
  {
    var claims := principal.claims;
    if RAW_ID_TOKEN_CLAIM in claims && claims[RAW_ID_TOKEN_CLAIM].Text? {
      assert HasText(claims, "atomi_raw_id_token", claims[RAW_ID_TOKEN_CLAIM].text);
    }
  }

  lemma ProbeCalls(world: World, principal: Principal, backend: Backend, token: AccessToken, create: bool)
    requires create ==> backend.name !in world.rows
    ensures var calls := [ResolveToken(backend.name), Exists(backend.name, token)]
      + (if create then [Create(backend.name, token, BuildRegistration(principal, token))] else []);
      && InOrder(calls) && CreatesRightly(world, principal, backend, calls)
      && (Called(calls, 2) <==> create) && (forall call :: call in calls ==> Stage(call) < 3)
  {
    RegistrationIntroduces(principal, token);
    var made := Create(backend.name, token, BuildRegistration(principal, token));
    var calls := [ResolveToken(backend.name), Exists(backend.name, token)] + (if create then [made] else []);
    assert create ==> calls[2] == made && Stage(made) == 2;
    assert Exists(backend.name, token) == calls[1];
  }

  /** Nothing from the write-back on creates a row. */
  lemma JoinedCalls(world: World, principal: Principal, backend: Backend, first: seq<Call>, rest: seq<Call>)
    requires InOrder(first) && CreatesRightly(world, principal, backend, first) && InOrder(rest)
    requires forall call :: call in first ==> Stage(call) < 3
    requires forall call :: call in rest && !call.ResolveToken? ==> 3 <= Stage(call)
    ensures InOrder(first + rest) && CreatesRightly(world, principal, backend, first + rest)
    ensures Called(first + rest, 2) <==> Called(first, 2)
    ensures Refresh(principal.subject) in first + rest <==> Refresh(principal.subject) in rest
  {
    InOrderJoined(first, rest, 3);
    assert forall call :: call in first + rest <==> call in first || call in rest;
    assert Stage(Refresh(principal.subject)) == 4;
    forall b, t, r | Create(b, t, r) in first + rest ensures Create(b, t, r) in first {
      assert Stage(Create(b, t, r)) == 2;
    }
  }

  /** What the calls of a round say, and what the state it reports says of them. */
  ghost predicate Tells(world: World, principal: Principal, backend: Backend, seams: Seams, outcome: Outcome) {
    && InOrder(outcome.calls)
    && CreatesRightly(world, principal, backend, outcome.calls)
    && (outcome.state.created <==> seams.create.Fine? && Called(outcome.calls, 2))
    && (outcome.state.claimWritten <==> Refresh(principal.subject) in outcome.calls)
  }

  /** Where the row is there, or is created, the write-back follows; where creating fails, nothing does. */
  lemma OnboardCalls(slugs: Slugs, world: World, principal: Principal, backend: Backend, seams: Seams, state: BackendState)
    requires !state.created && !state.claimWritten && seams.token.Ok? && seams.probe.None?
    ensures Tells(world, principal, backend, seams, Onboarded(slugs, world, principal, backend, seams, state))
  {
    ProbeCalls(world, principal, backend, seams.token.value, backend.name !in world.rows);
    if backend.name in world.rows {
      FoundCalls(slugs, world, principal, backend, seams, state);
    } else if seams.create.Fine? {
      CreatedCalls(slugs, world, principal, backend, seams, state);
    }
  }

  lemma FoundCalls(slugs: Slugs, world: World, principal: Principal, backend: Backend, seams: Seams, state: BackendState)
    requires !state.created && !state.claimWritten && seams.token.Ok? && seams.probe.None?
    requires backend.name in world.rows
    ensures Tells(world, principal, backend, seams, Onboarded(slugs, world, principal, backend, seams, state))
  {
    var first := [ResolveToken(backend.name), Exists(backend.name, seams.token.value)];
    ProbeCalls(world, principal, backend, seams.token.value, false);
    assert first + [] == first;
    WriteBackCalls(slugs, world, principal, backend, seams, state);
    JoinedCalls(world, principal, backend, first, WroteBack(slugs, world, principal, backend, seams, state).calls);
  }

  lemma CreatedCalls(slugs: Slugs, world: World, principal: Principal, backend: Backend, seams: Seams, state: BackendState)
    requires !state.created && !state.claimWritten && seams.token.Ok? && seams.probe.None?
    requires backend.name !in world.rows && seams.create.Fine?
    ensures Tells(world, principal, backend, seams, Onboarded(slugs, world, principal, backend, seams, state))
  {
    var token := seams.token.value;
    var first := [ResolveToken(backend.name), Exists(backend.name, token)]
      + [Create(backend.name, token, BuildRegistration(principal, token))];
    ProbeCalls(world, principal, backend, token, true);
    var world1, state1 := world.(rows := world.rows + {backend.name}), state.(created := true);
    WriteBackCalls(slugs, world1, principal, backend, seams, state1);
    JoinedCalls(world, principal, backend, first, WroteBack(slugs, world1, principal, backend, seams, state1).calls);
  }

  /** A round calls its seams in order and creates rightly, and its state says exactly which writes
      were acknowledged. */
  lemma CallsTellTheRound(slugs: Slugs, world: World, principal: Principal, backend: Backend, seams: Seams)
    ensures Tells(world, principal, backend, seams, Reconciled(slugs, world, principal, backend, seams))
  {
    if !Registered(slugs, principal.claims, backend.name) && seams.token.Ok? && seams.probe.None? {
      OnboardCalls(slugs, world, principal, backend, seams, BackendState(backend.name, Bootstrapping, false, false, None));
    }
  }

  /** Each call is made for this caller, at this backend, with the token resolved for it; and what is
      written is the backend's own claim, as the text true. */
  predicate Addressed(slugs: Slugs, principal: Principal, backend: Backend, seams: Seams, call: Call) {
    match call
    case ResolveToken(b) => b == backend.name
    case Exists(b, token) => b == backend.name && seams.token == Ok(token)
    case Create(b, token, _) => b == backend.name && seams.token == Ok(token)
    case SetClaim(subject, claim, value) =>
      subject == principal.subject && claim == RegistrationClaim(slugs, backend.name) && value == Text("true")
    case Refresh(subject) => subject == principal.subject
    case Configured(b, token) => b == backend.name && seams.settleToken == Ok(token)
  }

  lemma WriteBackIsAddressed(
    slugs: Slugs, world: World, principal: Principal, backend: Backend, seams: Seams, state: BackendState)
    ensures forall call :: call in WroteBack(slugs, world, principal, backend, seams, state).calls ==>
      Addressed(slugs, principal, backend, seams, call)
  {
  }

  lemma RoundIsAddressed(slugs: Slugs, world: World, principal: Principal, backend: Backend, seams: Seams)
    ensures forall call :: call in Reconciled(slugs, world, principal, backend, seams).calls ==>
      Addressed(slugs, principal, backend, seams, call)
  {
    var state := BackendState(backend.name, Bootstrapping, false, false, None);
    WriteBackIsAddressed(slugs, world, principal, backend, seams, state);
    WriteBackIsAddressed(slugs, world.(rows := world.rows + {backend.name}), principal, backend, seams, state.(created := true));
  }

  // ---------------------------------------------------------------- what a backend's state says

  /** A claim holds for the flag true and for the text true, and for nothing else. */
  lemma ClaimReads(claims: Claims, name: string)
    ensures name !in claims ==> !Holds(claims, name)
    ensures forall flag :: Holds(claims[name := Flag(flag)], name) <==> flag
    ensures forall text :: Holds(claims[name := Text(text)], name) <==> text == "true"
    ensures !Holds(claims[name := Other], name)
    ensures Holds(claims, name) ==> claims[name] in {Flag(true), Text("true")}
  {
  }

  /** A registration claim is the backend's slug, dash for underscore and otherwise letter for letter. */
  lemma ClaimSpelling(slugs: Slugs, backend: string)
    requires backend in slugs
    ensures var slug, claim := slugs[backend], RegistrationClaim(slugs, backend);
      && |claim| == |slug|
      && forall i :: 0 <= i < |slug| ==> (slug[i] == '-' ==> claim[i] == '_') && (slug[i] != '-' ==> claim[i] == slug[i])
  {
  }

  predicate Errored(state: BackendState, problem: Problem) {
    state.phase == Failed && state.err == Some(problem)
  }

  /** A backend is ready as soon as it is registered, unless it has its own step: then it is what that
      step says, or the error that kept it from saying. */
  predicate SettledAs(backend: Backend, seams: Seams, state: BackendState) {
    if !backend.staged then state.phase == Ready && state.err == None
    else if seams.settleToken.Err? then Errored(state, seams.settleToken.error)
    else if seams.configured.Err? then Errored(state, seams.configured.error)
    else state.phase == (if seams.configured.value then Ready else NeedsOnboarding) && state.err == None
  }

  /** From the write-back on: the first seam to fail is what the state reports, its progress kept. */
  predicate WrittenAs(slugs: Slugs, world: World, principal: Principal, backend: Backend, seams: Seams, state: BackendState) {
    if seams.setClaim.Broke? then Errored(state, ProviderUnavailable) && !state.claimWritten
    else
      && state.claimWritten
      && (if seams.refresh.Unavailable? then Errored(state, seams.refresh.problem)
          else if seams.refresh.Stale? && !Registered(slugs, seams.refresh.claims, backend.name)
          then Errored(state, OnboardingStalled)
          else SettledAs(backend, seams, state))
  }

  lemma WriteBackState(
    slugs: Slugs, world: World, principal: Principal, backend: Backend, seams: Seams, state: BackendState)
    requires state.err == None && !state.claimWritten
    ensures var after := WroteBack(slugs, world, principal, backend, seams, state).state;
      && WrittenAs(slugs, world, principal, backend, seams, after)
      && after.backend == state.backend && after.created == state.created
  {
  }

  /** What one backend's state reports, case by case: registered already; a token, probe or creation
      that failed; or the write-back of one found or created. */
  lemma RoundState(slugs: Slugs, world: World, principal: Principal, backend: Backend, seams: Seams)
    ensures var state := Reconciled(slugs, world, principal, backend, seams).state;
      && state.backend == backend.name
      && (if Registered(slugs, principal.claims, backend.name)
          then SettledAs(backend, seams, state) && !state.created && !state.claimWritten
          else if seams.token.Err? then Errored(state, seams.token.error) && !state.created && !state.claimWritten
          else if seams.probe.Some? then Errored(state, seams.probe.value) && !state.created && !state.claimWritten
          else if backend.name in world.rows
          then WrittenAs(slugs, world, principal, backend, seams, state) && !state.created
          else if seams.create.Broke?
          then Errored(state, seams.create.problem) && !state.created && !state.claimWritten
          else WrittenAs(slugs, world, principal, backend, seams, state) && state.created)
  {
    var state := BackendState(backend.name, Bootstrapping, false, false, None);
    if !Registered(slugs, principal.claims, backend.name) {
      WriteBackState(slugs, world, principal, backend, seams, state);
      WriteBackState(slugs, world.(rows := world.rows + {backend.name}), principal, backend, seams, state.(created := true));
    }
  }

  /** What one backend's round leaves in the world: its row once a creation took effect, its claim
      once a write-back did, and nothing else. */
  lemma RoundWorld(slugs: Slugs, world: World, principal: Principal, backend: Backend, seams: Seams)
    ensures var after, name := Reconciled(slugs, world, principal, backend, seams).world, backend.name;
      var reached := !Registered(slugs, principal.claims, name) && seams.token.Ok? && seams.probe.None?;
      var created := reached && (seams.create.Fine? || seams.create.landed);
      var written := reached && (name in world.rows || seams.create.Fine?) && (seams.setClaim.Fine? || seams.setClaim.landed);
      && after.rows == (if created && name !in world.rows then world.rows + {name} else world.rows)
      && after.idp == (if written then world.idp[RegistrationClaim(slugs, name) := Text("true")] else world.idp)
  {
  }

  // ---------------------------------------------------------------- the backends in turn

  lemma {:induction false} PrefixRounds(
    slugs: Slugs, world: World, principal: Principal, backends: seq<Backend>, seams: seq<Seams>,
    more: seq<Backend>, moreSeams: seq<Seams>, n: nat)
    requires |backends| == |seams| && |more| == |moreSeams| && n <= |backends|
    ensures Rounds(slugs, world, principal, backends + more, seams + moreSeams, n)
      == Rounds(slugs, world, principal, backends, seams, n)
  {
    if n > 0 {
      PrefixRounds(slugs, world, principal, backends, seams, more, moreSeams, n - 1);
    }
  }

  /** A round takes the backends in the order given: with one more at the end it is the round without
      it, and then that backend's from the world that left, its calls after all the others. */
  lemma RoundOneMore(
    slugs: Slugs, world: World, principal: Principal, backends: seq<Backend>, seams: seq<Seams>,
    backend: Backend, own: Seams)
    requires |backends| == |seams|
    ensures var before := FullRound(slugs, world, principal, backends, seams);
      var outcome := Reconciled(slugs, before.world, principal, backend, own);
      FullRound(slugs, world, principal, backends + [backend], seams + [own])
        == Round(outcome.world, before.states[backend.name := outcome.state], before.calls + outcome.calls)
  {
    PrefixRounds(slugs, world, principal, backends, seams, [backend], [own], |backends|);
  }

  lemma RoundOfNone(slugs: Slugs, world: World, principal: Principal)
    ensures FullRound(slugs, world, principal, [], []) == Round(world, map[], [])
  {
  }

  // ---------------------------------------------------------------- isolation

  ghost predicate Apart(slugs: Slugs, backends: seq<Backend>) {
    forall i, j :: 0 <= i < j < |backends| ==>
      && backends[i].name != backends[j].name
      && RegistrationClaim(slugs, backends[i].name) != RegistrationClaim(slugs, backends[j].name)
  }

  /** What one backend can see and change of the world. */
  ghost predicate SameFor(slugs: Slugs, name: string, a: World, b: World) {
    var claim := RegistrationClaim(slugs, name);
    && (name in a.rows <==> name in b.rows)
    && (claim in a.idp <==> claim in b.idp)
    && (claim in a.idp ==> a.idp[claim] == b.idp[claim])
  }

  lemma WriteBackSeesItsOwn(
    slugs: Slugs, a: World, b: World, principal: Principal, backend: Backend, seams: Seams, state: BackendState)
    requires SameFor(slugs, backend.name, a, b)
    ensures var x, y := WroteBack(slugs, a, principal, backend, seams, state), WroteBack(slugs, b, principal, backend, seams, state);
      x.state == y.state && x.calls == y.calls && SameFor(slugs, backend.name, x.world, y.world)
  {
  }

  /** A backend's round depends on its own row and claim only. */
  lemma ReconcileSeesItsOwn(slugs: Slugs, a: World, b: World, principal: Principal, backend: Backend, seams: Seams)
    requires SameFor(slugs, backend.name, a, b)
    ensures var x, y := Reconciled(slugs, a, principal, backend, seams), Reconciled(slugs, b, principal, backend, seams);
      x.state == y.state && x.calls == y.calls && SameFor(slugs, backend.name, x.world, y.world)
  {
    var state := BackendState(backend.name, Bootstrapping, false, false, None);
    WriteBackSeesItsOwn(slugs, a, b, principal, backend, seams, state);
    if Landed(seams.create) {
      WriteBackSeesItsOwn(slugs, a.(rows := a.rows + {backend.name}), b.(rows := b.rows + {backend.name}),
        principal, backend, seams, state.(created := true));
    }
  }

  /** A backend's round changes its own row and claim only. */
  lemma ReconcileChangesItsOwn(slugs: Slugs, world: World, principal: Principal, backend: Backend, seams: Seams, other: string)
    requires other != backend.name && RegistrationClaim(slugs, other) != RegistrationClaim(slugs, backend.name)
    ensures SameFor(slugs, other, world, Reconciled(slugs, world, principal, backend, seams).world)
  {
  }

  lemma {:induction false} RoundLeavesOthers(
    slugs: Slugs, world: World, principal: Principal, backends: seq<Backend>, seams: seq<Seams>, n: nat, name: string)
    requires n <= |seams| == |backends|
    requires forall i :: 0 <= i < n ==>
      name != backends[i].name && RegistrationClaim(slugs, name) != RegistrationClaim(slugs, backends[i].name)
    ensures SameFor(slugs, name, world, Rounds(slugs, world, principal, backends, seams, n).world)
  {
    if n > 0 {
      RoundLeavesOthers(slugs, world, principal, backends, seams, n - 1, name);
      var before := Rounds(slugs, world, principal, backends, seams, n - 1).world;
      ReconcileChangesItsOwn(slugs, before, principal, backends[n - 1], seams[n - 1], name);
    }
  }

  /** A backend's part of a round is that of a round on it alone. */
  ghost predicate AsAlone(slugs: Slugs, world: World, principal: Principal, backend: Backend, seams: Seams, round: Round) {
    var alone := Reconciled(slugs, world, principal, backend, seams);
    && backend.name in round.states
    && round.states[backend.name] == alone.state
    && SameFor(slugs, backend.name, round.world, alone.world)
  }

  /** The last backend of a round sees nothing of those before it. */
  lemma LastAsAlone(slugs: Slugs, world: World, principal: Principal, backends: seq<Backend>, seams: seq<Seams>, n: nat)
    requires n < |seams| == |backends| && Apart(slugs, backends)
    ensures AsAlone(slugs, world, principal, backends[n], seams[n], Rounds(slugs, world, principal, backends, seams, n + 1))
  {
    var before := Rounds(slugs, world, principal, backends, seams, n).world;
    RoundLeavesOthers(slugs, world, principal, backends, seams, n, backends[n].name);
    ReconcileSeesItsOwn(slugs, world, before, principal, backends[n], seams[n]);
  }

  /** One more backend's round leaves an earlier one as it was. */
  lemma StaysAsAlone(
    slugs: Slugs, world: World, principal: Principal, backends: seq<Backend>, seams: seq<Seams>, n: nat, i: nat)
    requires i < n < |seams| == |backends| && Apart(slugs, backends)
    requires AsAlone(slugs, world, principal, backends[i], seams[i], Rounds(slugs, world, principal, backends, seams, n))
    ensures AsAlone(slugs, world, principal, backends[i], seams[i], Rounds(slugs, world, principal, backends, seams, n + 1))
  {
    var before := Rounds(slugs, world, principal, backends, seams, n).world;
    ReconcileChangesItsOwn(slugs, before, principal, backends[n], seams[n], backends[i].name);
  }

  lemma {:induction false} FirstAsAlone(
    slugs: Slugs, world: World, principal: Principal, backends: seq<Backend>, seams: seq<Seams>, n: nat, i: nat)
    requires i < n <= |seams| == |backends| && Apart(slugs, backends)
    ensures AsAlone(slugs, world, principal, backends[i], seams[i], Rounds(slugs, world, principal, backends, seams, n))
  {
    if i == n - 1 {
      LastAsAlone(slugs, world, principal, backends, seams, i);
    } else {
      FirstAsAlone(slugs, world, principal, backends, seams, n - 1, i);
      StaysAsAlone(slugs, world, principal, backends, seams, n - 1, i);
    }
  }

  lemma {:induction false} StatesAreNamed(
    slugs: Slugs, world: World, principal: Principal, backends: seq<Backend>, seams: seq<Seams>, n: nat)
    requires n <= |seams| == |backends|
    ensures Rounds(slugs, world, principal, backends, seams, n).states.Keys == set i | 0 <= i < n :: backends[i].name
  {
    if n > 0 {
      StatesAreNamed(slugs, world, principal, backends, seams, n - 1);
    }
  }

  /** A round yields exactly one state per backend; and each backend's state, row and claim are
      those of a round on that backend alone with the same responses, whatever the others do or
      fail at. */
  lemma BackendsAreIsolated(
    slugs: Slugs, world: World, principal: Principal, backends: seq<Backend>, seams: seq<Seams>)
    requires |seams| == |backends| && Apart(slugs, backends)
    ensures var round := FullRound(slugs, world, principal, backends, seams);
      && round.states.Keys == NamesOf(backends)
      && forall i :: 0 <= i < |backends| ==> AsAlone(slugs, world, principal, backends[i], seams[i], round)
  {
    StatesAreNamed(slugs, world, principal, backends, seams, |backends|);
    var round := FullRound(slugs, world, principal, backends, seams);
    forall i | 0 <= i < |backends| ensures AsAlone(slugs, world, principal, backends[i], seams[i], round) {
      FirstAsAlone(slugs, world, principal, backends, seams, |backends|, i);
    }
  }

  // ---------------------------------------------------------------- claims stay backed, and recovery

  /** Whatever fails, a round on one backend leaves every claim backed by a row. */
  lemma ReconcileKeepsBacked(
    slugs: Slugs, names: set<string>, world: World, principal: Principal, backend: Backend, seams: Seams)
    requires ClaimsDistinct(slugs, names) && backend.name in names && ClaimsBacked(slugs, names, world)
    ensures ClaimsBacked(slugs, names, Reconciled(slugs, world, principal, backend, seams).world)
  {
    var after := Reconciled(slugs, world, principal, backend, seams).world;
    forall n | n in names && Registered(slugs, after.idp, n) ensures n in after.rows {
      if n != backend.name {
        ReconcileChangesItsOwn(slugs, world, principal, backend, seams, n);
      }
    }
  }

  /** A round in which nothing fails and the refresh shows what the provider holds. */
  predicate Healthy(seams: Seams) {
    && seams.token.Ok? && seams.probe.None? && seams.create.Fine? && seams.setClaim.Fine?
    && seams.refresh.Current? && seams.settleToken.Ok? && seams.configured.Ok?
  }

  /** The backend is settled: row and claim present, and only its own configuration step can keep
      it from being ready. */
  predicate SettledWell(slugs: Slugs, world: World, backend: Backend, seams: Seams, state: BackendState) {
    && backend.name in world.rows
    && Registered(slugs, world.idp, backend.name)
    && state.err == None && state.backend == backend.name
    && state.phase == (if backend.staged && seams.configured == Ok(false) then NeedsOnboarding else Ready)
  }

  lemma HealthyRoundSettles(
    slugs: Slugs, names: set<string>, world: World, principal: Principal, backend: Backend, seams: Seams)
    requires backend.name in names && Healthy(seams)
    requires ClaimsBacked(slugs, names, world) && Honest(slugs, names, principal.claims, world)
    ensures var alone := Reconciled(slugs, world, principal, backend, seams);
      SettledWell(slugs, alone.world, backend, seams, alone.state)
  {
  }

  /** A call that a settled, registered backend still costs. */
  predicate SettlingCall(call: Call) {
    call.ResolveToken? || call.Configured?
  }

  /** For a caller whose token carries the claim, a round makes no probe, create, write-back or
      refresh, and nothing at all at a backend without its own step. */
  lemma RegisteredRoundIsQuiet(slugs: Slugs, world: World, principal: Principal, backend: Backend, seams: Seams)
    requires Registered(slugs, principal.claims, backend.name)
    ensures var outcome := Reconciled(slugs, world, principal, backend, seams);
      && outcome.world == world
      && (forall call :: call in outcome.calls ==> SettlingCall(call))
      && (!backend.staged ==> outcome.calls == [])
  {
  }

  /** From any world that earlier rounds could have left, one round without failures settles every
      backend, with row and claim present. */
  lemma OneHealthyRoundRecovers(
    slugs: Slugs, names: set<string>, world: World, principal: Principal, backends: seq<Backend>, seams: seq<Seams>)
    requires |seams| == |backends| && Apart(slugs, backends) && NamesOf(backends) <= names
    requires forall i :: 0 <= i < |seams| ==> Healthy(seams[i])
    requires ClaimsBacked(slugs, names, world) && Honest(slugs, names, principal.claims, world)
    ensures var round := FullRound(slugs, world, principal, backends, seams);
      forall i :: 0 <= i < |backends| ==>
        && backends[i].name in round.states
        && SettledWell(slugs, round.world, backends[i], seams[i], round.states[backends[i].name])
  {
    BackendsAreIsolated(slugs, world, principal, backends, seams);
    var round := FullRound(slugs, world, principal, backends, seams);
    forall i | 0 <= i < |backends|
      ensures backends[i].name in round.states
      ensures SettledWell(slugs, round.world, backends[i], seams[i], round.states[backends[i].name])
    {
      assert AsAlone(slugs, world, principal, backends[i], seams[i], round);
      assert backends[i].name in NamesOf(backends);
      HealthyRoundSettles(slugs, names, world, principal, backends[i], seams[i]);
    }
  }

  lemma {:induction false} QuietUpTo(
    slugs: Slugs, world: World, principal: Principal, backends: seq<Backend>, seams: seq<Seams>, n: nat)
    requires n <= |seams| == |backends|
    requires forall i :: 0 <= i < |backends| ==> Registered(slugs, principal.claims, backends[i].name)
    ensures var round := Rounds(slugs, world, principal, backends, seams, n);
      round.world == world && forall call :: call in round.calls ==> SettlingCall(call)
  {
    if n > 0 {
      QuietUpTo(slugs, world, principal, backends, seams, n - 1);
      RegisteredRoundIsQuiet(slugs, world, principal, backends[n - 1], seams[n - 1]);
    }
  }

  /** And the round after it, on the refreshed token, only settles: it changes nothing and makes
      no Exists, Create, SetClaim or Refresh call, whatever its seams would answer. */
  lemma NextRoundIsQuiet(
    slugs: Slugs, world: World, principal: Principal, backends: seq<Backend>, seams: seq<Seams>)
    requires |seams| == |backends|
    requires forall i :: 0 <= i < |backends| ==> Registered(slugs, world.idp, backends[i].name)
    ensures var refreshed := principal.(claims := principal.claims + world.idp);
      var round := FullRound(slugs, world, refreshed, backends, seams);
      round.world == world && forall call :: call in round.calls ==> SettlingCall(call)
  {
    var refreshed := principal.(claims := principal.claims + world.idp);
    QuietUpTo(slugs, world, refreshed, backends, seams, |backends|);
  }
}
