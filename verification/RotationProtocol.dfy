/** Any number of logins and rotations interleaved over one read-then-write store, with a clock
    that only moves forward and a store that may evict a record once its ttl has run out. */
module RotationProtocol {
  import opened Common
  import opened Tokens
  import opened Stores
  import opened Lineage
  import opened Rotation

  // ---------------------------------------------------------------- the system

  /** The refresh lifetime, and whether the provider keeps its contract to reject a refresh
      token it has already rotated. */
  datatype Config = Config(lifetime: Duration, rejects: bool)

  /** `of` is the token a rotation presented; a login presents none. */
  datatype Pc =
    | Login
    | Rotating(token: RefreshToken)
    | Checking(token: RefreshToken, now: Instant)
    | Exchanging(token: RefreshToken, now: Instant, record: RefreshRecord)
    | Consuming(token: RefreshToken, now: Instant, record: RefreshRecord, session: Session)
    | Issuing(of: Option<RefreshToken>, session: Session)
    | Recording(of: Option<RefreshToken>, session: Session, now: Instant, record: RefreshRecord)
    | Done(of: Option<RefreshToken>, answer: Result<Session>)

  /** A stored record and the instant from which the store may drop it. */
  datatype Entry = Entry(record: RefreshRecord, evictAt: Instant)

  /** `known` and `spent` are the provider's: every token it handed out, and those it rotated.
      `nodes` records history: the place of every recorded token in its lineage. */
  datatype State = State(
    time: Instant,
    store: map<Digest, Entry>,
    known: set<RefreshToken>,
    spent: set<RefreshToken>,
    nodes: Nodes,
    procs: seq<Pc>)

  datatype Refresh =
    | Declined(problem: Problem)
    | Lost(problem: Problem)  // rotated at the provider, but the response never arrived
    | Granted(session: Session)

  datatype Action =
    | HandOut(session: Session)
    | ReadClock(ok: bool)
    | ReadStore(ok: bool)
    | CallProvider(refresh: Refresh)
    | WriteStore(ok: bool, landed: bool)

  datatype Label = Act(proc: nat, action: Action) | Tick(to: Instant) | Drop(d: Digest)

  function RecordsOf(store: map<Digest, Entry>): Records {
    map d | d in store :: store[d].record
  }

  /** The write filed at the current instant for the given ttl. */
  function Put(s: State, record: RefreshRecord, ttl: Duration): map<Digest, Entry> {
    s.store[record.fingerprint := Entry(record, s.time + ttl)]
  }

  predicate Fresh(s: State, token: RefreshToken) {
    token == "" || token !in s.known
  }

  /** What the provider may do with a presented token. */
  predicate Allowed(cfg: Config, s: State, token: RefreshToken, record: RefreshRecord, refresh: Refresh) {
    && (!refresh.Declined? && cfg.rejects ==> token !in s.spent)
    && (refresh.Granted? ==>
      && Fresh(s, refresh.session.refreshToken)
      && (refresh.session.subject == "" || refresh.session.subject == record.subject))
  }

  /** The lineages once a session's token is recorded. */
  function Grown(nodes: Nodes, of: Option<RefreshToken>, session: Session): Nodes {
    nodes[session.refreshToken :=
      if of.Some? && of.value in nodes then Child(nodes, of.value) else Node(session.refreshToken, 0, session.subject)]
  }

  function Move(s: State, p: nat, pc: Pc): State
    requires p < |s.procs|
  {
    s.(procs := s.procs[p := pc])
  }

  function Step(cfg: Config, s: State, p: nat, a: Action): Option<State>
    requires p < |s.procs|
  {
    match (s.procs[p], a)
    case (Login, HandOut(session)) =>
      if Fresh(s, session.refreshToken)
      then Some(Move(s, p, Issuing(None, session)).(known := s.known + {session.refreshToken}))
      else None
    case (Rotating(token), ReadClock(ok)) =>
      Some(Move(s, p,
        if !ok then Done(Some(token), Err(ProviderUnavailable))
        else if Fingerprint(token).Err? then Done(Some(token), Err(RefreshTokenUnknown))
        else Checking(token, s.time)))
    case (Checking(token, now), ReadStore(ok)) =>
      var d := Digest(token);
      Some(Move(s, p,
        if !ok then Done(Some(token), Err(ProviderUnavailable))
        else if d !in s.store then Done(Some(token), Err(RefreshTokenUnknown))
        else if s.store[d].record.consumed then Done(Some(token), Err(RefreshTokenReused))
        else if !(now < s.store[d].record.expiresAt) then Done(Some(token), Err(TokenExpired))
        else Exchanging(token, now, s.store[d].record)))
    case (Exchanging(token, now, record), CallProvider(refresh)) =>
      if !Allowed(cfg, s, token, record, refresh) then None
      else Some(
        match refresh
        case Declined(problem) => Move(s, p, Done(Some(token), Err(problem)))
        case Lost(problem) => Move(s, p, Done(Some(token), Err(problem))).(spent := s.spent + {token})
        case Granted(session) =>
          Move(s, p, Consuming(token, now, record, session))
          .(spent := s.spent + {token}, known := s.known + {session.refreshToken}))
    case (Consuming(token, now, record, session), WriteStore(ok, landed)) =>
      var consumed := record.(consumed := true);
      Some(Move(s, p,
        if !ok then Done(Some(token), Err(ProviderUnavailable))
        else Issuing(Some(token), Backfilled(session, record)))
        .(store := if ok || landed then Put(s, consumed, record.expiresAt - now) else s.store))
    case (Issuing(of, session), ReadClock(ok)) =>
      Some(Move(s, p,
        if !ok then Done(of, Err(ProviderUnavailable))
        else if Fingerprint(session.refreshToken).Err? then Done(of, Err(RefreshTokenUnknown))
        else Recording(of, session, s.time,
          RefreshRecord(session.subject, Digest(session.refreshToken), s.time,
            Expiry(session, s.time, cfg.lifetime), false))))
    case (Recording(of, session, now, record), WriteStore(ok, landed)) =>
      Some(Move(s, p, Done(of, if ok then Ok(session) else Err(ProviderUnavailable)))
        .(store := if ok || landed then Put(s, record, record.expiresAt - now) else s.store,
          nodes := if ok || landed then Grown(s.nodes, of, session) else s.nodes))
    case _ => None
  }

  function Next(cfg: Config, s: State, l: Label): Option<State> {
    match l
    case Act(p, a) => if p < |s.procs| then Step(cfg, s, p, a) else None
    case Tick(to) => if s.time <= to then Some(s.(time := to)) else None
    case Drop(d) =>
      if d in s.store && s.store[d].evictAt <= s.time then Some(s.(store := s.store - {d})) else None
  }

  function Exec(cfg: Config, s: State, run: seq<Label>): Option<State> {
    if run == [] then Some(s)
    else
      var before := Exec(cfg, s, run[..|run| - 1]);
      if before.None? then None else Next(cfg, before.value, run[|run| - 1])
  }

  /** An empty store, a provider that has handed nothing out, and operations that have not begun. */
  predicate Initial(s: State) {
    && s.store == map[] && s.known == {} && s.spent == {} && s.nodes == map[]
    && forall p :: 0 <= p < |s.procs| ==> s.procs[p].Login? || s.procs[p].Rotating?
  }

  // ---------------------------------------------------------------- the invariant

  /** The token a proc has been handed and not yet recorded. */
  function Pending(pc: Pc): Option<RefreshToken> {
    if pc.Consuming? || pc.Issuing? || pc.Recording? then Some(pc.session.refreshToken) else None
  }

  /** The token a proc has had rotated at the provider and got the replacement of. */
  function Claim(pc: Pc): Option<RefreshToken> {
    match pc
    case Consuming(token, _, _, _) => Some(token)
    case Issuing(of, _) => of
    case Recording(of, _, _, _) => of
    case Done(of, Ok(_)) => of
    case _ => None
  }

  /** The record snapshot a rotation is working from. */
  predicate SnapshotOk(nodes: Nodes, token: RefreshToken, record: RefreshRecord) {
    token in nodes && record.fingerprint == Digest(token) && record.subject == nodes[token].subject
  }

  ghost predicate ProcOk(s: State, p: nat) {
    && p < |s.procs|
    && var pc := s.procs[p];
    && (pc.Exchanging? || pc.Consuming? ==> SnapshotOk(s.nodes, pc.token, pc.record))
    && (pc.Consuming? ==> pc.session.subject == "" || pc.session.subject == pc.record.subject)
    && (Pending(pc).Some? ==> Pending(pc).value in s.known && (Pending(pc).value != "" ==> Pending(pc).value !in s.nodes))
    && (Claim(pc).Some? ==> Claim(pc).value in s.nodes && Claim(pc).value in s.spent)
    && (Pending(pc).Some? && Claim(pc).Some? ==> Deepest(s.nodes, Claim(pc).value))
    && (pc.Issuing? || pc.Recording? ==> pc.of.Some? ==>
      && Retired(RecordsOf(s.store), pc.of.value)
      && pc.session.subject == s.nodes[pc.of.value].subject)
    && (pc.Recording? ==>
      && pc.session.refreshToken != ""
      && pc.record.fingerprint == Digest(pc.session.refreshToken)
      && pc.record.subject == pc.session.subject
      && pc.now <= s.time)
    && (pc.Checking? || pc.Exchanging? || pc.Consuming? ==> pc.now <= s.time)
  }

  /** No token is pending twice, and none is claimed twice. */
  ghost predicate PairOk(s: State, p: nat, q: nat) {
    && p < |s.procs| && q < |s.procs|
    && (Pending(s.procs[p]).Some? && Pending(s.procs[p]).value != "" ==> Pending(s.procs[p]) != Pending(s.procs[q]))
    && (Claim(s.procs[p]).Some? ==> Claim(s.procs[p]) != Claim(s.procs[q]))
  }

  ghost predicate Inv(s: State) {
    && Coherent(s.nodes, RecordsOf(s.store))
    && s.nodes.Keys <= s.known
    && (forall t :: t in s.nodes ==> t in s.spent || Deepest(s.nodes, t))
    && (forall p :: 0 <= p < |s.procs| ==> ProcOk(s, p))
    && (forall p, q :: 0 <= p < |s.procs| && 0 <= q < |s.procs| && p != q ==> PairOk(s, p, q))
  }

  lemma MarkKeepsStore(cfg: Config, s: State, p: nat, a: Action)
    requires Inv(s) && p < |s.procs| && s.procs[p].Consuming? && Step(cfg, s, p, a).Some?
    ensures var t := Step(cfg, s, p, a).value;
      t.nodes == s.nodes && t.known == s.known && Coherent(t.nodes, RecordsOf(t.store))
  {
    assert ProcOk(s, p);
    var t, record := Step(cfg, s, p, a).value, s.procs[p].record.(consumed := true);
    if t.store != s.store {
      ConsumeKeepsCoherent(s.nodes, RecordsOf(s.store), record);
      assert RecordsOf(t.store) == RecordsOf(s.store)[record.fingerprint := record];
    }
  }

  lemma RecordKeepsStore(cfg: Config, s: State, p: nat, a: Action)
    requires Inv(s) && p < |s.procs| && s.procs[p].Recording? && Step(cfg, s, p, a).Some?
    ensures var t := Step(cfg, s, p, a).value;
      Coherent(t.nodes, RecordsOf(t.store)) && t.nodes.Keys <= t.known
  {
    assert ProcOk(s, p);
    var t := Step(cfg, s, p, a).value;
    var Recording(of, session, _, record) := s.procs[p];
    if a.ok || a.landed {
      assert RecordsOf(t.store) == RecordsOf(s.store)[record.fingerprint := record];
      if of.Some? {
        RotationKeepsCoherent(s.nodes, RecordsOf(s.store), of.value, session.refreshToken, record);
      } else {
        IssueKeepsCoherent(s.nodes, RecordsOf(s.store), session.refreshToken, record);
      }
    }
  }

  lemma StepKeepsStore(cfg: Config, s: State, p: nat, a: Action)
    requires Inv(s) && p < |s.procs| && Step(cfg, s, p, a).Some?
    ensures var t := Step(cfg, s, p, a).value;
      Coherent(t.nodes, RecordsOf(t.store)) && t.nodes.Keys <= t.known
  {
    if s.procs[p].Consuming? {
      MarkKeepsStore(cfg, s, p, a);
    } else if s.procs[p].Recording? {
      RecordKeepsStore(cfg, s, p, a);
    }
  }

  /** Recording p's pending token makes it the deepest of its lineage and moves no other token's
      place; every other lineage keeps its deepest token. */
  lemma GrowthIsLocal(s: State, p: nat)
    requires Inv(s) && p < |s.procs| && s.procs[p].Recording?
    ensures var u, nodes := s.procs[p].session.refreshToken, Grown(s.nodes, s.procs[p].of, s.procs[p].session);
      && u !in s.nodes && u in nodes && Deepest(nodes, u)
      && (forall t :: t in s.nodes ==> t in nodes && nodes[t] == s.nodes[t])
      && (forall t :: t in s.nodes && Deepest(s.nodes, t) && s.procs[p].of != Some(t) ==> Deepest(nodes, t))
  {
    assert ProcOk(s, p);
    var of, u := s.procs[p].of, s.procs[p].session.refreshToken;
    var nodes := Grown(s.nodes, of, s.procs[p].session);
    forall t | t in s.nodes && Deepest(s.nodes, t) && of != Some(t) ensures nodes[t].root != nodes[u].root {
    }
  }

  lemma StepKeepsSpent(cfg: Config, s: State, p: nat, a: Action)
    requires Inv(s) && p < |s.procs| && Step(cfg, s, p, a).Some?
    ensures var t := Step(cfg, s, p, a).value;
      forall u :: u in t.nodes ==> u in t.spent || Deepest(t.nodes, u)
  {
    assert ProcOk(s, p);
    if s.procs[p].Recording? {
      GrowthIsLocal(s, p);
    }
  }

  lemma MarkKeepsActor(cfg: Config, s: State, p: nat, a: Action)
    requires Inv(s) && p < |s.procs| && s.procs[p].Consuming? && Step(cfg, s, p, a).Some?
    ensures ProcOk(Step(cfg, s, p, a).value, p)
  {
    assert ProcOk(s, p);
    var t, d := Step(cfg, s, p, a).value, Digest(s.procs[p].token);
    assert t.procs[p].Issuing? ==> d in t.store && t.store[d].record.consumed;
  }

  lemma RecordKeepsActor(cfg: Config, s: State, p: nat, a: Action)
    requires Inv(s) && p < |s.procs| && s.procs[p].Recording? && Step(cfg, s, p, a).Some?
    ensures ProcOk(Step(cfg, s, p, a).value, p)
  {
    assert ProcOk(s, p);
    GrowthIsLocal(s, p);
  }

  lemma StepKeepsActor(cfg: Config, s: State, p: nat, a: Action)
    requires Inv(s) && p < |s.procs| && Step(cfg, s, p, a).Some?
    requires cfg.rejects
    ensures ProcOk(Step(cfg, s, p, a).value, p)
  {
    if s.procs[p].Consuming? {
      MarkKeepsActor(cfg, s, p, a);
    } else if s.procs[p].Recording? {
      RecordKeepsActor(cfg, s, p, a);
    } else {
      assert ProcOk(s, p);
    }
  }

  lemma StepKeepsRetired(cfg: Config, s: State, p: nat, a: Action)
    requires Inv(s) && p < |s.procs| && Step(cfg, s, p, a).Some?
    ensures var t := Step(cfg, s, p, a).value;
      forall u :: u in s.nodes && Retired(RecordsOf(s.store), u) ==> Retired(RecordsOf(t.store), u)
  {
    assert ProcOk(s, p);
  }

  /** Everything grows: no token loses its place, and nothing known or spent is forgotten. */
  ghost predicate Grows(s: State, t: State) {
    && s.known <= t.known && s.spent <= t.spent && s.time <= t.time
    && (forall u :: u in s.nodes ==> u in t.nodes && t.nodes[u] == s.nodes[u])
  }

  lemma StepGrows(cfg: Config, s: State, p: nat, a: Action)
    requires Inv(s) && p < |s.procs| && Step(cfg, s, p, a).Some?
    ensures Grows(s, Step(cfg, s, p, a).value)
  {
    assert ProcOk(s, p);
  }

  /** What keeps a proc that does not act as it should be. */
  lemma BystanderOk(s: State, t: State, q: nat)
    requires ProcOk(s, q) && Grows(s, t) && q < |t.procs| && t.procs[q] == s.procs[q]
    requires forall u :: u in s.nodes && Retired(RecordsOf(s.store), u) ==> Retired(RecordsOf(t.store), u)
    requires Pending(s.procs[q]).Some? && Pending(s.procs[q]).value != "" ==> Pending(s.procs[q]).value !in t.nodes
    requires Pending(s.procs[q]).Some? && Claim(s.procs[q]).Some? ==> Deepest(t.nodes, Claim(s.procs[q]).value)
    ensures ProcOk(t, q)
  {
  }

  lemma StepKeepsOther(cfg: Config, s: State, p: nat, a: Action, q: nat)
    requires Inv(s) && p < |s.procs| && Step(cfg, s, p, a).Some?
    requires q < |s.procs| && q != p
    ensures ProcOk(Step(cfg, s, p, a).value, q)
  {
    assert ProcOk(s, p) && ProcOk(s, q) && PairOk(s, p, q) && PairOk(s, q, p);
    if s.procs[p].Recording? {
      GrowthIsLocal(s, p);
    }
    StepKeepsRetired(cfg, s, p, a);
    StepGrows(cfg, s, p, a);
    BystanderOk(s, Step(cfg, s, p, a).value, q);
  }

  lemma StepKeepsPair(cfg: Config, s: State, p: nat, a: Action, q: nat)
    requires Inv(s) && p < |s.procs| && Step(cfg, s, p, a).Some?
    requires q < |s.procs| && q != p && cfg.rejects
    ensures PairOk(Step(cfg, s, p, a).value, p, q) && PairOk(Step(cfg, s, p, a).value, q, p)
  {
    assert ProcOk(s, p) && ProcOk(s, q) && PairOk(s, p, q) && PairOk(s, q, p);
  }

  lemma StepKeepsInv(cfg: Config, s: State, p: nat, a: Action)
    requires cfg.rejects && Inv(s) && p < |s.procs| && Step(cfg, s, p, a).Some?
    ensures Inv(Step(cfg, s, p, a).value)
  {
    var t := Step(cfg, s, p, a).value;
    StepKeepsStore(cfg, s, p, a);
    StepKeepsSpent(cfg, s, p, a);
    forall q | 0 <= q < |t.procs| ensures ProcOk(t, q) {
      if q == p { StepKeepsActor(cfg, s, p, a); } else { StepKeepsOther(cfg, s, p, a, q); }
    }
    forall q, r | 0 <= q < |t.procs| && 0 <= r < |t.procs| && q != r ensures PairOk(t, q, r) {
      if q == p {
        StepKeepsPair(cfg, s, p, a, r);
      } else if r == p {
        StepKeepsPair(cfg, s, p, a, q);
      } else {
        assert PairOk(s, q, r);
      }
    }
  }

  lemma QuietStepKeepsInv(cfg: Config, s: State, l: Label)
    requires Inv(s) && !l.Act? && Next(cfg, s, l).Some?
    ensures Inv(Next(cfg, s, l).value)
    ensures forall u :: Retired(RecordsOf(s.store), u) ==> Retired(RecordsOf(Next(cfg, s, l).value.store), u)
  {
    var t := Next(cfg, s, l).value;
    if l.Drop? {
      EvictionKeepsCoherent(s.nodes, RecordsOf(s.store), {l.d});
      assert RecordsOf(t.store) == RecordsOf(s.store) - {l.d};
    }
    assert forall u :: Retired(RecordsOf(s.store), u) ==> Retired(RecordsOf(t.store), u);
    forall q | 0 <= q < |t.procs| ensures ProcOk(t, q) {
      assert ProcOk(s, q);
    }
    forall q, r | 0 <= q < |t.procs| && 0 <= r < |t.procs| && q != r ensures PairOk(t, q, r) {
      assert PairOk(s, q, r);
    }
  }

  lemma NextKeepsInv(cfg: Config, s: State, l: Label)
    requires cfg.rejects && Inv(s) && Next(cfg, s, l).Some?
    ensures Inv(Next(cfg, s, l).value) && |Next(cfg, s, l).value.procs| == |s.procs|
  {
    if l.Act? {
      StepKeepsInv(cfg, s, l.proc, l.action);
    } else {
      QuietStepKeepsInv(cfg, s, l);
    }
  }

  lemma {:induction false} RunKeepsInv(cfg: Config, s: State, run: seq<Label>)
    requires cfg.rejects && Initial(s) && Exec(cfg, s, run).Some?
    ensures Inv(Exec(cfg, s, run).value) && |Exec(cfg, s, run).value.procs| == |s.procs|
  {
    if run != [] {
      var past := run[..|run| - 1];
      RunKeepsInv(cfg, s, past);
      NextKeepsInv(cfg, Exec(cfg, s, past).value, run[|run| - 1]);
    }
  }

  // ---------------------------------------------------------------- one live record, one session

  /** No two rotations of one token both return a session. */
  ghost predicate OneSessionPerToken(s: State) {
    forall p, q :: 0 <= p < q < |s.procs| && Yielded(s.procs[p]) && Yielded(s.procs[q]) ==>
      s.procs[p].of != s.procs[q].of
  }

  /** A rotation that returned a session. */
  predicate Yielded(pc: Pc) {
    pc.Done? && pc.of.Some? && pc.answer.Ok?
  }

  ghost predicate Safe(s: State) {
    OneLivePerLineage(s.nodes, RecordsOf(s.store)) && OneSessionPerToken(s)
  }

  ghost predicate SafeRun(cfg: Config, s: State, run: seq<Label>) {
    Initial(s) && Exec(cfg, s, run).Some? ==> Safe(Exec(cfg, s, run).value)
  }

  /** Under any interleaving, with every store write and provider call free to fail, a lineage has
      at most one live record and a token yields at most one session: exactly when the provider
      rejects a token it has already rotated. */
  lemma SafeExactlyWhenRejecting(cfg: Config)
    ensures cfg.rejects <==> forall s, run :: SafeRun(cfg, s, run)
  {
    if cfg.rejects {
      forall s, run ensures SafeRun(cfg, s, run) {
        if Initial(s) && Exec(cfg, s, run).Some? {
          RunKeepsInv(cfg, s, run);
          var t := Exec(cfg, s, run).value;
          CoherentMeansOneLive(t.nodes, RecordsOf(t.store));
          forall p, q | 0 <= p < q < |t.procs| && Yielded(t.procs[p]) && Yielded(t.procs[q])
            ensures t.procs[p].of != t.procs[q].of
          {
            assert PairOk(t, p, q);
          }
        }
      }
    } else {
      var s, run := LaxProviderForks(cfg);
      assert !SafeRun(cfg, s, run);
    }
  }

  /** Extends a run by a label that leads to the given state. */
  lemma Then(cfg: Config, s: State, past: seq<Label>, l: Label, t: State) returns (run: seq<Label>)
    requires Exec(cfg, s, past).Some? && Next(cfg, Exec(cfg, s, past).value, l).Some?
    requires var u := Next(cfg, Exec(cfg, s, past).value, l).value;
      && u.time == t.time && u.store == t.store && u.known == t.known && u.spent == t.spent
      && u.nodes == t.nodes && u.procs == t.procs
    ensures run == past + [l] && Exec(cfg, s, run) == Some(t)
  {
    run := past + [l];
    assert run[..|past|] == past;
  }

  function Filed(token: RefreshToken): RefreshRecord {
    RefreshRecord("u", Digest(token), 0, 1, false)
  }

  function Given(token: RefreshToken): Session {
    Session("u", ZERO_TOKEN, token, Some(1))
  }

  /** A login recorded, and two rotations of its token that have both read the record. */
  lemma BothRead(cfg: Config) returns (s: State, run: seq<Label>)
    ensures Initial(s) && Exec(cfg, s, run) == Some(State(
      0, map[Digest("a") := Entry(Filed("a"), 1)], {"a"}, {}, map["a" := Node("a", 0, "u")],
      [Done(None, Ok(Given("a"))), Exchanging("a", 0, Filed("a")), Exchanging("a", 0, Filed("a"))]))
  {
    var one, two := Rotating("a"), Rotating("a");
    s := State(0, map[], {}, {}, map[], [Login, one, two]);
    run := Then(cfg, s, [], Act(0, HandOut(Given("a"))), s.(known := {"a"}, procs := [Issuing(None, Given("a")), one, two]));
    run := Then(cfg, s, run, Act(0, ReadClock(true)),
      s.(known := {"a"}, procs := [Recording(None, Given("a"), 0, Filed("a")), one, two]));
    var done := Done(None, Ok(Given("a")));
    var t := State(0, map[Digest("a") := Entry(Filed("a"), 1)], {"a"}, {}, map["a" := Node("a", 0, "u")], [done, one, two]);
    run := Then(cfg, s, run, Act(0, WriteStore(true, true)), t);
    run := Then(cfg, s, run, Act(1, ReadClock(true)), t.(procs := [done, Checking("a", 0), two]));
    run := Then(cfg, s, run, Act(1, ReadStore(true)), t.(procs := [done, Exchanging("a", 0, Filed("a")), two]));
    one := Exchanging("a", 0, Filed("a"));
    run := Then(cfg, s, run, Act(2, ReadClock(true)), t.(procs := [done, one, Checking("a", 0)]));
    run := Then(cfg, s, run, Act(2, ReadStore(true)), t.(procs := [done, one, one]));
  }

  /** A provider that does not reject a rotated token lets two rotations of it both succeed, and
      leaves two live records in one lineage. */
  lemma LaxProviderForks(cfg: Config) returns (s: State, run: seq<Label>)
    requires !cfg.rejects
    ensures Initial(s) && Exec(cfg, s, run).Some?
    ensures !OneLivePerLineage(Exec(cfg, s, run).value.nodes, RecordsOf(Exec(cfg, s, run).value.store))
    ensures !OneSessionPerToken(Exec(cfg, s, run).value)
  {
    s, run := BothGranted(cfg);
    run := BothMark(cfg, s, run);
    run := BothRecord(cfg, s, run);
  }

  /** The provider grants each of the two a session for the one token. */
  lemma BothGranted(cfg: Config) returns (s: State, run: seq<Label>)
    requires !cfg.rejects
    ensures Initial(s) && Exec(cfg, s, run) == Some(State(
      0, map[Digest("a") := Entry(Filed("a"), 1)], {"a", "b", "c"}, {"a"}, map["a" := Node("a", 0, "u")],
      [Done(None, Ok(Given("a"))), Consuming("a", 0, Filed("a"), Given("b")), Consuming("a", 0, Filed("a"), Given("c"))]))
  {
    s, run := BothRead(cfg);
    var t := Exec(cfg, s, run).value;
    t := t.(spent := {"a"}, known := {"a", "b"},
            procs := [t.procs[0], Consuming("a", 0, Filed("a"), Given("b")), t.procs[2]]);
    run := Then(cfg, s, run, Act(1, CallProvider(Granted(Given("b")))), t);
    t := t.(known := {"a", "b", "c"}, procs := [t.procs[0], t.procs[1], Consuming("a", 0, Filed("a"), Given("c"))]);
    run := Then(cfg, s, run, Act(2, CallProvider(Granted(Given("c")))), t);
  }

  /** Each marks the one record consumed. */
  lemma BothMark(cfg: Config, s: State, past: seq<Label>) returns (run: seq<Label>)
    requires Exec(cfg, s, past) == Some(State(
      0, map[Digest("a") := Entry(Filed("a"), 1)], {"a", "b", "c"}, {"a"}, map["a" := Node("a", 0, "u")],
      [Done(None, Ok(Given("a"))), Consuming("a", 0, Filed("a"), Given("b")), Consuming("a", 0, Filed("a"), Given("c"))]))
    ensures Exec(cfg, s, run) == Some(State(
      0, map[Digest("a") := Entry(Filed("a").(consumed := true), 1)], {"a", "b", "c"}, {"a"}, map["a" := Node("a", 0, "u")],
      [Done(None, Ok(Given("a"))), Issuing(Some("a"), Given("b")), Issuing(Some("a"), Given("c"))]))
  {
    var t := Exec(cfg, s, past).value;
    t := t.(store := map[Digest("a") := Entry(Filed("a").(consumed := true), 1)],
            procs := [t.procs[0], Issuing(Some("a"), Given("b")), t.procs[2]]);
    run := Then(cfg, s, past, Act(1, WriteStore(true, true)), t);
    t := t.(procs := [t.procs[0], t.procs[1], Issuing(Some("a"), Given("c"))]);
    run := Then(cfg, s, run, Act(2, WriteStore(true, true)), t);
  }

  lemma BothRecord(cfg: Config, s: State, past: seq<Label>) returns (run: seq<Label>)
    requires Exec(cfg, s, past) == Some(State(
      0, map[Digest("a") := Entry(Filed("a").(consumed := true), 1)], {"a", "b", "c"}, {"a"}, map["a" := Node("a", 0, "u")],
      [Done(None, Ok(Given("a"))), Issuing(Some("a"), Given("b")), Issuing(Some("a"), Given("c"))]))
    ensures Exec(cfg, s, run).Some?
    ensures !OneLivePerLineage(Exec(cfg, s, run).value.nodes, RecordsOf(Exec(cfg, s, run).value.store))
    ensures !OneSessionPerToken(Exec(cfg, s, run).value)
  {
    var t := Exec(cfg, s, past).value;
    var done, second := t.procs[0], t.procs[2];
    t := t.(procs := [done, Recording(Some("a"), Given("b"), 0, Filed("b")), second]);
    run := Then(cfg, s, past, Act(1, ReadClock(true)), t);
    t := t.(store := t.store[Digest("b") := Entry(Filed("b"), 1)], nodes := t.nodes["b" := Node("a", 1, "u")],
            procs := [done, Done(Some("a"), Ok(Given("b"))), second]);
    run := Then(cfg, s, run, Act(1, WriteStore(true, true)), t);
    run := SecondRecords(cfg, s, run, t);
  }

  lemma SecondRecords(cfg: Config, s: State, past: seq<Label>, t0: State) returns (run: seq<Label>)
    requires Exec(cfg, s, past) == Some(t0) && t0.time == 0
    requires t0.procs ==
      [Done(None, Ok(Given("a"))), Done(Some("a"), Ok(Given("b"))), Issuing(Some("a"), Given("c"))]
    requires t0.nodes == map["a" := Node("a", 0, "u"), "b" := Node("a", 1, "u")] && Live(RecordsOf(t0.store), "b")
    ensures Exec(cfg, s, run).Some?
    ensures !OneLivePerLineage(Exec(cfg, s, run).value.nodes, RecordsOf(Exec(cfg, s, run).value.store))
    ensures !OneSessionPerToken(Exec(cfg, s, run).value)
  {
    var t := t0.(procs := [t0.procs[0], t0.procs[1], Recording(Some("a"), Given("c"), 0, Filed("c"))]);
    run := Then(cfg, s, past, Act(2, ReadClock(true)), t);
    t := t.(store := t.store[Digest("c") := Entry(Filed("c"), 1)], nodes := t.nodes["c" := Node("a", 1, "u")],
            procs := [t.procs[0], t.procs[1], Done(Some("a"), Ok(Given("c")))]);
    run := Then(cfg, s, run, Act(2, WriteStore(true, true)), t);
    assert Live(RecordsOf(t.store), "b") && Live(RecordsOf(t.store), "c");
    ForkIsUnsafe(t);
  }

  lemma ForkIsUnsafe(t: State)
    requires t.nodes == map["a" := Node("a", 0, "u"), "b" := Node("a", 1, "u"), "c" := Node("a", 1, "u")]
    requires Live(RecordsOf(t.store), "b") && Live(RecordsOf(t.store), "c")
    requires t.procs ==
      [Done(None, Ok(Given("a"))), Done(Some("a"), Ok(Given("b"))), Done(Some("a"), Ok(Given("c")))]
    ensures !OneLivePerLineage(t.nodes, RecordsOf(t.store)) && !OneSessionPerToken(t)
  {
    assert Yielded(t.procs[1]) && Yielded(t.procs[2]);
  }

  // ---------------------------------------------------------------- replay

  /** Where a rotation of a retired token can be: it has not reached the provider, and if it has
      finished it was refused. */
  predicate Refusing(pc: Pc, t: RefreshToken) {
    || pc == Rotating(t)
    || (pc.Checking? && pc.token == t)
    || (pc.Done? && pc.of == Some(t) && pc.answer.Err? &&
        pc.answer.error in {RefreshTokenReused, RefreshTokenUnknown, ProviderUnavailable})
  }

  lemma StepKeepsRefusing(cfg: Config, s: State, l: Label, p: nat, t: RefreshToken)
    requires Inv(s) && t in s.nodes && Retired(RecordsOf(s.store), t)
    requires p < |s.procs| && Refusing(s.procs[p], t) && Next(cfg, s, l).Some?
    ensures p < |Next(cfg, s, l).value.procs| && Refusing(Next(cfg, s, l).value.procs[p], t)
  {
  }

  /** A replay of a retired token never reaches the provider and never returns a session,
      whatever else runs meanwhile and whatever the store evicts. */
  lemma {:induction false} ReplayIsRefused(
    cfg: Config, s: State, past: seq<Label>, future: seq<Label>, p: nat, t: RefreshToken)
    requires cfg.rejects && Initial(s) && Exec(cfg, s, past).Some? && Exec(cfg, s, past + future).Some?
    requires var before := Exec(cfg, s, past).value;
      t in before.nodes && Retired(RecordsOf(before.store), t) && p < |before.procs| && before.procs[p] == Rotating(t)
    ensures var after := Exec(cfg, s, past + future).value;
      t in after.nodes && Retired(RecordsOf(after.store), t) && p < |after.procs| && Refusing(after.procs[p], t)
  {
    if future == [] {
      assert past + future == past;
    } else {
      var run, shorter := past + future, past + future[..|future| - 1];
      assert run[..|run| - 1] == shorter;
      ReplayIsRefused(cfg, s, past, future[..|future| - 1], p, t);
      RunKeepsInv(cfg, s, shorter);
      var now, l := Exec(cfg, s, shorter).value, run[|run| - 1];
      if l.Act? {
        StepKeepsRetired(cfg, now, l.proc, l.action);
        StepGrows(cfg, now, l.proc, l.action);
      } else {
        QuietStepKeepsInv(cfg, now, l);
      }
      StepKeepsRefusing(cfg, now, l, p, t);
    }
  }

  // ---------------------------------------------------------------- retention

  /** No clock reading in use is later than now, and no record may go before it expires. */
  ghost predicate Retains(s: State) {
    && (forall d :: d in s.store ==> s.store[d].record.expiresAt <= s.store[d].evictAt)
    && (forall p :: 0 <= p < |s.procs| && HoldsReading(s.procs[p]) ==> s.procs[p].now <= s.time)
  }

  predicate HoldsReading(pc: Pc) {
    pc.Checking? || pc.Exchanging? || pc.Consuming? || pc.Recording?
  }

  lemma StepRetains(cfg: Config, s: State, p: nat, a: Action)
    requires Retains(s) && p < |s.procs| && Step(cfg, s, p, a).Some?
    ensures Retains(Step(cfg, s, p, a).value)
  {
    var t := Step(cfg, s, p, a).value;
    assert HoldsReading(s.procs[p]) ==> s.procs[p].now <= s.time;
    assert forall q :: 0 <= q < |s.procs| && q != p ==> t.procs[q] == s.procs[q];
  }

  lemma {:induction false} RunRetains(cfg: Config, s: State, run: seq<Label>)
    requires Initial(s) && Exec(cfg, s, run).Some?
    ensures Retains(Exec(cfg, s, run).value)
  {
    if run != [] {
      RunRetains(cfg, s, run[..|run| - 1]);
      var now, l := Exec(cfg, s, run[..|run| - 1]).value, run[|run| - 1];
      if l.Act? {
        StepRetains(cfg, now, l.proc, l.action);
      }
    }
  }

  /** Every eviction a run contains is of a record that has already expired, although each ttl was
      computed from a clock reading older than the write. */
  lemma EvictedRecordsHaveExpired(cfg: Config, s: State, past: seq<Label>, d: Digest)
    requires Initial(s) && Exec(cfg, s, past + [Drop(d)]).Some?
    ensures Exec(cfg, s, past).Some?
    ensures var before := Exec(cfg, s, past).value;
      d in before.store && before.store[d].record.expiresAt <= before.time
  {
    assert (past + [Drop(d)])[..|past|] == past;
    RunRetains(cfg, s, past);
  }
}
