/** Any number of goroutines resolving tokens through one cache, as a step system.

    A goroutine advances by the atomic actions of `TokenCache.Token`, `mint` and
    `tokenFlight.do`; the store may drop entries between any two of them. A run is a
    sequence of labels, so every statement about runs is about all interleavings. */
module FlightProtocol {
  import opened Common
  import opened Tokens
  import opened Flight

  // ---------------------------------------------------------------- the system

  /** The declared resources, the cache key of each that has one, and the skew.
      Key derivation belongs to a library outside this model. */
  datatype Config = Config(declared: set<string>, keyOf: map<string, Key>, skew: Duration)

  /** Where a returned outcome came from. */
  datatype Via = Refused | Cached(now: Instant) | Led(call: CallId) | Joined(call: CallId)

  datatype Pc =
    | Start
    | Reading(now: Instant)
    | Missed
    | Waiting(call: CallId)
    | Minting(call: CallId)
    | Stamping(call: CallId, token: AccessToken)
    | Storing(call: CallId, token: AccessToken)
    | Minted(call: CallId, outcome: Outcome)
    | HalfPublished(call: CallId, outcome: Outcome)
    | Published(call: CallId, outcome: Outcome)
    | Removed(call: CallId, outcome: Outcome)
    | Returned(outcome: Outcome, via: Via)

  datatype Caller = Caller(name: string, pc: Pc)

  /** Which caller registered a call object, and for which key. */
  datatype Lead = Lead(caller: nat, key: Key)

  /** `leads` and `minted` only record history: the registrant of each call object, and the
      callers that have called the token source, in order. */
  datatype State = State(
    store: map<Key, AccessToken>,
    flights: Flights,
    callers: seq<Caller>,
    leads: seq<Lead>,
    minted: seq<nat>)

  datatype Action =
    | ReadClock(reading: Result<Instant>)
    | ReadStore(ok: bool)
    | EnterFlight
    | CallSource(answer: Result<AccessToken>)
    | WriteStore(ok: bool, landed: bool)
    | Publish
    | LeaveTable
    | CloseDone
    | Wake

  datatype Label =
    | Act(caller: nat, action: Action)
    | Drop(keys: set<Key>)  // invalidation, eviction or expiry in the store

  function Resolve(cfg: Config, name: string): Result<Key> {
    if name !in cfg.declared then Err(ResourceUnregistered)
    else if name !in cfg.keyOf then Err(ConfigInvalid)
    else Ok(cfg.keyOf[name])
  }

  function KeyFor(cfg: Config, name: string): Key {
    if name in cfg.keyOf then cfg.keyOf[name] else ""
  }

  function Advance(s: State, g: nat, pc: Pc): State
    requires g < |s.callers|
  {
    s.(callers := s.callers[g := s.callers[g].(pc := pc)])
  }

  /** One action of one caller; None when its program counter does not allow it. */
  function Step(cfg: Config, s: State, g: nat, a: Action): Option<State>
    requires g < |s.callers|
  {
    var Caller(name, pc) := s.callers[g];
    var key := KeyFor(cfg, name);
    match (pc, a)
    case (Start, ReadClock(reading)) =>
      Some(Advance(s, g,
        match Resolve(cfg, name)
        case Err(p) => Returned(Fail(p), Refused)
        case Ok(_) =>
          match reading
          case Err(_) => Returned(Fail(ProviderUnavailable), Refused)
          case Ok(now) => Reading(now)))
    case (Reading(now), ReadStore(ok)) =>
      Some(Advance(s, g,
        if !ok then Returned(Fail(ProviderUnavailable), Refused)
        else if key in s.store && !s.store[key].Expired(now, cfg.skew)
        then Returned(Outcome(s.store[key], None), Cached(now))
        else Missed))
    case (Missed, EnterFlight) =>
      Some(if key in s.flights.table then Advance(s, g, Waiting(s.flights.table[key]))
           else Advance(s, g, Minting(|s.flights.calls|))
                .(flights := Register(s.flights, key), leads := s.leads + [Lead(g, key)]))
    case (Minting(c), CallSource(answer)) =>
      Some(Advance(s, g,
        match answer
        case Err(p) => Minted(c, Fail(p))
        case Ok(token) => Stamping(c, token.(resource := name))).(minted := s.minted + [g]))
    case (Stamping(c, token), ReadClock(reading)) =>
      Some(Advance(s, g,
        if reading.Err? then Minted(c, Fail(ProviderUnavailable)) else Storing(c, token)))
    case (Storing(c, token), WriteStore(ok, landed)) =>
      Some(Advance(s, g, Minted(c, if ok then Outcome(token, None) else Fail(ProviderUnavailable)))
           .(store := if ok || landed then s.store[key := token] else s.store))
    case (Minted(c, o), Publish) =>
      if c < |s.flights.calls|
      then Some(Advance(s, g, HalfPublished(c, o)).(flights := WriteToken(s.flights, c, o.token)))
      else None
    case (HalfPublished(c, o), Publish) =>
      if c < |s.flights.calls|
      then Some(Advance(s, g, Published(c, o)).(flights := WriteErr(s.flights, c, o.err)))
      else None
    case (Published(c, o), LeaveTable) =>
      Some(Advance(s, g, Removed(c, o)).(flights := Remove(s.flights, key)))
    case (Removed(c, o), CloseDone) =>
      if c < |s.flights.calls|
      then Some(Advance(s, g, Returned(o, Led(c))).(flights := CloseCall(s.flights, c)))
      else None
    case (Waiting(c), Wake) =>
      if c < |s.flights.calls| && s.flights.calls[c].done
      then Some(Advance(s, g, Returned(Outcome(s.flights.calls[c].token, s.flights.calls[c].err), Joined(c))))
      else None
    case _ => None
  }

  /** A step moves the caller that takes it and no other. */
  lemma StepMovesOne(cfg: Config, s: State, g: nat, a: Action)
    requires g < |s.callers| && Step(cfg, s, g, a).Some?
    ensures var callers := Step(cfg, s, g, a).value.callers;
      |callers| == |s.callers| && forall h :: 0 <= h < |callers| && h != g ==> callers[h] == s.callers[h]
  {
  }

  function Next(cfg: Config, s: State, l: Label): Option<State> {
    match l
    case Act(g, a) => if g < |s.callers| then Step(cfg, s, g, a) else None
    case Drop(keys) => Some(s.(store := s.store - keys))
  }

  /** The state a run ends in; None when some label was not allowed. */
  function Exec(cfg: Config, s: State, run: seq<Label>): Option<State> {
    if run == [] then Some(s)
    else
      var before := Exec(cfg, s, run[..|run| - 1]);
      if before.None? then None else Next(cfg, before.value, run[|run| - 1])
  }

  /** A cold flight group and callers that have not started; the store may hold anything. */
  predicate Initial(s: State) {
    && s.flights == NO_FLIGHTS && s.leads == [] && s.minted == []
    && forall g :: 0 <= g < |s.callers| ==> s.callers[g].pc == Start
  }

  lemma Extend(cfg: Config, s: State, run: seq<Label>, l: Label)
    requires Exec(cfg, s, run).Some?
    ensures Exec(cfg, s, run + [l]) == Next(cfg, Exec(cfg, s, run).value, l)
  {
    assert (run + [l])[..|run|] == run;
  }

  function WithCaller(s: State, caller: Caller): State {
    s.(callers := s.callers + [caller])
  }

  /** A caller that never acts changes nothing: any run may be thought to have had it all along. */
  lemma {:induction false} IdleCaller(cfg: Config, s: State, run: seq<Label>, caller: Caller)
    requires Exec(cfg, s, run).Some?
    ensures Exec(cfg, WithCaller(s, caller), run) == Some(WithCaller(Exec(cfg, s, run).value, caller))
  {
    if run != [] {
      var past, l := run[..|run| - 1], run[|run| - 1];
      IdleCaller(cfg, s, past, caller);
      var t := Exec(cfg, s, past).value;
      if l.Act? {
        var pc := Next(cfg, t, l).value.callers[l.caller].pc;
        assert WithCaller(t, caller).callers[l.caller := t.callers[l.caller].(pc := pc)]
            == t.callers[l.caller := t.callers[l.caller].(pc := pc)] + [caller];
      }
    }
  }

  // ---------------------------------------------------------------- phases of a caller

  /** The call object a caller registered itself. */
  function LeadCall(pc: Pc): Option<CallId> {
    match pc
    case Minting(c) => Some(c)
    case Stamping(c, _) => Some(c)
    case Storing(c, _) => Some(c)
    case Minted(c, _) => Some(c)
    case HalfPublished(c, _) => Some(c)
    case Published(c, _) => Some(c)
    case Removed(c, _) => Some(c)
    case Returned(_, Led(c)) => Some(c)
    case _ => None
  }

  /** The call object a caller joined. */
  function JoinedCall(pc: Pc): Option<CallId> {
    match pc
    case Waiting(c) => Some(c)
    case Returned(_, Joined(c)) => Some(c)
    case _ => None
  }

  /** Between its insert into the table and its delete. */
  predicate InWindow(pc: Pc) {
    pc.Minting? || pc.Stamping? || pc.Storing? || pc.Minted? || pc.HalfPublished? || pc.Published?
  }

  predicate CalledSource(pc: Pc) {
    LeadCall(pc).Some? && !pc.Minting?
  }

  /** Past a store read that found nothing usable. */
  predicate FoundNothing(pc: Pc) {
    pc.Missed? || LeadCall(pc).Some? || JoinedCall(pc).Some?
  }

  /** What the fields of a call object hold, given where its leader is. */
  predicate Written(call: Call, pc: Pc) {
    && (pc.HalfPublished? ==> call.token == pc.outcome.token)
    && (pc.Published? || pc.Removed? || pc.Returned? ==> Outcome(call.token, call.err) == pc.outcome)
    && (call.done <==> pc.Returned?)
  }

  // ---------------------------------------------------------------- the invariant

  /** Call object c belongs to the caller on record, which is still its leader. */
  ghost predicate LeadOk(cfg: Config, s: State, c: CallId) {
    && |s.leads| == |s.flights.calls|
    && c < |s.leads|
    && s.leads[c].caller < |s.callers|
    && var leader := s.callers[s.leads[c].caller];
    && LeadCall(leader.pc) == Some(c)
    && s.leads[c].key == KeyFor(cfg, leader.name)
    && Written(s.flights.calls[c], leader.pc)
  }

  /** Whatever call object caller g leads or joined is the right one. */
  ghost predicate CallerOk(cfg: Config, s: State, g: nat) {
    && g < |s.callers|
    && |s.leads| == |s.flights.calls|
    && var Caller(name, pc) := s.callers[g];
    && var key := KeyFor(cfg, name);
    && (LeadCall(pc).Some? ==>
      && LeadCall(pc).value < |s.leads|
      && s.leads[LeadCall(pc).value] == Lead(g, key))
    && (InWindow(pc) ==>
      key in s.flights.table && Some(s.flights.table[key]) == LeadCall(pc))
    && (JoinedCall(pc).Some? ==>
      var c := JoinedCall(pc).value;
      && c < |s.leads|
      && s.leads[c].key == key
      && (pc.Returned? ==>
        s.flights.calls[c].done && pc.outcome == Outcome(s.flights.calls[c].token, s.flights.calls[c].err)))
    && (g in s.minted <==> CalledSource(pc))
  }

  /** A key in the table maps to a call whose leader is between its insert and its delete. */
  ghost predicate EntryOk(s: State, k: Key) {
    k in s.flights.table ==>
      && s.flights.table[k] < |s.leads|
      && var Lead(leader, key) := s.leads[s.flights.table[k]];
      && key == k
      && leader < |s.callers|
      && InWindow(s.callers[leader].pc)
      && LeadCall(s.callers[leader].pc) == Some(s.flights.table[k])
  }

  ghost predicate Inv(cfg: Config, s: State) {
    && |s.leads| == |s.flights.calls|
    && (forall c :: 0 <= c < |s.leads| ==> LeadOk(cfg, s, c))
    && (forall g :: 0 <= g < |s.callers| ==> CallerOk(cfg, s, g))
    && (forall k :: EntryOk(s, k))
    && (forall g :: g in s.minted ==> g < |s.callers|)
    && (forall i, j :: 0 <= i < j < |s.minted| ==> s.minted[i] != s.minted[j])
  }

  /** The actions up to the end of the mint; the rest publish it or wait for it. */
  predicate BeforePublish(a: Action) {
    a.ReadClock? || a.ReadStore? || a.EnterFlight? || a.CallSource? || a.WriteStore?
  }

  lemma EarlyStepKeepsLead(cfg: Config, s: State, g: nat, a: Action, c: CallId)
    requires Inv(cfg, s) && g < |s.callers| && Step(cfg, s, g, a).Some? && BeforePublish(a)
    requires c < |Step(cfg, s, g, a).value.leads|
    ensures LeadOk(cfg, Step(cfg, s, g, a).value, c)
  {
    assert CallerOk(cfg, s, g);
    if c < |s.leads| {
      assert LeadOk(cfg, s, c);
    }
  }

  lemma LateStepKeepsLead(cfg: Config, s: State, g: nat, a: Action, c: CallId)
    requires Inv(cfg, s) && g < |s.callers| && Step(cfg, s, g, a).Some? && !BeforePublish(a)
    requires c < |Step(cfg, s, g, a).value.leads|
    ensures LeadOk(cfg, Step(cfg, s, g, a).value, c)
  {
    assert CallerOk(cfg, s, g);
    if c < |s.leads| {
      assert LeadOk(cfg, s, c);
    }
  }

  lemma EarlyStepKeepsActor(cfg: Config, s: State, g: nat, a: Action)
    requires Inv(cfg, s) && g < |s.callers| && Step(cfg, s, g, a).Some? && BeforePublish(a)
    ensures CallerOk(cfg, Step(cfg, s, g, a).value, g)
  {
    assert CallerOk(cfg, s, g);
    assert EntryOk(s, KeyFor(cfg, s.callers[g].name));
  }

  lemma LateStepKeepsActor(cfg: Config, s: State, g: nat, a: Action)
    requires Inv(cfg, s) && g < |s.callers| && Step(cfg, s, g, a).Some? && !BeforePublish(a)
    ensures CallerOk(cfg, Step(cfg, s, g, a).value, g)
  {
    assert CallerOk(cfg, s, g);
  }

  lemma EarlyStepKeepsOther(cfg: Config, s: State, g: nat, a: Action, h: nat)
    requires Inv(cfg, s) && g < |s.callers| && Step(cfg, s, g, a).Some? && BeforePublish(a)
    requires h < |s.callers| && h != g
    ensures CallerOk(cfg, Step(cfg, s, g, a).value, h)
  {
    assert CallerOk(cfg, s, g);
    assert CallerOk(cfg, s, h);
    if LeadCall(s.callers[g].pc).Some? {
      assert LeadOk(cfg, s, LeadCall(s.callers[g].pc).value);
    }
  }

  lemma LateStepKeepsOther(cfg: Config, s: State, g: nat, a: Action, h: nat)
    requires Inv(cfg, s) && g < |s.callers| && Step(cfg, s, g, a).Some? && !BeforePublish(a)
    requires h < |s.callers| && h != g
    ensures CallerOk(cfg, Step(cfg, s, g, a).value, h)
  {
    assert CallerOk(cfg, s, g);
    assert CallerOk(cfg, s, h);
    if LeadCall(s.callers[g].pc).Some? {
      assert LeadOk(cfg, s, LeadCall(s.callers[g].pc).value);
    }
  }

  lemma EarlyStepKeepsEntry(cfg: Config, s: State, g: nat, a: Action, k: Key)
    requires Inv(cfg, s) && g < |s.callers| && Step(cfg, s, g, a).Some? && BeforePublish(a)
    ensures EntryOk(Step(cfg, s, g, a).value, k)
  {
    assert CallerOk(cfg, s, g);
    assert EntryOk(s, k);
    if k in s.flights.table {
      assert LeadOk(cfg, s, s.flights.table[k]);
    }
  }

  lemma LateStepKeepsEntry(cfg: Config, s: State, g: nat, a: Action, k: Key)
    requires Inv(cfg, s) && g < |s.callers| && Step(cfg, s, g, a).Some? && !BeforePublish(a)
    ensures EntryOk(Step(cfg, s, g, a).value, k)
  {
    assert CallerOk(cfg, s, g);
    assert EntryOk(s, k);
    if k in s.flights.table {
      assert LeadOk(cfg, s, s.flights.table[k]);
    }
  }

  lemma EarlyStepKeepsInv(cfg: Config, s: State, g: nat, a: Action)
    requires Inv(cfg, s) && g < |s.callers| && Step(cfg, s, g, a).Some? && BeforePublish(a)
    ensures Inv(cfg, Step(cfg, s, g, a).value)
  {
    var s' := Step(cfg, s, g, a).value;
    assert CallerOk(cfg, s, g);
    forall c | 0 <= c < |s'.leads| ensures LeadOk(cfg, s', c) { EarlyStepKeepsLead(cfg, s, g, a, c); }
    forall h | 0 <= h < |s'.callers| ensures CallerOk(cfg, s', h) {
      if h == g { EarlyStepKeepsActor(cfg, s, g, a); } else { EarlyStepKeepsOther(cfg, s, g, a, h); }
    }
    forall k ensures EntryOk(s', k) { EarlyStepKeepsEntry(cfg, s, g, a, k); }
  }

  lemma LateStepKeepsInv(cfg: Config, s: State, g: nat, a: Action)
    requires Inv(cfg, s) && g < |s.callers| && Step(cfg, s, g, a).Some? && !BeforePublish(a)
    ensures Inv(cfg, Step(cfg, s, g, a).value)
  {
    var s' := Step(cfg, s, g, a).value;
    assert CallerOk(cfg, s, g);
    forall c | 0 <= c < |s'.leads| ensures LeadOk(cfg, s', c) { LateStepKeepsLead(cfg, s, g, a, c); }
    forall h | 0 <= h < |s'.callers| ensures CallerOk(cfg, s', h) {
      if h == g { LateStepKeepsActor(cfg, s, g, a); } else { LateStepKeepsOther(cfg, s, g, a, h); }
    }
    forall k ensures EntryOk(s', k) { LateStepKeepsEntry(cfg, s, g, a, k); }
  }

  lemma StepKeepsInv(cfg: Config, s: State, g: nat, a: Action)
    requires Inv(cfg, s) && g < |s.callers| && Step(cfg, s, g, a).Some?
    ensures Inv(cfg, Step(cfg, s, g, a).value)
  {
    if BeforePublish(a) {
      EarlyStepKeepsInv(cfg, s, g, a);
    } else {
      LateStepKeepsInv(cfg, s, g, a);
    }
  }

  lemma {:induction false} RunKeepsInv(cfg: Config, s: State, run: seq<Label>)
    requires Initial(s) && Exec(cfg, s, run).Some?
    ensures Inv(cfg, Exec(cfg, s, run).value)
    ensures |Exec(cfg, s, run).value.callers| == |s.callers|
  {
    if run != [] {
      var before, l := Exec(cfg, s, run[..|run| - 1]).value, run[|run| - 1];
      RunKeepsInv(cfg, s, run[..|run| - 1]);
      match l
      case Act(g, a) => StepKeepsInv(cfg, before, g, a);
      case Drop(keys) => DropKeepsInv(cfg, before, keys);
    }
  }

  lemma DropKeepsInv(cfg: Config, s: State, keys: set<Key>)
    requires Inv(cfg, s)
    ensures Inv(cfg, s.(store := s.store - keys))
  {
    var s' := s.(store := s.store - keys);
    assert forall c :: 0 <= c < |s.leads| && LeadOk(cfg, s, c) ==> LeadOk(cfg, s', c);
    assert forall g :: 0 <= g < |s.callers| && CallerOk(cfg, s, g) ==> CallerOk(cfg, s', g);
    assert forall k :: EntryOk(s, k) ==> EntryOk(s', k);
  }

  // ---------------------------------------------------------------- single flight

  /** Caller g holds key k: it has inserted its call for k and not yet deleted it. */
  predicate Holds(cfg: Config, s: State, g: nat, k: Key) {
    g < |s.callers| && KeyFor(cfg, s.callers[g].name) == k && InWindow(s.callers[g].pc)
  }

  /** A key is in the table exactly while one caller holds it, the entry is that caller's own
      call object, and no two callers hold one key; the mint runs only while it is held, so
      two mints for a key never overlap. */
  lemma OneFlightPerKey(cfg: Config, s: State, run: seq<Label>, k: Key)
    requires Initial(s) && Exec(cfg, s, run).Some?
    ensures var t := Exec(cfg, s, run).value;
      && (k in t.flights.table <==> exists g: nat :: Holds(cfg, t, g, k))
      && (forall g: nat :: Holds(cfg, t, g, k) ==> Some(t.flights.table[k]) == LeadCall(t.callers[g].pc))
      && (forall g: nat, h: nat :: Holds(cfg, t, g, k) && Holds(cfg, t, h, k) ==> g == h)
  {
    RunKeepsInv(cfg, s, run);
    var t := Exec(cfg, s, run).value;
    assert EntryOk(t, k);
    if k in t.flights.table {
      assert LeadOk(cfg, t, t.flights.table[k]);
      assert Holds(cfg, t, t.leads[t.flights.table[k]].caller, k);
    }
    forall g: nat | Holds(cfg, t, g, k)
      ensures k in t.flights.table && Some(t.flights.table[k]) == LeadCall(t.callers[g].pc)
      ensures g == t.leads[t.flights.table[k]].caller
    {
      assert CallerOk(cfg, t, g);
    }
  }

  /** Delete comes before close: a caller that has its answer finds the key free, or held by
      a later call, so a retry after a failed mint never joins the call that failed. */
  lemma AnsweredCallIsGone(cfg: Config, s: State, run: seq<Label>, g: nat)
    requires Initial(s) && Exec(cfg, s, run).Some? && g < |s.callers|
    ensures var t := Exec(cfg, s, run).value;
      |t.callers| == |s.callers| && (t.callers[g].pc.Returned? ==>
        forall k :: k in t.flights.table ==>
          Some(t.flights.table[k]) != LeadCall(t.callers[g].pc) && Some(t.flights.table[k]) != JoinedCall(t.callers[g].pc))
  {
    RunKeepsInv(cfg, s, run);
    var t := Exec(cfg, s, run).value;
    assert CallerOk(cfg, t, g);
    forall k | k in t.flights.table && t.callers[g].pc.Returned?
      ensures Some(t.flights.table[k]) != LeadCall(t.callers[g].pc) && Some(t.flights.table[k]) != JoinedCall(t.callers[g].pc)
    {
      assert EntryOk(t, k);
      assert LeadOk(cfg, t, t.flights.table[k]);
    }
  }

  /** A follower returns the outcome its leader returned, token and error both. */
  lemma FollowerReturnsLeadersOutcome(cfg: Config, s: State, run: seq<Label>, g: nat)
    requires Initial(s) && Exec(cfg, s, run).Some? && g < |s.callers|
    ensures var t := Exec(cfg, s, run).value;
      && |t.callers| == |s.callers|
      && (t.callers[g].pc.Returned? && t.callers[g].pc.via.Joined? ==>
          var c := t.callers[g].pc.via.call;
          && c < |t.leads| && t.leads[c].caller < |t.callers|
          && t.callers[t.leads[c].caller].pc == Returned(t.callers[g].pc.outcome, Led(c))
          && KeyFor(cfg, t.callers[t.leads[c].caller].name) == KeyFor(cfg, t.callers[g].name))
  {
    RunKeepsInv(cfg, s, run);
    var t := Exec(cfg, s, run).value;
    assert CallerOk(cfg, t, g);
    if t.callers[g].pc.Returned? && t.callers[g].pc.via.Joined? {
      assert LeadOk(cfg, t, t.callers[g].pc.via.call);
    }
  }

  lemma StepKeepsClosed(cfg: Config, s: State, g: nat, a: Action, c: CallId)
    requires Inv(cfg, s) && g < |s.callers| && Step(cfg, s, g, a).Some?
    requires c < |s.flights.calls| && s.flights.calls[c].done
    ensures var t := Step(cfg, s, g, a).value; c < |t.flights.calls| && t.flights.calls[c] == s.flights.calls[c]
  {
    assert LeadOk(cfg, s, c);
    assert CallerOk(cfg, s, g);
  }

  /** Once a call is closed nothing in it changes, whatever happens next. */
  lemma {:induction false} ClosedCallIsFrozen(cfg: Config, s: State, past: seq<Label>, future: seq<Label>, c: CallId)
    requires Initial(s) && Exec(cfg, s, past).Some? && Exec(cfg, s, past + future).Some?
    requires c < |Exec(cfg, s, past).value.flights.calls| && Exec(cfg, s, past).value.flights.calls[c].done
    ensures var t := Exec(cfg, s, past + future).value;
      c < |t.flights.calls| && t.flights.calls[c] == Exec(cfg, s, past).value.flights.calls[c]
  {
    if future == [] {
      assert past + future == past;
    } else {
      var run, shorter := past + future, past + future[..|future| - 1];
      assert run[..|run| - 1] == shorter;
      ClosedCallIsFrozen(cfg, s, past, future[..|future| - 1], c);
      RunKeepsInv(cfg, s, shorter);
      var l := run[|run| - 1];
      if l.Act? {
        StepKeepsClosed(cfg, Exec(cfg, s, shorter).value, l.caller, l.action, c);
      }
    }
  }

  // ---------------------------------------------------------------- how many mints

  /** How many times the token source was called for key k. */
  ghost function MintCount(cfg: Config, s: State, k: Key): nat {
    |MintsOf(cfg, s, k)|
  }

  ghost function MintsOf(cfg: Config, s: State, k: Key): set<nat> {
    set i: nat | i < |s.minted| && s.minted[i] < |s.callers| && KeyFor(cfg, s.callers[s.minted[i]].name) == k
  }

  ghost function CallersThatFoundNothing(cfg: Config, s: State, k: Key): set<nat> {
    set g: nat | g < |s.callers| && KeyFor(cfg, s.callers[g].name) == k && FoundNothing(s.callers[g].pc)
  }

  /** The source is called for a key no more often than callers found nothing usable under it. */
  lemma MintsAreBounded(cfg: Config, s: State, run: seq<Label>, k: Key)
    requires Initial(s) && Exec(cfg, s, run).Some?
    ensures var t := Exec(cfg, s, run).value;
      MintCount(cfg, t, k) <= |CallersThatFoundNothing(cfg, t, k)|
  {
    RunKeepsInv(cfg, s, run);
    var t := Exec(cfg, s, run).value;
    forall i | i in MintsOf(cfg, t, k) ensures t.minted[i] in CallersThatFoundNothing(cfg, t, k) {
      assert CallerOk(cfg, t, t.minted[i]);
    }
    DistinctSize(t.minted, MintsOf(cfg, t, k), CallersThatFoundNothing(cfg, t, k));
  }

  /** A caller enters the flight for k after an earlier call for k has left the table. */
  ghost predicate LateEntry(cfg: Config, s: State, l: Label, k: Key) {
    && l.Act? && l.action.EnterFlight?
    && l.caller < |s.callers| && KeyFor(cfg, s.callers[l.caller].name) == k
    && exists c :: 0 <= c < |s.leads| && LeftTable(s, c, k)
  }

  ghost predicate LeftTable(s: State, c: CallId, k: Key)
    requires c < |s.leads|
  {
    && s.leads[c].key == k
    && s.leads[c].caller < |s.callers|
    && !InWindow(s.callers[s.leads[c].caller].pc)
  }

  ghost predicate NoLateEntry(cfg: Config, s: State, run: seq<Label>, k: Key)
    requires Exec(cfg, s, run).Some?
  {
    run == [] ||
    (var past, l := run[..|run| - 1], run[|run| - 1];
     NoLateEntry(cfg, s, past, k) && !LateEntry(cfg, Exec(cfg, s, past).value, l, k))
  }

  ghost predicate AtMostOneLead(s: State, k: Key) {
    forall c, d :: 0 <= c < |s.leads| && 0 <= d < |s.leads| && s.leads[c].key == k && s.leads[d].key == k ==> c == d
  }

  /** The caller enters the flight for a key that is not in the table. */
  predicate Leads(cfg: Config, s: State, l: Label) {
    && l.Act? && l.action.EnterFlight? && l.caller < |s.callers|
    && KeyFor(cfg, s.callers[l.caller].name) !in s.flights.table
  }

  lemma NextLeads(cfg: Config, s: State, l: Label)
    requires Next(cfg, s, l).Some?
    ensures Next(cfg, s, l).value.leads ==
      s.leads + if Leads(cfg, s, l) then [Lead(l.caller, KeyFor(cfg, s.callers[l.caller].name))] else []
  {
  }

  /** With one lead at most, an earlier call has left the table exactly when the key is free. */
  lemma FreeKeysWereLeft(cfg: Config, s: State, k: Key, c: CallId)
    requires Inv(cfg, s) && AtMostOneLead(s, k) && c < |s.leads| && s.leads[c].key == k
    ensures LeftTable(s, c, k) <==> k !in s.flights.table
  {
    assert LeadOk(cfg, s, c) && EntryOk(s, k);
    assert CallerOk(cfg, s, s.leads[c].caller);
  }

  /** One label makes a second lead for k exactly when it is a late entry. */
  lemma LateEntryMakesSecondLead(cfg: Config, s: State, l: Label, k: Key)
    requires Inv(cfg, s) && Next(cfg, s, l).Some? && AtMostOneLead(s, k)
    ensures AtMostOneLead(Next(cfg, s, l).value, k) <==> !LateEntry(cfg, s, l, k)
  {
    NextLeads(cfg, s, l);
    forall c | 0 <= c < |s.leads| && s.leads[c].key == k ensures LeftTable(s, c, k) <==> k !in s.flights.table {
      FreeKeysWereLeft(cfg, s, k, c);
    }
    OneMoreLead(s.leads, Next(cfg, s, l).value.leads, k);
  }

  lemma OneMoreLead(leads: seq<Lead>, more: seq<Lead>, k: Key)
    requires leads <= more && |more| <= |leads| + 1
    requires forall c, d :: 0 <= c < |leads| && 0 <= d < |leads| && leads[c].key == k && leads[d].key == k ==> c == d
    ensures (forall c, d :: 0 <= c < |more| && 0 <= d < |more| && more[c].key == k && more[d].key == k ==> c == d)
      <==> !(|more| > |leads| && more[|leads|].key == k && exists c :: 0 <= c < |leads| && leads[c].key == k)
  {
    if c :| 0 <= c < |leads| && leads[c].key == k {
      assert more[c].key == k;
    }
  }

  lemma {:induction false} LeadsOnlyGrow(cfg: Config, s: State, l: Label, k: Key)
    requires Next(cfg, s, l).Some? && !AtMostOneLead(s, k)
    ensures !AtMostOneLead(Next(cfg, s, l).value, k)
  {
    var c, d :| 0 <= c < |s.leads| && 0 <= d < |s.leads| && s.leads[c].key == k && s.leads[d].key == k && c != d;
    var t := Next(cfg, s, l).value;
    assert t.leads[c] == s.leads[c] && t.leads[d] == s.leads[d];
  }

  /** A run registers at most one call for a key exactly when no caller enters the flight after an
      earlier call for the key has left it. */
  lemma {:induction false} OneLeadUnlessLateEntry(cfg: Config, s: State, run: seq<Label>, k: Key)
    requires Initial(s) && Exec(cfg, s, run).Some?
    ensures AtMostOneLead(Exec(cfg, s, run).value, k) <==> NoLateEntry(cfg, s, run, k)
  {
    if run != [] {
      var past, l := run[..|run| - 1], run[|run| - 1];
      OneLeadUnlessLateEntry(cfg, s, past, k);
      RunKeepsInv(cfg, s, past);
      var t := Exec(cfg, s, past).value;
      if AtMostOneLead(t, k) {
        LateEntryMakesSecondLead(cfg, t, l, k);
      } else {
        LeadsOnlyGrow(cfg, t, l, k);
      }
    }
  }

  /** Extends a run by a label that leads to the given state. */
  lemma Then(cfg: Config, s: State, past: seq<Label>, l: Label, t: State) returns (run: seq<Label>)
    requires Exec(cfg, s, past).Some? && Next(cfg, Exec(cfg, s, past).value, l).Some?
    requires var u := Next(cfg, Exec(cfg, s, past).value, l).value;
      && u.store == t.store && u.callers == t.callers && u.leads == t.leads && u.minted == t.minted
      && u.flights.table == t.flights.table && u.flights.calls == t.flights.calls
    ensures run == past + [l] && Exec(cfg, s, run) == Some(t)
  {
    run := past + [l];
    assert run[..|past|] == past;
  }

  function Cold(first: Caller, second: Caller): State {
    State(map[], NO_FLIGHTS, [first, second], [], [])
  }

  /** The first of two callers finds the cold store empty and enters the flight. */
  lemma FirstEnters(cfg: Config, s: State, past: seq<Label>, name: string, other: Caller) returns (run: seq<Label>)
    requires Usable(cfg, name) && Exec(cfg, s, past) == Some(Cold(Caller(name, Start), other))
    requires forall l :: l in past ==> l.Act?
    ensures forall l :: l in run ==> l.Act?
    ensures var k := KeyFor(cfg, name);
      Exec(cfg, s, run) ==
        Some(State(map[], Register(NO_FLIGHTS, k), [Caller(name, Minting(0)), other], [Lead(0, k)], []))
  {
    var k := KeyFor(cfg, name);
    run := Then(cfg, s, past, Act(0, ReadClock(Ok(0))), Cold(Caller(name, Reading(0)), other));
    run := Then(cfg, s, run, Act(0, ReadStore(true)), Cold(Caller(name, Missed), other));
    run := Then(cfg, s, run, Act(0, EnterFlight),
      State(map[], Register(NO_FLIGHTS, k), [Caller(name, Minting(0)), other], [Lead(0, k)], []));
  }

  /** And its mint is stored. */
  lemma FirstMints(cfg: Config, s: State, past: seq<Label>, token: AccessToken, other: Caller) returns (run: seq<Label>)
    requires Usable(cfg, token.resource) && forall l :: l in past ==> l.Act?
    requires Exec(cfg, s, past) == Some(Cold(Caller(token.resource, Start), other))
    ensures forall l :: l in run ==> l.Act?
    ensures var k := KeyFor(cfg, token.resource);
      Exec(cfg, s, run) ==
        Some(State(map[k := token], Register(NO_FLIGHTS, k),
          [Caller(token.resource, Minted(0, Outcome(token, None))), other], [Lead(0, k)], [0]))
  {
    var name := token.resource;
    var k := KeyFor(cfg, name);
    var fs, lead := Register(NO_FLIGHTS, k), [Lead(0, k)];
    run := FirstEnters(cfg, s, past, name, other);
    run := Then(cfg, s, run, Act(0, CallSource(Ok(token))),
      State(map[], fs, [Caller(name, Stamping(0, token)), other], lead, [0]));
    run := Then(cfg, s, run, Act(0, ReadClock(Ok(0))),
      State(map[], fs, [Caller(name, Storing(0, token)), other], lead, [0]));
    run := Then(cfg, s, run, Act(0, WriteStore(true, true)),
      State(map[k := token], fs, [Caller(name, Minted(0, Outcome(token, None))), other], lead, [0]));
  }

  /** A second caller reads the cold store before the first one's mint is stored. */
  lemma FirstMintStored(cfg: Config, token: AccessToken) returns (s: State, run: seq<Label>)
    requires Usable(cfg, token.resource)
    ensures Initial(s) && forall l :: l in run ==> l.Act?
    ensures var k := KeyFor(cfg, token.resource);
      Exec(cfg, s, run) ==
        Some(State(map[k := token], Register(NO_FLIGHTS, k),
          [Caller(token.resource, Minted(0, Outcome(token, None))), Caller(token.resource, Missed)], [Lead(0, k)], [0]))
  {
    var name := token.resource;
    var idle := Caller(name, Start);
    s := Cold(idle, idle);
    run := Then(cfg, s, [], Act(1, ReadClock(Ok(0))), Cold(idle, Caller(name, Reading(0))));
    run := Then(cfg, s, run, Act(1, ReadStore(true)), Cold(idle, Caller(name, Missed)));
    run := FirstMints(cfg, s, run, token, Caller(name, Missed));
  }

  /** The first caller has published its call and removed it, but not closed it. */
  lemma FirstRemoved(cfg: Config, token: AccessToken) returns (s: State, run: seq<Label>)
    requires Usable(cfg, token.resource)
    ensures Initial(s) && forall l :: l in run ==> l.Act?
    ensures var k, o := KeyFor(cfg, token.resource), Outcome(token, None);
      Exec(cfg, s, run) ==
        Some(State(map[k := token], Flights(map[], [Call(token, None, false)]),
          [Caller(token.resource, Removed(0, o)), Caller(token.resource, Missed)], [Lead(0, k)], [0]))
  {
    var name, k, o := token.resource, KeyFor(cfg, token.resource), Outcome(token, None);
    s, run := FirstMintStored(cfg, token);
    var t := Exec(cfg, s, run).value;
    var missed, fs := Caller(name, Missed), t.flights;
    run := Then(cfg, s, run, Act(0, Publish),
      t.(flights := WriteToken(fs, 0, token), callers := [Caller(name, HalfPublished(0, o)), missed]));
    fs := WriteErr(WriteToken(fs, 0, token), 0, None);
    run := Then(cfg, s, run, Act(0, Publish), t.(flights := fs, callers := [Caller(name, Published(0, o)), missed]));
    assert Remove(fs, k).table == map[];
    fs := Flights(map[], [Call(token, None, false)]);
    run := Then(cfg, s, run, Act(0, LeaveTable), t.(flights := fs, callers := [Caller(name, Removed(0, o)), missed]));
  }

  /** The promise "one mint per key per race", read literally, fails with nothing expired or
      dropped: a caller that read the store before the first mint was stored leads a second call
      and calls the source again, here while the first call is not yet closed and its token is
      live in the store. */
  lemma LateEntryHappens(cfg: Config, name: string) returns (s: State, run: seq<Label>)
    requires Usable(cfg, name)
    ensures Initial(s) && Exec(cfg, s, run).Some? && forall l :: l in run ==> l.Act?
    ensures var t := Exec(cfg, s, run).value;
      var k := KeyFor(cfg, name);
      && MintCount(cfg, t, k) == 2
      && |t.flights.calls| == 2 && !t.flights.calls[0].done
      && t.flights.table == map[k := 1]
      && k in t.store && !t.store[k].Expired(0, cfg.skew)
  {
    var k, token := KeyFor(cfg, name), AccessToken("", name, [], 0, cfg.skew + 1);
    s, run := FirstRemoved(cfg, token);
    var t := Exec(cfg, s, run).value;
    var first := t.callers[0];
    t := t.(flights := Register(t.flights, k), callers := [first, Caller(name, Minting(1))], leads := [Lead(0, k), Lead(1, k)]);
    run := Then(cfg, s, run, Act(1, EnterFlight), t);
    t := t.(callers := [first, Caller(name, Stamping(1, token))], minted := [0, 1]);
    run := Then(cfg, s, run, Act(1, CallSource(Ok(token))), t);
    assert MintsOf(cfg, t, k) == {0, 1};
  }

  predicate AnsweredByFlight(cfg: Config, s: State, g: nat, k: Key) {
    && g < |s.callers| && KeyFor(cfg, s.callers[g].name) == k
    && s.callers[g].pc.Returned? && (s.callers[g].pc.via.Led? || s.callers[g].pc.via.Joined?)
  }

  /** A mint belongs to a call that was registered for its key. */
  lemma MintHasLead(cfg: Config, s: State, k: Key, i: nat)
    requires Inv(cfg, s) && i in MintsOf(cfg, s, k)
    ensures var g := s.minted[i];
      LeadCall(s.callers[g].pc).Some? && LeadCall(s.callers[g].pc).value < |s.leads|
      && s.leads[LeadCall(s.callers[g].pc).value] == Lead(g, k)
  {
    assert CallerOk(cfg, s, s.minted[i]);
  }

  /** With one lead there is at most one mint. */
  lemma OneLeadOneMint(cfg: Config, s: State, k: Key)
    requires Inv(cfg, s) && AtMostOneLead(s, k)
    ensures MintCount(cfg, s, k) <= 1
  {
    forall i, j | i in MintsOf(cfg, s, k) && j in MintsOf(cfg, s, k) ensures i == j {
      MintHasLead(cfg, s, k, i);
      MintHasLead(cfg, s, k, j);
    }
    if i :| i in MintsOf(cfg, s, k) {
      assert MintsOf(cfg, s, k) == {i};
    }
  }

  /** Whoever the flight answered holds the outcome of a call for its key, and that call's leader
      called the source. */
  lemma AnswerHasLead(cfg: Config, s: State, k: Key, g: nat) returns (c: CallId, i: nat)
    requires Inv(cfg, s) && AnsweredByFlight(cfg, s, g, k)
    ensures c < |s.leads| == |s.flights.calls| && s.leads[c].key == k
    ensures s.callers[g].pc.outcome == Outcome(s.flights.calls[c].token, s.flights.calls[c].err)
    ensures i in MintsOf(cfg, s, k)
  {
    assert CallerOk(cfg, s, g);
    c := s.callers[g].pc.via.call;
    assert LeadOk(cfg, s, c);
    i := LeadMinted(cfg, s, c);
  }

  /** A call whose leader is past the source call accounts for one mint of its own. */
  lemma LeadMinted(cfg: Config, s: State, c: CallId) returns (i: nat)
    requires Inv(cfg, s) && c < |s.leads|
    requires s.leads[c].caller < |s.callers| && !s.callers[s.leads[c].caller].pc.Minting?
    ensures i in MintsOf(cfg, s, s.leads[c].key) && s.minted[i] == s.leads[c].caller
  {
    assert LeadOk(cfg, s, c);
    var leader := s.leads[c].caller;
    assert CallerOk(cfg, s, leader);
    i :| 0 <= i < |s.minted| && s.minted[i] == leader;
  }

  /** Without a late entry the source is called at most once, exactly once when the flight has
      answered anyone, and everyone it answered holds the same token and error. */
  lemma NoLateEntryOneMint(cfg: Config, s: State, run: seq<Label>, k: Key)
    requires Initial(s) && Exec(cfg, s, run).Some? && NoLateEntry(cfg, s, run, k)
    ensures var t := Exec(cfg, s, run).value;
      && MintCount(cfg, t, k) <= 1
      && ((exists g: nat :: AnsweredByFlight(cfg, t, g, k)) ==> MintCount(cfg, t, k) == 1)
      && (forall g: nat, h: nat :: AnsweredByFlight(cfg, t, g, k) && AnsweredByFlight(cfg, t, h, k) ==>
            t.callers[g].pc.outcome == t.callers[h].pc.outcome)
  {
    OneLeadUnlessLateEntry(cfg, s, run, k);
    RunKeepsInv(cfg, s, run);
    var t := Exec(cfg, s, run).value;
    OneLeadOneMint(cfg, t, k);
    forall g: nat | AnsweredByFlight(cfg, t, g, k) ensures MintsOf(cfg, t, k) != {} {
      var c, i := AnswerHasLead(cfg, t, k, g);
    }
    forall g: nat, h: nat | AnsweredByFlight(cfg, t, g, k) && AnsweredByFlight(cfg, t, h, k)
      ensures t.callers[g].pc.outcome == t.callers[h].pc.outcome
    {
      var c, i := AnswerHasLead(cfg, t, k, g);
      var d, j := AnswerHasLead(cfg, t, k, h);
      assert c == d;
    }
  }

  /** Nobody has registered a call for k and not called the source yet. */
  ghost predicate NoneAboutToMint(cfg: Config, s: State, k: Key) {
    forall g: nat :: g < |s.callers| && KeyFor(cfg, s.callers[g].name) == k ==> !s.callers[g].pc.Minting?
  }

  lemma TwoLeadsTwoMints(cfg: Config, s: State, k: Key)
    requires Inv(cfg, s) && NoneAboutToMint(cfg, s, k) && !AtMostOneLead(s, k)
    ensures MintCount(cfg, s, k) >= 2
  {
    var c, d :| 0 <= c < |s.leads| && 0 <= d < |s.leads| && s.leads[c].key == k && s.leads[d].key == k && c != d;
    assert LeadOk(cfg, s, c) && LeadOk(cfg, s, d);
    var i := LeadMinted(cfg, s, c);
    var j := LeadMinted(cfg, s, d);
    assert {i, j} <= MintsOf(cfg, s, k);
    SubsetSize({i, j}, MintsOf(cfg, s, k));
  }

  /** The promise "one mint per key per race" holds of a run exactly when no caller enters the
      flight for the key after an earlier call for it has left the table: for every run that
      leaves nobody about to call the source, such as any in which all callers have returned. */
  lemma OneMintUnlessLateEntry(cfg: Config, s: State, run: seq<Label>, k: Key)
    requires Initial(s) && Exec(cfg, s, run).Some? && NoneAboutToMint(cfg, Exec(cfg, s, run).value, k)
    ensures MintCount(cfg, Exec(cfg, s, run).value, k) <= 1 <==> NoLateEntry(cfg, s, run, k)
  {
    OneLeadUnlessLateEntry(cfg, s, run, k);
    RunKeepsInv(cfg, s, run);
    var t := Exec(cfg, s, run).value;
    if AtMostOneLead(t, k) {
      OneLeadOneMint(cfg, t, k);
    } else {
      TwoLeadsTwoMints(cfg, t, k);
    }
  }

  // ---------------------------------------------------------------- progress

  /** An upper bound on the actions a caller still has before it returns. */
  function Rank(pc: Pc): nat {
    match pc
    case Start => 10
    case Reading(_) => 9
    case Missed => 8
    case Minting(_) => 7
    case Stamping(_, _) => 6
    case Storing(_, _) => 5
    case Minted(_, _) => 4
    case HalfPublished(_, _) => 3
    case Published(_, _) => 2
    case Removed(_, _) => 1
    case Waiting(_) => 1
    case Returned(_, _) => 0
  }

  function Remaining(callers: seq<Caller>): nat {
    if callers == [] then 0 else Remaining(callers[..|callers| - 1]) + Rank(callers[|callers| - 1].pc)
  }

  lemma {:induction false} RemainingAfter(callers: seq<Caller>, g: nat, pc: Pc)
    requires g < |callers|
    ensures Remaining(callers[g := callers[g].(pc := pc)]) == Remaining(callers) - Rank(callers[g].pc) + Rank(pc)
  {
    var last := |callers| - 1;
    var updated := callers[g := callers[g].(pc := pc)];
    if g == last {
      assert updated[..last] == callers[..last];
    } else {
      RemainingAfter(callers[..last], g, pc);
      assert updated[..last] == callers[..last][g := callers[..last][g].(pc := pc)];
    }
  }

  /** Every action of a caller uses up some of what remains. */
  lemma StepUsesUp(cfg: Config, s: State, g: nat, a: Action)
    requires g < |s.callers| && Step(cfg, s, g, a).Some?
    ensures Remaining(Step(cfg, s, g, a).value.callers) < Remaining(s.callers)
  {
    var pc := Step(cfg, s, g, a).value.callers[g].pc;
    assert Step(cfg, s, g, a).value.callers == s.callers[g := s.callers[g].(pc := pc)];
    RemainingAfter(s.callers, g, pc);
  }

  function ActCount(run: seq<Label>): nat {
    if run == [] then 0 else ActCount(run[..|run| - 1]) + (if run[|run| - 1].Act? then 1 else 0)
  }

  /** No run contains more caller actions than remained at its start, however often the store
      drops entries in between. */
  lemma {:induction false} RunsAreFinite(cfg: Config, s: State, run: seq<Label>)
    requires Exec(cfg, s, run).Some?
    ensures ActCount(run) + Remaining(Exec(cfg, s, run).value.callers) <= Remaining(s.callers)
  {
    if run != [] {
      RunsAreFinite(cfg, s, run[..|run| - 1]);
      var l := run[|run| - 1];
      if l.Act? {
        StepUsesUp(cfg, Exec(cfg, s, run[..|run| - 1]).value, l.caller, l.action);
      }
    }
  }

  /** The action a caller is waiting to take, with every seam answering. */
  function Pending(pc: Pc): Action {
    match pc
    case Start => ReadClock(Ok(0))
    case Reading(_) => ReadStore(true)
    case Missed => EnterFlight
    case Minting(_) => CallSource(Ok(ZERO_TOKEN))
    case Stamping(_, _) => ReadClock(Ok(0))
    case Storing(_, _) => WriteStore(true, true)
    case Minted(_, _) => Publish
    case HalfPublished(_, _) => Publish
    case Published(_, _) => LeaveTable
    case Removed(_, _) => CloseDone
    case Waiting(_) => Wake
    case Returned(_, _) => Wake
  }

  /** No lost wake-up and no deadlock: while some caller has not returned, some caller can move. */
  lemma SomeoneCanMove(cfg: Config, s: State, run: seq<Label>, g: nat) returns (mover: nat)
    requires Initial(s) && Exec(cfg, s, run).Some? && g < |s.callers|
    requires |Exec(cfg, s, run).value.callers| == |s.callers|
    requires !Exec(cfg, s, run).value.callers[g].pc.Returned?
    ensures var t := Exec(cfg, s, run).value;
      mover < |t.callers| && Step(cfg, t, mover, Pending(t.callers[mover].pc)).Some?
  {
    RunKeepsInv(cfg, s, run);
    var t := Exec(cfg, s, run).value;
    assert CallerOk(cfg, t, g);
    mover := g;
    if t.callers[g].pc.Waiting? {
      var c := t.callers[g].pc.call;
      assert LeadOk(cfg, t, c);
      if !t.flights.calls[c].done {
        mover := t.leads[c].caller;
        assert CallerOk(cfg, t, mover);
      }
    }
  }

  /** A run no caller can extend has answered every caller. */
  lemma StuckRunsAreComplete(cfg: Config, s: State, run: seq<Label>)
    requires Initial(s) && Exec(cfg, s, run).Some?
    requires var t := Exec(cfg, s, run).value;
      forall g: nat, a :: g < |t.callers| ==> Step(cfg, t, g, a).None?
    ensures forall g :: 0 <= g < |s.callers| ==>
      g < |Exec(cfg, s, run).value.callers| && Exec(cfg, s, run).value.callers[g].pc.Returned?
  {
    RunKeepsInv(cfg, s, run);
    var t := Exec(cfg, s, run).value;
    forall g | 0 <= g < |t.callers| ensures t.callers[g].pc.Returned? {
      if !t.callers[g].pc.Returned? {
        var mover := SomeoneCanMove(cfg, s, run, g);
        assert false;
      }
    }
  }

  // ---------------------------------------------------------------- whose token it is

  predicate Usable(cfg: Config, name: string) {
    Resolve(cfg, name).Ok?
  }

  /** No two usable resource names share a cache key. */
  ghost predicate KeysDistinct(cfg: Config) {
    forall m, n :: Usable(cfg, m) && Usable(cfg, n) && KeyFor(cfg, m) == KeyFor(cfg, n) ==> m == n
  }

  /** Every entry filed under a usable name's key is a token for that name. */
  ghost predicate StoreOwned(cfg: Config, s: State) {
    forall n :: Usable(cfg, n) && KeyFor(cfg, n) in s.store ==> s.store[KeyFor(cfg, n)].resource == n
  }

  /** A returned token is for the name asked for. */
  ghost predicate AnswersOwn(s: State) {
    forall g :: 0 <= g < |s.callers| && s.callers[g].pc.Returned? && s.callers[g].pc.outcome.err.None? ==>
      s.callers[g].pc.outcome.token.resource == s.callers[g].name
  }

  /** Whatever token a caller carries is for its own name. */
  predicate CarriesOwn(cfg: Config, caller: Caller) {
    var Caller(name, pc) := caller;
    && (pc.Reading? || FoundNothing(pc) ==> Usable(cfg, name))
    && (pc.Stamping? || pc.Storing? ==> pc.token.resource == name)
    && (pc.Minted? || pc.HalfPublished? || pc.Published? || pc.Removed? || pc.Returned? ==>
      pc.outcome.err.None? ==> pc.outcome.token.resource == name)
  }

  ghost predicate Owned(cfg: Config, s: State) {
    && StoreOwned(cfg, s)
    && forall g :: 0 <= g < |s.callers| ==> CarriesOwn(cfg, s.callers[g])
  }

  lemma StepKeepsOwned(cfg: Config, s: State, g: nat, a: Action)
    requires KeysDistinct(cfg) && Inv(cfg, s) && Owned(cfg, s)
    requires g < |s.callers| && Step(cfg, s, g, a).Some?
    ensures Owned(cfg, Step(cfg, s, g, a).value)
  {
    var t := Step(cfg, s, g, a).value;
    assert CallerOk(cfg, s, g) && CarriesOwn(cfg, s.callers[g]);
    if s.callers[g].pc.Waiting? {
      var c := s.callers[g].pc.call;
      assert LeadOk(cfg, s, c);
      assert CarriesOwn(cfg, s.callers[s.leads[c].caller]);
    }
    assert CarriesOwn(cfg, t.callers[g]);
    assert forall h :: 0 <= h < |s.callers| && h != g ==> t.callers[h] == s.callers[h];
  }

  lemma {:induction false} RunKeepsOwned(cfg: Config, s: State, run: seq<Label>)
    requires KeysDistinct(cfg) && Initial(s) && StoreOwned(cfg, s) && Exec(cfg, s, run).Some?
    ensures Owned(cfg, Exec(cfg, s, run).value)
  {
    if run != [] {
      var past, l := run[..|run| - 1], run[|run| - 1];
      RunKeepsOwned(cfg, s, past);
      RunKeepsInv(cfg, s, past);
      if l.Act? {
        StepKeepsOwned(cfg, Exec(cfg, s, past).value, l.caller, l.action);
      }
    }
  }

  /** If the caller was served from the store, its token was live, with the skew to spare, at the
      caller's own reading. */
  predicate ServedLive(cfg: Config, pc: Pc) {
    pc.Returned? && pc.via.Cached? ==>
      pc.outcome.err.None? && pc.via.now + cfg.skew < pc.outcome.token.expiresAt
  }

  lemma StepServesLive(cfg: Config, s: State, g: nat, a: Action)
    requires g < |s.callers| && Step(cfg, s, g, a).Some?
    ensures |Step(cfg, s, g, a).value.callers| == |s.callers|
    ensures ServedLive(cfg, Step(cfg, s, g, a).value.callers[g].pc)
  {
  }

  /** Every token served from the store was live at the reading of the caller it was served to. */
  lemma {:induction false} CachedTokensAreLive(cfg: Config, s: State, run: seq<Label>, g: nat)
    requires Initial(s) && Exec(cfg, s, run).Some? && g < |s.callers|
    ensures var t := Exec(cfg, s, run).value;
      |t.callers| == |s.callers| && ServedLive(cfg, t.callers[g].pc)
  {
    if run != [] {
      var past, l := run[..|run| - 1], run[|run| - 1];
      CachedTokensAreLive(cfg, s, past, g);
      if l.Act? {
        StepServesLive(cfg, Exec(cfg, s, past).value, l.caller, l.action);
        StepMovesOne(cfg, Exec(cfg, s, past).value, l.caller, l.action);
      }
    }
  }

  ghost predicate SoundRun(cfg: Config, s: State, run: seq<Label>) {
    Initial(s) && StoreOwned(cfg, s) && Exec(cfg, s, run).Some? ==>
      StoreOwned(cfg, Exec(cfg, s, run).value) && AnswersOwn(Exec(cfg, s, run).value)
  }

  /** Every run files and returns tokens under their own names exactly when no two usable names
      share a cache key. */
  lemma SoundExactlyWhenKeysDistinct(cfg: Config)
    ensures KeysDistinct(cfg) <==> forall s, run :: SoundRun(cfg, s, run)
  {
    if KeysDistinct(cfg) {
      forall s, run ensures SoundRun(cfg, s, run) {
        if Initial(s) && StoreOwned(cfg, s) && Exec(cfg, s, run).Some? {
          RunKeepsOwned(cfg, s, run);
          var t := Exec(cfg, s, run).value;
          assert forall g :: 0 <= g < |t.callers| ==> CarriesOwn(cfg, t.callers[g]);
        }
      }
    } else {
      var m, n :| Usable(cfg, m) && Usable(cfg, n) && KeyFor(cfg, m) == KeyFor(cfg, n) && m != n;
      var s, run := SharedKeyServesAnothersToken(cfg, m, n);
      assert !SoundRun(cfg, s, run);
    }
  }

  /** Two names with one key: the second caller is served the first one's token. */
  lemma SharedKeyServesAnothersToken(cfg: Config, m: string, n: string) returns (s: State, run: seq<Label>)
    requires Usable(cfg, m) && Usable(cfg, n) && KeyFor(cfg, m) == KeyFor(cfg, n) && m != n
    ensures Initial(s) && StoreOwned(cfg, s) && Exec(cfg, s, run).Some?
    ensures !AnswersOwn(Exec(cfg, s, run).value)
  {
    s := Cold(Caller(m, Start), Caller(n, Start));
    var k, token := KeyFor(cfg, m), AccessToken("", m, [], 0, cfg.skew + 1);
    run := FirstMints(cfg, s, [], token, Caller(n, Start));
    var t := Exec(cfg, s, run).value;
    var first := t.callers[0];
    run := Then(cfg, s, run, Act(1, ReadClock(Ok(0))), t.(callers := [first, Caller(n, Reading(0))]));
    var served := Caller(n, Returned(Outcome(token, None), Cached(0)));
    run := Then(cfg, s, run, Act(1, ReadStore(true)), t.(callers := [first, served]));
    assert Exec(cfg, s, run).value.callers[1] == served;
  }
}
