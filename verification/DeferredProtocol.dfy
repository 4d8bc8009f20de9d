/** Any number of mints and exchanges interleaved, with a forward-moving clock and a store that
    may evict a record once its ttl has run out. */
module DeferredProtocol {
  import opened Common
  import opened Stores
  import opened Deferred

  // ---------------------------------------------------------------- the system

  /** The nonce lifetime, and whether the store consumes in one atomic step; otherwise it reads
      the record first and writes the mark afterwards. */
  datatype Config = Config(lifetime: Duration, atomic: bool)

  datatype Pc =
    | Minting(request: OneTimeRequest)
    | Putting(nonce: Nonce, record: HandoffRecord)
    | Exchanging(nonce: Nonce)
    | Consuming(nonce: Nonce, now: Instant)
    | Marking(nonce: Nonce, now: Instant, found: Option<HandoffRecord>)
    | Calling(nonce: Nonce, now: Instant, request: OneTimeRequest)
    | Minted(handoff: Handoff)
    | Redeemed(verdict: Verdict, answer: Result<OneTimeToken>)
    | Refused(problem: Problem)

  datatype Entry = Entry(record: HandoffRecord, evictAt: Instant)

  /** The steps that take effect on the store, in the order they did. */
  datatype Event =
    | Stored(record: HandoffRecord)
    | Redemption(proc: nat, nonce: Nonce, now: Instant, verdict: Verdict)
    | Lost(nonce: Nonce)  // consumed, but the store answered with an error
    | Evicted(d: Digest)

  /** One call to the provider for a one-time token. */
  datatype Asked = Asked(proc: nat, nonce: Nonce, now: Instant, request: OneTimeRequest)

  /** `issued` is every nonce the random source has produced, and the mint that drew it; `log` and
      `calls` record history. */
  datatype State = State(
    time: Instant,
    store: map<Digest, Entry>,
    issued: map<Nonce, nat>,
    procs: seq<Pc>,
    log: seq<Event>,
    calls: seq<Asked>)

  datatype Action =
    | ReadClock(ok: bool, nonce: Nonce)  // the nonce is the random source's, for a mint
    | WriteStore(ok: bool, landed: bool)
    | ReadStore(ok: bool)
    | CallProvider(answer: Result<OneTimeToken>)

  datatype Label = Act(proc: nat, action: Action) | Tick(to: Instant) | Drop(d: Digest)

  function RecordsOf(store: map<Digest, Entry>): Records {
    map d | d in store :: store[d].record
  }

  function MarkedIn(store: map<Digest, Entry>, d: Digest): map<Digest, Entry> {
    if d in store then store[d := store[d].(record := store[d].record.(consumed := true))] else store
  }

  function Find(store: map<Digest, Entry>, d: Digest): Option<HandoffRecord> {
    if d in store then Some(store[d].record) else None
  }

  function Move(s: State, p: nat, pc: Pc): State
    requires p < |s.procs|
  {
    s.(procs := s.procs[p := pc])
  }

  function Judged(nonce: Nonce, now: Instant, verdict: Verdict): Pc {
    match verdict
    case Accepted(request) => Calling(nonce, now, request)
    case _ => Redeemed(verdict, Err(ProblemOf(verdict)))
  }

  function Step(cfg: Config, s: State, p: nat, a: Action): Option<State>
    requires p < |s.procs|
  {
    match (s.procs[p], a)
    case (Minting(request), ReadClock(ok, nonce)) =>
      if request.subject == "" then Some(Move(s, p, Refused(TokenClaimMissing)))
      else if !ok then Some(Move(s, p, Refused(ProviderUnavailable)))
      else if nonce == "" || nonce in s.issued then None
      else
        var record := HandoffRecord(Digest(nonce), request.subject, request.email, s.time, s.time + cfg.lifetime, false);
        Some(Move(s, p, Putting(nonce, record)).(issued := s.issued[nonce := p]))
    case (Putting(nonce, record), WriteStore(ok, landed)) =>
      var moved := Move(s, p, if ok then Minted(Handoff(nonce, record.expiresAt)) else Refused(ProviderUnavailable));
      Some(if ok || landed
           then moved.(store := s.store[record.digest := Entry(record, s.time + cfg.lifetime)], log := s.log + [Stored(record)])
           else moved)
    case (Exchanging(nonce), ReadClock(ok, _)) =>
      Some(Move(s, p,
        if nonce == "" then Refused(DeferredTokenUnknown)
        else if !ok then Refused(ProviderUnavailable)
        else Consuming(nonce, s.time)))
    case (Consuming(nonce, now), WriteStore(ok, landed)) =>
      if !cfg.atomic then None
      else
        var d := Digest(nonce);
        var verdict := Decide(Find(s.store, d), now);
        if ok then
          Some(Move(s, p, Judged(nonce, now, verdict))
            .(store := MarkedIn(s.store, d), log := s.log + [Redemption(p, nonce, now, verdict)]))
        else if landed then
          Some(Move(s, p, Refused(ProviderUnavailable)).(store := MarkedIn(s.store, d), log := s.log + [Lost(nonce)]))
        else Some(Move(s, p, Refused(ProviderUnavailable)))
    case (Consuming(nonce, now), ReadStore(ok)) =>
      if cfg.atomic then None
      else Some(Move(s, p, if ok then Marking(nonce, now, Find(s.store, Digest(nonce))) else Refused(ProviderUnavailable)))
    case (Marking(nonce, now, found), WriteStore(ok, _)) =>
      Some(if ok then Move(s, p, Judged(nonce, now, Decide(found, now))).(store := MarkedIn(s.store, Digest(nonce)))
           else Move(s, p, Refused(ProviderUnavailable)))
    case (Calling(nonce, now, request), CallProvider(answer)) =>
      Some(Move(s, p, Redeemed(Accepted(request), answer)).(calls := s.calls + [Asked(p, nonce, now, request)]))
    case _ => None
  }

  function Next(cfg: Config, s: State, l: Label): Option<State> {
    match l
    case Act(p, a) => if p < |s.procs| then Step(cfg, s, p, a) else None
    case Tick(to) => if s.time <= to then Some(s.(time := to)) else None
    case Drop(d) =>
      if d in s.store && s.store[d].evictAt <= s.time
      then Some(s.(store := s.store - {d}, log := s.log + [Evicted(d)])) else None
  }

  function Exec(cfg: Config, s: State, run: seq<Label>): Option<State> {
    if run == [] then Some(s)
    else
      var before := Exec(cfg, s, run[..|run| - 1]);
      if before.None? then None else Next(cfg, before.value, run[|run| - 1])
  }

  /** Nothing stored or issued, and operations that have not begun. */
  predicate Initial(s: State) {
    && s.store == map[] && s.issued == map[] && s.log == [] && s.calls == []
    && forall p :: 0 <= p < |s.procs| ==> s.procs[p].Minting? || s.procs[p].Exchanging?
  }

  // ---------------------------------------------------------------- the sequential run

  /** One event carried out alone. */
  function Played(records: Records, e: Event): Records {
    match e
    case Stored(record) => records[record.digest := record]
    case Redemption(_, nonce, _, _) => Marked(records, Digest(nonce))
    case Lost(nonce) => Marked(records, Digest(nonce))
    case Evicted(d) => records - {d}
  }

  /** The records after the events are carried out one by one, in order. */
  function Play(log: seq<Event>): Records {
    if log == [] then map[] else Played(Play(log[..|log| - 1]), log[|log| - 1])
  }

  /** Each redemption's verdict is the one it gets when the events are carried out one by one. */
  ghost predicate SameVerdicts(log: seq<Event>) {
    forall i :: 0 <= i < |log| && log[i].Redemption? ==>
      log[i].verdict == Redeem(LifeOf(Play(log[..i]), log[i].nonce), log[i].now).1
  }

  // ---------------------------------------------------------------- the invariant

  /** The stored records are what the events carried out one by one leave, and every verdict is
      the one it gets there. */
  ghost predicate LogOk(s: State) {
    RecordsOf(s.store) == Play(s.log) && SameVerdicts(s.log)
  }

  /** Some stored record backs an accepted redemption. */
  ghost predicate Backed(log: seq<Event>, e: Event)
    requires e.Redemption?
  {
    e.verdict.Accepted? ==>
      exists r :: Stored(r) in log && r.digest == Digest(e.nonce) && RequestOf(r) == e.verdict.request && e.now < r.expiresAt
  }

  predicate Wins(e: Event) {
    e.Redemption? && e.verdict.Accepted?
  }

  /** Records come from mints; a nonce is stored once and accepted once, and after that it is no
      longer fresh. */
  ghost predicate EventsOk(records: Records, log: seq<Event>, issued: set<Nonce>) {
    && (forall d :: d in records ==> records[d].digest == d && Stored(records[d].(consumed := false)) in log)
    && (forall e :: e in log && e.Stored? ==> e.record.digest.of in issued)
    && (forall i, j :: 0 <= i < j < |log| && log[i].Stored? && log[j].Stored? ==>
      log[i].record.digest != log[j].record.digest)
    && (forall e :: e in log && e.Redemption? ==> Backed(log, e))
    && (forall e :: e in log && Wins(e) ==> !LifeOf(records, e.nonce).Fresh?)
    && (forall e, f :: e in log && f in log && Wins(e) && Wins(f) && e.nonce == f.nonce ==> e == f)
  }

  /** Every exchange that got a verdict has its one event in the log, with that verdict. */
  ghost predicate VerdictsOk(s: State) {
    && (forall p :: 0 <= p < |s.procs| ==> ProcOk(s, p))
    && (forall i, j :: 0 <= i < j < |s.log| && s.log[i].Redemption? && s.log[j].Redemption? ==>
      s.log[i].proc != s.log[j].proc)
    && (forall e :: e in s.log && e.Redemption? ==>
      e.proc < |s.procs| && (s.procs[e.proc].Calling? || s.procs[e.proc].Redeemed?))
  }

  ghost predicate ProcOk(s: State, p: nat)
    requires p < |s.procs|
  {
    match s.procs[p]
    case Calling(nonce, now, request) => Redemption(p, nonce, now, Accepted(request)) in s.log
    case Redeemed(verdict, answer) =>
      && (exists nonce, now :: Redemption(p, nonce, now, verdict) in s.log)
      && (!verdict.Accepted? ==> answer == Err(ProblemOf(verdict)))
    case Putting(nonce, record) =>
      && record.digest == Digest(nonce) && !record.consumed && nonce in s.issued
      && (forall e :: e in s.log && e.Stored? ==> e.record.digest != Digest(nonce))
      && (forall q :: 0 <= q < |s.procs| && q != p && s.procs[q].Putting? ==> s.procs[q].nonce != nonce)
    case Minted(handoff) => exists r :: Stored(r) in s.log && Opens(r, handoff)
    case Marking(_, _, _) => false
    case _ => true
  }

  /** The fresh record that redeeming the handoff will find. */
  predicate Opens(r: HandoffRecord, handoff: Handoff) {
    r.digest == Digest(handoff.token) && r.expiresAt == handoff.expiresAt && !r.consumed
  }

  /** Every provider call is by the exchange that won its nonce, and no exchange calls twice. */
  ghost predicate CallsOk(s: State) {
    && (forall c :: c in s.calls ==>
      && Redemption(c.proc, c.nonce, c.now, Accepted(c.request)) in s.log
      && c.proc < |s.procs| && s.procs[c.proc].Redeemed?)
    && (forall i, j :: 0 <= i < j < |s.calls| ==> s.calls[i].proc != s.calls[j].proc)
  }

  ghost predicate Inv(s: State) {
    LogOk(s) && EventsOk(RecordsOf(s.store), s.log, s.issued.Keys) && VerdictsOk(s) && CallsOk(s)
  }

  /** A redemption's verdict is the one these records give it. */
  predicate AgreesWith(records: Records, e: Event) {
    e.Redemption? ==> e.verdict == Redeem(LifeOf(records, e.nonce), e.now).1
  }

  lemma PlayOneMore(log: seq<Event>, e: Event)
    ensures Play(log + [e]) == Played(Play(log), e)
    ensures SameVerdicts(log) && AgreesWith(Play(log), e) ==> SameVerdicts(log + [e])
  {
    assert (log + [e])[..|log|] == log;
    assert forall i :: 0 <= i < |log| ==> (log + [e])[i] == log[i] && (log + [e])[..i] == log[..i];
  }

  /** No record with this digest was ever stored. */
  ghost predicate Unstored(log: seq<Event>, d: Digest) {
    forall e :: e in log && e.Stored? ==> e.record.digest != d
  }

  /** What may take effect next. */
  ghost predicate Fits(records: Records, log: seq<Event>, issued: set<Nonce>, e: Event) {
    && AgreesWith(records, e)
    && (e.Stored? ==> !e.record.consumed && e.record.digest.of in issued && Unstored(log, e.record.digest))
  }

  lemma EventKeepsOk(records: Records, log: seq<Event>, issued: set<Nonce>, e: Event)
    requires EventsOk(records, log, issued) && Fits(records, log, issued, e)
    ensures EventsOk(Played(records, e), log + [e], issued)
  {
    var records', log' := Played(records, e), log + [e];
    assert forall f :: f in log' <==> f in log || f == e;
    forall d | d in records' ensures records'[d].digest == d && Stored(records'[d].(consumed := false)) in log' {
      assert d in records ==> Stored(records[d].(consumed := false)) in log;
    }
    forall f | f in log' && f.Redemption? ensures Backed(log', f) {
      if f == e && e.verdict.Accepted? {
        assert Stored(records[Digest(e.nonce)]) in log';
      } else {
        assert Backed(log, f) || !f.verdict.Accepted?;
      }
    }
    forall f | f in log' && Wins(f) ensures !LifeOf(records', f.nonce).Fresh? {
      WinnerStaysSpent(records, log, issued, e, f);
    }
  }

  lemma WinnerStaysSpent(records: Records, log: seq<Event>, issued: set<Nonce>, e: Event, f: Event)
    requires EventsOk(records, log, issued) && Fits(records, log, issued, e)
    requires (f in log || f == e) && Wins(f)
    ensures !LifeOf(Played(records, e), f.nonce).Fresh?
  {
    if f in log {
      assert Backed(log, f) && !LifeOf(records, f.nonce).Fresh?;
    }
  }

  lemma RecordsPut(store: map<Digest, Entry>, d: Digest, entry: Entry)
    ensures RecordsOf(store[d := entry]) == RecordsOf(store)[d := entry.record]
  {
  }

  lemma RecordsFollow(store: map<Digest, Entry>, d: Digest)
    ensures RecordsOf(store - {d}) == RecordsOf(store) - {d}
    ensures RecordsOf(MarkedIn(store, d)) == Marked(RecordsOf(store), d)
  {
  }

  lemma VerdictFits(store: map<Digest, Entry>, nonce: Nonce, now: Instant)
    ensures Decide(Find(store, Digest(nonce)), now) == Redeem(LifeOf(RecordsOf(store), nonce), now).1
  {
    ConsumeRedeems(RecordsOf(store), nonce, now);
  }

  /** The event a label adds to the log, if any. */
  function Added(s: State, t: State): Option<Event> {
    if |t.log| <= |s.log| then None else Some(t.log[|t.log| - 1])
  }

  /** What a label adds to the log, and who adds it. */
  lemma Traces(cfg: Config, s: State, l: Label)
    requires Next(cfg, s, l).Some?
    ensures var t := Next(cfg, s, l).value;
      var e := Added(s, t);
      && t.log == s.log + (if e.Some? then [e.value] else [])
      && (e.Some? && e.value.Stored? ==> l.Act? && s.procs[l.proc].Putting? && s.procs[l.proc].record == e.value.record)
      && (e.Some? && e.value.Redemption? ==>
            l.Act? && l.proc == e.value.proc && s.procs[l.proc] == Consuming(e.value.nonce, e.value.now))
  {
  }

  lemma NextIssues(cfg: Config, s: State, l: Label)
    requires Next(cfg, s, l).Some?
    ensures s.issued.Keys <= Next(cfg, s, l).value.issued.Keys
  {
  }

  lemma StoringFits(cfg: Config, s: State, p: nat, a: Action)
    requires VerdictsOk(s) && p < |s.procs| && s.procs[p].Putting? && Step(cfg, s, p, a).Some?
    ensures var t := Step(cfg, s, p, a).value;
      var e := Added(s, t);
      && RecordsOf(t.store) == (if e.Some? then Played(RecordsOf(s.store), e.value) else RecordsOf(s.store))
      && (e.Some? ==> Fits(RecordsOf(s.store), s.log, s.issued.Keys, e.value))
  {
    assert ProcOk(s, p);
    RecordsPut(s.store, s.procs[p].record.digest, Entry(s.procs[p].record, s.time + cfg.lifetime));
  }

  lemma ConsumingFits(cfg: Config, s: State, p: nat, a: Action)
    requires cfg.atomic && p < |s.procs| && s.procs[p].Consuming? && Step(cfg, s, p, a).Some?
    ensures var t := Step(cfg, s, p, a).value;
      var e := Added(s, t);
      && RecordsOf(t.store) == (if e.Some? then Played(RecordsOf(s.store), e.value) else RecordsOf(s.store))
      && (e.Some? ==> Fits(RecordsOf(s.store), s.log, s.issued.Keys, e.value))
      && (e.Some? && e.value.Redemption? ==> t.procs[p] == Judged(e.value.nonce, e.value.now, e.value.verdict))
  {
    RecordsFollow(s.store, Digest(s.procs[p].nonce));
    VerdictFits(s.store, s.procs[p].nonce, s.procs[p].now);
  }

  lemma OthersAddNothing(cfg: Config, s: State, p: nat, a: Action)
    requires cfg.atomic && VerdictsOk(s) && p < |s.procs| && Step(cfg, s, p, a).Some?
    requires !s.procs[p].Putting? && !s.procs[p].Consuming?
    ensures Step(cfg, s, p, a).value.store == s.store && Added(s, Step(cfg, s, p, a).value) == None
  {
    assert ProcOk(s, p);
  }

  /** What a label does to the log and the stored records, if anything. */
  lemma Effect(cfg: Config, s: State, l: Label) returns (e: Option<Event>)
    requires cfg.atomic && VerdictsOk(s) && Next(cfg, s, l).Some?
    ensures e == Added(s, Next(cfg, s, l).value)
    ensures RecordsOf(Next(cfg, s, l).value.store)
      == (if e.Some? then Played(RecordsOf(s.store), e.value) else RecordsOf(s.store))
    ensures e.Some? ==> Fits(RecordsOf(s.store), s.log, s.issued.Keys, e.value)
    ensures e.Some? && e.value.Redemption? ==>
      l.Act? && Next(cfg, s, l).value.procs[l.proc] == Judged(e.value.nonce, e.value.now, e.value.verdict)
  {
    e := Added(s, Next(cfg, s, l).value);
    match l
    case Act(p, a) =>
      if s.procs[p].Putting? {
        StoringFits(cfg, s, p, a);
        Traces(cfg, s, l);
      } else if s.procs[p].Consuming? {
        ConsumingFits(cfg, s, p, a);
      } else {
        OthersAddNothing(cfg, s, p, a);
      }
    case Tick(_) =>
    case Drop(d) => RecordsFollow(s.store, d);
  }

  lemma EventsOkWithMore(records: Records, log: seq<Event>, issued: set<Nonce>, more: set<Nonce>)
    requires EventsOk(records, log, issued) && issued <= more
    ensures EventsOk(records, log, more)
  {
  }

  lemma NextKeepsEvents(cfg: Config, s: State, l: Label)
    requires cfg.atomic && VerdictsOk(s) && Next(cfg, s, l).Some?
    requires LogOk(s) && EventsOk(RecordsOf(s.store), s.log, s.issued.Keys)
    ensures var t := Next(cfg, s, l).value; LogOk(t) && EventsOk(RecordsOf(t.store), t.log, t.issued.Keys)
  {
    var t := Next(cfg, s, l).value;
    var e := Effect(cfg, s, l);
    Traces(cfg, s, l);
    NextIssues(cfg, s, l);
    if e.Some? {
      PlayOneMore(s.log, e.value);
      EventKeepsOk(RecordsOf(s.store), s.log, s.issued.Keys, e.value);
      assert LogOk(t);
    } else {
      assert t.log == s.log;
    }
    EventsOkWithMore(RecordsOf(t.store), t.log, s.issued.Keys, t.issued.Keys);
  }

  lemma NextKeepsVerdicts(cfg: Config, s: State, l: Label)
    requires cfg.atomic && VerdictsOk(s) && EventsOk(RecordsOf(s.store), s.log, s.issued.Keys) && Next(cfg, s, l).Some?
    ensures VerdictsOk(Next(cfg, s, l).value)
  {
    var t := Next(cfg, s, l).value;
    NextMovesOne(cfg, s, l);
    forall p | 0 <= p < |t.procs| ensures ProcOk(t, p) {
      if l.Act? && l.proc == p {
        ActorOk(cfg, s, p, l.action);
      } else {
        BystanderOk(cfg, s, l, p);
      }
    }
    Traces(cfg, s, l);
    var e := Effect(cfg, s, l);
    OneRedemptionEach(s, t, e);
  }

  /** A new redemption is by an operation that had none and now has its verdict. */
  lemma OneRedemptionEach(s: State, t: State, e: Option<Event>)
    requires VerdictsOk(s) && |t.procs| == |s.procs| && (forall p :: 0 <= p < |t.procs| ==> ProcOk(t, p))
    requires t.log == s.log + (if e.Some? then [e.value] else [])
    requires e.Some? && e.value.Redemption? ==>
      && e.value.proc < |s.procs| && s.procs[e.value.proc].Consuming?
      && (t.procs[e.value.proc].Calling? || t.procs[e.value.proc].Redeemed?)
    requires forall p :: 0 <= p < |s.procs| && (s.procs[p].Calling? || s.procs[p].Redeemed?) ==>
      t.procs[p].Calling? || t.procs[p].Redeemed?
    ensures VerdictsOk(t)
  {
    forall f | f in t.log && f.Redemption?
      ensures f.proc < |t.procs| && (t.procs[f.proc].Calling? || t.procs[f.proc].Redeemed?)
    {
      assert f in s.log || Some(f) == e;
    }
    assert forall i :: 0 <= i < |s.log| ==> s.log[i] == t.log[i] && s.log[i] in s.log;
  }

  lemma DrawnIsNew(cfg: Config, s: State, p: nat, a: Action)
    requires cfg.atomic && VerdictsOk(s) && EventsOk(RecordsOf(s.store), s.log, s.issued.Keys)
    requires p < |s.procs| && Step(cfg, s, p, a).Some? && Step(cfg, s, p, a).value.procs[p].Putting?
    ensures ProcOk(Step(cfg, s, p, a).value, p)
  {
    assert forall q :: 0 <= q < |s.procs| && s.procs[q].Putting? && ProcOk(s, q) ==> s.procs[q].nonce in s.issued;
  }

  lemma ActorOk(cfg: Config, s: State, p: nat, a: Action)
    requires cfg.atomic && VerdictsOk(s) && EventsOk(RecordsOf(s.store), s.log, s.issued.Keys)
    requires p < |s.procs| && Step(cfg, s, p, a).Some?
    ensures p < |Step(cfg, s, p, a).value.procs| && ProcOk(Step(cfg, s, p, a).value, p)
  {
    var t := Step(cfg, s, p, a).value;
    assert ProcOk(s, p);
    var e := Added(s, t);
    Traces(cfg, s, Act(p, a));
    assert e.Some? ==> e.value in t.log;
    if t.procs[p].Putting? {
      DrawnIsNew(cfg, s, p, a);
    } else if t.procs[p].Minted? {
      assert Stored(s.procs[p].record) in t.log && Opens(s.procs[p].record, t.procs[p].handoff);
    } else if s.procs[p].Calling? {
      assert Redemption(p, s.procs[p].nonce, s.procs[p].now, Accepted(s.procs[p].request)) in t.log;
    } else if s.procs[p].Consuming? {
      ConsumingFits(cfg, s, p, a);
    }
  }

  /** A label moves the operation that takes it and no other; one that comes to hold a nonce to
      store holds a new one, and one that has its verdict keeps it. */
  lemma NextMovesOne(cfg: Config, s: State, l: Label)
    requires Next(cfg, s, l).Some?
    ensures var t := Next(cfg, s, l).value;
      && |t.procs| == |s.procs|
      && (forall q :: 0 <= q < |s.procs| && !(l.Act? && l.proc == q) ==> t.procs[q] == s.procs[q])
      && (l.Act? && t.procs[l.proc].Putting? ==> t.procs[l.proc].nonce !in s.issued)
      && (l.Act? && (s.procs[l.proc].Calling? || s.procs[l.proc].Redeemed?) ==> t.procs[l.proc].Redeemed?)
  {
  }

  /** What operation p rests on outlives any event that is not a store of its own nonce. */
  lemma OutlivesEvent(s: State, t: State, e: Option<Event>, p: nat)
    requires p < |s.procs| == |t.procs| && t.procs[p] == s.procs[p] && ProcOk(s, p)
    requires t.log == s.log + (if e.Some? then [e.value] else []) && s.issued.Keys <= t.issued.Keys
    requires s.procs[p].Putting? && e.Some? && e.value.Stored? ==> e.value.record.digest != Digest(s.procs[p].nonce)
    requires s.procs[p].Putting? ==>
      forall q :: 0 <= q < |t.procs| && q != p && t.procs[q].Putting? ==> t.procs[q].nonce != s.procs[p].nonce
    ensures ProcOk(t, p)
  {
    assert forall f :: f in s.log ==> f in t.log;
  }

  lemma BystanderOk(cfg: Config, s: State, l: Label, p: nat)
    requires cfg.atomic && VerdictsOk(s)
    requires Next(cfg, s, l).Some? && p < |s.procs| && !(l.Act? && l.proc == p)
    ensures |Next(cfg, s, l).value.procs| == |s.procs| && ProcOk(Next(cfg, s, l).value, p)
  {
    assert ProcOk(s, p);
    if l.Act? {
      assert ProcOk(s, l.proc);
    }
    NextMovesOne(cfg, s, l);
    NextIssues(cfg, s, l);
    Traces(cfg, s, l);
    OutlivesEvent(s, Next(cfg, s, l).value, Added(s, Next(cfg, s, l).value), p);
  }

  /** The one provider call a label can make. */
  lemma NextCalls(cfg: Config, s: State, l: Label)
    requires Next(cfg, s, l).Some?
    ensures var t := Next(cfg, s, l).value;
      || t.calls == s.calls
      || (&& l.Act? && s.procs[l.proc].Calling? && t.procs[l.proc].Redeemed?
          && var Calling(nonce, now, request) := s.procs[l.proc];
             t.calls == s.calls + [Asked(l.proc, nonce, now, request)])
  {
  }

  lemma NextKeepsCalls(cfg: Config, s: State, l: Label)
    requires VerdictsOk(s) && CallsOk(s) && Next(cfg, s, l).Some?
    ensures CallsOk(Next(cfg, s, l).value)
  {
    var t := Next(cfg, s, l).value;
    NextCalls(cfg, s, l);
    NextMovesOne(cfg, s, l);
    Traces(cfg, s, l);
    if l.Act? {
      assert ProcOk(s, l.proc);
    }
    forall c | c in t.calls
      ensures Redemption(c.proc, c.nonce, c.now, Accepted(c.request)) in t.log
      ensures c.proc < |t.procs| && t.procs[c.proc].Redeemed?
    {
      assert c in s.calls || c == t.calls[|s.calls|];
    }
    assert forall i :: 0 <= i < |s.calls| ==> s.calls[i] in s.calls;
  }

  lemma NextKeepsInv(cfg: Config, s: State, l: Label)
    requires cfg.atomic && Inv(s) && Next(cfg, s, l).Some?
    ensures Inv(Next(cfg, s, l).value) && |Next(cfg, s, l).value.procs| == |s.procs|
  {
    NextKeepsEvents(cfg, s, l);
    NextKeepsVerdicts(cfg, s, l);
    NextKeepsCalls(cfg, s, l);
    NextMovesOne(cfg, s, l);
  }

  lemma {:induction false} RunKeepsInv(cfg: Config, s: State, run: seq<Label>)
    requires cfg.atomic && Initial(s) && Exec(cfg, s, run).Some?
    ensures Inv(Exec(cfg, s, run).value) && |Exec(cfg, s, run).value.procs| == |s.procs|
  {
    if run != [] {
      var past := run[..|run| - 1];
      RunKeepsInv(cfg, s, past);
      NextKeepsInv(cfg, Exec(cfg, s, past).value, run[|run| - 1]);
    }
  }

  // ---------------------------------------------------------------- linearizability

  /** The event at position i is exchange p's, and its verdict is the one a sequential run gives. */
  predicate Linearized(log: seq<Event>, i: nat, p: nat, verdict: Verdict) {
    && i < |log| && log[i].Redemption? && log[i].proc == p && log[i].verdict == verdict
    && verdict == Redeem(LifeOf(Play(log[..i]), log[i].nonce), log[i].now).1
  }

  lemma {:induction false} LogOnlyGrows(cfg: Config, s: State, past: seq<Label>, future: seq<Label>)
    requires Exec(cfg, s, past + future).Some?
    ensures Exec(cfg, s, past).Some?
    ensures Exec(cfg, s, past).value.log <= Exec(cfg, s, past + future).value.log
  {
    if future == [] {
      assert past + future == past;
    } else {
      var shorter := past + future[..|future| - 1];
      assert (past + future)[..|past + future| - 1] == shorter;
      LogOnlyGrows(cfg, s, past, future[..|future| - 1]);
      Traces(cfg, Exec(cfg, s, shorter).value, (past + future)[|past + future| - 1]);
    }
  }

  // ---------------------------------------------------------------- one login per nonce

  ghost predicate OneCallPerNonce(s: State) {
    forall i, j :: 0 <= i < j < |s.calls| ==> s.calls[i].nonce != s.calls[j].nonce
  }

  ghost predicate SafeRun(cfg: Config, s: State, run: seq<Label>) {
    Initial(s) && Exec(cfg, s, run).Some? ==> OneCallPerNonce(Exec(cfg, s, run).value)
  }

  /** However mints and exchanges interleave and fail, a nonce leads to at most one provider call:
      exactly when the store consumes atomically. */
  lemma OneCallExactlyWhenAtomic(cfg: Config)
    ensures cfg.atomic <==> forall s, run :: SafeRun(cfg, s, run)
  {
    if cfg.atomic {
      forall s, run ensures SafeRun(cfg, s, run) {
        if Initial(s) && Exec(cfg, s, run).Some? {
          RunKeepsInv(cfg, s, run);
          var t := Exec(cfg, s, run).value;
          forall i, j | 0 <= i < j < |t.calls| ensures t.calls[i].nonce != t.calls[j].nonce {
            var c, d := t.calls[i], t.calls[j];
            var e, f := Redemption(c.proc, c.nonce, c.now, Accepted(c.request)),
                        Redemption(d.proc, d.nonce, d.now, Accepted(d.request));
            assert e in t.log && f in t.log && Wins(e) && Wins(f);
          }
        }
      }
    } else {
      var s, run := ReadThenWriteBothWin(cfg);
      assert !SafeRun(cfg, s, run);
    }
  }

  lemma {:induction false} RecordsWereStored(log: seq<Event>, d: Digest)
    requires d in Play(log)
    ensures exists k :: 0 <= k < |log| && log[k].Stored? && log[k].record.digest == d
  {
    var last := |log| - 1;
    if !(log[last].Stored? && log[last].record.digest == d) {
      RecordsWereStored(log[..last], d);
      var k :| 0 <= k < last && log[..last][k].Stored? && log[..last][k].record.digest == d;
      assert log[k] == log[..last][k];
    }
  }

  /** One more event leaves a spent nonce spent, or evicts it, or stores it again. */
  lemma SpentStays(records: Records, e: Event, nonce: Nonce)
    requires !(e.Stored? && e.record.digest == Digest(nonce))
    ensures LifeOf(records, nonce) == Absent ==> LifeOf(Played(records, e), nonce) == Absent
    ensures LifeOf(records, nonce) == Spent ==>
      LifeOf(Played(records, e), nonce) == if e == Evicted(Digest(nonce)) then Absent else Spent
  {
  }

  /** Of the records the events before j leave: spent, or gone if evicted since i. */
  predicate SpentOrGone(log: seq<Event>, i: nat, j: nat, nonce: Nonce)
    requires i <= j <= |log|
  {
    || LifeOf(Play(log[..j]), nonce) == Spent
    || (LifeOf(Play(log[..j]), nonce) == Absent && Evicted(Digest(nonce)) in log[i..j])
  }

  lemma SpentOneMore(log: seq<Event>, i: nat, j: nat, nonce: Nonce)
    requires i <= j < |log| && SpentOrGone(log, i, j, nonce)
    requires !(log[j].Stored? && log[j].record.digest == Digest(nonce))
    ensures SpentOrGone(log, i, j + 1, nonce)
  {
    assert log[..j + 1] == log[..j] + [log[j]] && log[i..j + 1] == log[i..j] + [log[j]];
    PlayOneMore(log[..j], log[j]);
    SpentStays(Play(log[..j]), log[j], nonce);
  }

  /** From the event at i on, which consumed the nonce's record. */
  lemma {:induction false} SpentFrom(log: seq<Event>, i: nat, j: nat, nonce: Nonce)
    requires i < j <= |log| && LifeOf(Play(log[..i + 1]), nonce) == Spent
    requires forall a, b :: 0 <= a < b < |log| && log[a].Stored? && log[b].Stored? ==>
      log[a].record.digest != log[b].record.digest
    ensures SpentOrGone(log, i, j, nonce)
  {
    if j > i + 1 {
      SpentFrom(log, i, j - 1, nonce);
      NotStoredTwice(log, i, j - 1, nonce);
      SpentOneMore(log, i, j - 1, nonce);
    }
  }

  lemma NotStoredTwice(log: seq<Event>, i: nat, j: nat, nonce: Nonce)
    requires i < j < |log| && LifeOf(Play(log[..i + 1]), nonce) == Spent
    requires forall a, b :: 0 <= a < b < |log| && log[a].Stored? && log[b].Stored? ==>
      log[a].record.digest != log[b].record.digest
    ensures !(log[j].Stored? && log[j].record.digest == Digest(nonce))
  {
    RecordsWereStored(log[..i + 1], Digest(nonce));
    var k :| 0 <= k <= i && log[..i + 1][k].Stored? && log[..i + 1][k].record.digest == Digest(nonce);
    assert log[k] == log[..i + 1][k];
  }

  lemma LaterVerdict(log: seq<Event>, i: nat, j: nat)
    requires SameVerdicts(log)
    requires forall a, b :: 0 <= a < b < |log| && log[a].Stored? && log[b].Stored? ==>
      log[a].record.digest != log[b].record.digest
    requires i < j < |log| && log[i].Redemption? && log[j].Redemption?
    requires log[i].nonce == log[j].nonce && log[i].verdict != Unknown
    ensures log[j].verdict == Verdict.Consumed || (log[j].verdict == Unknown && Evicted(Digest(log[i].nonce)) in log[i..j])
  {
    assert log[..i + 1] == log[..i] + [log[i]];
    PlayOneMore(log[..i], log[i]);
    ConsumeRedeems(Play(log[..i]), log[i].nonce, log[i].now);
    SpentFrom(log, i, j, log[i].nonce);
  }

  /** The exchange of this event either still waits for the provider, or holds the event's verdict
      with this answer; and only an accepted one waits. */
  predicate HeldBy(s: State, e: Event, pc: Pc) {
    && e.Redemption?
    && (pc.Calling? ==> e == Redemption(e.proc, pc.nonce, pc.now, Accepted(pc.request)))
    && (pc.Redeemed? ==> pc.verdict == e.verdict)
    && (pc.Calling? || pc.Redeemed?)
  }

  lemma VerdictIsHeld(s: State, e: Event)
    requires VerdictsOk(s) && e in s.log && e.Redemption?
    ensures e.proc < |s.procs| && HeldBy(s, e, s.procs[e.proc])
  {
    var p := e.proc;
    assert ProcOk(s, p);
    var pc := s.procs[p];
    if pc.Calling? {
      OneEventEach(s, e, Redemption(p, pc.nonce, pc.now, Accepted(pc.request)));
    } else {
      var nonce, now :| Redemption(p, nonce, now, pc.verdict) in s.log;
      OneEventEach(s, e, Redemption(p, nonce, now, pc.verdict));
    }
  }

  lemma OneEventEach(s: State, e: Event, f: Event)
    requires VerdictsOk(s) && e in s.log && f in s.log && e.Redemption? && f.Redemption? && e.proc == f.proc
    ensures e == f
  {
    var i :| 0 <= i < |s.log| && s.log[i] == e;
    var j :| 0 <= j < |s.log| && s.log[j] == f;
    assert i == j;
  }

  /** A refused exchange is answered by its own problem. */
  lemma RefusalIsAnswered(s: State, e: Event)
    requires VerdictsOk(s) && e in s.log && e.Redemption? && !e.verdict.Accepted?
    ensures e.proc < |s.procs| && s.procs[e.proc].Redeemed?
    ensures var answer := s.procs[e.proc].answer;
      && (e.verdict == Verdict.Consumed ==> answer == Err(DeferredTokenConsumed))
      && (e.verdict == Verdict.Expired ==> answer == Err(DeferredTokenExpired))
      && (e.verdict == Verdict.Unknown ==> answer == Err(DeferredTokenUnknown))
  {
    VerdictIsHeld(s, e);
    assert ProcOk(s, e.proc);
  }

  /** Every exchange after the first one that found the nonce is answered consumed, even when that
      one was answered expired or its provider call failed; only an eviction in between can make
      it unknown. */
  lemma LaterExchangesAreRefused(cfg: Config, s: State, run: seq<Label>, i: nat, j: nat)
    requires cfg.atomic && Initial(s) && Exec(cfg, s, run).Some?
    requires var log := Exec(cfg, s, run).value.log;
      && i < j < |log| && log[i].Redemption? && log[j].Redemption?
      && log[i].nonce == log[j].nonce && log[i].verdict != Unknown
    ensures var t := Exec(cfg, s, run).value;
      var e := t.log[j];
      && e.proc < |t.procs| && t.procs[e.proc].Redeemed?
      && (|| (e.verdict == Verdict.Consumed && t.procs[e.proc].answer == Err(DeferredTokenConsumed))
          || (&& e.verdict == Unknown && t.procs[e.proc].answer == Err(DeferredTokenUnknown)
              && Evicted(Digest(t.log[i].nonce)) in t.log[i..j]))
  {
    RunKeepsInv(cfg, s, run);
    var t := Exec(cfg, s, run).value;
    LaterVerdict(t.log, i, j);
    RefusalIsAnswered(t, t.log[j]);
  }

  // ---------------------------------------------------------------- the store that reads, then writes

  /** Extends a run by a label that leads to the given state. */
  lemma Then(cfg: Config, s: State, past: seq<Label>, l: Label, t: State) returns (run: seq<Label>)
    requires Exec(cfg, s, past).Some? && Next(cfg, Exec(cfg, s, past).value, l).Some?
    requires var u := Next(cfg, Exec(cfg, s, past).value, l).value;
      && u.time == t.time && u.store == t.store && u.issued == t.issued && u.procs == t.procs
      && u.log == t.log && u.calls == t.calls
    ensures run == past + [l] && Exec(cfg, s, run) == Some(t)
  {
    run := past + [l];
    assert run[..|past|] == past;
  }

  const WHO := OneTimeRequest("u", None)

  function MintedAt(now: Instant, lifetime: Duration): HandoffRecord {
    HandoffRecord(Digest("n"), "u", None, now, now + lifetime, false)
  }

  /** Two exchanges have read the clock at 0, and then a nonce is stored that expires after it. */
  lemma NonceStored(cfg: Config, at: Instant) returns (s: State, run: seq<Label>)
    requires at >= 0
    ensures Initial(s) && Exec(cfg, s, run) == Some(State(
      at, map[Digest("n") := Entry(MintedAt(at, cfg.lifetime), at + cfg.lifetime)], map["n" := 0],
      [Minted(Handoff("n", at + cfg.lifetime)), Consuming("n", 0), Consuming("n", 0)],
      [Stored(MintedAt(at, cfg.lifetime))], []))
  {
    var mint, ready := Minting(WHO), Consuming("n", 0);
    s := State(0, map[], map[], [mint, Exchanging("n"), Exchanging("n")], [], []);
    run := Then(cfg, s, [], Act(1, ReadClock(true, "")), s.(procs := [mint, ready, Exchanging("n")]));
    run := Then(cfg, s, run, Act(2, ReadClock(true, "")), s.(procs := [mint, ready, ready]));
    run := Then(cfg, s, run, Tick(at), s.(time := at, procs := [mint, ready, ready]));
    var record := MintedAt(at, cfg.lifetime);
    run := Then(cfg, s, run, Act(0, ReadClock(true, "n")),
      State(at, map[], map["n" := 0], [Putting("n", record), ready, ready], [], []));
    run := Then(cfg, s, run, Act(0, WriteStore(true, true)),
      State(at, map[Digest("n") := Entry(record, at + cfg.lifetime)], map["n" := 0],
        [Minted(Handoff("n", at + cfg.lifetime)), ready, ready], [Stored(record)], []));
  }

  /** Both exchanges have read the nonce's record fresh before either marks it. */
  lemma BothReadFresh(cfg: Config, at: Instant) returns (s: State, run: seq<Label>, t: State)
    requires !cfg.atomic && at >= 0
    ensures Initial(s) && Exec(cfg, s, run) == Some(t)
    ensures t.procs == [Minted(Handoff("n", at + cfg.lifetime)), SeenFresh(cfg, at), SeenFresh(cfg, at)]
    ensures t.calls == []
  {
    s, run := NonceStored(cfg, at);
    t := Exec(cfg, s, run).value;
    var minted, seen := t.procs[0], SeenFresh(cfg, at);
    run := Then(cfg, s, run, Act(1, ReadStore(true)), t.(procs := [minted, seen, t.procs[2]]));
    t := t.(procs := [minted, seen, seen]);
    run := Then(cfg, s, run, Act(2, ReadStore(true)), t);
  }

  function SeenFresh(cfg: Config, at: Instant): Pc {
    Marking("n", 0, Some(MintedAt(at, cfg.lifetime)))
  }

  /** So both are accepted. */
  lemma BothAccepted(cfg: Config) returns (s: State, run: seq<Label>, t: State)
    requires !cfg.atomic
    ensures Initial(s) && Exec(cfg, s, run) == Some(t)
    ensures |t.procs| == 3 && t.procs[1] == t.procs[2] == Calling("n", 0, WHO) && t.calls == []
  {
    var at := if cfg.lifetime > 0 then 0 else 1 - cfg.lifetime;
    s, run, t := BothReadFresh(cfg, at);
    var minted, seen, won := t.procs[0], SeenFresh(cfg, at), Calling("n", 0, WHO);
    t := t.(store := MarkedIn(t.store, Digest("n")), procs := [minted, won, seen]);
    run := Then(cfg, s, run, Act(1, WriteStore(true, true)), t);
    t := t.(store := MarkedIn(t.store, Digest("n")), procs := [minted, won, won]);
    run := Then(cfg, s, run, Act(2, WriteStore(true, true)), t);
  }

  /** Over a store that reads and then writes, both exchanges of one nonce win: each reads it
      fresh before the other marks it. */
  lemma ReadThenWriteBothWin(cfg: Config) returns (s: State, run: seq<Label>)
    requires !cfg.atomic
    ensures Initial(s) && Exec(cfg, s, run).Some? && !OneCallPerNonce(Exec(cfg, s, run).value)
  {
    var t;
    s, run, t := BothAccepted(cfg);
    var login := Ok(OneTimeToken("", 0));
    var done := Redeemed(Accepted(WHO), login);
    t := t.(procs := [t.procs[0], done, t.procs[2]], calls := [Asked(1, "n", 0, WHO)]);
    run := Then(cfg, s, run, Act(1, CallProvider(login)), t);
    t := t.(procs := [t.procs[0], done, done], calls := [Asked(1, "n", 0, WHO), Asked(2, "n", 0, WHO)]);
    run := Then(cfg, s, run, Act(2, CallProvider(login)), t);
    assert t.calls[0].nonce == t.calls[1].nonce;
  }

  // ---------------------------------------------------------------- retention

  /** No record may be evicted before it expires. */
  ghost predicate Retains(cfg: Config, s: State) {
    && (forall d :: d in s.store ==> s.store[d].record.expiresAt <= s.store[d].evictAt)
    && (forall p :: 0 <= p < |s.procs| && s.procs[p].Putting? ==> s.procs[p].record.expiresAt <= s.time + cfg.lifetime)
  }

  /** What a label files, and what a mint that has drawn its nonce holds. */
  lemma NextFiles(cfg: Config, s: State, l: Label)
    requires Next(cfg, s, l).Some?
    ensures var t := Next(cfg, s, l).value;
      forall d :: d in t.store ==>
        || (&& d in s.store && t.store[d].evictAt == s.store[d].evictAt
            && t.store[d].record.expiresAt == s.store[d].record.expiresAt)
        || (l.Act? && s.procs[l.proc].Putting? && t.store[d] == Entry(s.procs[l.proc].record, s.time + cfg.lifetime))
  {
  }

  lemma NextReads(cfg: Config, s: State, l: Label)
    requires Next(cfg, s, l).Some?
    ensures var t := Next(cfg, s, l).value;
      s.time <= t.time && (l.Act? && t.procs[l.proc].Putting? ==> t.procs[l.proc].record.expiresAt == s.time + cfg.lifetime)
  {
  }

  lemma NextRetains(cfg: Config, s: State, l: Label)
    requires Retains(cfg, s) && Next(cfg, s, l).Some?
    ensures Retains(cfg, Next(cfg, s, l).value)
  {
    NextFiles(cfg, s, l);
    NextReads(cfg, s, l);
    NextMovesOne(cfg, s, l);
  }

  lemma {:induction false} RunRetains(cfg: Config, s: State, run: seq<Label>)
    requires Initial(s) && Exec(cfg, s, run).Some?
    ensures Retains(cfg, Exec(cfg, s, run).value)
  {
    if run != [] {
      RunRetains(cfg, s, run[..|run| - 1]);
      NextRetains(cfg, Exec(cfg, s, run[..|run| - 1]).value, run[|run| - 1]);
    }
  }

  /** Every eviction a run contains is of a record that has already expired, although its ttl was
      counted from a clock reading older than the write. */
  lemma EvictedRecordsHaveExpired(cfg: Config, s: State, past: seq<Label>, d: Digest)
    requires Initial(s) && Exec(cfg, s, past + [Drop(d)]).Some?
    ensures Exec(cfg, s, past).Some?
    ensures var before := Exec(cfg, s, past).value;
      d in before.store && before.store[d].record.expiresAt <= before.time
  {
    assert (past + [Drop(d)])[..|past|] == past;
    RunRetains(cfg, s, past);
  }
}
